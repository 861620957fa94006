/** Bounded command output: a head in the event, the whole in a content-addressed store. */
module Overflow {
  import opened Events
  import opened Utf8

  type Hash = Bytes -> string

  type Files = map<string, Bytes>

  /** Distinct contents have distinct names. What is proved under it says so. */
  ghost predicate Injective(sha: Hash) {
    forall a, b :: sha(a) == sha(b) ==> a == b
  }

  /** Every file is stored under its own hash. */
  ghost predicate Addressed(files: Files, sha: Hash) {
    forall h :: h in files ==> sha(files[h]) == h
  }

  predicate Overflows(text: string, maxBytes: nat) {
    |Encode(text)| > maxBytes
  }

  /** The store after capping `text`: an existing file is never rewritten. */
  function Spill(files: Files, text: string, maxBytes: nat, sha: Hash): Files {
    var encoded := Encode(text);
    if Overflows(text, maxBytes) && sha(encoded) !in files then files[sha(encoded) := encoded] else files
  }

  /** Where the walk back ends, the bytes before decode to the characters that fit. */
  lemma CutAtBoundary(text: string, maxBytes: nat, cut: nat)
    requires Overflows(text, maxBytes) && cut <= maxBytes && Fitting(text, cut) == Fitting(text, maxBytes)
    requires cut == 0 || !IsContinuation(Encode(text)[cut])
    ensures Decode(Encode(text)[..cut]) == Some(text[..Fitting(text, maxBytes)])
  {
    var k := Fitting(text, maxBytes);
    BoundaryBytes(text, cut);
    assert text == text[..k] + text[k..];
    EncodeAppend(text[..k], text[k..]);
    assert Encode(text)[..cut] == Encode(text[..k]);
    DecodeEncode(text[..k]);
  }

  /** The head that capping keeps is the longest prefix within the limit. */
  ghost predicate LongestHead(text: string, maxBytes: nat, head: string) {
    && head <= text && |Encode(head)| <= maxBytes <= |Encode(head)| + 3
    && forall longer :: head <= longer <= text && longer != head ==> |Encode(longer)| > maxBytes
  }

  lemma HeadIsLongest(text: string, maxBytes: nat)
    requires Overflows(text, maxBytes)
    ensures LongestHead(text, maxBytes, text[..Fitting(text, maxBytes)])
  {
    FittingIsLongest(text, maxBytes);
    forall longer | text[..Fitting(text, maxBytes)] <= longer <= text
      ensures longer == text[..|longer|]
    {
    }
  }

  /** The overflow directory. */
  class Store {
    var files: Files

    constructor ()
      ensures files == map[]
    {
      files := map[];
    }

    /**
     * A text over the limit loses its tail: what is left is its longest prefix
     * of whole characters within the limit, at most three bytes short of it,
     * and it decodes without replacement.
     */
    method CapStream(text: string, maxBytes: nat, sha: Hash) returns (head: string, spilled: Option<(string, nat)>)
      modifies this
      ensures files == Spill(old(files), text, maxBytes, sha)
      ensures !Overflows(text, maxBytes) ==> head == text && spilled == None
      ensures Overflows(text, maxBytes) ==>
        && head == text[..Fitting(text, maxBytes)] && LongestHead(text, maxBytes, head)
        && spilled == Some((sha(Encode(text)), |Encode(text)|))
    {
      var encoded := Encode(text);
      if |encoded| <= maxBytes {
        return text, None;
      }
      var digest := sha(encoded);
      if digest !in files {
        files := files[digest := encoded];
      }
      var cut := maxBytes;
      while cut > 0 && IsContinuation(encoded[cut])
        invariant 0 <= cut <= maxBytes && Fitting(text, cut) == Fitting(text, maxBytes)
        invariant files == Spill(old(files), text, maxBytes, sha)
        decreases cut
      {
        FittingStepsBack(text, cut);
        cut := cut - 1;
      }
      CutAtBoundary(text, maxBytes, cut);
      HeadIsLongest(text, maxBytes);
      head := Decode(encoded[..cut]).value;
      return head, Some((digest, |encoded|));
    }

    method CapCommandData(data: Data, maxBytes: nat, sha: Hash) returns (out: Data)
      modifies this
      ensures out == Capped(data, maxBytes, sha)
      ensures files == SpillAll(old(files), data, maxBytes, sha)
    {
      out := data;
      var fields := ["stdout", "stderr"];
      for i := 0 to 2
        invariant i == 0 ==> out == data && files == old(files)
        invariant i == 1 ==> out == CapField(data, "stdout", maxBytes, sha)
        invariant i == 1 ==> files == SpillField(old(files), data, "stdout", maxBytes, sha)
        invariant i == 2 ==> out == Capped(data, maxBytes, sha) && files == SpillAll(old(files), data, maxBytes, sha)
      {
        CappingOneLeavesOther(data, maxBytes, sha);
        var field := fields[i];
        if field in out && out[field].Text? {
          var head, spilled := CapStream(out[field].s, maxBytes, sha);
          ghost var before := out;
          out := out[field := Text(head)];
          match spilled {
            case None => assert out == before;
            case Some((digest, size)) =>
              out := out[field + "_truncated" := Flag(true)]
                        [field + "_overflow_sha256" := Text(digest)]
                        [field + "_original_bytes" := Num(size)];
          }
        }
      }
    }
  }

  // --- What capping makes of a command's data

  predicate HasOverflow(data: Data, field: string, maxBytes: nat) {
    field in data && data[field].Text? && Overflows(data[field].s, maxBytes)
  }

  function CapField(data: Data, field: string, maxBytes: nat, sha: Hash): Data {
    if HasOverflow(data, field, maxBytes) then
      var text := data[field].s;
      data[field := Text(text[..Fitting(text, maxBytes)])]
          [field + "_truncated" := Flag(true)]
          [field + "_overflow_sha256" := Text(sha(Encode(text)))]
          [field + "_original_bytes" := Num(|Encode(text)|)]
    else data
  }

  function SpillField(files: Files, data: Data, field: string, maxBytes: nat, sha: Hash): Files {
    if field in data && data[field].Text? then Spill(files, data[field].s, maxBytes, sha) else files
  }

  function Capped(data: Data, maxBytes: nat, sha: Hash): Data {
    CapField(CapField(data, "stdout", maxBytes, sha), "stderr", maxBytes, sha)
  }

  function SpillAll(files: Files, data: Data, maxBytes: nat, sha: Hash): Files {
    SpillField(SpillField(files, data, "stdout", maxBytes, sha), data, "stderr", maxBytes, sha)
  }

  lemma CappingOneLeavesOther(data: Data, maxBytes: nat, sha: Hash)
    ensures "stderr" in CapField(data, "stdout", maxBytes, sha) <==> "stderr" in data
    ensures "stderr" in data ==> CapField(data, "stdout", maxBytes, sha)["stderr"] == data["stderr"]
  {
    assert |"stdout" + "_truncated"| == 16 && |"stdout" + "_overflow_sha256"| == 22 &&
        |"stdout" + "_original_bytes"| == 21;
    assert "stdout"[3] != "stderr"[3];
  }

  /** Capping what is already capped changes nothing and stores nothing. */
  lemma RecapIsIdentity(data: Data, maxBytes: nat, sha: Hash, files: Files)
    ensures Capped(Capped(data, maxBytes, sha), maxBytes, sha) == Capped(data, maxBytes, sha)
    ensures SpillAll(files, Capped(data, maxBytes, sha), maxBytes, sha) == files
  {
    FieldsAfterCapping(data, maxBytes, sha);
    var capped := Capped(data, maxBytes, sha);
    forall field | field in ["stdout", "stderr"]
      ensures !HasOverflow(capped, field, maxBytes)
    {
      if HasOverflow(data, field, maxBytes) {
        HeadIsLongest(data[field].s, maxBytes);
      }
    }
    assert "stdout" in ["stdout", "stderr"] && "stderr" in ["stdout", "stderr"];
  }

  /** The keys that capping may add. */
  predicate IsMark(key: string) {
    || key in ["stdout" + "_truncated", "stdout" + "_overflow_sha256", "stdout" + "_original_bytes"]
    || key in ["stderr" + "_truncated", "stderr" + "_overflow_sha256", "stderr" + "_original_bytes"]
  }

  lemma ShortKeysAreNoMarks(key: string)
    requires |key| < 16
    ensures !IsMark(key)
  {
    FieldMarks("stdout");
    FieldMarks("stderr");
  }

  lemma FieldMarks(field: string)
    requires |field| == 6
    ensures |field + "_truncated"| == 16 && |field + "_overflow_sha256"| == 22 && |field + "_original_bytes"| == 21
    ensures (field + "_truncated")[3] == (field + "_overflow_sha256")[3] == (field + "_original_bytes")[3] == field[3]
  {
  }

  /** Capping one field touches that field and its three marks. */
  lemma CapFieldTouches(data: Data, field: string, maxBytes: nat, sha: Hash, key: string)
    requires |field| == 6
    ensures key !in [field, field + "_truncated", field + "_overflow_sha256", field + "_original_bytes"] ==>
              var d := CapField(data, field, maxBytes, sha);
              (key in d <==> key in data) && (key in data ==> d[key] == data[key])
  {
  }

  /** What each stream field holds once the whole record is capped, and that all others are as they were. */
  lemma FieldsAfterCapping(data: Data, maxBytes: nat, sha: Hash)
    ensures forall field | field in ["stdout", "stderr"] ::
      var capped := Capped(data, maxBytes, sha);
      && (field in capped <==> field in data)
      && (HasOverflow(data, field, maxBytes) ==>
            && capped[field] == Text(data[field].s[..Fitting(data[field].s, maxBytes)])
            && field + "_truncated" in capped && capped[field + "_truncated"] == Flag(true)
            && TextField(capped, field + "_overflow_sha256") == sha(Encode(data[field].s))
            && field + "_original_bytes" in capped
            && capped[field + "_original_bytes"] == Num(|Encode(data[field].s)|))
      && (field in data && !HasOverflow(data, field, maxBytes) ==> capped[field] == data[field])
  {
    CappingOneLeavesOther(data, maxBytes, sha);
    FieldMarks("stdout");
    FieldMarks("stderr");
    var once := CapField(data, "stdout", maxBytes, sha);
    assert "stdout"[3] != "stderr"[3];
  }

  lemma OthersAfterCapping(data: Data, maxBytes: nat, sha: Hash, key: string)
    requires key != "stdout" && key != "stderr"
    ensures var capped := Capped(data, maxBytes, sha);
      && (!IsMark(key) ==> (key in capped <==> key in data))
      && (!IsMark(key) && key in data ==> capped[key] == data[key])
  {
    CapFieldTouches(data, "stdout", maxBytes, sha, key);
    CapFieldTouches(CapField(data, "stdout", maxBytes, sha), "stderr", maxBytes, sha, key);
  }

  /** A text that fits leaves no mark. */
  lemma NoMarkWithoutOverflow(data: Data, field: string, maxBytes: nat, sha: Hash)
    requires field in ["stdout", "stderr"] && !HasOverflow(data, field, maxBytes)
    ensures field + "_truncated" in Capped(data, maxBytes, sha) <==> field + "_truncated" in data
  {
    FieldMarks("stdout");
    FieldMarks("stderr");
    var key := field + "_truncated";
    var once := CapField(data, "stdout", maxBytes, sha);
    assert "stdout"[3] != "stderr"[3];
    if field == "stdout" {
      CapFieldTouches(once, "stderr", maxBytes, sha, key);
    } else {
      CappingOneLeavesOther(data, maxBytes, sha);
      CapFieldTouches(data, "stdout", maxBytes, sha, key);
    }
  }

  /** One stream of a record: the text, or as much of its head as fits, with the marks that say so. */
  ghost predicate StreamOf(d: Data, field: string, text: string, maxBytes: nat, sha: Hash) {
    && field in d && d[field].Text?
    && (|Encode(text)| <= maxBytes ==> d[field].s == text && field + "_truncated" !in d)
    && (|Encode(text)| > maxBytes ==>
          && LongestHead(text, maxBytes, d[field].s)
          && field + "_truncated" in d && d[field + "_truncated"] == Flag(true)
          && TextField(d, field + "_overflow_sha256") == sha(Encode(text))
          && field + "_original_bytes" in d && d[field + "_original_bytes"] == Num(|Encode(text)|))
  }

  /** Each stream of a fresh record is capped in its own field. */
  lemma CappedStream(data: Data, field: string, maxBytes: nat, sha: Hash)
    requires field in ["stdout", "stderr"] && field in data && data[field].Text? && field + "_truncated" !in data
    ensures StreamOf(Capped(data, maxBytes, sha), field, data[field].s, maxBytes, sha)
  {
    hide Capped, Encode, Fitting, LongestHead;
    FieldsAfterCapping(data, maxBytes, sha);
    if HasOverflow(data, field, maxBytes) {
      HeadIsLongest(data[field].s, maxBytes);
    } else {
      NoMarkWithoutOverflow(data, field, maxBytes, sha);
    }
  }

  // --- Nothing is lost

  /** The record `capped` keeps each stream of `data`, whole or as a head with its tail in the store. */
  ghost predicate Recoverable(files: Files, data: Data, capped: Data, maxBytes: nat) {
    forall field | field in ["stdout", "stderr"] && field in data && data[field].Text? ::
      field in capped && capped[field].Text? &&
      if Overflows(data[field].s, maxBytes) then
        var digest := TextField(capped, field + "_overflow_sha256");
        && LongestHead(data[field].s, maxBytes, capped[field].s)
        && digest in files && Decode(files[digest]) == Some(data[field].s)
        && field + "_original_bytes" in capped && capped[field + "_original_bytes"] == Num(|files[digest]|)
      else capped[field] == data[field]
  }

  /** A spill never touches what is stored, and keeps every file under its own hash. */
  lemma SpillKeeps(files: Files, data: Data, maxBytes: nat, sha: Hash)
    requires Addressed(files, sha)
    ensures var after := SpillAll(files, data, maxBytes, sha);
            && Addressed(after, sha)
            && (forall h :: h in files ==> h in after && after[h] == files[h])
            && (forall field | field in ["stdout", "stderr"] && HasOverflow(data, field, maxBytes) ::
                  sha(Encode(data[field].s)) in after)
  {
  }

  /**
   * The full text is found again under its recorded hash exactly when nothing
   * else was there before: an existing file, partial or colliding, is kept.
   */
  lemma SpilledIffNotOccupied(files: Files, text: string, maxBytes: nat, sha: Hash)
    requires Overflows(text, maxBytes)
    ensures var digest := sha(Encode(text));
            var after := Spill(files, text, maxBytes, sha);
            && digest in after
            && (Decode(after[digest]) == Some(text) <==> (digest in files ==> files[digest] == Encode(text)))
  {
    DecodeEncode(text);
    var digest := sha(Encode(text));
    if digest in files && Decode(files[digest]) == Some(text) {
      EncodeDecode(files[digest]);
    }
  }

  /** A file that was cut short once stays so: the text is capped, and found nowhere. */
  lemma PartialFileStays(text: string, maxBytes: nat, sha: Hash, n: nat)
    requires Overflows(text, maxBytes) && n < |Encode(text)|
    ensures var digest := sha(Encode(text));
            var files := map[digest := Encode(text)[..n]];
            Spill(files, text, maxBytes, sha) == files && Decode(files[digest]) != Some(text)
  {
    SpilledIffNotOccupied(map[sha(Encode(text)) := Encode(text)[..n]], text, maxBytes, sha);
  }

  lemma StoredText(files: Files, text: string, sha: Hash)
    requires Injective(sha) && Addressed(files, sha) && sha(Encode(text)) in files
    ensures files[sha(Encode(text))] == Encode(text) && Decode(files[sha(Encode(text))]) == Some(text)
  {
    DecodeEncode(text);
  }

  lemma CappedIsRecoverable(files: Files, data: Data, maxBytes: nat, sha: Hash)
    requires Injective(sha) && Addressed(files, sha)
    requires forall field | field in ["stdout", "stderr"] && HasOverflow(data, field, maxBytes) ::
               sha(Encode(data[field].s)) in files
    ensures Recoverable(files, data, Capped(data, maxBytes, sha), maxBytes)
  {
    hide Encode, Decode, Fitting, Capped, LongestHead, Injective, Addressed;
    FieldsAfterCapping(data, maxBytes, sha);
    forall field | field in ["stdout", "stderr"] && HasOverflow(data, field, maxBytes)
      ensures LongestHead(data[field].s, maxBytes, data[field].s[..Fitting(data[field].s, maxBytes)])
      ensures var digest := sha(Encode(data[field].s));
              digest in files && files[digest] == Encode(data[field].s) && Decode(files[digest]) == Some(data[field].s)
    {
      HeadIsLongest(data[field].s, maxBytes);
      StoredText(files, data[field].s, sha);
    }
  }
}

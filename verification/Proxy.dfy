/** The egress proxy: which hosts it allows, what it reads of a request, and what it answers. */
module Proxy {
  import opened Events
  import opened Numerals
  import opened Utf8

  // ----- The allowlist -----

  predicate EndsWith(s: string, tail: string) {
    |tail| <= |s| && s[|s| - |tail|..] == tail
  }

  predicate Matches(host: string, allow: set<string>) {
    host in allow || exists a :: a in allow && EndsWith(host, "." + a)
  }

  /** The labels of `c` followed by a name whose labels are `rest`. */
  function Grow(c: char, rest: seq<string>): (r: seq<string>)
    requires rest != []
    ensures r != []
  {
    if c == '.' then [""] + rest else [[c] + rest[0]] + rest[1..]
  }

  lemma GrowFront(c: char, front: seq<string>, back: seq<string>)
    requires front != []
    ensures Grow(c, front + back) == Grow(c, front) + back
  {
    assert (front + back)[1..] == front[1..] + back;
  }

  /** The dot-separated labels of a name; a name with no dot is one label. */
  function Labels(s: string): (r: seq<string>)
    ensures r != []
  {
    if s == "" then [""] else Grow(s[0], Labels(s[1..]))
  }

  function Dotted(labels: seq<string>): string
    requires labels != []
  {
    if |labels| == 1 then labels[0] else labels[0] + "." + Dotted(labels[1..])
  }

  lemma DottedGrow(c: char, rest: seq<string>)
    requires rest != []
    ensures Dotted(Grow(c, rest)) == [c] + Dotted(rest)
  {
    if c == '.' {
      assert ([""] + rest)[1..] == rest;
    } else if |rest| > 1 {
      var grown := [[c] + rest[0]] + rest[1..];
      assert grown[1..] == rest[1..];
      assert [c] + (rest[0] + "." + Dotted(rest[1..])) == ([c] + rest[0]) + "." + Dotted(rest[1..]);
    }
  }

  lemma {:induction false} DottedLabels(s: string)
    ensures Dotted(Labels(s)) == s
  {
    if s != "" {
      DottedLabels(s[1..]);
      DottedGrow(s[0], Labels(s[1..]));
      hide Dotted, Grow;
      assert s == [s[0]] + s[1..];
    }
  }

  lemma {:induction false} LabelsOfJoin(x: string, y: string)
    ensures Labels(x + "." + y) == Labels(x) + Labels(y)
  {
    var whole := x + "." + y;
    if x == "" {
      assert whole[1..] == y;
    } else {
      LabelsOfJoin(x[1..], y);
      GrowFront(x[0], Labels(x[1..]), Labels(y));
      assert whole[1..] == x[1..] + "." + y;
    }
  }

  lemma {:induction false} DottedOfAppend(xs: seq<string>, ys: seq<string>)
    requires xs != [] && ys != []
    ensures Dotted(xs + ys) == Dotted(xs) + "." + Dotted(ys)
  {
    assert (xs + ys)[1..] == xs[1..] + ys;
    if |xs| > 1 {
      DottedOfAppend(xs[1..], ys);
      assert xs[0] + "." + (Dotted(xs[1..]) + "." + Dotted(ys)) == (xs[0] + "." + Dotted(xs[1..])) + "." + Dotted(ys);
    } else {
      assert xs[1..] + ys == ys;
    }
  }

  /** The labels of `a` are the last labels of `host`. */
  predicate Under(host: string, a: string) {
    var h, l := Labels(host), Labels(a);
    |l| <= |h| && h[|h| - |l|..] == l
  }

  lemma MatchesOne(host: string, a: string)
    ensures host == a || EndsWith(host, "." + a) <==> Under(host, a)
  {
    var h, l := Labels(host), Labels(a);
    if EndsWith(host, "." + a) {
      var x := host[..|host| - |a| - 1];
      assert host == x + "." + a;
      LabelsOfJoin(x, a);
    }
    if Under(host, a) {
      DottedLabels(host);
      DottedLabels(a);
      var x := h[..|h| - |l|];
      assert h == x + l;
      if x != [] {
        DottedOfAppend(x, l);
        var head := Dotted(x);
        assert host == head + "." + a;
        assert host[|host| - |"." + a|..] == "." + a;
      }
    }
  }

  /** The list is about labels, not text: a host matches when it lies under an allowed name. */
  lemma MatchesIsUnder(host: string, allow: set<string>)
    ensures Matches(host, allow) <==> exists a :: a in allow && Under(host, a)
  {
    forall a ensures host == a || EndsWith(host, "." + a) <==> Under(host, a) { MatchesOne(host, a); }
  }

  lemma SubdomainsMatch(x: string, host: string, allow: set<string>, more: set<string>)
    requires Matches(host, allow) && allow <= more
    ensures Matches(x + "." + host, more)
  {
    hide Under, Matches;
    MatchesIsUnder(host, allow);
    var a :| a in allow && Under(host, a);
    UnderSubdomain(x, host, a);
    MatchesIsUnder(x + "." + host, more);
  }

  lemma UnderSubdomain(x: string, host: string, a: string)
    requires Under(host, a)
    ensures Under(x + "." + host, a)
  {
    LabelsOfJoin(x, host);
    var h, all, l := Labels(host), Labels(x + "." + host), Labels(a);
    hide Labels;
    assert all[|all| - |l|..] == h[|h| - |l|..];
  }

  /** Text glued in front of an allowed name does not match it, unless it ends in a dot. */
  lemma LookalikesDoNot(x: string, a: string)
    requires x != ""
    ensures Matches(x + a, {a}) <==> x[|x| - 1] == '.'
  {
    var host := x + a;
    assert host[|host| - |"." + a|..] == [x[|x| - 1]] + a;
    assert EndsWith(host, "." + a) <==> [x[|x| - 1]] + a == "." + a;
    assert ([x[|x| - 1]] + a)[0] == x[|x| - 1] && ("." + a)[0] == '.';
    assert |host| != |a|;
  }

  // ----- The first line -----

  predicate AtCrlf(buf: Bytes, i: int) {
    0 <= i && i + 1 < |buf| && buf[i] == 13 && buf[i + 1] == 10
  }

  /** Where the first CR LF starts, looking from `from` on. */
  function FindCrlf(buf: Bytes, from: nat): (r: Option<nat>)
    requires from <= |buf|
    ensures r.Some? ==> from <= r.value && AtCrlf(buf, r.value) && forall j :: from <= j < r.value ==> !AtCrlf(buf, j)
    ensures r.None? ==> forall j :: from <= j ==> !AtCrlf(buf, j)
    decreases |buf| - from
  {
    if from == |buf| then None
    else if AtCrlf(buf, from) then Some(from)
    else FindCrlf(buf, from + 1)
  }

  function FirstCrlf(buf: Bytes): (r: Option<nat>)
    ensures r.Some? ==> AtCrlf(buf, r.value) && forall j :: 0 <= j < r.value ==> !AtCrlf(buf, j)
    ensures r.None? ==> forall j :: 0 <= j ==> !AtCrlf(buf, j)
  {
    FindCrlf(buf, 0)
  }

  const CHUNK := 4096
  const LIMIT := 16384

  /** What successive reads of the socket return, until it is closed or fails. */
  predicate Chunked(chunks: seq<Bytes>) {
    forall i :: 0 <= i < |chunks| ==> 0 < |chunks[i]| <= CHUNK
  }

  function Concat<T>(chunks: seq<seq<T>>): seq<T> {
    if chunks == [] then [] else chunks[0] + Concat(chunks[1..])
  }

  /** The request line found by reading on from `buf`; None when the handler gives up. */
  function Head(buf: Bytes, chunks: seq<Bytes>): Option<Bytes>
    decreases |chunks|
  {
    match FirstCrlf(buf)
    case Some(p) => Some(buf[..p])
    case None =>
      if chunks == [] || |buf + chunks[0]| > LIMIT then None
      else Head(buf + chunks[0], chunks[1..])
  }

  /** A prefix of the stream shows its first CR LF once both bytes of it have arrived. */
  lemma PrefixShows(buf: Bytes, rest: Bytes)
    ensures FirstCrlf(buf) ==
            match FirstCrlf(buf + rest)
            case None => None
            case Some(p) => if p + 2 <= |buf| then Some(p) else None
  {
    var stream := buf + rest;
    forall j | 0 <= j && j + 1 < |buf| ensures AtCrlf(buf, j) <==> AtCrlf(stream, j) {}
    match FirstCrlf(buf)
    case Some(p) => assert AtCrlf(stream, p);
    case None =>
  }

  predicate Early(stream: Bytes, p: nat) {
    p + 1 + CHUNK <= LIMIT || |stream| <= LIMIT
  }

  lemma {:induction false} HeadInTime(buf: Bytes, chunks: seq<Bytes>, p: nat)
    requires Chunked(chunks) && FirstCrlf(buf + Concat(chunks)) == Some(p)
    requires Early(buf + Concat(chunks), p)
    ensures Head(buf, chunks) == Some((buf + Concat(chunks))[..p])
    decreases |chunks|
  {
    var stream := buf + Concat(chunks);
    PrefixShows(buf, Concat(chunks));
    if FirstCrlf(buf).Some? {
      assert buf[..p] == stream[..p];
    } else {
      assert buf + [] == buf;
      if chunks != [] {
        assert stream == (buf + chunks[0]) + Concat(chunks[1..]);
        HeadInTime(buf + chunks[0], chunks[1..], p);
      }
    }
  }

  lemma {:induction false} HeadTooLate(buf: Bytes, chunks: seq<Bytes>)
    requires |buf| <= LIMIT
    requires var p := FirstCrlf(buf + Concat(chunks)); p == None || p.value + 2 > LIMIT
    ensures Head(buf, chunks) == None
    decreases |chunks|
  {
    PrefixShows(buf, Concat(chunks));
    if chunks != [] && |buf + chunks[0]| <= LIMIT {
      assert buf + Concat(chunks) == (buf + chunks[0]) + Concat(chunks[1..]);
      HeadTooLate(buf + chunks[0], chunks[1..]);
    }
  }

  // ----- Chunking matters in between -----

  function Singles<T>(s: seq<T>): (r: seq<seq<T>>)
    ensures forall i :: 0 <= i < |r| ==> |r[i]| == 1
  {
    if s == [] then [] else [[s[0]]] + Singles(s[1..])
  }

  lemma SinglesStep<T>(s: seq<T>, rest: seq<seq<T>>)
    requires s != []
    ensures var chunks := Singles(s) + rest;
            chunks != [] && chunks[0] == [s[0]] && chunks[1..] == Singles(s[1..]) + rest
  {
    var tail := Singles(s[1..]);
    assert Singles(s) == [[s[0]]] + tail;
    hide Singles;
    assert ([[s[0]]] + tail) + rest == [[s[0]]] + (tail + rest);
  }

  lemma ConcatStep<T>(first: T, chunks: seq<seq<T>>)
    requires chunks != [] && chunks[0] == [first]
    ensures Concat(chunks) == [first] + Concat(chunks[1..])
  {
  }

  lemma {:induction false} ConcatSingles<T>(s: seq<T>, rest: seq<seq<T>>)
    ensures Concat(Singles(s) + rest) == s + Concat(rest)
  {
    if s == [] {
      assert Singles(s) + rest == rest;
    } else {
      hide Singles, Concat;
      SinglesStep(s, rest);
      ConcatStep(s[0], Singles(s) + rest);
      ConcatSingles(s[1..], rest);
      assert [s[0]] + (s[1..] + Concat(rest)) == s + Concat(rest);
    }
  }

  /** Read one byte at a time, a line is found as soon as it is complete. */
  lemma {:induction false} ReadSingles(buf: Bytes, s: Bytes, rest: seq<Bytes>)
    requires FirstCrlf(buf + s) == None && |buf + s| <= LIMIT
    ensures Head(buf, Singles(s) + rest) == Head(buf + s, rest)
    decreases |s|
  {
    if s == [] {
      assert Singles(s) + rest == rest && buf + s == buf;
    } else {
      PrefixShows(buf, s);
      SinglesStep(s, rest);
      hide Singles, FirstCrlf;
      assert buf + s == (buf + [s[0]]) + s[1..];
      ReadSingles(buf + [s[0]], s[1..], rest);
    }
  }

  predicate IsChunking(chunks: seq<Bytes>, stream: Bytes) {
    Chunked(chunks) && Concat(chunks) == stream
  }

  /** The stream in single bytes but for one chunk after its first `n` bytes. */
  function OneBig<T>(stream: seq<T>, n: nat, size: nat): (r: seq<seq<T>>)
    requires n + size <= |stream| && 0 < size <= CHUNK
    ensures forall i :: 0 <= i < |r| ==> 0 < |r[i]| <= CHUNK
  {
    Singles(stream[..n]) + [stream[n..n + size]] + Singles(stream[n + size..])
  }

  lemma ConcatAllSingles<T>(s: seq<T>)
    ensures Concat(Singles(s)) == s
  {
    var none: seq<seq<T>> := [];
    ConcatSingles(s, none);
    assert Concat(none) == [];
    hide Concat, Singles;
    assert Singles(s) + none == Singles(s) && s + [] == s;
  }

  lemma ConcatCons<T>(first: seq<T>, rest: seq<seq<T>>)
    ensures Concat([first] + rest) == first + Concat(rest)
  {
    assert ([first] + rest)[1..] == rest;
  }

  lemma ConcatOneBig<T>(stream: seq<T>, n: nat, size: nat)
    requires n + size <= |stream| && 0 < size <= CHUNK
    ensures Concat(OneBig(stream, n, size)) == stream
  {
    hide Concat, Singles;
    var first, big, last := stream[..n], stream[n..n + size], stream[n + size..];
    ConcatSingles(first, [big] + Singles(last));
    ConcatCons(big, Singles(last));
    ConcatAllSingles(last);
    assert (Singles(first) + [big]) + Singles(last) == Singles(first) + ([big] + Singles(last));
    assert stream == first + (big + last);
  }

  lemma OneBigIsChunking(stream: Bytes, n: nat, size: nat)
    requires n + size <= |stream| && 0 < size <= CHUNK
    ensures IsChunking(OneBig(stream, n, size), stream)
  {
    hide OneBig, Concat;
    ConcatOneBig(stream, n, size);
  }

  lemma ReadOneBig(stream: Bytes, n: nat, size: nat)
    requires n + size <= |stream| && 0 < size <= CHUNK
    requires FirstCrlf(stream[..n]) == None && n <= LIMIT
    ensures Head([], OneBig(stream, n, size)) ==
            if n + size > LIMIT then None else Head(stream[..n + size], Singles(stream[n + size..]))
  {
    var big, last := stream[n..n + size], stream[n + size..];
    var rest := [big] + Singles(last);
    assert OneBig(stream, n, size) == Singles(stream[..n]) + rest;
    assert [] + stream[..n] == stream[..n];
    ReadSingles([], stream[..n], rest);
    assert stream[..n] + big == stream[..n + size];
    assert rest[1..] == Singles(last);
  }

  lemma SeenInTime(stream: Bytes, p: nat)
    requires FirstCrlf(stream) == Some(p) && p + 2 <= LIMIT
    ensures Head([], OneBig(stream, p + 1, 1)) == Some(stream[..p])
  {
    assert stream == stream[..p + 1] + stream[p + 1..] == stream[..p + 2] + stream[p + 2..];
    PrefixShows(stream[..p + 1], stream[p + 1..]);
    PrefixShows(stream[..p + 2], stream[p + 2..]);
    ReadOneBig(stream, p + 1, 1);
    hide FirstCrlf, OneBig, Singles;
    assert stream[..p + 2][..p] == stream[..p];
  }

  lemma SweptAway(stream: Bytes, p: nat, size: nat)
    requires FirstCrlf(stream) == Some(p) && p + 1 <= LIMIT
    requires p + 1 + size <= |stream| && 0 < size <= CHUNK && p + 1 + size > LIMIT
    ensures Head([], OneBig(stream, p + 1, size)) == None
  {
    assert stream == stream[..p + 1] + stream[p + 1..];
    PrefixShows(stream[..p + 1], stream[p + 1..]);
    ReadOneBig(stream, p + 1, size);
  }

  /** A CR LF in this window is seen or missed depending on how the bytes arrive. */
  lemma ChunkingMatters(stream: Bytes, p: nat)
    requires FirstCrlf(stream) == Some(p) && !Early(stream, p) && p + 2 <= LIMIT
    ensures exists c, d :: IsChunking(c, stream) && IsChunking(d, stream) && Head([], c) != Head([], d)
  {
    hide Head, OneBig, FirstCrlf, IsChunking;
    var size := if |stream| - (p + 1) < CHUNK then |stream| - (p + 1) else CHUNK;
    SeenInTime(stream, p);
    SweptAway(stream, p, size);
    OneBigIsChunking(stream, p + 1, 1);
    OneBigIsChunking(stream, p + 1, size);
    assert Head([], OneBig(stream, p + 1, 1)) != Head([], OneBig(stream, p + 1, size));
  }

  /** What a reader of the whole stream would find, whatever the chunks. */
  function LineOf(stream: Bytes): Option<Bytes> {
    match FirstCrlf(stream)
    case None => None
    case Some(p) => if p + 2 <= LIMIT then Some(stream[..p]) else None
  }

  /** The stream begins with `line` and a CR LF, and no shorter text before a CR LF begins it. */
  ghost predicate FirstLine(stream: Bytes, line: Bytes) {
    && (exists rest :: stream == line + [13, 10] + rest)
    && forall other, rest :: stream == other + [13, 10] + rest ==> |line| <= |other|
  }

  lemma CrlfSplits(stream: Bytes, p: nat)
    ensures AtCrlf(stream, p) ==> stream == stream[..p] + [13, 10] + stream[p + 2..]
    ensures forall line, rest :: stream == line + [13, 10] + rest && |line| == p ==> AtCrlf(stream, p)
  {
  }

  /** The line looked for is the first one, if it and its end lie within the first 16384 bytes. */
  lemma LineIsFirst(stream: Bytes, line: Bytes)
    ensures LineOf(stream) == Some(line) <==> FirstLine(stream, line) && |line| + 2 <= 16384
  {
    if LineOf(stream) == Some(line) {
      var p := |line|;
      CrlfSplits(stream, p);
      forall other, rest | stream == other + [13, 10] + rest ensures p <= |other| {
        CrlfSplits(stream, |other|);
      }
    }
    if FirstLine(stream, line) {
      var rest :| stream == line + [13, 10] + rest;
      CrlfSplits(stream, |line|);
      var p := FirstCrlf(stream).value;
      CrlfSplits(stream, p);
      assert stream == stream[..p] + [13, 10] + stream[p + 2..];
      assert |line| <= |stream[..p]| && p <= |line|;
      assert stream[..p] == line;
    }
  }

  predicate Settled(stream: Bytes) {
    match FirstCrlf(stream)
    case None => true
    case Some(p) => p <= 12287 || p >= 16383 || |stream| <= LIMIT
  }

  lemma HeadOfSettled(chunks: seq<Bytes>)
    requires Chunked(chunks) && Settled(Concat(chunks))
    ensures Head([], chunks) == LineOf(Concat(chunks))
  {
    var stream := Concat(chunks);
    assert [] + stream == stream;
    match FirstCrlf(stream)
    case None => HeadTooLate([], chunks);
    case Some(p) =>
      if p + 2 > LIMIT {
        HeadTooLate([], chunks);
      } else {
        HeadInTime([], chunks, p);
      }
  }

  /**
   * The request line does not depend on how the bytes were chunked exactly when the first CR LF
   * starts by offset 12287, or from 16383 on, or the whole stream fits the limit.
   */
  lemma ChunkIndependentIff(stream: Bytes)
    ensures (forall c, d :: IsChunking(c, stream) && IsChunking(d, stream) ==> Head([], c) == Head([], d)) <==>
            Settled(stream)
  {
    if Settled(stream) {
      forall c, d | IsChunking(c, stream) && IsChunking(d, stream) ensures Head([], c) == Head([], d) {
        HeadOfSettled(c);
        HeadOfSettled(d);
      }
    } else {
      ChunkingMatters(stream, FirstCrlf(stream).value);
    }
  }

  // ----- The decision -----

  /** `decode("ascii", errors="replace")`. */
  function DecodeAscii(buf: Bytes): (s: string)
    ensures |s| == |buf| && forall i :: 0 <= i < |buf| && buf[i] >= 128 ==> s[i] as int == 0xFFFD
  {
    seq(|buf|, i requires 0 <= i < |buf| => if buf[i] < 128 then buf[i] as char else '\U{FFFD}')
  }

  /** What `split()` splits on, among the characters the decoding can give. */
  predicate IsBlank(c: char) {
    9 <= c as int <= 13 || 28 <= c as int <= 32
  }

  predicate Solid(s: string) {
    forall i :: 0 <= i < |s| ==> !IsBlank(s[i])
  }

  function WordEnd(s: string): (n: nat)
    ensures n <= |s| && Solid(s[..n]) && (n == |s| || IsBlank(s[n]))
  {
    if s == "" || IsBlank(s[0]) then 0 else 1 + WordEnd(s[1..])
  }

  function Split(s: string): seq<string> {
    if s == "" then []
    else if IsBlank(s[0]) then Split(s[1..])
    else
      var n := WordEnd(s);
      [s[..n]] + Split(s[n..])
  }

  function Upper(s: string): string {
    seq(|s|, i requires 0 <= i < |s| => if 'a' <= s[i] <= 'z' then (s[i] as int - 32) as char else s[i])
  }

  function LastColon(s: string): (r: Option<nat>)
    ensures r.Some? ==> r.value < |s| && s[r.value] == ':' && forall j :: r.value < j < |s| ==> s[j] != ':'
    ensures r.None? ==> ':' !in s
  {
    if s == "" then None
    else if s[|s| - 1] == ':' then Some(|s| - 1)
    else LastColon(s[..|s| - 1])
  }

  datatype Decision = MethodNotAllowed | BadRequest | Target(host: string, port: int, allowed: bool)

  function DecideWords(parts: seq<string>, allow: set<string>): Decision {
    if |parts| < 2 || Upper(parts[0]) != "CONNECT" then MethodNotAllowed
    else
      match LastColon(parts[1])
      case None => BadRequest
      case Some(k) =>
        var host := parts[1][..k];
        match ParseInt(parts[1][k + 1..])
        case None => BadRequest
        case Some(port) => Target(host, port, Matches(host, allow))
  }

  function Decide(line: Bytes, allow: set<string>): Decision {
    DecideWords(Split(DecodeAscii(line)), allow)
  }

  // ----- A well-formed request is understood -----

  predicate IsAscii(s: string) {
    forall i :: 0 <= i < |s| ==> s[i] as int < 128
  }

  function EncodeAscii(s: string): (r: Bytes)
    requires IsAscii(s)
    ensures DecodeAscii(r) == s
  {
    seq(|s|, i requires 0 <= i < |s| => s[i] as int)
  }

  lemma {:induction false} WordEndOf(word: string, rest: string)
    requires Solid(word) && (rest == "" || IsBlank(rest[0]))
    ensures WordEnd(word + rest) == |word|
  {
    if word == "" {
      assert word + rest == rest;
    } else {
      WordEndOf(word[1..], rest);
      assert (word + rest)[1..] == word[1..] + rest;
    }
  }

  lemma SplitWord(word: string, rest: string)
    requires word != "" && Solid(word) && (rest == "" || IsBlank(rest[0]))
    ensures Split(word + rest) == [word] + Split(rest)
  {
    WordEndOf(word, rest);
    assert (word + rest)[..|word|] == word && (word + rest)[|word|..] == rest;
  }

  /** A text of words with gaps before, between and after them. */
  function Woven(gaps: seq<string>, words: seq<string>): string
    requires |gaps| == |words| + 1
  {
    if words == [] then gaps[0] else gaps[0] + words[0] + Woven(gaps[1..], words[1..])
  }

  predicate Gap(s: string) {
    forall i :: 0 <= i < |s| ==> s[i] in ['\t', '\n', 11 as char, 12 as char, '\r', 28 as char, 29 as char, 30 as char,
                                          31 as char, ' ']
  }

  lemma {:induction false} SplitGap(gap: string, s: string)
    requires Gap(gap)
    ensures Split(gap + s) == Split(s)
  {
    if gap == "" {
      assert gap + s == s;
    } else {
      SplitGap(gap[1..], s);
      SplitBlank(gap[0], gap[1..] + s);
      assert gap + s == [gap[0]] + (gap[1..] + s);
    }
  }

  /** Whatever the blanks are, `split` gives back the words. */
  lemma {:induction false} SplitWoven(gaps: seq<string>, words: seq<string>)
    requires |gaps| == |words| + 1 && forall i :: 0 <= i < |gaps| ==> Gap(gaps[i])
    requires forall i :: 0 < i < |words| ==> gaps[i] != ""
    requires forall i :: 0 <= i < |words| ==> words[i] != "" && Solid(words[i])
    ensures Split(Woven(gaps, words)) == words
  {
    hide Split, Solid;
    if words == [] {
      SplitGap(gaps[0], "");
      assert gaps[0] + "" == gaps[0];
      assert Split("") == [] by { SplitNothing(); }
    } else {
      var rest := Woven(gaps[1..], words[1..]);
      assert rest == "" || rest[0] == gaps[1][0] by { assert words[1..] != [] ==> gaps[1] != ""; }
      SplitWoven(gaps[1..], words[1..]);
      SplitWord(words[0], rest);
      SplitGap(gaps[0], words[0] + rest);
      assert gaps[0] + words[0] + rest == gaps[0] + (words[0] + rest);
    }
  }

  lemma SplitNothing()
    ensures Split("") == []
  {
  }

  lemma {:induction false} LastColonOf(before: string, after: string)
    requires ':' !in after
    ensures LastColon(before + ":" + after) == Some(|before|)
  {
    var s := before + ":" + after;
    if after != "" {
      assert s[..|s| - 1] == before + ":" + after[..|after| - 1];
      LastColonOf(before, after[..|after| - 1]);
    }
  }

  lemma DecimalIsPlain(n: int)
    ensures Decimal(n) != "" && ':' !in Decimal(n) && Solid(Decimal(n)) && IsAscii(Decimal(n))
  {
    var digits := DigitsOf(Abs(n));
    forall i | 0 <= i < |digits| ensures digits[i] != ':' && !IsBlank(digits[i]) && digits[i] as int < 128 {
      assert IsDigit(digits[i]);
    }
    if n < 0 {
      assert Decimal(n) == "-" + digits;
    }
  }

  function TargetText(host: string, port: int): string {
    host + ":" + Decimal(port)
  }

  lemma TargetTextIsSolid(host: string, port: int)
    requires Solid(host) && IsAscii(host)
    ensures Solid(TargetText(host, port)) && IsAscii(TargetText(host, port)) && TargetText(host, port) != ""
  {
    DecimalIsPlain(port);
    var s, d := TargetText(host, port), Decimal(port);
    hide Decimal;
    forall i | 0 <= i < |s| ensures !IsBlank(s[i]) && s[i] as int < 128 {
      if i > |host| {
        assert s[i] == d[i - |host| - 1];
      }
    }
  }

  lemma DecideTarget(parts: seq<string>, host: string, port: int, allow: set<string>)
    requires |parts| >= 2 && Upper(parts[0]) == "CONNECT" && parts[1] == TargetText(host, port)
    ensures DecideWords(parts, allow) ==
            if |DigitsOf(Abs(port))| <= DIGIT_LIMIT then Target(host, port, Matches(host, allow)) else BadRequest
  {
    hide Decimal, ParseInt, Matches, DigitsOf;
    DecimalIsPlain(port);
    LastColonOf(host, Decimal(port));
    ParseDecimal(port);
    var t := parts[1];
    assert t[..|host|] == host && t[|host| + 1..] == Decimal(port);
  }

  /**
   * The line a client writes, `CONNECT host:port` in any case and with anything after it, is read as
   * that very host and port, for every host text without blanks and every port `int` takes.
   */
  lemma ConnectRoundTrip(verb: string, host: string, port: int, tail: string, allow: set<string>)
    requires IsAscii(verb) && Upper(verb) == "CONNECT"
    requires IsAscii(host) && Solid(host) && IsAscii(tail) && (tail == "" || IsBlank(tail[0]))
    requires |DigitsOf(Abs(port))| <= DIGIT_LIMIT
    ensures var line := verb + " " + TargetText(host, port) + tail;
            IsAscii(line) && Decide(EncodeAscii(line), allow) == Target(host, port, Matches(host, allow))
  {
    var target := TargetText(host, port);
    TargetTextIsSolid(host, port);
    VerbIsSolid(verb);
    hide TargetText, Matches, DigitsOf, Decide, DecideWords, Split, Upper, IsAscii;
    assert IsAscii(verb + " " + target + tail) by { AsciiLine(verb, target, tail); }
    SplitLine(verb, target, tail);
    DecideTarget([verb, target] + Split(tail), host, port, allow);
    DecideIsOfWords(verb + " " + target + tail, allow);
  }

  lemma AsciiLine(verb: string, target: string, tail: string)
    requires IsAscii(verb) && IsAscii(target) && IsAscii(tail)
    ensures IsAscii(verb + " " + target + tail)
  {
  }

  lemma DecideIsOfWords(line: string, allow: set<string>)
    requires IsAscii(line)
    ensures Decide(EncodeAscii(line), allow) == DecideWords(Split(line), allow)
  {
  }

  lemma SplitLine(verb: string, target: string, tail: string)
    requires verb != "" && Solid(verb) && target != "" && Solid(target) && (tail == "" || IsBlank(tail[0]))
    ensures Split(verb + " " + target + tail) == [verb, target] + Split(tail)
  {
    hide Split, Solid;
    var rest := " " + (target + tail);
    SplitWord(verb, rest);
    SplitBlank(' ', target + tail);
    assert [' '] + (target + tail) == rest;
    SplitWord(target, tail);
    hide IsBlank;
    assert verb + " " + target + tail == verb + rest;
    assert [verb] + ([target] + Split(tail)) == [verb, target] + Split(tail);
  }

  lemma SplitBlank(c: char, s: string)
    requires IsBlank(c)
    ensures Split([c] + s) == Split(s)
  {
    assert ([c] + s)[1..] == s;
  }

  /** CONNECT, in any mixture of cases. */
  predicate IsConnect(word: string) {
    |word| == 7 && forall i :: 0 <= i < 7 ==> word[i] == "CONNECT"[i] || word[i] == "connect"[i]
  }

  lemma ConnectInAnyCase(word: string)
    ensures Upper(word) == "CONNECT" <==> IsConnect(word)
  {
    if Upper(word) == "CONNECT" {
      assert |Upper(word)| == |word|;
      forall i | 0 <= i < 7 ensures word[i] == "CONNECT"[i] || word[i] == "connect"[i] {
        assert Upper(word)[i] == "CONNECT"[i];
      }
    }
    if IsConnect(word) {
      forall i | 0 <= i < 7 ensures Upper(word)[i] == "CONNECT"[i] {}
    }
  }

  /** `word` is a host, a colon and the text of an integer. */
  predicate IsTarget(word: string, host: string, port: int) {
    |host| < |word| && word[..|host|] == host && word[|host|] == ':' && ':' !in word[|host| + 1..] &&
    ParseInt(word[|host| + 1..]) == Some(port)
  }

  lemma TargetIff(word: string)
    ensures forall host, port :: IsTarget(word, host, port) <==>
              LastColon(word).Some? && host == word[..LastColon(word).value] &&
              ParseInt(word[LastColon(word).value + 1..]) == Some(port)
  {
    hide ParseInt;
    forall host, port | IsTarget(word, host, port) ensures LastColon(word) == Some(|host|) {
      assert word == host + ":" + word[|host| + 1..];
      LastColonOf(host, word[|host| + 1..]);
    }
    if LastColon(word).Some? {
      var k := LastColon(word).value;
      assert |word[..k]| == k && forall j :: k < j < |word| ==> word[j] != ':';
    }
  }

  /**
   * What is decided on a line: 405 for anything that is not CONNECT with a second word, 400 for one
   * whose second word is no host, colon and integer, and else that host and port, judged by the list.
   */
  ghost predicate Decided(line: Bytes, allow: set<string>, r: Decision) {
    var words := Split(DecodeAscii(line));
    var isConnect := |words| >= 2 && IsConnect(words[0]);
    && (r.MethodNotAllowed? <==> !isConnect)
    && (r.BadRequest? <==> isConnect && forall host, port :: !IsTarget(words[1], host, port))
    && (r.Target? ==> isConnect && IsTarget(words[1], r.host, r.port))
    && (r.Target? ==> (r.allowed <==> exists a :: a in allow && Under(r.host, a)))
  }

  lemma DecideTells(line: Bytes, allow: set<string>)
    ensures Decided(line, allow, Decide(line, allow))
  {
    var words := Split(DecodeAscii(line));
    hide Split, DecodeAscii, ParseInt, Matches, Under, LastColon, IsTarget, Upper, IsConnect;
    if |words| >= 2 {
      ConnectInAnyCase(words[0]);
      TargetIff(words[1]);
    }
    if Decide(line, allow).Target? {
      MatchesIsUnder(Decide(line, allow).host, allow);
    }
    if Decide(line, allow).BadRequest? {
      NoTarget(words[1]);
    }
  }

  lemma NoTarget(word: string)
    ensures LastColon(word) == None || ParseInt(word[LastColon(word).value + 1..]) == None ==>
              forall host, port :: !IsTarget(word, host, port)
  {
    hide ParseInt, IsTarget, LastColon;
    TargetIff(word);
  }

  /** Whatever target is decided on was there in the request line, as `host:port`, and is judged by the list. */
  lemma TargetWasSent(line: Bytes, allow: set<string>)
    requires Decide(line, allow).Target?
    ensures var d, words := Decide(line, allow), Split(DecodeAscii(line));
            && |words| >= 2 && Upper(words[0]) == "CONNECT"
            && (exists port :: words[1] == d.host + ":" + port && ':' !in port && ParseInt(port) == Some(d.port))
            && (d.allowed <==> exists a :: a in allow && Under(d.host, a))
  {
    var d, words := Decide(line, allow), Split(DecodeAscii(line));
    hide ParseInt, Under, Matches, Split, Upper, DecodeAscii;
    MatchesIsUnder(d.host, allow);
    var target := words[1];
    var k := LastColon(target).value;
    var port := target[k + 1..];
    assert target == d.host + ":" + port;
    assert ':' !in port && ParseInt(port) == Some(d.port);
  }

  lemma VerbIsSolid(verb: string)
    requires Upper(verb) == "CONNECT"
    ensures Solid(verb) && verb != ""
  {
    assert |Upper(verb)| == 7;
    forall i | 0 <= i < |verb| ensures !IsBlank(verb[i]) {
      assert Upper(verb)[i] == "CONNECT"[i];
    }
  }

  // ----- The handler -----

  /** What `on_attempt` is told. */
  datatype Why = NotInAllowlist | ConnectFailed | MatchedAllowlist

  datatype Attempt = Attempt(host: string, port: int, allowed: bool, why: Why)

  /** How connecting to the target goes; an error that is not an OSError ends the handler. */
  datatype Upstream = Connects | FailsWithOSError | Raises

  datatype Reply = NoReply | Code(n: nat)

  /** The server object handlers share: its allowlist, and the attempts it has reported. */
  class Server {
    const allowlist: set<string>
    var attempts: seq<Attempt>

    constructor (allowlist: set<string>)
      ensures this.allowlist == allowlist && attempts == []
    {
      this.allowlist, attempts := allowlist, [];
    }

    method Handle(chunks: seq<Bytes>, upstream: Upstream) returns (reply: Reply, connected: Option<(string, int)>)
      requires Chunked(chunks)
      modifies this
      ensures Head([], chunks) == None ==> reply == NoReply && connected == None && attempts == old(attempts)
      ensures Head([], chunks).Some? ==>
                var words := Split(DecodeAscii(Head([], chunks).value));
                var isConnect := |words| >= 2 && IsConnect(words[0]);
                && (reply == Code(405) <==> !isConnect)
                && (reply == Code(400) <==> isConnect && forall host, port :: !IsTarget(words[1], host, port))
      ensures Head([], chunks).Some? ==>
                match Decide(Head([], chunks).value, allowlist)
                case MethodNotAllowed => reply == Code(405) && connected == None && attempts == old(attempts)
                case BadRequest => reply == Code(400) && connected == None && attempts == old(attempts)
                case Target(host, port, allowed) =>
                  if !allowed then
                    && reply == Code(403) && connected == None
                    && attempts == old(attempts) + [Attempt(host, port, false, NotInAllowlist)]
                  else
                    && connected == Some((host, port))
                    && match upstream
                       case Raises => reply == NoReply && attempts == old(attempts)
                       case FailsWithOSError =>
                         reply == Code(502) && attempts == old(attempts) + [Attempt(host, port, true, ConnectFailed)]
                       case Connects =>
                         reply == Code(200) && attempts == old(attempts) + [Attempt(host, port, true, MatchedAllowlist)]
    {
      hide Head, Chunked, Matches, DecideWords, Split, DecodeAscii, IsConnect, IsTarget, Under;
      reply, connected := NoReply, None;
      var line, buf, read := ReadLine(chunks);
      if line == None {
        return;
      }
      var decision := DecideLine(line.value, allowlist);
      match decision
      case MethodNotAllowed =>
        reply := Code(405);
      case BadRequest =>
        reply := Code(400);
      case Target(host, port, allowed) =>
        var _, _ := DrainHeaders(buf, chunks, read);
        if !allowed {
          attempts := attempts + [Attempt(host, port, false, NotInAllowlist)];
          reply := Code(403);
        } else {
          connected := Some((host, port));
          match upstream
          case Raises =>
          case FailsWithOSError =>
            attempts := attempts + [Attempt(host, port, true, ConnectFailed)];
            reply := Code(502);
          case Connects =>
            attempts := attempts + [Attempt(host, port, true, MatchedAllowlist)];
            reply := Code(200);
        }
    }
  }

  /** The first loop: what is in the buffer, and how many reads it took. */
  method ReadLine(chunks: seq<Bytes>) returns (line: Option<Bytes>, buf: Bytes, i: nat)
    requires Chunked(chunks)
    ensures line == Head([], chunks) && i <= |chunks|
  {
    buf, i := [], 0;
    assert chunks[0..] == chunks;
    while FirstCrlf(buf) == None
      invariant 0 <= i <= |chunks|
      invariant Head(buf, chunks[i..]) == Head([], chunks)
      decreases |chunks| - i
    {
      if i == |chunks| {
        return None, buf, i;
      }
      assert chunks[i..][0] == chunks[i] && chunks[i..][1..] == chunks[i + 1..];
      buf := buf + chunks[i];
      i := i + 1;
      if |buf| > LIMIT {
        return None, buf, i;
      }
    }
    line := Some(buf[..FirstCrlf(buf).value]);
  }

  method DecideLine(line: Bytes, allow: set<string>) returns (r: Decision)
    ensures r == Decide(line, allow) && Decided(line, allow, r)
  {
    hide Decided;
    DecideTells(line, allow);
    var parts := Split(DecodeAscii(line));
    if |parts| < 2 || Upper(parts[0]) != "CONNECT" {
      return MethodNotAllowed;
    }
    var colon := LastColon(parts[1]);
    if colon == None {
      return BadRequest;
    }
    var port := ParseInt(parts[1][colon.value + 1..]);
    if port == None {
      return BadRequest;
    }
    var host := parts[1][..colon.value];
    r := Target(host, port.value, host in allow || exists a :: a in allow && EndsWith(host, "." + a));
  }

  /** The second loop reads on to the end of the headers, with no limit on their length. */
  method DrainHeaders(start: Bytes, chunks: seq<Bytes>, read: nat) returns (buf: Bytes, i: nat)
    requires read <= |chunks|
    ensures read <= i <= |chunks| && (HasBlankLine(buf) || i == |chunks|)
    ensures buf == start + Concat(chunks[read..i])
    ensures forall k :: read <= k < i ==> !HasBlankLine(start + Concat(chunks[read..k]))
  {
    buf, i := start, read;
    assert start + Concat(chunks[read..read]) == start;
    while !HasBlankLine(buf) && i < |chunks|
      invariant read <= i <= |chunks| && buf == start + Concat(chunks[read..i])
      invariant forall k :: read <= k < i ==> !HasBlankLine(start + Concat(chunks[read..k]))
    {
      ConcatSnoc(chunks[read..i], chunks[i]);
      assert chunks[read..i + 1] == chunks[read..i] + [chunks[i]];
      assert start + (Concat(chunks[read..i]) + chunks[i]) == (start + Concat(chunks[read..i])) + chunks[i];
      buf := buf + chunks[i];
      i := i + 1;
    }
  }

  lemma {:induction false} ConcatSnoc<T>(chunks: seq<seq<T>>, last: seq<T>)
    ensures Concat(chunks + [last]) == Concat(chunks) + last
  {
    if chunks == [] {
      assert chunks + [last] == [last];
      assert last + [] == last;
    } else {
      ConcatSnoc(chunks[1..], last);
      assert (chunks + [last])[1..] == chunks[1..] + [last];
      assert chunks[0] + (Concat(chunks[1..]) + last) == (chunks[0] + Concat(chunks[1..])) + last;
    }
  }

  /** The end of the headers, CR LF CR LF, is somewhere in `buf`. */
  predicate HasBlankLine(buf: Bytes) {
    exists i :: 0 <= i < |buf| - 3 && AtCrlf(buf, i) && AtCrlf(buf, i + 2)
  }

  lemma BlankLineIff(buf: Bytes)
    ensures HasBlankLine(buf) <==> exists headers, rest :: buf == headers + [13, 10, 13, 10] + rest
  {
    if i :| 0 <= i < |buf| - 3 && AtCrlf(buf, i) && AtCrlf(buf, i + 2) {
      assert buf == buf[..i] + [13, 10, 13, 10] + buf[i + 4..];
    }
    if headers, rest :| buf == headers + [13, 10, 13, 10] + rest {
      assert AtCrlf(buf, |headers|) && AtCrlf(buf, |headers| + 2);
    }
  }
}

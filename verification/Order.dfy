/** Text in code point order, as `sorted` puts it. */
module Order {

  predicate Before(a: string, b: string) {
    if b == "" then false
    else if a == "" then true
    else a[0] < b[0] || (a[0] == b[0] && Before(a[1..], b[1..]))
  }

  /** The texts are alike up to `k`, where `a` ends or has the smaller character. */
  predicate DiffersAt(a: string, b: string, k: nat) {
    && k <= |a| && k < |b| && a[..k] == b[..k]
    && (k < |a| ==> a[k] < b[k])
  }

  lemma {:induction false} BeforeIff(a: string, b: string)
    ensures Before(a, b) <==> exists k: nat :: DiffersAt(a, b, k)
  {
    if a != "" && b != "" {
      BeforeIff(a[1..], b[1..]);
      if a[0] < b[0] {
        assert DiffersAt(a, b, 0);
      }
      if k: nat :| a[0] == b[0] && DiffersAt(a[1..], b[1..], k) {
        assert a[..k + 1] == [a[0]] + a[1..][..k] && b[..k + 1] == [b[0]] + b[1..][..k];
        assert DiffersAt(a, b, k + 1);
      }
      if k: nat :| DiffersAt(a, b, k) && k > 0 {
        assert a[0] == a[..k][0] == b[..k][0] == b[0];
        assert a[1..][..k - 1] == a[..k][1..] && b[1..][..k - 1] == b[..k][1..];
        assert DiffersAt(a[1..], b[1..], k - 1);
      }
    } else if a == "" && b != "" {
      assert DiffersAt(a, b, 0);
    }
  }

  lemma {:induction false} Transitive(a: string, b: string, c: string)
    requires Before(a, b) && Before(b, c)
    ensures Before(a, c)
  {
    if a != "" && a[0] == b[0] && b[0] == c[0] {
      Transitive(a[1..], b[1..], c[1..]);
    }
  }

  lemma {:induction false} Total(a: string, b: string)
    ensures a == b || Before(a, b) || Before(b, a)
    ensures !(Before(a, b) && Before(b, a)) && !Before(a, a)
  {
    if a != "" {
      Total(a[1..], a[1..]);
      if b != "" && a[0] == b[0] {
        Total(a[1..], b[1..]);
        assert a == [a[0]] + a[1..] && b == [b[0]] + b[1..];
      }
    }
  }

  function Elements(s: seq<string>): (r: set<string>)
    ensures forall x :: x in r <==> x in s
  {
    set x | x in s
  }

  ghost predicate Sorted(s: seq<string>) {
    forall i, j :: 0 <= i < j < |s| ==> Before(s[i], s[j])
  }

  lemma InsertSorted(s: seq<string>, k: nat, x: string)
    requires Sorted(s) && k <= |s|
    requires forall i :: 0 <= i < k ==> Before(s[i], x)
    requires k < |s| ==> Before(x, s[k])
    ensures Sorted(s[..k] + [x] + s[k..])
  {
    forall j | k < j < |s| ensures Before(x, s[j]) { Transitive(x, s[k], s[j]); }
  }

  method SortedKeys(keys: set<string>) returns (s: seq<string>)
    ensures Sorted(s) && Elements(s) == keys
  {
    s := [];
    var todo := keys;
    while todo != {}
      invariant todo <= keys && Sorted(s) && Elements(s) == keys - todo
      decreases |todo|
    {
      var x :| x in todo;
      var k := 0;
      while k < |s| && Before(s[k], x)
        invariant 0 <= k <= |s| && forall i :: 0 <= i < k ==> Before(s[i], x)
      {
        k := k + 1;
      }
      if k < |s| {
        Total(s[k], x);
      }
      InsertSorted(s, k, x);
      ghost var before := s;
      s := s[..k] + [x] + s[k..];
      assert before == before[..k] + before[k..];
      assert forall y :: y in Elements(s) <==> y in Elements(before) || y == x;
      todo := todo - {x};
    }
  }

  /** There is only one way to sort a set. */
  lemma {:induction false} SortedIsUnique(s: seq<string>, t: seq<string>)
    requires Sorted(s) && Sorted(t) && Elements(s) == Elements(t)
    ensures s == t
  {
    assert |s| == 0 || s[0] in Elements(s);
    assert |t| == 0 || t[0] in Elements(t);
    if |s| > 0 && |t| > 0 {
      FirstIsLeast(s, t[0]);
      FirstIsLeast(t, s[0]);
      Total(s[0], t[0]);
      assert s[0] == t[0];
      Rest(s);
      Rest(t);
      SortedIsUnique(s[1..], t[1..]);
      assert s == [s[0]] + s[1..] && t == [t[0]] + t[1..];
    }
  }

  lemma FirstIsLeast(s: seq<string>, x: string)
    requires Sorted(s) && x in s
    ensures s[0] == x || Before(s[0], x)
  {
  }

  lemma Rest(s: seq<string>)
    requires Sorted(s) && s != []
    ensures Sorted(s[1..]) && Elements(s[1..]) == Elements(s) - {s[0]}
  {
    Total(s[0], s[0]);
    assert s == [s[0]] + s[1..];
    forall x | x in s[1..] ensures x != s[0] {
      var i :| 0 <= i < |s[1..]| && s[1..][i] == x;
      assert Before(s[0], s[i + 1]);
    }
  }
}

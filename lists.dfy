/** `Array.prototype.filter` and `Array.prototype.find` over sequences. */
module Lists {
  import opened Outcomes

  /** `s.filter(keep)`: the elements satisfying `keep`, in their original order. */
  function Filter<T>(s: seq<T>, keep: T -> bool): (r: seq<T>)
    ensures |r| <= |s|
    ensures forall i :: 0 <= i < |r| ==> r[i] in s && keep(r[i])
    ensures forall i :: 0 <= i < |s| && keep(s[i]) ==> s[i] in r
  {
    if s == [] then []
    else if keep(s[0]) then [s[0]] + Filter(s[1..], keep)
    else Filter(s[1..], keep)
  }

  /** Filtering distributes over concatenation, so the kept elements keep
      their relative order. */
  lemma {:induction false} FilterAppend<T>(a: seq<T>, b: seq<T>, keep: T -> bool)
    ensures Filter(a + b, keep) == Filter(a, keep) + Filter(b, keep)
  {
    if a == [] {
      assert a + b == b;
    } else {
      assert (a + b)[0] == a[0];
      assert (a + b)[1..] == a[1..] + b;
      FilterAppend(a[1..], b, keep);
    }
  }

  /** When every element is kept, nothing is removed. */
  lemma {:induction false} FilterKeepsAll<T>(s: seq<T>, keep: T -> bool)
    requires forall i :: 0 <= i < |s| ==> keep(s[i])
    ensures Filter(s, keep) == s
  {
    if s != [] {
      FilterKeepsAll(s[1..], keep);
      assert [s[0]] + s[1..] == s;
    }
  }

  /** `s.find(hit)`: the first element satisfying `hit`, if any. */
  function Find<T>(s: seq<T>, hit: T -> bool): (r: Option<T>)
    ensures r.None? <==> forall i :: 0 <= i < |s| ==> !hit(s[i])
    ensures r.Some? ==> exists i :: 0 <= i < |s| && s[i] == r.value && hit(s[i]) && forall j :: 0 <= j < i ==> !hit(s[j])
  {
    if s == [] then None
    else if hit(s[0]) then Some(s[0])
    else
      var r := Find(s[1..], hit);
      assert forall i :: 1 <= i < |s| ==> s[i] == s[1..][i - 1];
      r
  }

  /** Removing only elements that `hit` rejects does not change what `find`
      returns. */
  lemma {:induction false} FindIgnoresRemovedMisses<T>(s: seq<T>, keep: T -> bool, hit: T -> bool)
    requires forall i :: 0 <= i < |s| && hit(s[i]) ==> keep(s[i])
    ensures Find(Filter(s, keep), hit) == Find(s, hit)
  {
    if s != [] {
      FindIgnoresRemovedMisses(s[1..], keep, hit);
      if keep(s[0]) {
        assert Filter(s, keep) == [s[0]] + Filter(s[1..], keep);
        assert ([s[0]] + Filter(s[1..], keep))[1..] == Filter(s[1..], keep);
      }
    }
  }

  /** After removing every element that `hit` accepts, `find` finds nothing. */
  lemma FindAfterRemovingHits<T>(s: seq<T>, keep: T -> bool, hit: T -> bool)
    requires forall i :: 0 <= i < |s| && hit(s[i]) ==> !keep(s[i])
    ensures Find(Filter(s, keep), hit) == None
  {
  }
}

/** The three whole-table operations every store is built from: the
    order-preserving `Array.prototype.filter`, the element-wise
    `Array.prototype.map` that rewrites only the elements a test selects,
    and `Array.prototype.find`. */
module Tables {
  import opened Maybe

  /** `s.filter(keep)`: the elements satisfying `keep`, in their original order. */
  function Filter<T(==)>(s: seq<T>, keep: T -> bool): (r: seq<T>)
    ensures |r| <= |s|
    ensures forall x | x in r :: x in s && keep(x)
    ensures forall x | x in s && keep(x) :: x in r
  {
    if s == [] then []
    else
      assert s == [s[0]] + s[1..];
      if keep(s[0]) then [s[0]] + Filter(s[1..], keep) else Filter(s[1..], keep)
  }

  /** `s.map(x => hit(x) ? f(x) : x)`: rewrites exactly the selected elements, in place. */
  function MapIf<T>(s: seq<T>, hit: T -> bool, f: T -> T): (r: seq<T>)
    ensures |r| == |s|
    ensures forall i :: 0 <= i < |s| ==> r[i] == (if hit(s[i]) then f(s[i]) else s[i])
  {
    if s == [] then [] else [if hit(s[0]) then f(s[0]) else s[0]] + MapIf(s[1..], hit, f)
  }

  /** `s.find(hit)`: the first element satisfying `hit`, if any. */
  function Find<T(==)>(s: seq<T>, hit: T -> bool): (r: Option<T>)
    ensures r.None? <==> forall i :: 0 <= i < |s| ==> !hit(s[i])
    ensures r.Some? ==> r.value in s && hit(r.value)
    ensures r.Some? ==> exists i :: 0 <= i < |s| && s[i] == r.value && forall j :: 0 <= j < i ==> !hit(s[j])
  {
    if s == [] then None
    else if hit(s[0]) then Some(s[0])
    else
      var r := Find(s[1..], hit);
      assert forall i :: 1 <= i < |s| ==> s[i] == s[1..][i - 1];
      assert r.Some? ==> exists i :: 1 <= i < |s| && s[i] == r.value && forall j :: 0 <= j < i ==> !hit(s[j]) by {
        if r.Some? {
          var k :| 0 <= k < |s[1..]| && s[1..][k] == r.value && forall j :: 0 <= j < k ==> !hit(s[1..][j]);
          assert s[k + 1] == r.value;
          assert forall j :: 0 <= j < k + 1 ==> !hit(s[j]) by {
            forall j | 0 <= j < k + 1 ensures !hit(s[j]) {
              if j > 0 { assert s[j] == s[1..][j - 1]; }
            }
          }
        }
      }
      r
  }

  // ---------------------------------------------------------------------------
  // Filter

  /** Filtering a concatenation filters each part: the relative order of the kept
      elements is exactly their order in the input. */
  lemma {:induction false} FilterConcat<T>(s: seq<T>, t: seq<T>, keep: T -> bool)
    ensures Filter(s + t, keep) == Filter(s, keep) + Filter(t, keep)
  {
    if s == [] {
      assert s + t == t;
    } else {
      assert (s + t)[1..] == s[1..] + t;
      assert (s + t)[0] == s[0];
      FilterConcat(s[1..], t, keep);
    }
  }

  /** Appending one element and then filtering keeps the old kept elements in front. */
  lemma FilterSnoc<T>(s: seq<T>, x: T, keep: T -> bool)
    ensures Filter(s + [x], keep) == Filter(s, keep) + (if keep(x) then [x] else [])
  {
    FilterConcat(s, [x], keep);
  }

  /** A filter that keeps every element is the identity. */
  lemma {:induction false} FilterKeepsAll<T>(s: seq<T>, keep: T -> bool)
    requires forall i :: 0 <= i < |s| ==> keep(s[i])
    ensures Filter(s, keep) == s
  {
    if s != [] {
      FilterKeepsAll(s[1..], keep);
      assert s == [s[0]] + s[1..];
    }
  }

  /** A filter that keeps nothing is empty. */
  lemma {:induction false} FilterKeepsNone<T>(s: seq<T>, keep: T -> bool)
    requires forall i :: 0 <= i < |s| ==> !keep(s[i])
    ensures Filter(s, keep) == []
  {
    if s != [] {
      FilterKeepsNone(s[1..], keep);
    }
  }

  /** Two tests that agree on the elements of `s` filter `s` identically. */
  lemma {:induction false} FilterAgree<T>(s: seq<T>, p: T -> bool, q: T -> bool)
    requires forall x :: x in s ==> p(x) == q(x)
    ensures Filter(s, p) == Filter(s, q)
  {
    if s != [] {
      assert forall x :: x in s[1..] ==> x in s;
      FilterAgree(s[1..], p, q);
    }
  }

  /** Filtering twice is filtering once by the conjunction of the two tests. */
  lemma {:induction false} FilterFilter<T>(s: seq<T>, p: T -> bool, q: T -> bool, both: T -> bool)
    requires forall x :: both(x) == (p(x) && q(x))
    ensures Filter(Filter(s, p), q) == Filter(s, both)
  {
    if s != [] {
      FilterFilter(s[1..], p, q, both);
    }
  }

  /** Filtering by the same test twice changes nothing the second time. */
  lemma FilterIdempotent<T>(s: seq<T>, keep: T -> bool)
    ensures Filter(Filter(s, keep), keep) == Filter(s, keep)
  {
    FilterKeepsAll(Filter(s, keep), keep);
  }

  // ---------------------------------------------------------------------------
  // MapIf

  /** When no element is selected the map returns the table unchanged. */
  lemma MapIfNoHit<T>(s: seq<T>, hit: T -> bool, f: T -> T)
    requires forall i :: 0 <= i < |s| ==> !hit(s[i])
    ensures MapIf(s, hit, f) == s
  {
  }

  /** Rewriting twice is rewriting once when a rewritten element that is still
      selected is a fixed point of the rewrite. */
  lemma MapIfIdempotent<T>(s: seq<T>, hit: T -> bool, f: T -> T)
    requires forall x :: hit(x) && hit(f(x)) ==> f(f(x)) == f(x)
    ensures MapIf(MapIf(s, hit, f), hit, f) == MapIf(s, hit, f)
  {
  }

  // ---------------------------------------------------------------------------
  // Find

  /** `find` skips a prefix in which nothing matches. */
  lemma {:induction false} FindSkips<T>(s: seq<T>, t: seq<T>, hit: T -> bool)
    requires forall x :: x in s ==> !hit(x)
    ensures Find(s + t, hit) == Find(t, hit)
  {
    if s != [] {
      assert (s + t)[1..] == s[1..] + t;
      assert (s + t)[0] == s[0] && s[0] in s;
      assert forall x :: x in s[1..] ==> x in s;
      FindSkips(s[1..], t, hit);
    } else {
      assert s + t == t;
    }
  }

  /** `find` returns the first element when it matches. */
  lemma FindHead<T>(x: T, t: seq<T>, hit: T -> bool)
    requires hit(x)
    ensures Find([x] + t, hit) == Some(x)
  {
  }
}

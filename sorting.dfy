/**
 * Python's `sorted` on a list whose key order is total: modelled as an
 * insertion sort over a comparator `le` ("may come before").
 */
module Sorting {

  /** `le` is total and transitive: the order a sort key induces. */
  ghost predicate TotalPreorder<T(!new)>(le: (T, T) -> bool) {
    && (forall a, b :: le(a, b) || le(b, a))
    && (forall a, b, c :: le(a, b) && le(b, c) ==> le(a, c))
  }

  ghost predicate Sorted<T>(s: seq<T>, le: (T, T) -> bool) {
    forall i, j :: 0 <= i < j < |s| ==> le(s[i], s[j])
  }

  function Insert<T(!new)>(x: T, s: seq<T>, le: (T, T) -> bool): (r: seq<T>)
    ensures multiset(r) == multiset(s) + multiset{x}
    ensures TotalPreorder(le) && Sorted(s, le) ==> Sorted(r, le)
  {
    if s == [] then [x]
    else if le(x, s[0]) then
      assert TotalPreorder(le) && Sorted(s, le) ==> Sorted([x] + s, le);
      [x] + s
    else
      var tail := Insert(x, s[1..], le);
      assert s == [s[0]] + s[1..];
      assert TotalPreorder(le) && Sorted(s, le) ==> Sorted([s[0]] + tail, le) by {
        if TotalPreorder(le) && Sorted(s, le) {
          assert le(s[0], x);
          forall y | y in multiset(tail) ensures le(s[0], y) {
            if y == x {
            } else {
              assert y in multiset(s[1..]);
              var k :| 1 <= k < |s| && s[k] == y;
            }
          }
          forall j | 0 < j < |[s[0]] + tail| ensures le(([s[0]] + tail)[0], ([s[0]] + tail)[j]) {
            assert tail[j - 1] in multiset(tail);
          }
        }
      }
      [s[0]] + tail
  }

  /** `sorted(s, key=...)`: a permutation of `s`, ordered by `le`. */
  function Sort<T(!new)>(s: seq<T>, le: (T, T) -> bool): (r: seq<T>)
    ensures multiset(r) == multiset(s)
    ensures TotalPreorder(le) ==> Sorted(r, le)
  {
    if s == [] then []
    else
      assert s == [s[0]] + s[1..];
      Insert(s[0], Sort(s[1..], le), le)
  }
}

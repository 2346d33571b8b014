/** A stable sort, as `Array.prototype.sort` is required to be: the result is ordered
    by the comparison, is a permutation of the input, and elements the comparison
    ties keep their relative order. */
module Sorting {

  /** `le(a, b)`: the comparator does not put `b` before `a`. */
  ghost predicate TotalPreorder<T(!new)>(le: (T, T) -> bool) {
    && (forall a, b :: le(a, b) || le(b, a))
    && (forall a, b, c :: le(a, b) && le(b, c) ==> le(a, c))
  }

  ghost predicate SortedBy<T>(s: seq<T>, le: (T, T) -> bool) {
    forall i, j :: 0 <= i < j < |s| ==> le(s[i], s[j])
  }

  predicate Tie<T>(le: (T, T) -> bool, a: T, b: T) {
    le(a, b) && le(b, a)
  }

  /** The elements of `s` that the comparison ties with `z`, in their order in `s`. */
  function TiedWith<T>(s: seq<T>, le: (T, T) -> bool, z: T): seq<T> {
    if s == [] then [] else (if Tie(le, s[0], z) then [s[0]] else []) + TiedWith(s[1..], le, z)
  }

  /** Puts `x` before the first element it does not come after. */
  function Insert<T(==)>(x: T, s: seq<T>, le: (T, T) -> bool): (r: seq<T>)
    ensures multiset(r) == multiset(s) + multiset{x}
    ensures |r| == |s| + 1
  {
    if s == [] then [x]
    else if le(x, s[0]) then [x] + s
    else
      assert s == [s[0]] + s[1..];
      [s[0]] + Insert(x, s[1..], le)
  }

  /** `y` comes before (or ties with) every element of `s`. */
  ghost predicate LowerBound<T>(y: T, s: seq<T>, le: (T, T) -> bool) {
    forall j :: 0 <= j < |s| ==> le(y, s[j])
  }

  /** Inserting an element that `y` bounds keeps `y` a bound. */
  lemma {:induction false} InsertBound<T>(x: T, s: seq<T>, le: (T, T) -> bool, y: T)
    requires LowerBound(y, s, le) && le(y, x)
    ensures LowerBound(y, Insert(x, s, le), le)
  {
    if s != [] && !le(x, s[0]) {
      InsertBound(x, s[1..], le, y);
    }
  }

  /** Inserting into a sorted sequence keeps it sorted. */
  lemma {:induction false} InsertSorted<T(!new)>(x: T, s: seq<T>, le: (T, T) -> bool)
    requires TotalPreorder(le) && SortedBy(s, le)
    ensures SortedBy(Insert(x, s, le), le)
  {
    if s == [] {
    } else if le(x, s[0]) {
      assert LowerBound(x, s, le);
    } else {
      var tail := s[1..];
      InsertSorted(x, tail, le);
      assert LowerBound(s[0], tail, le);
      InsertBound(x, tail, le, s[0]);
    }
  }

  /** Insertion sort: stable because each element is inserted in front of its ties. */
  function SortBy<T(==,!new)>(s: seq<T>, le: (T, T) -> bool): (r: seq<T>)
    requires TotalPreorder(le)
    ensures SortedBy(r, le)
    ensures multiset(r) == multiset(s)
    ensures |r| == |s|
  {
    if s == [] then []
    else
      assert s == [s[0]] + s[1..];
      var rest := SortBy(s[1..], le);
      InsertSorted(s[0], rest, le);
      Insert(s[0], rest, le)
  }

  /** `TiedWith` of a sequence with a first element. */
  lemma TiedCons<T>(x: T, s: seq<T>, le: (T, T) -> bool, z: T)
    ensures TiedWith([x] + s, le, z) == (if Tie(le, x, z) then [x] else []) + TiedWith(s, le, z)
  {
    assert ([x] + s)[0] == x && ([x] + s)[1..] == s;
  }

  /** What `x` is not placed before cannot be tied with what `x` is tied with. */
  lemma TieExcluded<T(!new)>(le: (T, T) -> bool, x: T, y: T, z: T)
    requires TotalPreorder(le) && !le(x, y)
    ensures !(Tie(le, x, z) && Tie(le, y, z))
  {
  }

  /** Inserting `x` adds it to the elements tied with `z` (if it is tied with `z`)
      in front of them. */
  lemma {:induction false} InsertTied<T(!new)>(x: T, s: seq<T>, le: (T, T) -> bool, z: T)
    requires TotalPreorder(le)
    ensures TiedWith(Insert(x, s, le), le, z)
         == (if Tie(le, x, z) then [x] else []) + TiedWith(s, le, z)
  {
    if s == [] || le(x, s[0]) {
      TiedCons(x, s, le, z);
    } else {
      InsertTied(x, s[1..], le, z);
      InsertTiedPast(x, s, le, z);
    }
  }

  /** The step of `InsertTied` where `x` goes past the first element. */
  lemma InsertTiedPast<T(!new)>(x: T, s: seq<T>, le: (T, T) -> bool, z: T)
    requires TotalPreorder(le) && s != [] && !le(x, s[0])
    requires TiedWith(Insert(x, s[1..], le), le, z)
          == (if Tie(le, x, z) then [x] else []) + TiedWith(s[1..], le, z)
    ensures TiedWith(Insert(x, s, le), le, z)
         == (if Tie(le, x, z) then [x] else []) + TiedWith(s, le, z)
  {
    var hx := if Tie(le, x, z) then [x] else [];
    var h0 := if Tie(le, s[0], z) then [s[0]] else [];
    var tail := s[1..];
    var t := Insert(x, tail, le);
    assert Insert(x, s, le) == [s[0]] + t;
    assert s == [s[0]] + tail;
    TieExcluded(le, x, s[0], z);
    TiedCons(s[0], t, le, z);
    TiedCons(s[0], tail, le, z);
    Swap(h0, hx, TiedWith(tail, le, z));
  }

  lemma Swap<T>(a: seq<T>, b: seq<T>, c: seq<T>)
    requires a == [] || b == []
    ensures a + (b + c) == b + (a + c)
  {
    if a == [] {
      assert a + (b + c) == b + c;
      assert a + c == c;
    } else {
      assert b + c == c;
      assert b + (a + c) == a + c;
    }
  }

  /** Stability: for every element `z`, the elements tied with `z` appear in the
      sorted sequence exactly as they appear in the input. */
  lemma {:induction false} SortStable<T(!new)>(s: seq<T>, le: (T, T) -> bool, z: T)
    requires TotalPreorder(le)
    ensures TiedWith(SortBy(s, le), le, z) == TiedWith(s, le, z)
  {
    if s != [] {
      SortStable(s[1..], le, z);
      InsertTied(s[0], SortBy(s[1..], le), le, z);
      assert s == [s[0]] + s[1..];
      TiedCons(s[0], s[1..], le, z);
    }
  }
}

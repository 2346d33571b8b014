/** An insertion-ordered dictionary: what a JavaScript object or `Set` is when its
    keys are not integer-like, and what `Object.values` / `Array.from` enumerate. */
module Records {

  ghost predicate Distinct<K>(s: seq<K>) {
    forall i, j :: 0 <= i < j < |s| ==> s[i] != s[j]
  }

  /** `order` lists the keys in first-insertion order; `vals` holds their values. */
  datatype Record<K(==), V> = Record(order: seq<K>, vals: map<K, V>)
  {
    ghost predicate Valid() {
      Distinct(order) && vals.Keys == (set i | 0 <= i < |order| :: order[i])
    }

    /** `obj[k] = v`: a new key goes to the end, an existing one keeps its place. */
    function Put(k: K, v: V): (r: Record<K, V>)
      requires Valid()
      ensures r.Valid()
      ensures r.vals == vals[k := v]
      ensures r.order == if k in vals then order else order + [k]
    {
      if k in vals then Record(order, vals[k := v])
      else
        var o := order + [k];
        assert (set i | 0 <= i < |o| :: o[i]) == (set i | 0 <= i < |order| :: order[i]) + {k} by {
          assert o[|order|] == k;
          forall i | 0 <= i < |order| ensures o[i] == order[i] { }
        }
        Record(o, vals[k := v])
    }

    /** `obj[k] ?? init` */
    function GetOr(k: K, init: V): V {
      if k in vals then vals[k] else init
    }

    /** `Object.values(obj)` */
    function Values(): (vs: seq<V>)
      requires Valid()
      ensures |vs| == |order|
      ensures forall i :: 0 <= i < |order| ==> vs[i] == vals[order[i]]
    {
      seq(|order|, i requires 0 <= i < |order| => vals[order[i]])
    }
  }

  /** A sequence without repeats has as many elements as the set of them. */
  lemma {:induction false} DistinctCard<K>(s: seq<K>)
    requires Distinct(s)
    ensures |set x | x in s| == |s|
  {
    if s != [] {
      var init, last := s[..|s| - 1], s[|s| - 1];
      DistinctCard(init);
      assert last !in init;
      assert (set x | x in s) == (set x | x in init) + {last} by {
        assert s == init + [last];
      }
    }
  }

  lemma KeysInOrder<K, V>(r: Record<K, V>)
    requires r.Valid()
    ensures forall k :: k in r.vals <==> k in r.order
  {
    forall k | k in r.order ensures k in r.vals {
      var i :| 0 <= i < |r.order| && r.order[i] == k;
    }
  }

  function Empty<K(==), V>(): (r: Record<K, V>)
    ensures r.Valid() && r.order == [] && r.vals == map[]
  {
    Record([], map[])
  }

  /** A reordering of a sequence whose elements have distinct keys still has
      distinct keys: what sorting the entries of a record preserves. */
  lemma PermKeepsKeysDistinct<T, K>(e: seq<T>, s: seq<T>, key: T -> K)
    requires forall i, j :: 0 <= i < j < |e| ==> key(e[i]) != key(e[j])
    requires multiset(s) == multiset(e)
    ensures forall i, j :: 0 <= i < j < |s| ==> key(s[i]) != key(s[j])
  {
    forall i, j | 0 <= i < j < |s|
      ensures key(s[i]) != key(s[j])
    {
      if key(s[i]) == key(s[j]) {
        var x := s[i];
        assert x in multiset(e) && s[j] in multiset(e);
        var a :| 0 <= a < |e| && e[a] == x;
        var b :| 0 <= b < |e| && e[b] == s[j];
        assert a == b;
        assert s == s[..j] + [x] + s[j + 1..];
        assert s[..j][i] == x;
        assert multiset(s)[x] == multiset(s[..j])[x] + 1 + multiset(s[j + 1..])[x];
        assert e[..|e|] == e;
        OccursOnce(e, key, |e|, x);
        assert false;
      }
    }
  }

  lemma {:induction false} OccursOnce<T, K>(e: seq<T>, key: T -> K, n: nat, x: T)
    requires forall i, j :: 0 <= i < j < |e| ==> key(e[i]) != key(e[j])
    requires n <= |e|
    ensures multiset(e[..n])[x] <= 1
    ensures multiset(e[..n])[x] == 1 ==> exists m :: 0 <= m < n && e[m] == x
  {
    if n > 0 {
      OccursOnce(e, key, n - 1, x);
      assert e[..n] == e[..n - 1] + [e[n - 1]];
    }
  }

  /** `s` is its part before `j`, its `j`-th element and its part after `j`. */
  lemma SplitAround<T>(s: seq<T>, j: nat)
    requires j < |s|
    ensures s == (s[..j] + [s[j]]) + s[j + 1..]
    ensures (s[..j] + [s[j]])[..j] == s[..j]
    ensures |s[..j] + [s[j]]| == j + 1
  {
  }

  /** The prefix of length `i + 1` is the prefix of length `i` and the `i`-th element. */
  lemma PrefixStep<T>(s: seq<T>, i: nat)
    requires i < |s|
    ensures s[..i + 1][..i] == s[..i]
    ensures |s[..i + 1]| == i + 1 && s[..i + 1][i] == s[i]
    ensures s[..i + 1] == s[..i] + [s[i]]
  {
  }
}

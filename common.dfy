/** Identifiers, an Option type and the sequence helpers shared by the modules
    of the timeline model. */
module Common {

  /** User ids and post ids are strings: the source interpolates them into
      store keys and uses them as object keys. */
  type UserId = string
  type PostId = string

  /** The post metadata as the store holds it: an opaque serialized record. */
  type PostMeta = string

  datatype Option<T> = None | Some(value: T)

  /** The `??` operator: the value when present, the default otherwise. */
  function OrDefault<T>(o: Option<T>, default: T): T
  {
    match o
    case Some(v) => v
    case None => default
  }

  predicate NoDuplicates<T(==)>(s: seq<T>)
  {
    forall i, j :: 0 <= i < j < |s| ==> s[i] != s[j]
  }

  /** `Array.prototype.filter`: the elements satisfying `keep`, in their
      original order. */
  function Filter<T>(s: seq<T>, keep: T -> bool): (r: seq<T>)
    ensures |r| <= |s|
    ensures forall i :: 0 <= i < |r| ==> r[i] in s && keep(r[i])
    ensures forall i :: 0 <= i < |s| && keep(s[i]) ==> s[i] in r
  {
    if s == [] then []
    else Filter(s[..|s| - 1], keep) + (if keep(s[|s| - 1]) then [s[|s| - 1]] else [])
  }

  /** Filtering distributes over concatenation, so the kept elements appear
      in the order they had in the input. */
  lemma {:induction false} FilterConcat<T>(a: seq<T>, b: seq<T>, keep: T -> bool)
    ensures Filter(a + b, keep) == Filter(a, keep) + Filter(b, keep)
  {
    if b == [] {
      assert a + b == a;
    } else {
      var b' := b[..|b| - 1];
      assert (a + b)[..|a + b| - 1] == a + b';
      FilterConcat(a, b', keep);
    }
  }

  /** Each kept element occurs as often as in the input; each dropped one
      not at all. */
  lemma {:induction false} FilterMultiset<T>(s: seq<T>, keep: T -> bool, x: T)
    ensures multiset(Filter(s, keep))[x] == if keep(x) then multiset(s)[x] else 0
  {
    if s != [] {
      var s' := s[..|s| - 1];
      assert s == s' + [s[|s| - 1]];
      FilterMultiset(s', keep, x);
    }
  }

  lemma {:induction false} FilterNoDuplicates<T>(s: seq<T>, keep: T -> bool)
    requires NoDuplicates(s)
    ensures NoDuplicates(Filter(s, keep))
  {
    if s != [] {
      var s' := s[..|s| - 1];
      assert NoDuplicates(s');
      FilterNoDuplicates(s', keep);
      var last := s[|s| - 1];
      assert last !in s';
    }
  }

  /** A sequence without repeated elements has as many elements as the set
      of its members. */
  lemma {:induction false} DistinctCard<T>(s: seq<T>)
    requires NoDuplicates(s)
    ensures |set x | x in s| == |s|
  {
    if s != [] {
      var s' := s[..|s| - 1];
      var last := s[|s| - 1];
      assert NoDuplicates(s');
      DistinctCard(s');
      assert last !in s';
      assert s == s' + [last];
      assert (set x | x in s) == (set x | x in s') + {last};
    }
  }
}

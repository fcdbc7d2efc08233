/** Small facts about sequences used to describe the iteration order of Rust's
    `HashMap` and `HashSet`, which the program never fixes.  An iteration of a
    map is modelled as an *enumeration* of its keys: a duplicate-free sequence
    holding exactly those keys, in an order nobody may rely on. */
module Collections {

  ghost predicate Distinct<T>(s: seq<T>) {
    forall i, j :: 0 <= i < j < |s| ==> s[i] != s[j]
  }

  /** `order` lists each element of `keys` exactly once. */
  ghost predicate IsEnumeration<T(!new)>(order: seq<T>, keys: set<T>) {
    Distinct(order) && (forall x :: x in order <==> x in keys)
  }

  lemma {:induction false} DistinctCard<T>(s: seq<T>)
    requires Distinct(s)
    ensures |set x | x in s| == |s|
  {
    if s != [] {
      var t := s[..|s| - 1];
      assert Distinct(t);
      DistinctCard(t);
      assert s[|s| - 1] !in t;
      assert (set x | x in s) == (set x | x in t) + {s[|s| - 1]};
    }
  }

  /** An enumeration of a set has as many elements as the set. */
  lemma EnumerationLength<T(!new)>(order: seq<T>, keys: set<T>)
    requires IsEnumeration(order, keys)
    ensures |order| == |keys|
  {
    DistinctCard(order);
    assert (set x | x in order) == keys;
  }

  lemma DistinctAppend<T>(s: seq<T>, x: T)
    requires Distinct(s) && x !in s
    ensures Distinct(s + [x])
  {
  }

  /** Every finite set can be enumerated. */
  lemma {:induction false} SomeEnumeration<T(!new)>(keys: set<T>) returns (order: seq<T>)
    ensures IsEnumeration(order, keys)
    decreases |keys|
  {
    if keys == {} {
      order := [];
    } else {
      var x :| x in keys;
      var rest := SomeEnumeration(keys - {x});
      order := [x] + rest;
      assert forall i :: 0 < i < |order| ==> order[i] == rest[i - 1];
    }
  }

  /** An enumeration of the visited keys followed by one of the others
      enumerates all keys. */
  lemma EnumerationJoin<T(!new)>(visited: seq<T>, rest: seq<T>, done: set<T>, keys: set<T>)
    requires done <= keys
    requires IsEnumeration(visited, done) && IsEnumeration(rest, keys - done)
    ensures IsEnumeration(visited + rest, keys)
  {
    var s := visited + rest;
    forall i, j | 0 <= i < j < |s| ensures s[i] != s[j] {
      if j < |visited| {
      } else if i >= |visited| {
        assert s[i] == rest[i - |visited|] && s[j] == rest[j - |visited|];
      } else {
        assert s[i] in done && s[j] == rest[j - |visited|] && s[j] !in done;
      }
    }
  }
}

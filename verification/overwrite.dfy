/** Building a `map<string, string>` by assigning `result[key(x)] = value(x)`
    for every element `x` of a list, in list order, so that a later element
    overwrites an earlier one with the same key. */
module Overwrite {

  /** `xs[i]` is the last element of `xs` carrying its key. */
  ghost predicate IsLast<T>(xs: seq<T>, key: T -> string, i: int)
    requires 0 <= i < |xs|
  {
    forall j :: i < j < |xs| ==> key(xs[j]) != key(xs[i])
  }

  ghost function KeySet<T>(xs: seq<T>, key: T -> string): set<string> {
    set i | 0 <= i < |xs| :: key(xs[i])
  }

  /** The map left after assigning every element of `xs` in order. Its keys are
      exactly the keys of the elements, and each key holds the value of the
      last element carrying it. */
  function Assign<T>(xs: seq<T>, key: T -> string, value: T -> string): (r: map<string, string>)
    ensures r.Keys == KeySet(xs, key)
    ensures forall i :: 0 <= i < |xs| && IsLast(xs, key, i) ==> r[key(xs[i])] == value(xs[i])
  {
    if xs == [] then map[]
    else
      var init, last := xs[..|xs| - 1], xs[|xs| - 1];
      KeySetSnoc(xs, key);
      assert xs == init + [last];
      var prev := Assign(init, key, value);
      SnocKeepsLastWins(init, last, key, value, prev);
      prev[key(last) := value(last)]
  }

  /** Assigning `last` on top of a map in which the last element of `init` per
      key wins gives one in which the last element of `init + [last]` per key
      wins. */
  lemma SnocKeepsLastWins<T>(init: seq<T>, last: T, key: T -> string, value: T -> string, prev: map<string, string>)
    requires forall i :: 0 <= i < |init| && IsLast(init, key, i) ==>
      key(init[i]) in prev && prev[key(init[i])] == value(init[i])
    ensures var xs, r := init + [last], prev[key(last) := value(last)];
      forall i :: 0 <= i < |xs| && IsLast(xs, key, i) ==> key(xs[i]) in r && r[key(xs[i])] == value(xs[i])
  {
    var xs, r := init + [last], prev[key(last) := value(last)];
    forall i | 0 <= i < |xs| && IsLast(xs, key, i) ensures key(xs[i]) in r && r[key(xs[i])] == value(xs[i]) {
      if i < |init| {
        assert xs[..|xs| - 1] == init;
        IsLastInInit(xs, key, i);
      }
    }
  }

  /** The keys of a list are the keys of all but its last element, plus the last one's. */
  lemma KeySetSnoc<T>(xs: seq<T>, key: T -> string)
    requires xs != []
    ensures KeySet(xs, key) == KeySet(xs[..|xs| - 1], key) + {key(xs[|xs| - 1])}
  {
  }

  /** An element that is last for its key stays so once the final element is dropped. */
  lemma IsLastInInit<T>(xs: seq<T>, key: T -> string, i: int)
    requires 0 <= i < |xs| - 1 && IsLast(xs, key, i)
    ensures IsLast(xs[..|xs| - 1], key, i)
    ensures key(xs[i]) != key(xs[|xs| - 1])
  {
  }

  /** Assigning `a` and then `b` leaves `b`'s assignments on top of `a`'s. */
  lemma {:induction false} AssignConcat<T>(a: seq<T>, b: seq<T>, key: T -> string, value: T -> string)
    ensures Assign(a + b, key, value) == Assign(a, key, value) + Assign(b, key, value)
    decreases |b|
  {
    if b == [] {
      assert a + b == a;
    } else {
      var binit, last := b[..|b| - 1], b[|b| - 1];
      assert (a + b)[..|a + b| - 1] == a + binit;
      assert (a + b)[|a + b| - 1] == last;
      AssignConcat(a, binit, key, value);
      UpdateOfUnion(Assign(a, key, value), Assign(binit, key, value), key(last), value(last));
    }
  }

  /** An element whose key is assigned again later has no effect: removing it
      leaves the map unchanged. */
  lemma ShadowedElementIgnored<T>(a: seq<T>, x: T, b: seq<T>, key: T -> string, value: T -> string)
    requires exists i :: 0 <= i < |b| && key(b[i]) == key(x)
    ensures Assign(a + [x] + b, key, value) == Assign(a + b, key, value)
  {
    var A, X, B := Assign(a, key, value), Assign([x], key, value), Assign(b, key, value);
    AssignConcat(a + [x], b, key, value);
    AssignConcat(a, [x], key, value);
    AssignConcat(a, b, key, value);
    var i :| 0 <= i < |b| && key(b[i]) == key(x);
    assert key(x) in KeySet(b, key);
    AssignSingleton(x, key, value);
    UnionAbsorbs(A, X, B);
  }

  /** Assigning one element gives a one-key map. */
  lemma AssignSingleton<T>(x: T, key: T -> string, value: T -> string)
    ensures Assign([x], key, value) == map[key(x) := value(x)]
  {
    assert [x][..0] == [];
  }

  /** Updating a union updates its right operand. */
  lemma UpdateOfUnion(A: map<string, string>, B: map<string, string>, k: string, v: string)
    ensures (A + B)[k := v] == A + B[k := v]
  {
  }

  /** On the right of a union, `B` hides everything `X` would add on keys it also has. */
  lemma UnionAbsorbs(A: map<string, string>, X: map<string, string>, B: map<string, string>)
    requires X.Keys <= B.Keys
    ensures (A + X) + B == A + B
  {
  }
}

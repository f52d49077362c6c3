/** The two array operations the stores apply to entity lists, keyed by an entity's id:
    `list.filter(e => e.id !== id)` and `list.find(e => e.id === selectedId) || null`. */
module JsArrays {
  import opened Types

  /** `xs.filter(x => key(x) !== id)`: the elements with another key, in their order
      (`WithoutAppend` states the order). */
  function Without<T(==,!new)>(xs: seq<T>, key: T -> string, id: string): (r: seq<T>)
    ensures forall x :: x in r <==> x in xs && key(x) != id
    ensures |r| <= |xs|
    ensures |r| < |xs| <==> exists x :: x in xs && key(x) == id
    ensures |r| == |xs| ==> r == xs
    decreases |xs|
  {
    if xs == [] then []
    else
      var rest := Without(xs[1..], key, id);
      assert forall x :: x in xs <==> x == xs[0] || x in xs[1..];
      if key(xs[0]) != id then [xs[0]] + rest else rest
  }

  /** Removing a key from a list with one more element at the end. */
  lemma {:induction false} WithoutAppend<T(!new)>(xs: seq<T>, x: T, key: T -> string, id: string)
    ensures Without(xs + [x], key, id) == Without(xs, key, id) + (if key(x) != id then [x] else [])
    decreases |xs|
  {
    if xs == [] {
      assert xs + [x] == [x];
    } else {
      assert (xs + [x])[1..] == xs[1..] + [x];
      WithoutAppend(xs[1..], x, key, id);
    }
  }

  /** The position of the first element whose key is `id`, or `|xs|` when there is none. */
  function FindIndex<T>(xs: seq<T>, key: T -> string, id: string): (k: nat)
    ensures k <= |xs|
    ensures k < |xs| ==> key(xs[k]) == id
    ensures forall j :: 0 <= j < k ==> key(xs[j]) != id
    decreases |xs|
  {
    if xs == [] then 0
    else if key(xs[0]) == id then 0
    else 1 + FindIndex(xs[1..], key, id)
  }

  /** `xs.find(x => key(x) === selected) || null`; no string equals `null`. */
  function Find<T>(xs: seq<T>, key: T -> string, selected: Nullable<string>): (r: Nullable<T>)
    ensures r.Null? <==> selected.Null? || forall j :: 0 <= j < |xs| ==> key(xs[j]) != selected.value
    ensures r.Some? ==> exists k :: 0 <= k < |xs| && xs[k] == r.value
    ensures r.Some? ==> key(r.value) == selected.value
    ensures r.Some? ==> xs[FindIndex(xs, key, selected.value)] == r.value
  {
    if selected.Null? then Null
    else
      var k := FindIndex(xs, key, selected.value);
      if k < |xs| then Some(xs[k]) else Null
  }
}

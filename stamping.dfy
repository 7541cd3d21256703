/** The two ways the code gives model output its identifiers: the client and the generating
    edge function overwrite every `id` with a fresh one, the refining edge function keeps a
    truthy `id` and draws a fresh one only where it is missing. */
module Stamping {
  import opened Js
  import opened Ids

  /** `{...e, id: id}`: the own properties of `e`, with `id` written last or replaced. */
  function WithId(e: Value, id: Value): (r: Value)
    ensures r.Obj? && Lookup(r, "id") == id
    ensures forall k :: k != "id" ==> Lookup(r, k) == FindProp(OwnEntries(e), k)
  {
    Obj(SetProp(OwnEntries(e), "id", id))
  }

  /** `v.map(...)` on a value that came out of `JSON.parse`: the elements of an array; reading
      `map` off null throws, and any other value has no callable `map`. */
  function Elements(v: Value, name: string): (r: Outcome<seq<Value>>)
    ensures r.Done? <==> v.Arr?
    ensures r.Done? ==> r.value == v.elems
  {
    if Nullish(v) then Threw(ErrorObj(ReadError(v, "map")))
    else if v.Arr? then Done(v.elems)
    else Threw(ErrorObj(name + ".map is not a function"))
  }

  /** `xs.map(e => ({...e, id: crypto.randomUUID()}))`, the oracle's calls numbered from
      `seed`: every element gets the next fresh identifier, whatever `id` it had. */
  function StampFresh(xs: seq<Value>, seed: nat): (r: seq<Value>)
    ensures |r| == |xs|
    ensures forall i :: 0 <= i < |r| ==> r[i].Obj? && Lookup(r[i], "id") == Str(FreshId(seed + i))
    ensures forall i, k :: 0 <= i < |r| && k != "id" ==> Lookup(r[i], k) == FindProp(OwnEntries(xs[i]), k)
  {
    seq(|xs|, i requires 0 <= i < |xs| => WithId(xs[i], Str(FreshId(seed + i))))
  }

  /** The identifiers `StampFresh` hands out differ from each other and from every identifier
      the oracle issued before `seed`. */
  lemma StampFreshDistinct(xs: seq<Value>, seed: nat)
    ensures forall i, j :: 0 <= i < j < |xs| ==>
              Lookup(StampFresh(xs, seed)[i], "id") != Lookup(StampFresh(xs, seed)[j], "id")
    ensures forall i, m: nat :: 0 <= i < |xs| && m < seed ==>
              Lookup(StampFresh(xs, seed)[i], "id") != Str(FreshId(m))
  {
    var r := StampFresh(xs, seed);
    forall i, j | 0 <= i < j < |xs| ensures Lookup(r[i], "id") != Lookup(r[j], "id") {
      FreshIdInjective(seed + i, seed + j);
    }
    forall i, m: nat | 0 <= i < |xs| && m < seed ensures Lookup(r[i], "id") != Str(FreshId(m)) {
      FreshIdInjective(seed + i, m);
    }
  }

  /** An element whose `id` is falsy (absent, empty, null, ...) and so is given a fresh one. */
  predicate NeedsId(x: Value) {
    !Truthy(Lookup(x, "id"))
  }

  /** How many of `xs` need an identifier. */
  function Missing(xs: seq<Value>): nat {
    if xs == [] then 0 else (if NeedsId(xs[0]) then 1 else 0) + Missing(xs[1..])
  }

  /** `x.id || crypto.randomUUID()` with the oracle's call numbered `seed`. */
  function IdFor(x: Value, seed: nat): Value {
    if NeedsId(x) then Str(FreshId(seed)) else Lookup(x, "id")
  }

  /** The identifiers `xs.map(e => ({...e, id: e.id || crypto.randomUUID()}))` gives its
      elements, the oracle's calls numbered from `seed`. Reading `id` off a null element throws. */
  function KeptIds(xs: seq<Value>, seed: nat): (r: Outcome<seq<Value>>)
    ensures r.Threw? <==> exists i :: 0 <= i < |xs| && Nullish(xs[i])
    ensures r.Done? ==> |r.value| == |xs|
  {
    if xs == [] then
      Done([])
    else if Nullish(xs[0]) then
      Threw(ErrorObj(ReadError(xs[0], "id")))
    else
      assert forall i :: 0 < i < |xs| ==> xs[i] == xs[1..][i - 1];
      match KeptIds(xs[1..], if NeedsId(xs[0]) then seed + 1 else seed)
      case Threw(t) => Threw(t)
      case Done(ids) => Done([IdFor(xs[0], seed)] + ids)
  }

  /** `xs.map(e => ({...e, id: e.id || crypto.randomUUID()}))`: each element with its truthy
      `id` kept or a fresh one written in; the oracle is then at call `seed + Missing(xs)`. */
  function StampMissing(xs: seq<Value>, seed: nat): (r: Outcome<seq<Value>>)
    ensures r.Threw? <==> exists i :: 0 <= i < |xs| && Nullish(xs[i])
    ensures r.Done? ==> |r.value| == |xs|
  {
    match KeptIds(xs, seed)
    case Threw(t) => Threw(t)
    case Done(ids) => Done(seq(|xs|, i requires 0 <= i < |xs| => WithId(xs[i], ids[i])))
  }

  /** The identifier of element `i`: its own truthy `id`, or the fresh identifier of the oracle
      call numbered by how many elements before it needed one. */
  lemma {:induction false} KeptIdAt(xs: seq<Value>, seed: nat, i: nat)
    requires KeptIds(xs, seed).Done? && i < |xs|
    ensures KeptIds(xs, seed).value[i] == IdFor(xs[i], seed + Missing(xs[..i]))
  {
    var next := if NeedsId(xs[0]) then seed + 1 else seed;
    var rest := KeptIds(xs[1..], next);
    assert rest.Done?;
    if i == 0 {
      assert xs[..0] == [];
    } else {
      assert KeptIds(xs, seed).value[i] == rest.value[i - 1];
      KeptIdAt(xs[1..], next, i - 1);
      assert xs[..i][1..] == xs[1..][..i - 1];
      assert xs[..i][0] == xs[0];
    }
  }

  /** Element `i` of the result keeps a truthy `id`, or else carries the fresh identifier of the
      oracle call numbered by how many elements before it needed one; every other property is
      the element's own. */
  lemma StampMissingAt(xs: seq<Value>, seed: nat, i: nat)
    requires StampMissing(xs, seed).Done? && i < |xs|
    ensures var y := StampMissing(xs, seed).value[i];
      y.Obj?
      && (!NeedsId(xs[i]) ==> Lookup(y, "id") == Lookup(xs[i], "id"))
      && (NeedsId(xs[i]) ==> Lookup(y, "id") == Str(FreshId(seed + Missing(xs[..i]))))
      && forall k :: k != "id" ==> Lookup(y, k) == FindProp(OwnEntries(xs[i]), k)
  {
    KeptIdAt(xs, seed, i);
    assert StampMissing(xs, seed).value[i] == WithId(xs[i], KeptIds(xs, seed).value[i]);
  }

  lemma {:induction false} AllMissing(xs: seq<Value>)
    requires forall i :: 0 <= i < |xs| ==> NeedsId(xs[i])
    ensures Missing(xs) == |xs|
  {
    if xs != [] {
      AllMissing(xs[1..]);
    }
  }

  /** Where no element carries an identifier, the refining policy is the overwriting one. */
  lemma StampMissingFresh(xs: seq<Value>, seed: nat)
    requires forall i :: 0 <= i < |xs| ==> !Nullish(xs[i]) && NeedsId(xs[i])
    ensures StampMissing(xs, seed) == Done(StampFresh(xs, seed))
  {
    var ids := KeptIds(xs, seed).value;
    forall i | 0 <= i < |xs| ensures StampMissing(xs, seed).value[i] == StampFresh(xs, seed)[i] {
      KeptIdAt(xs, seed, i);
      AllMissing(xs[..i]);
      assert ids[i] == Str(FreshId(seed + i));
      assert StampMissing(xs, seed).value[i] == WithId(xs[i], ids[i]);
      assert StampFresh(xs, seed)[i] == WithId(xs[i], Str(FreshId(seed + i)));
    }
    assert StampMissing(xs, seed).value == StampFresh(xs, seed);
  }

  /** Where every element carries a truthy identifier, the refining policy keeps them all and
      draws nothing from the oracle. */
  lemma KeepsPresentIds(xs: seq<Value>, seed: nat)
    requires forall i :: 0 <= i < |xs| ==> !Nullish(xs[i]) && !NeedsId(xs[i])
    ensures Missing(xs) == 0
    ensures StampMissing(xs, seed).Done?
    ensures forall i :: 0 <= i < |xs| ==> Lookup(StampMissing(xs, seed).value[i], "id") == Lookup(xs[i], "id")
  {
    NoneMissing(xs);
    forall i | 0 <= i < |xs| ensures Lookup(StampMissing(xs, seed).value[i], "id") == Lookup(xs[i], "id") {
      StampMissingAt(xs, seed, i);
    }
  }

  lemma {:induction false} NoneMissing(xs: seq<Value>)
    requires forall i :: 0 <= i < |xs| ==> !NeedsId(xs[i])
    ensures Missing(xs) == 0
  {
    if xs != [] {
      NoneMissing(xs[1..]);
    }
  }

  /** The fresh identifiers the refining policy draws differ from each other. */
  lemma StampMissingDistinct(xs: seq<Value>, seed: nat, i: nat, j: nat)
    requires StampMissing(xs, seed).Done?
    requires i < j < |xs| && NeedsId(xs[i]) && NeedsId(xs[j])
    ensures Lookup(StampMissing(xs, seed).value[i], "id") != Lookup(StampMissing(xs, seed).value[j], "id")
  {
    StampMissingAt(xs, seed, i);
    StampMissingAt(xs, seed, j);
    MissingGrows(xs, i, j);
    FreshIdInjective(seed + Missing(xs[..i]), seed + Missing(xs[..j]));
  }

  /** Past an element that needs an identifier, the count of such elements has gone up. */
  lemma {:induction false} MissingGrows(xs: seq<Value>, i: nat, j: nat)
    requires i < j <= |xs| && NeedsId(xs[i])
    ensures Missing(xs[..i]) < Missing(xs[..j])
  {
    if i == 0 {
      assert xs[..j][0] == xs[0];
      assert xs[..0] == [];
    } else {
      assert xs[..i][1..] == xs[1..][..i - 1];
      assert xs[..j][1..] == xs[1..][..j - 1];
      MissingGrows(xs[1..], i - 1, j - 1);
    }
  }
}

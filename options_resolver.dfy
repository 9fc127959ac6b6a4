// `createOptionsResolver` and `createOptionsResolverWithDefaults`
// (src/utils/options-resolver.ts): a prioritised lookup over a chain of option
// objects, later objects first, where an object answers for every key it owns.

module OptionsResolver {
  import opened Wrappers
  import Js

  /**
   * One options object: its own properties. A key that is present answers even when
   * its value is `undefined` (a value of `V` such as `Js.Undefined`). `None` in a
   * lookup result is a property that no object owns.
   */
  type Layer<V> = map<string, V>

  /** `_chain.flatMap(x => x ? [x] : [])`: the `null` entries dropped, the rest in order. */
  function Compact<V>(chain: seq<Option<Layer<V>>>): (c: seq<Layer<V>>)
    ensures |c| <= |chain|
    ensures forall i :: 0 <= i < |c| ==> Some(c[i]) in chain
    ensures forall i :: 0 <= i < |chain| && chain[i].Some? ==> chain[i].value in c
  {
    if chain == [] then []
    else
      var rest := Compact(chain[..|chain| - 1]);
      assert chain == chain[..|chain| - 1] + [chain[|chain| - 1]];
      match chain[|chain| - 1]
      case None => rest
      case Some(m) => rest + [m]
  }

  /** The value of the last object in `chain` that owns `key`. */
  function Owner<V>(chain: seq<Layer<V>>, key: string): Option<V> {
    if chain == [] then None
    else if key in chain[|chain| - 1] then Some(chain[|chain| - 1][key])
    else Owner(chain[..|chain| - 1], key)
  }

  /** The same lookup over the chain as given, passing over `null` entries. */
  function OwnerOfChain<V>(chain: seq<Option<Layer<V>>>, key: string): Option<V> {
    if chain == [] then None
    else match chain[|chain| - 1]
      case Some(m) => if key in m then Some(m[key]) else OwnerOfChain(chain[..|chain| - 1], key)
      case None => OwnerOfChain(chain[..|chain| - 1], key)
  }

  /** The resolver `createOptionsResolver(chain)` returns. */
  class Resolver<V> {
    const chain: seq<Layer<V>>

    constructor (chain: seq<Option<Layer<V>>>)
      ensures this.chain == Compact(chain)
    {
      this.chain := Compact(chain);
    }

    /** `resolver[property]`: scans from the last object back to the first. */
    method Get(property: string) returns (r: Option<V>)
      ensures r == Owner(chain, property)
    {
      r := Lookup(chain, property);
    }
  }

  /** The resolver `createOptionsResolverWithDefaults(chain, defaults)` returns. */
  class ResolverWithDefaults<V> {
    const chain: seq<Layer<V>>
    const defaults: Layer<V>

    constructor (chain: seq<Option<Layer<V>>>, defaults: Layer<V>)
      ensures this.chain == Compact(chain) && this.defaults == defaults
    {
      this.chain := Compact(chain);
      this.defaults := defaults;
    }

    /** `resolver[property]`: the owning object's value, or `defaults[property]` when none owns it. */
    method Get(property: string) returns (r: Option<V>)
      ensures r == Owner(chain, property).Or(if property in defaults then Some(defaults[property]) else None)
    {
      r := Lookup(chain, property);
      if r.None? && property in defaults {
        r := Some(defaults[property]);
      }
    }
  }

  /** The backward `for` loop with its early return. */
  method Lookup<V>(chain: seq<Layer<V>>, property: string) returns (r: Option<V>)
    ensures r == Owner(chain, property)
  {
    var i := |chain|;
    assert chain[..i] == chain;
    while i > 0
      invariant 0 <= i <= |chain|
      invariant Owner(chain, property) == Owner(chain[..i], property)
    {
      i := i - 1;
      assert chain[..i + 1][..i] == chain[..i];
      if property in chain[i] {
        return Some(chain[i][property]);
      }
    }
    return None;
  }

  // ---- properties ------------------------------------------------------------------------

  /** Dropping the `null` entries first changes no lookup. */
  lemma {:induction false} CompactOwner<V>(chain: seq<Option<Layer<V>>>, key: string)
    ensures Owner(Compact(chain), key) == OwnerOfChain(chain, key)
  {
    if chain != [] {
      var rest := Compact(chain[..|chain| - 1]);
      CompactOwner(chain[..|chain| - 1], key);
      match chain[|chain| - 1]
      case None =>
      case Some(m) =>
        assert (rest + [m])[..|rest|] == rest;
    }
  }

  /** Some object owns the key exactly when the lookup finds a value. */
  lemma {:induction false} OwnedIff<V>(chain: seq<Layer<V>>, key: string)
    ensures Owner(chain, key).Some? <==> exists j :: 0 <= j < |chain| && key in chain[j]
  {
    if chain != [] {
      var init := chain[..|chain| - 1];
      OwnedIff(init, key);
      if key !in chain[|chain| - 1] {
        forall j | 0 <= j < |chain| && key in chain[j] ensures 0 <= j < |init| && key in init[j] {
          assert init[j] == chain[j];
        }
        if exists j :: 0 <= j < |init| && key in init[j] {
          var j :| 0 <= j < |init| && key in init[j];
          assert chain[j] == init[j];
        }
      }
    }
  }

  /**
   * The last object owning the key decides, whatever earlier objects hold for it; the
   * value is taken whole, not combined with theirs.
   */
  lemma {:induction false} LastOwnerWins<V>(chain: seq<Layer<V>>, key: string, j: nat)
    requires j < |chain| && key in chain[j]
    requires forall l :: j < l < |chain| ==> key !in chain[l]
    ensures Owner(chain, key) == Some(chain[j][key])
  {
    if j < |chain| - 1 {
      var init := chain[..|chain| - 1];
      forall l | j < l < |init| ensures key !in init[l] {
        assert init[l] == chain[l];
      }
      LastOwnerWins(init, key, j);
    }
  }

  /**
   * A key owned by some object never falls through to the defaults, even when the
   * owner's value is `undefined`; an unowned key reads the defaults.
   */
  lemma DefaultsOnlyWhenUnowned<V>(chain: seq<Layer<V>>, defaults: Layer<V>, key: string)
    ensures var r := Owner(chain, key).Or(if key in defaults then Some(defaults[key]) else None);
      && ((exists j :: 0 <= j < |chain| && key in chain[j]) ==> r == Owner(chain, key))
      && ((forall j :: 0 <= j < |chain| ==> key !in chain[j]) ==> r == (if key in defaults then Some(defaults[key]) else None))
  {
    OwnedIff(chain, key);
  }

  /**
   * The repository's example: `{ foo, bar, baz: ['hello'] }`, `null`, `{ bar }` and
   * `{ baz: ['world'] }` give the first `foo`, the later `bar`, the last `baz` and
   * nothing for `no`. Array and object values are stood for by strings and numbers.
   */
  lemma ResolverExample()
    ensures var chain := [Some(map["foo" := Js.Str("foo"), "bar" := Js.Str("bar"), "baz" := Js.Str("hello")]),
                          None, Some(map["bar" := Js.Num(5678)]), Some(map["baz" := Js.Str("world")])];
      && OwnerOfChain(chain, "foo") == Some(Js.Str("foo"))
      && OwnerOfChain(chain, "bar") == Some(Js.Num(5678))
      && OwnerOfChain(chain, "baz") == Some(Js.Str("world"))
      && OwnerOfChain(chain, "no") == None
  {
    var chain := [Some(map["foo" := Js.Str("foo"), "bar" := Js.Str("bar"), "baz" := Js.Str("hello")]),
                  None, Some(map["bar" := Js.Num(5678)]), Some(map["baz" := Js.Str("world")])];
    var first := [chain[0]];
    assert [chain[0]][..0] == [];
    assert OwnerOfChain(first, "foo") == Some(Js.Str("foo"));
    assert OwnerOfChain(first, "no") == None;
    assert chain[..3][..2][..1] == first;
    assert chain[..3][..2] == [chain[0], chain[1]];
    assert chain[..3] == [chain[0], chain[1], chain[2]];
    assert "foo" !in chain[3].value && "foo" !in chain[2].value;
    assert "no" !in chain[3].value && "no" !in chain[2].value && "no" !in chain[0].value;
  }
}

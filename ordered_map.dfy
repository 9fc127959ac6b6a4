/**
 * A plain JavaScript object whose values are strings (`urlQueries`, `headers`):
 * its own properties in creation order. Assigning an existing key keeps its place
 * and replaces its value; assigning a new key appends it. Object spread
 * (`{...a, ...b}`) and lodash `_.merge` on such string leaves both assign the
 * entries of the later object, in order, onto the earlier one.
 */
module OrderedMap {
  import opened Wrappers

  type Entry = (string, string)
  type Map = seq<Entry>

  function KeysOf(m: Map): (ks: seq<string>)
    ensures |ks| == |m|
    ensures forall i :: 0 <= i < |m| ==> ks[i] == m[i].0
  {
    if m == [] then [] else [m[0].0] + KeysOf(m[1..])
  }

  /** No key occurs twice, as in any JavaScript object. */
  predicate Distinct(m: Map) {
    forall i, j :: 0 <= i < j < |m| ==> m[i].0 != m[j].0
  }

  /** `o[k]`: the value of an own property, or `undefined`. */
  function Get(m: Map, k: string): (r: Option<string>)
    ensures r.None? <==> k !in KeysOf(m)
  {
    if m == [] then None else if m[0].0 == k then Some(m[0].1) else Get(m[1..], k)
  }

  /** `o[k] = v`. */
  function Put(m: Map, k: string, v: string): Map {
    if m == [] then [(k, v)]
    else if m[0].0 == k then [(k, v)] + m[1..]
    else [m[0]] + Put(m[1..], k, v)
  }

  /** `{...dst, ...src}`, and `_.merge(dst, src)` on string values: src's entries assigned in order. */
  function Assign(dst: Map, src: Map): Map
    decreases |src|
  {
    if src == [] then dst else Assign(Put(dst, src[0].0, src[0].1), src[1..])
  }

  /** The keys of `src` that `dst` lacks, in `src`'s order, each once. */
  function NewKeys(dst: seq<string>, src: seq<string>): seq<string>
    decreases |src|
  {
    if src == [] then []
    else if src[0] in dst then NewKeys(dst, src[1..])
    else [src[0]] + NewKeys(dst + [src[0]], src[1..])
  }

  lemma {:induction false} PutKeys(m: Map, k: string, v: string)
    ensures KeysOf(Put(m, k, v)) == if k in KeysOf(m) then KeysOf(m) else KeysOf(m) + [k]
  {
    if m != [] && m[0].0 != k {
      PutKeys(m[1..], k, v);
      assert KeysOf(m) == [m[0].0] + KeysOf(m[1..]);
    }
  }

  /** Setting a new key appends it, as a JavaScript object orders its properties. */
  lemma {:induction false} PutAbsent(m: Map, k: string, v: string)
    requires k !in KeysOf(m)
    ensures Put(m, k, v) == m + [(k, v)]
  {
    if m != [] {
      assert KeysOf(m) == [m[0].0] + KeysOf(m[1..]);
      PutAbsent(m[1..], k, v);
      assert m == [m[0]] + m[1..];
    }
  }

  lemma {:induction false} PutGet(m: Map, k: string, v: string, k': string)
    ensures Get(Put(m, k, v), k') == if k' == k then Some(v) else Get(m, k')
  {
    if m != [] && m[0].0 != k {
      PutGet(m[1..], k, v, k');
    }
  }

  lemma {:induction false} PutDistinct(m: Map, k: string, v: string)
    requires Distinct(m)
    ensures Distinct(Put(m, k, v))
  {
    PutKeys(m, k, v);
    var r := Put(m, k, v);
    var ks := KeysOf(r);
    forall i, j | 0 <= i < j < |r| ensures r[i].0 != r[j].0 {
      assert ks[i] == r[i].0 && ks[j] == r[j].0;
      if k !in KeysOf(m) && j == |m| {
        assert ks[i] == KeysOf(m)[i];
      } else {
        assert ks[i] == KeysOf(m)[i] && ks[j] == KeysOf(m)[j];
        assert m[i].0 != m[j].0;
      }
    }
  }

  /**
   * Assignment keeps `dst`'s keys in place and appends the new keys of `src` in
   * `src`'s order; it never removes or duplicates a key.
   */
  lemma {:induction false} AssignKeys(dst: Map, src: Map)
    ensures KeysOf(Assign(dst, src)) == KeysOf(dst) + NewKeys(KeysOf(dst), KeysOf(src))
    decreases |src|
  {
    if src != [] {
      var (k, v) := src[0];
      PutKeys(dst, k, v);
      AssignKeys(Put(dst, k, v), src[1..]);
      assert KeysOf(src) == [k] + KeysOf(src[1..]);
      assert KeysOf(src)[1..] == KeysOf(src[1..]);
    }
  }

  lemma {:induction false} AssignDistinct(dst: Map, src: Map)
    requires Distinct(dst)
    ensures Distinct(Assign(dst, src))
    decreases |src|
  {
    if src != [] {
      PutDistinct(dst, src[0].0, src[0].1);
      AssignDistinct(Put(dst, src[0].0, src[0].1), src[1..]);
    }
  }

  /** A key of `src` reads `src`'s value afterwards; any other key keeps `dst`'s. */
  lemma {:induction false} AssignGet(dst: Map, src: Map, k: string)
    requires Distinct(src)
    ensures Get(Assign(dst, src), k) == Get(src, k).Or(Get(dst, k))
    decreases |src|
  {
    if src != [] {
      var (k0, v0) := src[0];
      assert Distinct(src[1..]) by {
        forall i, j | 0 <= i < j < |src[1..]| ensures src[1..][i].0 != src[1..][j].0 {
          assert src[1..][i] == src[i + 1] && src[1..][j] == src[j + 1];
        }
      }
      AssignGet(Put(dst, k0, v0), src[1..], k);
      PutGet(dst, k0, v0, k);
      if k == k0 {
        assert k !in KeysOf(src[1..]) by {
          forall i | 0 <= i < |src[1..]| ensures KeysOf(src[1..])[i] != k {
            assert src[1..][i] == src[i + 1];
          }
        }
      }
    }
  }

  /** Instance queries `{a: '1'}` with call queries `{b: '2'}` give `{a: '1', b: '2'}`. */
  lemma AssignAppendsExample()
    ensures Assign([("a", "1")], [("b", "2")]) == [("a", "1"), ("b", "2")]
  {
    assert Put([("a", "1")], "b", "2") == [("a", "1"), ("b", "2")];
  }
}

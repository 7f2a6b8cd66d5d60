/**
 * HTTP header multimaps (`http.Header`) and the `copyHeaders` helper of the
 * service package. Keys are taken as already canonical: Go canonicalises keys
 * in `Add` and `Get`, and every key the service uses is written canonically.
 */
module Headers {
  /** A header name maps to its values, in the order they were added. */
  type Header = map<string, seq<string>>

  /** The values recorded under `k`; none when the key is absent. */
  function Values(h: Header, k: string): seq<string> {
    if k in h then h[k] else []
  }

  /** `Header.Add`: append `v` to the values of `k`, leaving other keys alone. */
  function Add(h: Header, k: string, v: string): (r: Header)
    ensures k in r && Values(r, k) == Values(h, k) + [v]
  {
    h[k := Values(h, k) + [v]]
  }

  /** `Add` creates `k` if it was absent and touches no other key. */
  lemma AddKeepsOthers(h: Header, k: string, v: string)
    ensures Add(h, k, v).Keys == h.Keys + {k}
    ensures forall k' :: k' != k ==> Values(Add(h, k, v), k') == Values(h, k')
  {
  }

  /** `Header.Get`: the first value of `k`, or "" when it has none. */
  function Get(h: Header, k: string): (v: string)
    ensures Values(h, k) == [] ==> v == ""
    ensures Values(h, k) != [] ==> v == Values(h, k)[0]
  {
    if k in h && h[k] != [] then h[k][0] else ""
  }

  /**
   * The header `dst` becomes once every value of `src` has been added to it:
   * a key gains the values `src` lists for it, after its own. A key that `src`
   * lists with no values is not created.
   */
  function Merge(dst: Header, src: Header): Header {
    map k | k in dst.Keys + src.Keys && (k in dst || src[k] != []) :: Values(dst, k) + Values(src, k)
  }

  /** A key of the merge holds its values in `dst`, then those in `src`. */
  lemma MergeValues(dst: Header, src: Header)
    ensures forall k :: k in Merge(dst, src) <==> k in dst || (k in src && src[k] != [])
    ensures forall k :: Values(Merge(dst, src), k) == Values(dst, k) + Values(src, k)
  {
  }

  /** The entries of `src` whose keys are not in `todo`. */
  function Without(src: Header, todo: set<string>): Header {
    map k | k in src && k !in todo :: src[k]
  }

  /** Adding the values of one more key of `src` extends the merge by that key. */
  lemma MergeStep(dst: Header, src: Header, todo: set<string>, k: string)
    requires k in todo && k in src
    ensures Merge(dst, Without(src, todo - {k})) ==
            (if src[k] == [] then Merge(dst, Without(src, todo))
             else Merge(dst, Without(src, todo))[k := Values(Merge(dst, Without(src, todo)), k) + src[k]])
  {
    var m, m' := Merge(dst, Without(src, todo)), Merge(dst, Without(src, todo - {k}));
    var e := if src[k] == [] then m else m[k := Values(m, k) + src[k]];
    forall k' ensures (k' in m') == (k' in e) && Values(m', k') == Values(e, k') {
      MergeStepAt(dst, src, todo, k, k');
    }
    SameValuesSameHeader(m', e);
  }

  /** `MergeStep`, seen at one key `k'`. */
  lemma MergeStepAt(dst: Header, src: Header, todo: set<string>, k: string, k': string)
    requires k in todo && k in src
    ensures var m, m' := Merge(dst, Without(src, todo)), Merge(dst, Without(src, todo - {k}));
      var e := if src[k] == [] then m else m[k := Values(m, k) + src[k]];
      (k' in m') == (k' in e) && Values(m', k') == Values(e, k')
  {
    var w, w' := Without(src, todo), Without(src, todo - {k});
    var m, m' := Merge(dst, w), Merge(dst, w');
    WithoutStep(src, todo, k, k');
    assert Values(m, k') == Values(dst, k') + Values(w, k');
    assert Values(m', k') == Values(dst, k') + Values(w', k');
    if k' == k {
      assert Values(m, k') == Values(dst, k');
    }
  }

  /** Two headers with the same keys and the same values under each key are equal. */
  lemma SameValuesSameHeader(a: Header, b: Header)
    requires forall k :: (k in a) == (k in b) && Values(a, k) == Values(b, k)
    ensures a == b
  {
    forall k | k in a ensures a[k] == b[k] {
      assert Values(a, k) == Values(b, k);
    }
    assert a.Keys == b.Keys;
  }

  /** What removing `k` from the keys still to copy changes, seen at one key `k'`. */
  lemma WithoutStep(src: Header, todo: set<string>, k: string, k': string)
    requires k in todo && k in src
    ensures var w, w' := Without(src, todo), Without(src, todo - {k});
      if k' == k then Values(w', k') == src[k] && Values(w, k') == [] && (k' in w') && k' !in w
      else Values(w', k') == Values(w, k') && (k' in w') == (k' in w)
  {
  }

  /**
   * The inner loop of `copyHeaders`: `dst.Add(k, v)` for each `v` in `vv`, in
   * order.
   */
  method AddValues(h: Header, k: string, vv: seq<string>) returns (r: Header)
    ensures r == if vv == [] then h else h[k := Values(h, k) + vv]
  {
    r := h;
    var i := 0;
    while i < |vv|
      invariant 0 <= i <= |vv|
      invariant r == if i == 0 then h else h[k := Values(h, k) + vv[..i]]
    {
      assert vv[..i + 1] == vv[..i] + [vv[i]];
      ghost var prev := r;
      r := Add(r, k, vv[i]);
      if i == 0 {
        assert vv[..1] == [vv[0]];
      } else {
        assert Values(prev, k) == Values(h, k) + vv[..i];
        assert Values(prev, k) + [vv[i]] == Values(h, k) + vv[..i + 1];
        assert r == h[k := Values(h, k) + vv[..i]][k := Values(h, k) + vv[..i + 1]];
      }
      i := i + 1;
    }
    assert vv[..i] == vv;
  }

  /**
   * `copyHeaders(dst, src)`: for every key of `src`, and every value under it in
   * order, `dst.Add(key, value)`. Go mutates `dst` in place; here the updated
   * map is returned and the caller stores it back.
   */
  method CopyHeaders(dst: Header, src: Header) returns (r: Header)
    ensures forall k :: k in r <==> k in dst || (k in src && src[k] != [])
    ensures forall k :: Values(r, k) == Values(dst, k) + Values(src, k)
    ensures r == Merge(dst, src)
  {
    r := dst;
    var todo := src.Keys;
    assert Without(src, todo) == map[];
    assert Merge(dst, map[]) == dst by {
      var m := Merge(dst, map[]);
      assert m.Keys == dst.Keys;
      forall k | k in m ensures m[k] == dst[k] { assert m[k] == Values(m, k); }
    }
    while todo != {}
      invariant todo <= src.Keys
      invariant r == Merge(dst, Without(src, todo))
      decreases todo
    {
      var k :| k in todo;
      MergeStep(dst, src, todo, k);
      r := AddValues(r, k, src[k]);
      todo := todo - {k};
    }
    assert Without(src, {}) == src;
  }
}

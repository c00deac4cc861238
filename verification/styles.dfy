/**
 * The style composer (`createStyle` in bricks.tsx): override layers are
 * folded in order into an accumulator, a value being copied only when it is
 * truthy, and the folded result is spread over the global style.
 */
module Styles {
  import opened Values

  /** An inline style object: property name to value. */
  type StyleMap = map<string, Value>

  /** Layer `m` sets property `k`: it has the key with a truthy value. */
  predicate TruthyAt(m: StyleMap, k: string) {
    k in m && Truthy(m[k])
  }

  /** The entries of `m` that one pass of the inner loop copies. */
  function TruthyPart(m: StyleMap): (r: StyleMap)
    ensures forall k :: k in r <==> TruthyAt(m, k)
    ensures forall k :: k in r ==> k in m && r[k] == m[k]
  {
    map k | k in m && Truthy(m[k]) :: m[k]
  }

  /** The entries of `m` whose keys are in `ks`. */
  function Restrict(m: StyleMap, ks: set<string>): (r: StyleMap)
    ensures r.Keys == m.Keys * ks
    ensures forall k :: k in r ==> k in m && r[k] == m[k]
  {
    map k | k in m && k in ks :: m[k]
  }

  /** The accumulator `styleSum` after all of `layers` were folded into it, in order. */
  function Folded(layers: seq<StyleMap>): StyleMap {
    if |layers| == 0 then map[]
    else Folded(layers[..|layers| - 1]) + TruthyPart(layers[|layers| - 1])
  }

  /** The result of `createStyle(...layers)`: `{...globalStyle, ...styleSum}`. */
  function Composed(global: StyleMap, layers: seq<StyleMap>): StyleMap {
    global + Folded(layers)
  }

  /** Some layer sets `k`. */
  predicate SetInSome(layers: seq<StyleMap>, k: string) {
    exists i :: 0 <= i < |layers| && TruthyAt(layers[i], k)
  }

  /** Layer `i` sets `k` and no later layer does. */
  predicate LastSetAt(layers: seq<StyleMap>, i: int, k: string) {
    && 0 <= i < |layers|
    && TruthyAt(layers[i], k)
    && forall j :: i < j < |layers| ==> !TruthyAt(layers[j], k)
  }

  /**
   * The fold, characterised without the fold: a property is in the
   * accumulator iff some layer sets it, and then it holds the value of the
   * last layer that sets it.
   */
  lemma {:induction false} FoldedAt(layers: seq<StyleMap>, k: string)
    ensures k in Folded(layers) <==> SetInSome(layers, k)
    ensures forall i :: LastSetAt(layers, i, k) ==> Folded(layers)[k] == layers[i][k]
  {
    if |layers| > 0 {
      var n := |layers| - 1;
      var prefix := layers[..n];
      FoldedAt(prefix, k);
      if TruthyAt(layers[n], k) {
        assert SetInSome(layers, k);
        forall i | LastSetAt(layers, i, k) ensures i == n { }
      } else {
        if SetInSome(layers, k) {
          var i :| 0 <= i < |layers| && TruthyAt(layers[i], k);
          assert i < n && prefix[i] == layers[i];
        }
        if SetInSome(prefix, k) {
          var i :| 0 <= i < |prefix| && TruthyAt(prefix[i], k);
          assert layers[i] == prefix[i];
        }
        forall i | LastSetAt(layers, i, k)
          ensures Folded(layers)[k] == layers[i][k]
        {
          assert i < n;
          assert LastSetAt(prefix, i, k);
        }
      }
    }
  }

  /**
   * The key set of the result: every key of the global style, plus every key
   * that some override layer sets. Global values are kept verbatim, falsy
   * ones included, unless a layer sets the key.
   */
  lemma ComposedKeys(global: StyleMap, layers: seq<StyleMap>, k: string)
    ensures k in Composed(global, layers) <==> k in global || SetInSome(layers, k)
    ensures k in global && !SetInSome(layers, k) ==> Composed(global, layers)[k] == global[k]
    ensures forall i :: LastSetAt(layers, i, k) ==> Composed(global, layers)[k] == layers[i][k]
  {
    FoldedAt(layers, k);
  }

  /**
   * A layer that does not set `k` (absent, undefined, "", 0 or false) never
   * overwrites what the earlier layers and the global style produced.
   */
  lemma FalsyNeverOverwrites(global: StyleMap, layers: seq<StyleMap>, layer: StyleMap, k: string)
    requires !TruthyAt(layer, k)
    ensures k in Composed(global, layers + [layer]) <==> k in Composed(global, layers)
    ensures k in Composed(global, layers) ==>
              Composed(global, layers + [layer])[k] == Composed(global, layers)[k]
  {
  }

  /**
   * The three layers `proccessProps` passes, custom then theme then
   * intrinsic: intrinsic wins over theme, theme over custom, custom over the
   * global style, and only a truthy value takes part.
   */
  lemma Precedence(global: StyleMap, custom: StyleMap, theme: StyleMap, intrinsic: StyleMap, k: string)
    ensures k in Composed(global, [custom, theme, intrinsic]) <==>
              k in global || TruthyAt(custom, k) || TruthyAt(theme, k) || TruthyAt(intrinsic, k)
    ensures k in Composed(global, [custom, theme, intrinsic]) ==>
              Composed(global, [custom, theme, intrinsic])[k] ==
                if TruthyAt(intrinsic, k) then intrinsic[k]
                else if TruthyAt(theme, k) then theme[k]
                else if TruthyAt(custom, k) then custom[k]
                else global[k]
  {
    var layers := [custom, theme, intrinsic];
    assert layers[..2] == [custom, theme];
    assert [custom, theme][..1] == [custom];
    assert [custom][..0] == [];
    assert Folded([custom]) == TruthyPart(custom);
    assert Folded([custom, theme]) == TruthyPart(custom) + TruthyPart(theme);
    assert Folded(layers) == TruthyPart(custom) + TruthyPart(theme) + TruthyPart(intrinsic);
  }

  /** One turn of the inner loop of `createStyle`: entry `key` is copied iff truthy. */
  lemma CopyStep(before: StyleMap, style: StyleMap, done: set<string>, key: string)
    requires key in style
    ensures before + TruthyPart(Restrict(style, done + {key})) ==
              if Truthy(style[key]) then (before + TruthyPart(Restrict(style, done)))[key := style[key]]
              else before + TruthyPart(Restrict(style, done))
  {
  }

  /**
   * The inner loop of `createStyle`: every truthy entry of `style` is written
   * into the accumulator, overwriting what it held for that key.
   */
  method CopyTruthyEntries(styleSum: StyleMap, style: StyleMap) returns (r: StyleMap)
    ensures r == styleSum + TruthyPart(style)
  {
    r := styleSum;
    var todo := style.Keys;
    while todo != {}
      invariant todo <= style.Keys
      invariant r == styleSum + TruthyPart(Restrict(style, style.Keys - todo))
      decreases todo
    {
      var key :| key in todo;
      ghost var done := style.Keys - todo;
      CopyStep(styleSum, style, done, key);
      if Truthy(style[key]) {
        r := r[key := style[key]];
      }
      todo := todo - {key};
      assert style.Keys - todo == done + {key};
    }
    assert Restrict(style, style.Keys) == style;
  }

  /**
   * `createStyle`: folds each layer's truthy entries into `styleSum`, layer
   * after layer, then spreads `styleSum` over the global style.
   */
  method CreateStyle(global: StyleMap, layers: seq<StyleMap>) returns (r: StyleMap)
    ensures r == Composed(global, layers)
  {
    var styleSum: StyleMap := map[];
    var i := 0;
    while i < |layers|
      invariant 0 <= i <= |layers|
      invariant styleSum == Folded(layers[..i])
    {
      styleSum := CopyTruthyEntries(styleSum, layers[i]);
      assert layers[..i + 1][..i] == layers[..i];
      i := i + 1;
    }
    assert layers[..i] == layers;
    r := global + styleSum;
  }
}

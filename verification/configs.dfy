/**
 * Configuration resolution: `createBricks` overlays the caller's partial
 * configuration on the defaults (`merge(defaultConfig, config)`). For the
 * scalar style values the configuration holds, this is a two-level overlay:
 * the global style key by key, the theme brick by brick and, within a
 * brick, key by key.
 */
module Configs {
  import opened Wrappers
  import opened Values
  import opened Styles
  import opened Names

  datatype Config = Config(globalStyle: StyleMap, theme: map<Brick, StyleMap>)

  datatype PartialConfig = PartialConfig(globalStyle: Option<StyleMap>, theme: Option<map<Brick, StyleMap>>)

  /** `defaultConfig`: an empty global style and an empty theme. */
  const DefaultConfig: Config := Config(map[], map[])

  /** The partial configuration `{}` that `createBricks()` receives by default. */
  const NoConfig: PartialConfig := PartialConfig(None, None)

  /** Per-brick overlay of two themes: a brick in both gets its style maps overlaid. */
  function MergeTheme(base: map<Brick, StyleMap>, over: map<Brick, StyleMap>): map<Brick, StyleMap> {
    map b | b in base.Keys + over.Keys ::
      if b in base && b in over then base[b] + over[b]
      else if b in over then over[b]
      else base[b]
  }

  /** A theme's entry for one brick, empty when the theme has none. */
  function ThemeEntry(theme: map<Brick, StyleMap>, b: Brick): StyleMap {
    if b in theme then theme[b] else map[]
  }

  /** `theme?.[brick] ?? {}`: the theme layer of one brick in a configuration. */
  function ThemeLayer(c: Config, b: Brick): StyleMap {
    ThemeEntry(c.theme, b)
  }

  /**
   * `merge(defaults, partial)`: a global property the partial sets takes the
   * partial's value, and every other global property keeps the default; a
   * brick's theme property likewise takes the partial's value when the
   * partial sets it and keeps the default's otherwise.
   */
  function Resolve(defaults: Config, partial: PartialConfig): (r: Config)
    ensures forall k :: k in r.globalStyle <==> k in defaults.globalStyle || k in partial.globalStyle.GetOr(map[])
    ensures forall k :: k in partial.globalStyle.GetOr(map[]) ==>
              r.globalStyle[k] == partial.globalStyle.GetOr(map[])[k]
    ensures forall k :: k in defaults.globalStyle && k !in partial.globalStyle.GetOr(map[]) ==>
              r.globalStyle[k] == defaults.globalStyle[k]
    ensures forall b :: b in r.theme <==> b in defaults.theme || b in partial.theme.GetOr(map[])
    ensures forall b, k :: k in ThemeEntry(r.theme, b) <==>
              k in ThemeEntry(defaults.theme, b) || k in ThemeEntry(partial.theme.GetOr(map[]), b)
    ensures forall b, k :: k in ThemeEntry(partial.theme.GetOr(map[]), b) ==>
              ThemeEntry(r.theme, b)[k] == ThemeEntry(partial.theme.GetOr(map[]), b)[k]
    ensures forall b, k :: k in ThemeEntry(defaults.theme, b) && k !in ThemeEntry(partial.theme.GetOr(map[]), b) ==>
              ThemeEntry(r.theme, b)[k] == ThemeEntry(defaults.theme, b)[k]
  {
    Config(defaults.globalStyle + partial.globalStyle.GetOr(map[]),
           MergeTheme(defaults.theme, partial.theme.GetOr(map[])))
  }

  /** Merging the same partial configuration a second time changes nothing. */
  lemma ResolveIdempotent(defaults: Config, partial: PartialConfig)
    ensures Resolve(Resolve(defaults, partial), partial) == Resolve(defaults, partial)
  {
    var once := Resolve(defaults, partial);
    var twice := Resolve(once, partial);
    var over := partial.theme.GetOr(map[]);
    assert twice.globalStyle == once.globalStyle;
    forall b | b in twice.theme ensures twice.theme[b] == once.theme[b] {
      if b in over {
        assert once.theme[b] + over[b] == once.theme[b];
      }
    }
    assert twice.theme == once.theme;
  }

  /** An empty partial configuration leaves the defaults as they are. */
  lemma ResolveNothing(defaults: Config)
    ensures Resolve(defaults, NoConfig) == defaults
  {
  }
}

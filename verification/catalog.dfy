/**
 * The brick catalogue that `createBricks` returns: each brick computes an
 * intrinsic style layer from its own props and passes it, with its brick
 * and category, through `proccessProps`, which builds the class string and
 * composes custom style, theme layer and intrinsic layer over the global
 * style. Only the style and class attributes are modelled, not the markup.
 */
module Catalog {
  import opened Wrappers
  import opened Values
  import opened Styles
  import opened Names
  import opened ClassLists
  import opened Configs

  /** The props every brick reads in `proccessProps`. */
  datatype Common = Common(
    customStyle: Option<StyleMap>,
    classList: Option<seq<string>>,
    align: Option<Position>,
    justify: Option<Position>)

  /** The style props of the layout bricks. */
  datatype LayoutFields = LayoutFields(gap: Value, curve: Value, background: Value)

  /**
   * The brick-specific props that reach the style. `matches` is the value of
   * `observer.matches` when a fixed-wrap layout is built, as the browser
   * evaluates the query `(max-width: <wrap>px)`.
   */
  datatype BrickProps =
    | HeadingProps(color: Value)
    | SubHeadingProps(color: Value)
    | TextProps(color: Value)
    | BoldProps(weight: Value, color: Value)
    | LinkProps(href: string, color: Value)
    | ImageProps(src: string, width: int, height: int)
    | ImageAdaptiveProps(src: string)
    | ImageContainerProps(src: string)
    | VideoProps(src: string)
    | VideoEmbedProps(embed: string)
    | ContainerResponsiveProps(layout: LayoutFields, verticalPadding: Value, horizontalPadding: Value)
    | VerticalLayoutProps(layout: LayoutFields)
    | HorizontalLayoutProps(layout: LayoutFields)
    | WrapLayoutProps(layout: LayoutFields)
    | FixedWrapLayoutProps(layout: LayoutFields, wrap: int, matches: bool)

  /** The brick identifier each catalogue entry passes to `proccessProps`. */
  function BrickOf(p: BrickProps): Brick {
    match p
    case HeadingProps(_) => Heading
    case SubHeadingProps(_) => SubHeading
    case TextProps(_) => Text
    case BoldProps(_, _) => Bold
    case LinkProps(_, _) => Link
    case ImageProps(_, _, _) => Image
    case ImageAdaptiveProps(_) => ImageAdaptive
    case ImageContainerProps(_) => ImageContainer
    case VideoProps(_) => Video
    case VideoEmbedProps(_) => VideoEmbed
    case ContainerResponsiveProps(_, _, _) => Container
    case VerticalLayoutProps(_) => VerticalLayout
    case HorizontalLayoutProps(_) => HorizontalLayout
    case WrapLayoutProps(_) => WrapLayout
    case FixedWrapLayoutProps(_, _, _) => FixedWrapLayout
  }

  /** The category each catalogue entry passes with its brick. */
  function CategoryOf(b: Brick): (c: Category)
    ensures c == CategoryText <==> b in {Heading, SubHeading, Text}
    ensures c == CategoryTextChild <==> b in {Bold, Link}
    ensures c == CategoryImage <==> b in {Image, ImageAdaptive, ImageContainer}
    ensures c == CategoryVideo <==> b in {Video, VideoEmbed}
    ensures c == CategoryLayout <==> b in {Container, VerticalLayout, HorizontalLayout, WrapLayout, FixedWrapLayout}
  {
    match b
    case Heading | SubHeading | Text => CategoryText
    case Bold | Link => CategoryTextChild
    case Image | ImageAdaptive | ImageContainer => CategoryImage
    case Video | VideoEmbed => CategoryVideo
    case Container | VerticalLayout | HorizontalLayout | WrapLayout | FixedWrapLayout => CategoryLayout
  }

  /** `staticRem`: rem units to pixels at 16px per rem. */
  function StaticRem(input: int): int {
    input * 16
  }

  /** `flex-direction` of a fixed-wrap layout: `column` when the media query matches. */
  function DirectionFor(matches: bool): Value {
    Str(if matches then "column" else "row")
  }

  /** The three properties every layout brick computes; gap and radius are always truthy. */
  function LayoutStyle(l: LayoutFields): (r: StyleMap)
    ensures r.Keys == {"gap", "background-color", "border-radius"}
    ensures Truthy(r["gap"]) && Truthy(r["border-radius"]) && r["background-color"] == l.background
  {
    map["gap" := Template(l.gap, "rem"),
        "background-color" := l.background,
        "border-radius" := Template(l.curve, "px")]
  }

  /** Heading, sub-heading and text: the `color` prop as it is, undefined included. */
  function ColorStyle(color: Value): (r: StyleMap)
    ensures r.Keys == {"color"} && r["color"] == color
  {
    map["color" := color]
  }

  /** Bold: the color, and the weight or `bolder` when the weight is omitted. */
  function BoldStyle(weight: Value, color: Value): (r: StyleMap)
    ensures r.Keys == {"color", "font-weight"} && r["color"] == color
    ensures weight.Undefined? ==> r["font-weight"] == Str("bolder")
    ensures !weight.Undefined? ==> r["font-weight"] == weight
  {
    map["color" := color, "font-weight" := Coalesce(weight, Str("bolder"))]
  }

  /** Link: the color, or `#0000ff`; falsy only for a given falsy color. */
  function LinkStyle(color: Value): (r: StyleMap)
    ensures r.Keys == {"color"}
    ensures Truthy(r["color"]) <==> color.Undefined? || Truthy(color)
    ensures color.Undefined? ==> r["color"] == Str("#0000ff")
  {
    map["color" := Coalesce(color, Str("#0000ff"))]
  }

  /** Image: a square of `staticRem(width)` pixels, always truthy. */
  function ImageStyle(width: int): (r: StyleMap)
    ensures r.Keys == {"width", "height"} && r["width"] == r["height"] && Truthy(r["width"])
    ensures r["width"] == Str(IntText(16 * width) + "px")
  {
    map["width" := Template(Num(StaticRem(width)), "px"),
        "height" := Template(Num(StaticRem(width)), "px")]
  }

  /** Image container: the source as a CSS `url(...)`, always truthy. */
  function ImageContainerStyle(src: string): (r: StyleMap)
    ensures r.Keys == {"background-image"} && Truthy(r["background-image"])
  {
    map["background-image" := Str("url(\"" + src + "\")")]
  }

  /** Responsive container: the layout properties and four always-truthy paddings in `vw`. */
  function ContainerStyle(layout: LayoutFields, vertical: Value, horizontal: Value): (r: StyleMap)
    ensures r.Keys == LayoutStyle(layout).Keys + {"padding-top", "padding-bottom", "padding-left", "padding-right"}
    ensures forall k :: k in LayoutStyle(layout) ==> r[k] == LayoutStyle(layout)[k]
    ensures Truthy(r["padding-top"]) && Truthy(r["padding-bottom"])
    ensures Truthy(r["padding-left"]) && Truthy(r["padding-right"])
  {
    LayoutStyle(layout) + map[
      "padding-top" := Template(vertical, "vw"),
      "padding-bottom" := Template(vertical, "vw"),
      "padding-left" := Template(horizontal, "vw"),
      "padding-right" := Template(horizontal, "vw")]
  }

  /** Fixed-wrap layout: the layout properties and the direction the query selects. */
  function FixedWrapStyle(layout: LayoutFields, matches: bool): (r: StyleMap)
    ensures r.Keys == LayoutStyle(layout).Keys + {"flex-direction"}
    ensures forall k :: k in LayoutStyle(layout) ==> r[k] == LayoutStyle(layout)[k]
    ensures Truthy(r["flex-direction"]) && r["flex-direction"] == DirectionFor(matches)
  {
    LayoutStyle(layout)["flex-direction" := DirectionFor(matches)]
  }

  /**
   * Each brick's intrinsic style object, the last argument of its
   * `proccessProps` call. Every layout's `gap` and `border-radius` are
   * truthy, so they always override; the media bricks add nothing.
   */
  function IntrinsicStyle(p: BrickProps): (r: StyleMap)
    ensures p.ContainerResponsiveProps? || p.VerticalLayoutProps? || p.HorizontalLayoutProps?
            || p.WrapLayoutProps? || p.FixedWrapLayoutProps? ==>
              && TruthyAt(r, "gap") && TruthyAt(r, "border-radius")
              && "background-color" in r && r["background-color"] == p.layout.background
    ensures p.ImageAdaptiveProps? || p.VideoProps? || p.VideoEmbedProps? ==> r == map[]
  {
    match p
    case HeadingProps(color) => ColorStyle(color)
    case SubHeadingProps(color) => ColorStyle(color)
    case TextProps(color) => ColorStyle(color)
    case BoldProps(weight, color) => BoldStyle(weight, color)
    case LinkProps(_, color) => LinkStyle(color)
    case ImageProps(_, width, _) => ImageStyle(width)
    case ImageAdaptiveProps(_) => map[]
    case ImageContainerProps(src) => ImageContainerStyle(src)
    case VideoProps(_) => map[]
    case VideoEmbedProps(_) => map[]
    case ContainerResponsiveProps(layout, vertical, horizontal) => ContainerStyle(layout, vertical, horizontal)
    case VerticalLayoutProps(layout) => LayoutStyle(layout)
    case HorizontalLayoutProps(layout) => LayoutStyle(layout)
    case WrapLayoutProps(layout) => LayoutStyle(layout)
    case FixedWrapLayoutProps(layout, _, matches) => FixedWrapStyle(layout, matches)
  }

  /** The three override layers `proccessProps` hands to `createStyle`, in order. */
  function Layers(config: Config, brick: Brick, common: Common, intrinsic: StyleMap): seq<StyleMap> {
    [common.customStyle.GetOr(map[]), ThemeLayer(config, brick), intrinsic]
  }

  /** What `proccessProps` returns. */
  datatype Processed = Processed(classList: string, style: StyleMap)

  /** `proccessProps`: the class string and the composed style of one brick. */
  method ProcessProps(css: CssModules, config: Config, brick: Brick, category: Category,
                      common: Common, intrinsic: StyleMap) returns (out: Processed)
    ensures out.classList == ClassString(css, common.classList, brick, category, common.align, common.justify)
    ensures out.style == Composed(config.globalStyle, Layers(config, brick, common, intrinsic))
  {
    var tokens := PropsClassList(css, common.classList, brick, category, common.align, common.justify);
    var style := CreateStyle(config.globalStyle, Layers(config, brick, common, intrinsic));
    out := Processed(CreateClassList(css, tokens), style);
  }

  /**
   * The style a brick's element receives: the composed style, except that
   * the horizontal layout spreads its raw layout props over it once more.
   */
  function RenderedStyle(config: Config, common: Common, p: BrickProps): (r: StyleMap)
    ensures config.globalStyle.Keys <= r.Keys
    ensures p.HorizontalLayoutProps? ==>
              forall k :: k in LayoutStyle(p.layout) ==> k in r && r[k] == LayoutStyle(p.layout)[k]
  {
    var composed := Composed(config.globalStyle, Layers(config, BrickOf(p), common, IntrinsicStyle(p)));
    if p.HorizontalLayoutProps? then composed + LayoutStyle(p.layout) else composed
  }

  /** One brick of the catalogue: its class string and the style of its element. */
  method Render(css: CssModules, config: Config, common: Common, p: BrickProps) returns (out: Processed)
    ensures out.classList
              == ClassString(css, common.classList, BrickOf(p), CategoryOf(BrickOf(p)), common.align, common.justify)
    ensures out.style == RenderedStyle(config, common, p)
  {
    out := ProcessProps(css, config, BrickOf(p), CategoryOf(BrickOf(p)), common, IntrinsicStyle(p));
    if p.HorizontalLayoutProps? {
      out := out.(style := out.style + LayoutStyle(p.layout));
    }
  }

  /**
   * The value the theme, custom style and global style give `k` for brick
   * `b`, without the intrinsic layer.
   */
  function Inherited(config: Config, common: Common, b: Brick, k: string): Option<Value> {
    var custom := common.customStyle.GetOr(map[]);
    var theme := ThemeLayer(config, b);
    if TruthyAt(theme, k) then Some(theme[k])
    else if TruthyAt(custom, k) then Some(custom[k])
    else if k in config.globalStyle then Some(config.globalStyle[k])
    else None
  }

  /**
   * For every brick, except for the three properties the horizontal layout
   * spreads a second time: a property the brick's own layer sets takes that
   * value, and one it does not set keeps what the theme, custom style or
   * global style gives it, or stays absent.
   */
  lemma {:induction false} RenderedAt(config: Config, common: Common, p: BrickProps, k: string)
    requires !p.HorizontalLayoutProps? || k !in LayoutStyle(p.layout)
    ensures TruthyAt(IntrinsicStyle(p), k) ==>
              k in RenderedStyle(config, common, p) && RenderedStyle(config, common, p)[k] == IntrinsicStyle(p)[k]
    ensures !TruthyAt(IntrinsicStyle(p), k) ==>
              (k in RenderedStyle(config, common, p) <==> Inherited(config, common, BrickOf(p), k).Some?)
    ensures !TruthyAt(IntrinsicStyle(p), k) && k in RenderedStyle(config, common, p) ==>
              RenderedStyle(config, common, p)[k] == Inherited(config, common, BrickOf(p), k).value
  {
    Precedence(config.globalStyle, common.customStyle.GetOr(map[]), ThemeLayer(config, BrickOf(p)), IntrinsicStyle(p), k);
  }

  /**
   * Heading, sub-heading and text without a `color` prop (or with an empty
   * one) keep the color that the theme, custom style or global style gives;
   * with a color it wins over all of them.
   */
  lemma TextColor(config: Config, common: Common, p: BrickProps)
    requires p.HeadingProps? || p.SubHeadingProps? || p.TextProps?
    ensures !Truthy(p.color) ==>
              ("color" in RenderedStyle(config, common, p) <==> Inherited(config, common, BrickOf(p), "color").Some?)
    ensures !Truthy(p.color) && "color" in RenderedStyle(config, common, p) ==>
              RenderedStyle(config, common, p)["color"] == Inherited(config, common, BrickOf(p), "color").value
    ensures Truthy(p.color) ==> "color" in RenderedStyle(config, common, p) && RenderedStyle(config, common, p)["color"] == p.color
  {
    RenderedAt(config, common, p, "color");
  }

  /**
   * Bold: an omitted weight renders as `bolder`, whatever the theme says;
   * a weight of 0 is falsy and leaves the inherited `font-weight`.
   */
  lemma BoldWeight(config: Config, common: Common, color: Value, weight: Value)
    ensures weight == Undefined ==>
              "font-weight" in RenderedStyle(config, common, BoldProps(weight, color)) &&
              RenderedStyle(config, common, BoldProps(weight, color))["font-weight"] == Str("bolder")
    ensures weight == Num(0) ==>
              ("font-weight" in RenderedStyle(config, common, BoldProps(weight, color)) <==>
                 Inherited(config, common, Bold, "font-weight").Some?)
    ensures weight == Num(0) && "font-weight" in RenderedStyle(config, common, BoldProps(weight, color)) ==>
              RenderedStyle(config, common, BoldProps(weight, color))["font-weight"]
                == Inherited(config, common, Bold, "font-weight").value
  {
    RenderedAt(config, common, BoldProps(weight, color), "font-weight");
  }

  /**
   * Link: an omitted color renders as `#0000ff`, so a theme or custom color
   * for links takes effect only when the prop is the empty string.
   */
  lemma LinkColor(config: Config, common: Common, href: string, color: Value)
    ensures color == Undefined ==>
              "color" in RenderedStyle(config, common, LinkProps(href, color)) &&
              RenderedStyle(config, common, LinkProps(href, color))["color"] == Str("#0000ff")
    ensures Truthy(color) ==>
              "color" in RenderedStyle(config, common, LinkProps(href, color)) &&
              RenderedStyle(config, common, LinkProps(href, color))["color"] == color
    ensures color == Str("") && "color" in RenderedStyle(config, common, LinkProps(href, color)) ==>
              Inherited(config, common, Link, "color") == Some(RenderedStyle(config, common, LinkProps(href, color))["color"])
  {
    RenderedAt(config, common, LinkProps(href, color), "color");
  }

  /** Image: width and height are both `16 * width` pixels; the `height` prop plays no part. */
  lemma ImageSize(config: Config, common: Common, src: string, width: int, height: int)
    ensures "width" in RenderedStyle(config, common, ImageProps(src, width, height)) &&
            RenderedStyle(config, common, ImageProps(src, width, height))["width"] == Str(IntText(16 * width) + "px")
    ensures "height" in RenderedStyle(config, common, ImageProps(src, width, height)) &&
            RenderedStyle(config, common, ImageProps(src, width, height))["height"] == Str(IntText(16 * width) + "px")
    ensures forall h :: RenderedStyle(config, common, ImageProps(src, width, h))
                          == RenderedStyle(config, common, ImageProps(src, width, height))
  {
  }

  /**
   * Layout bricks: `gap` is always the brick's own `${gap}rem`, undefined gap
   * included, so a theme gap never reaches a layout.
   */
  lemma LayoutGap(config: Config, common: Common, p: BrickProps)
    requires p.ContainerResponsiveProps? || p.VerticalLayoutProps? || p.HorizontalLayoutProps?
          || p.WrapLayoutProps? || p.FixedWrapLayoutProps?
    ensures "gap" in RenderedStyle(config, common, p) &&
            RenderedStyle(config, common, p)["gap"] == Str(ValueText(p.layout.gap) + "rem")
  {
    assert IntrinsicStyle(p)["gap"] == Template(p.layout.gap, "rem");
    if !p.HorizontalLayoutProps? {
      RenderedAt(config, common, p, "gap");
    }
  }

  /**
   * Background color: the vertical layout keeps an inherited background
   * when its own is undefined, while the horizontal layout's second spread
   * puts its raw `background` there, undefined included.
   */
  lemma LayoutBackground(config: Config, common: Common, layout: LayoutFields)
    ensures "background-color" in RenderedStyle(config, common, HorizontalLayoutProps(layout)) &&
            RenderedStyle(config, common, HorizontalLayoutProps(layout))["background-color"] == layout.background
    ensures !Truthy(layout.background) ==>
              ("background-color" in RenderedStyle(config, common, VerticalLayoutProps(layout)) <==>
                 Inherited(config, common, VerticalLayout, "background-color").Some?)
    ensures !Truthy(layout.background) && "background-color" in RenderedStyle(config, common, VerticalLayoutProps(layout)) ==>
              RenderedStyle(config, common, VerticalLayoutProps(layout))["background-color"]
                == Inherited(config, common, VerticalLayout, "background-color").value
  {
    RenderedAt(config, common, VerticalLayoutProps(layout), "background-color");
  }

  /**
   * Horizontal layout: `gap`, `background-color` and `border-radius` are
   * the raw layout values whatever the other layers hold.
   */
  lemma HorizontalRespread(config: Config, common: Common, layout: LayoutFields)
    ensures forall k :: k in LayoutStyle(layout) ==>
              k in RenderedStyle(config, common, HorizontalLayoutProps(layout)) &&
              RenderedStyle(config, common, HorizontalLayoutProps(layout))[k] == LayoutStyle(layout)[k]
    ensures "border-radius" in RenderedStyle(config, common, HorizontalLayoutProps(layout)) &&
            RenderedStyle(config, common, HorizontalLayoutProps(layout))["border-radius"] == Template(layout.curve, "px")
  {
  }

  /** Fixed-wrap layout: the first render's `flex-direction` is `column` iff the query matches. */
  lemma FixedWrapDirection(config: Config, common: Common, layout: LayoutFields, wrap: int, matches: bool)
    ensures "flex-direction" in RenderedStyle(config, common, FixedWrapLayoutProps(layout, wrap, matches)) &&
            RenderedStyle(config, common, FixedWrapLayoutProps(layout, wrap, matches))["flex-direction"]
              == Str(if matches then "column" else "row")
  {
  }

  /** The demo page's configuration: Inter everywhere, red text. */
  const DemoConfig: PartialConfig :=
    PartialConfig(Some(map["font-family" := Str("Inter")]), Some(map[Text := map["color" := Str("#ff0000")]]))

  /** A `Text` without props on the demo page is Inter and red, and has nothing else. */
  lemma DemoText()
    ensures RenderedStyle(Resolve(DefaultConfig, DemoConfig), Common(None, None, None, None), TextProps(Undefined))
              == map["font-family" := Str("Inter"), "color" := Str("#ff0000")]
  {
    var config := Resolve(DefaultConfig, DemoConfig);
    var common := Common(None, None, None, None);
    var r := RenderedStyle(config, common, TextProps(Undefined));
    assert ThemeLayer(config, Text) == map["color" := Str("#ff0000")];
    assert config.globalStyle == map["font-family" := Str("Inter")];
    forall k ensures k in r <==> k == "font-family" || k == "color" {
      RenderedAt(config, common, TextProps(Undefined), k);
    }
    RenderedAt(config, common, TextProps(Undefined), "font-family");
    RenderedAt(config, common, TextProps(Undefined), "color");
  }
}

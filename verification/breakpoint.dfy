/**
 * The one piece of live state in the catalogue: a fixed-wrap layout's
 * element, whose `flex-direction` the media-query change listener writes
 * directly, outside style composition. The browser's query evaluation is
 * the `matches` input.
 */
module Breakpoint {
  import opened Wrappers
  import opened Values
  import opened Styles
  import opened Names
  import opened ClassLists
  import opened Configs
  import opened Catalog

  /**
   * `(max-width: <wrap>px)`, the query the layout observes: for a
   * non-negative threshold the digits between prefix and unit read back as
   * the threshold.
   */
  function MediaQuery(wrap: int): (q: string)
    ensures |q| > 15 && q[..12] == "(max-width: " && q[|q| - 3..] == "px)"
    ensures wrap >= 0 ==> IsDigits(q[12..|q| - 3]) && DigitsValue(q[12..|q| - 3]) == wrap
  {
    var q := "(max-width: " + IntText(wrap) + "px)";
    assert wrap >= 0 ==> q[12..|q| - 3] == NatText(wrap);
    DigitsValueOfNatText(if wrap >= 0 then wrap else 0);
    q
  }

  /** The rendered element of a `FixedWrapLayout`, reached through `ref`. */
  class FixedWrapElement {
    /** `ref.style`: the inline style of the element */
    var style: StyleMap
    const classList: string
    /** the media query the element's observer was created with */
    const query: string

    /** The element's current `flex-direction`. */
    function FlexDirection(): Value
      reads this
    {
      if "flex-direction" in style then style["flex-direction"] else Undefined
    }

    /** Renders the layout with the query's value at construction time. */
    constructor (css: CssModules, config: Config, common: Common, layout: LayoutFields, wrap: int, matches: bool)
      ensures style == RenderedStyle(config, common, FixedWrapLayoutProps(layout, wrap, matches))
      ensures classList == ClassString(css, common.classList, FixedWrapLayout, CategoryOf(FixedWrapLayout),
                                       common.align, common.justify)
      ensures FlexDirection() == DirectionFor(matches)
      ensures query == MediaQuery(wrap)
    {
      query := MediaQuery(wrap);
      var p := FixedWrapLayoutProps(layout, wrap, matches);
      assert BrickOf(p) == FixedWrapLayout && CategoryOf(FixedWrapLayout) == CategoryLayout;
      FixedWrapDirection(config, common, layout, wrap, matches);
      var rendered := Render(css, config, common, p);
      style := rendered.style;
      classList := rendered.classList;
    }

    /**
     * The change listener: sets `flex-direction` from the query's current
     * value and leaves every other property and the class list alone.
     */
    method OnChange(matches: bool)
      modifies this
      ensures style == old(style)["flex-direction" := DirectionFor(matches)]
      ensures FlexDirection() == DirectionFor(matches)
      ensures forall k :: k != "flex-direction" ==> (k in style <==> k in old(style))
      ensures forall k :: k != "flex-direction" && k in style ==> style[k] == old(style)[k]
    {
      if matches {
        style := style["flex-direction" := Str("column")];
      } else {
        style := style["flex-direction" := Str("row")];
      }
    }
  }

  /**
   * Whatever the sequence of change events, the direction afterwards is the
   * mapping of the last query value, and every other property is as rendered.
   */
  method ReplayChanges(element: FixedWrapElement, events: seq<bool>)
    requires |events| >= 1
    modifies element
    ensures element.FlexDirection() == DirectionFor(events[|events| - 1])
    ensures forall k :: k != "flex-direction" ==> (k in element.style <==> k in old(element.style))
    ensures forall k :: k != "flex-direction" && k in element.style ==> element.style[k] == old(element.style)[k]
  {
    var i := 0;
    while i < |events|
      invariant 0 <= i <= |events|
      invariant i > 0 ==> element.FlexDirection() == DirectionFor(events[i - 1])
      invariant forall k :: k != "flex-direction" ==> (k in element.style <==> k in old(element.style))
      invariant forall k :: k != "flex-direction" && k in element.style ==> element.style[k] == old(element.style)[k]
    {
      element.OnChange(events[i]);
      i := i + 1;
    }
  }
}

# Brick style and class composition, modelled in Dafny

This project models the engine inside `createBricks` (bricks.tsx), the factory
of a themable catalogue of UI building blocks ("bricks"). Each brick routes its
props through one shared path, `proccessProps`, which produces two results:

- **the style**: `createStyle` folds three override layers over an accumulator,
  in the order custom style, then the brick's theme entry, then the brick's
  intrinsic style. A value is copied only when it is truthy. The result is then
  spread over the configuration's global style.
- **the class string**: the shared `brick` token, the caller's extra classes, the
  brick's token, the category's token, the alignment token and the
  justification token, joined with single spaces.

The model also covers:

- configuration resolution: the partial configuration overlaid on the defaults;
- the intrinsic style object of every brick in the catalogue;
- the horizontal layout's second spread of its raw layout props;
- the Link brick's click decision;
- the fixed-wrap layout's `flex-direction`. The media-query listener writes it
  straight onto the rendered element.

Modules, one per component:

- `Wrappers`: `Option`.
- `Values`: style values (undefined, string, number, boolean), JavaScript
  truthiness, and template-literal text.
- `Styles`: style maps, the specification of the fold (`Folded`, `Composed`),
  the imperative `CreateStyle` proved against it, and the precedence lemmas.
- `Names`: the `Category`, `Brick` and `Position` enumerations and the
  alignment and justification tables.
- `ClassLists`: the CSS modules as injected lookup tables, `join(" ")` and
  `split(" ")`, and the class string.
- `Configs`: the configuration and its resolution.
- `Catalog`: brick props, intrinsic styles, `ProcessProps`, `Render`, per-brick
  lemmas, and the demo page's configuration.
- `Links`: the Link click handler.
- `Breakpoint`: the fixed-wrap layout's element as a class with a mutable style.

## Model

| member | source | states |
|---|---|---|
| `Values.Truthy` | bricks.tsx:112 | The values the `if (value)` guard rejects are exactly undefined, `""`, `0` and `false`; every other string, number and boolean passes |
| `Values.Template` | bricks.tsx:366-373 | A template literal with a non-empty unit suffix (`rem`, `px`, `vw`) yields a non-empty, hence truthy, string even when the inserted prop is undefined; the result ends with the suffix |
| `Styles.CopyTruthyEntries` | bricks.tsx:111-113 | The inner loop over a layer's entries leaves the accumulator overlaid with exactly that layer's entries whose value is truthy, with their values; falsy entries are skipped |
| `Styles.CreateStyle` | bricks.tsx:106-120 | `createStyle` with its two loops returns the global style overlaid with the in-order fold of the layers' truthy entries |
| `Styles.FoldedAt` | bricks.tsx:108-114 | A property is in the accumulator iff some layer sets it to a truthy value, and it then holds the value of the last layer that does |
| `Styles.ComposedKeys` | bricks.tsx:111-119 | The result's keys are the global style's keys plus every key some layer sets truthy; a global value is kept verbatim, falsy or not, unless a layer sets that key |
| `Styles.FalsyNeverOverwrites` | bricks.tsx:112 | Appending a layer whose value for a key is absent, undefined, `""`, `0` or `false` changes neither the presence nor the value of that key |
| `Styles.Precedence` | bricks.tsx:140-144 | With the three layers `proccessProps` passes: intrinsic wins over theme, theme over custom, custom over global, and only truthy values take part; the key set is global keys plus truthy keys of the three layers |
| `Names.PositionTables` | bricks.tsx:73-93 | The alignment and justification tables cover all four positions and tell them apart; the defaults resolve to `alignStretch` and `justifyStart` |
| `Names.BrickNamesDistinct` | bricks.tsx:21-37 | Distinct bricks are looked up in the CSS module under distinct names |
| `ClassLists.CreateClassListTokens` | bricks.tsx:102-104 | `createClassList` puts the shared `brick` token first, then the given tokens in order; with space-free tokens, splitting the result gives one segment each, an undefined token as an empty one |
| `ClassLists.PropsClassList` | bricks.tsx:128-135 | The token array has the extra classes in order, then the brick's token, the category's token, the alignment token (`alignStretch` when `align` is omitted) and the justification token (`justifyStart` when omitted): always `|extra| + 4` entries |
| `ClassLists.SplitJoin` | bricks.tsx:103 | Joining space-free tokens with `" "` loses and merges nothing: splitting on spaces gives the tokens back in order, empty ones included |
| `ClassLists.ClassStringOrder` | bricks.tsx:128-135 | The class string is the join of: `brick` token, extra classes in order, brick token, category token, alignment token (default `stretch`), justification token (default `start`); a missing lookup is an empty segment |
| `ClassLists.ClassStringTokens` | bricks.tsx:128-138 | With space-free tokens, splitting the class string yields exactly those segments in that order, always `|extra| + 5` of them: no deduplication |
| `ClassLists.MissingTokensKeepSeparators` | bricks.tsx:128-135 | With empty CSS modules and no extra classes the class string is four spaces: every missing token leaves its separators and nothing fails |
| `Configs.Resolve` | bricks.tsx:100 | A global property the partial config sets takes its value and every other keeps the default; within each brick's theme entry likewise, property by property |
| `Configs.ResolveIdempotent` | bricks.tsx:100 | Merging the same partial config twice gives the same result as merging it once |
| `Configs.ResolveNothing` | bricks.tsx:76-79 | `createBricks()` with no config keeps the defaults: empty global style and empty theme |
| `Catalog.CategoryOf` | bricks.tsx:149-463 | Each brick is rendered with its category: Heading, SubHeading and Text with `Category.Text`; Bold and Link with `TextChild`; Image, ImageAdaptive and ImageContainer with `Image`; Video and VideoEmbed with `Video`; Container and the four layouts with `Layout` |
| `Catalog.ColorStyle` | bricks.tsx:154-156 | The Heading, SubHeading and Text layer is exactly `color`, holding the raw prop, undefined included |
| `Catalog.LayoutStyle` | bricks.tsx:389-393 | A layout's own layer sets exactly `gap`, `background-color` and `border-radius`; `gap` and `border-radius` are always truthy (a unit suffix follows the prop), the background is the raw prop |
| `Catalog.BoldStyle` | bricks.tsx:209-213 | Bold's layer sets exactly `color` and `font-weight`; an omitted weight becomes `bolder`, any given weight (even `0`) is kept |
| `Catalog.LinkStyle` | bricks.tsx:228-230 | Link's layer sets only `color`; it is truthy iff the prop is omitted or truthy, and an omitted color becomes `#0000ff` |
| `Catalog.ImageStyle` | bricks.tsx:266-269 | Image's layer sets exactly `width` and `height`, both equal to `staticRem(width)` pixels, i.e. `16 * width` followed by `px`, and always truthy |
| `Catalog.ImageContainerStyle` | bricks.tsx:297-299 | The image container's layer sets only `background-image`, always truthy |
| `Catalog.ContainerStyle` | bricks.tsx:365-374 | The responsive container's layer is the layout properties plus four paddings, each always truthy |
| `Catalog.FixedWrapStyle` | bricks.tsx:457-462 | The fixed-wrap layer is the layout properties plus a truthy `flex-direction`, `column` iff the query matches |
| `Catalog.IntrinsicStyle` | bricks.tsx:149-463 | Every layout brick's own layer carries a truthy `gap` and `border-radius` and its raw background; image-adaptive, video and video-embed contribute an empty layer |
| `Catalog.ProcessProps` | bricks.tsx:122-146 | Returns the class string of the brick and the composition of custom style (`{}` if none), the brick's theme entry (`{}` if none) and the intrinsic layer over the global style |
| `Catalog.Render` | bricks.tsx:148-476 | Each brick's element receives the class string of its brick and category and the composed style, with the horizontal layout's raw layout props spread over it once more |
| `Catalog.RenderedStyle` | bricks.tsx:403-428 | Every key of the global style is present in a brick's style; the horizontal layout's `gap`, `background-color` and `border-radius` are its raw layout values whatever the other layers hold |
| `Catalog.HorizontalRespread` | bricks.tsx:416-422 | The horizontal layout's three layout properties, `border-radius` included, are the raw values after the second spread, even when falsy |
| `Catalog.RenderedAt` | bricks.tsx:137-145 | For every brick, and for the horizontal layout on every key it does not spread twice: a property the brick's own layer sets truthy takes that value; any other property takes the theme's, else the custom style's, else the global value, else is absent |
| `Catalog.TextColor` | bricks.tsx:149-201 | Heading, sub-heading and text without a color keep the inherited color (theme over custom over global); a given color wins |
| `Catalog.BoldWeight` | bricks.tsx:204-214 | Bold with no weight renders `font-weight: bolder` whatever the theme says; weight `0` is falsy and keeps the inherited weight |
| `Catalog.LinkColor` | bricks.tsx:223-231 | Link with no color renders `#0000ff`, so a theme link color applies only when the prop is `""`; a given color wins |
| `Catalog.ImageSize` | bricks.tsx:254-270 | Image width and height are both `16 * width` px; the `height` prop does not affect the style |
| `Catalog.LayoutGap` | bricks.tsx:361-463 | Every layout's `gap` is its own `${gap}rem`, undefined gap included, so a theme gap never reaches a layout |
| `Catalog.LayoutBackground` | bricks.tsx:403-428 | The horizontal layout's background is always its raw prop, undefined included (it erases the theme's); the vertical layout keeps the inherited background when its own is falsy |
| `Catalog.FixedWrapDirection` | bricks.tsx:449-463 | The first render's `flex-direction` is `column` iff the media query matches, else `row`, whatever the theme says |
| `Catalog.DemoText` | test/src/index.tsx:7-16 | On the demo configuration a `Text` with no props is exactly `font-family: Inter` and `color: #ff0000` |
| `Links.OnClick` | bricks.tsx:233-245 | Default navigation is always prevented; a parse failure throws `Cannot find <href>` and calls no router method; otherwise exactly one call with `href`, `update` iff the target resource is the current one, else `redirect` |
| `Links.NeverBoth` | bricks.tsx:240-244 | No click calls both `update` and `redirect`, and none makes more than one router call |
| `Breakpoint.MediaQuery` | bricks.tsx:451 | The observed query is `(max-width: ` then the threshold's digits then `px)`; for a non-negative threshold the digits read back as the threshold |
| `Breakpoint.FixedWrapElement.constructor` | bricks.tsx:449-463 | The element starts with the rendered style and class string, its direction is `column` iff the query matched, and it keeps the query it observes |
| `Breakpoint.FixedWrapElement.OnChange` | bricks.tsx:465-468 | A change event sets `flex-direction` to `column` if the query now matches, else `row`, and changes nothing else |
| `Breakpoint.ReplayChanges` | bricks.tsx:465-468 | After any non-empty series of change events the direction reflects the last query value and every other property is unchanged |

## Left out

- Markup: the JSX elements, children, `src`, `alt`, `controls`, `muted`, `autoplay`, `allow` and `href` attributes. Also where a brick puts its style and class: ImageAdaptive puts the style on the inner `img` and the class on the wrapper `div`. All of this is the UI framework's concern; only the `style` and `class` values are modelled.
- The CSS files (`standard.css`, the two CSS modules): their generated tokens are the injected lookup tables of `ClassLists.CssModules`.
- Property order: JavaScript objects keep insertion order; style maps here are unordered. The composed object lists the global style's keys first, then the layers' keys in the order they were first set (bricks.tsx:116-118), and the renderer applies the properties in that key order. So when a CSS shorthand and one of its longhands are both set (say a global `border-top-left-radius` and a layout's `border-radius`), the later one decides the rendered value; the model does not capture what this order decides.
- Numbers are integers. Non-integer and NaN values, and JavaScript's float-to-text formatting, are not modelled.
- `Values.IntText`: the text matches JavaScript's only for integers of magnitude at most 2^53. Larger integers are mostly not JavaScript numbers, and JavaScript prints those that are with rounded trailing digits (`${2**60}` is `1152921504606847000`). So integers beyond 2^53, and their text, are not modelled. This also affects `Catalog.ImageStyle` and `Catalog.ImageSize` when `16 * width` exceeds 2^53.
- `null` as a prop value is not modelled; props are either present or undefined.
- `Configs.Resolve`: only the overlay of the two levels the configuration has (global style; theme, then brick, then property) is stated. Three lodash `merge` behaviours are not modelled: deeper recursion, arrays, and skipping `undefined` source values when the destination has the key.
- `merge` mutates its first argument, the module-level `defaultConfig`, and returns it. So every catalogue shares one configuration object, and a later `createBricks` call sees, and changes, the settings of earlier ones. Resolution is modelled as a pure function of the defaults and the partial configuration.
- Theme keys are typed by the `Brick` enumeration. The code does not check them at run time, and neither does the model.
- `console.log` in `createStyle` is output only.
- The router library: `parseUrl`, `currentUrl`, `update` and `redirect` are inputs or recorded calls. The thrown `Error` is modelled by its message.
- `window.matchMedia`: query evaluation is the `matches` input; the query text is kept in `FixedWrapElement.query`. Listener registration is implicit in `OnChange`. The code never removes the listener, so no disposal is modelled.
- Two behaviours of the code, modelled as written:
  - `createClassList` puts the shared `brick` token before the caller's extra classes (bricks.tsx:103).
  - The change listener is registered once per render and never removed (bricks.tsx:465-468).

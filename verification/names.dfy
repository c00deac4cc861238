/**
 * The closed enumerations of bricks.tsx: categories, bricks and alignment
 * positions, with the strings the source's enums carry. Those strings are
 * the keys under which the CSS modules are looked up.
 */
module Names {

  datatype Category = CategoryText | CategoryTextChild | CategoryLayout | CategoryImage | CategoryVideo

  datatype Brick =
    | Heading | SubHeading | Text | Bold | Link
    | Image | ImageAdaptive | ImageContainer
    | Video | VideoEmbed
    | Container | VerticalLayout | HorizontalLayout | WrapLayout | FixedWrapLayout

  datatype Position = Start | Center | End | Stretch

  function CategoryName(c: Category): string {
    match c
    case CategoryText => "categoryText"
    case CategoryTextChild => "categoryTextChild"
    case CategoryLayout => "categoryLayout"
    case CategoryImage => "categoryImage"
    case CategoryVideo => "categoryVideo"
  }

  function BrickName(b: Brick): string {
    match b
    case Heading => "heading"
    case SubHeading => "subHeading"
    case Text => "text"
    case Bold => "bold"
    case Link => "link"
    case Image => "image"
    case ImageAdaptive => "imageAdaptive"
    case ImageContainer => "imageContainer"
    case Video => "video"
    case VideoEmbed => "videoEmbed"
    case Container => "container"
    case VerticalLayout => "verticalLayout"
    case HorizontalLayout => "horizontalLayout"
    case WrapLayout => "wrapLayout"
    case FixedWrapLayout => "fixedWrapLayout"
  }

  const DefaultAlign: Position := Stretch
  const DefaultJustify: Position := Start

  /** `alignClasses`: the backbone class name for each alignment position. */
  function AlignClassName(p: Position): string {
    match p
    case Start => "alignStart"
    case Center => "alignCenter"
    case End => "alignEnd"
    case Stretch => "alignStretch"
  }

  /** `justifyClasses`: the backbone class name for each justification position. */
  function JustifyClassName(p: Position): string {
    match p
    case Start => "justifyStart"
    case Center => "justifyCenter"
    case End => "justifyEnd"
    case Stretch => "justifyStretch"
  }

  /**
   * Both tables are total over the four positions and tell them apart, and
   * no alignment class is a justification class; the defaults are
   * `stretch` and `start`.
   */
  lemma PositionTables(p: Position, q: Position)
    ensures AlignClassName(p) == AlignClassName(q) <==> p == q
    ensures JustifyClassName(p) == JustifyClassName(q) <==> p == q
    ensures AlignClassName(p) != JustifyClassName(q)
    ensures AlignClassName(DefaultAlign) == "alignStretch" && JustifyClassName(DefaultJustify) == "justifyStart"
  {
  }

  /** Distinct bricks are looked up under distinct names. */
  lemma BrickNamesDistinct(a: Brick, b: Brick)
    ensures BrickName(a) == BrickName(b) <==> a == b
  {
  }
}

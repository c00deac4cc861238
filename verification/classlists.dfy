/**
 * The class-list builder: `proccessProps` assembles the class tokens of a
 * brick and `createClassList` puts the shared `brick` class in front and
 * joins them with single spaces. The CSS modules are opaque lookup tables
 * from a class name to a generated class token; a name they lack yields
 * `undefined`, which `Array.prototype.join` renders as an empty segment.
 */
module ClassLists {
  import opened Wrappers
  import opened Names

  /** The two imported CSS modules, `bricks.module.css` and `backbone.module.css`. */
  datatype CssModules = CssModules(bricksStyle: map<string, string>, backboneStyle: map<string, string>)

  /** `module[name]`: the generated token, or undefined. */
  function Lookup(m: map<string, string>, name: string): Option<string> {
    if name in m then Some(m[name]) else None
  }

  /** How `join` renders one element: undefined becomes the empty string. */
  function Segment(t: Option<string>): string {
    t.GetOr("")
  }

  function Segments(ts: seq<Option<string>>): (r: seq<string>)
    ensures |r| == |ts|
    ensures forall i :: 0 <= i < |ts| ==> r[i] == Segment(ts[i])
  {
    seq(|ts|, i requires 0 <= i < |ts| => Segment(ts[i]))
  }

  function Present(ts: seq<string>): (r: seq<Option<string>>)
    ensures |r| == |ts|
    ensures forall i :: 0 <= i < |ts| ==> r[i] == Some(ts[i])
  {
    seq(|ts|, i requires 0 <= i < |ts| => Some(ts[i]))
  }

  /** `parts.join(" ")`. */
  function Join(parts: seq<string>): string {
    if |parts| == 0 then ""
    else if |parts| == 1 then parts[0]
    else parts[0] + " " + Join(parts[1..])
  }

  /** `s.split(" ")`: the pieces between single spaces, empty pieces kept. */
  function Split(s: string): (r: seq<string>)
    ensures |r| >= 1
  {
    if s == [] then [""]
    else
      var rest := Split(s[1..]);
      if s[0] == ' ' then [""] + rest
      else [[s[0]] + rest[0]] + rest[1..]
  }

  predicate NoSpace(t: string) {
    ' ' !in t
  }

  /** Splitting text that starts with a space-free word extends the first piece by that word. */
  lemma {:induction false} SplitWord(w: string, t: string)
    requires NoSpace(w)
    ensures Split(w + t) == [w + Split(t)[0]] + Split(t)[1..]
  {
    if w != [] {
      assert (w + t)[1..] == w[1..] + t;
      assert NoSpace(w[1..]) by {
        forall i | 0 <= i < |w[1..]| ensures w[1..][i] != ' ' {
          assert w[1..][i] == w[i + 1];
        }
      }
      SplitWord(w[1..], t);
      assert [w[0]] + (w[1..] + Split(t)[0]) == w + Split(t)[0];
    } else {
      assert w + t == t;
      assert w + Split(t)[0] == Split(t)[0];
      assert [Split(t)[0]] + Split(t)[1..] == Split(t);
    }
  }

  /**
   * Joining space-free tokens with single spaces can be undone: the tokens,
   * empty ones included, are read back in order and none is lost or merged.
   */
  lemma {:induction false} SplitJoin(parts: seq<string>)
    requires |parts| >= 1
    requires forall i :: 0 <= i < |parts| ==> NoSpace(parts[i])
    ensures Split(Join(parts)) == parts
  {
    if |parts| == 1 {
      SplitWord(parts[0], "");
      assert parts[0] + "" == parts[0];
    } else {
      var rest := Join(parts[1..]);
      SplitJoin(parts[1..]);
      assert (" " + rest)[1..] == rest;
      assert Split(" " + rest) == [""] + parts[1..];
      assert parts[0] + " " + rest == parts[0] + (" " + rest);
      SplitWord(parts[0], " " + rest);
      assert parts[0] + "" == parts[0];
      assert [parts[0]] + parts[1..] == parts;
    }
  }

  /** `createClassList`: the shared `brick` token, then the given tokens, joined. */
  function CreateClassList(css: CssModules, classList: seq<Option<string>>): string {
    Join(Segments([Lookup(css.bricksStyle, "brick")] + classList))
  }

  /**
   * `createClassList` puts the shared `brick` token in front of the given
   * tokens, in order, one segment each, an undefined token as an empty one.
   */
  lemma CreateClassListTokens(css: CssModules, classList: seq<Option<string>>)
    requires NoSpace(Segment(Lookup(css.bricksStyle, "brick")))
    requires forall i :: 0 <= i < |classList| ==> NoSpace(Segment(classList[i]))
    ensures Split(CreateClassList(css, classList)) == [Segment(Lookup(css.bricksStyle, "brick"))] + Segments(classList)
  {
    var parts := Segments([Lookup(css.bricksStyle, "brick")] + classList);
    assert parts == [Segment(Lookup(css.bricksStyle, "brick"))] + Segments(classList);
    SplitJoin(parts);
  }

  /**
   * The token array `proccessProps` builds: the caller's extra classes, the
   * brick's token, the category's token, the alignment token and the
   * justification token, an omitted position falling back to its default.
   */
  function PropsClassList(css: CssModules, extra: Option<seq<string>>, brick: Brick, category: Category,
                          align: Option<Position>, justify: Option<Position>): (r: seq<Option<string>>)
    ensures |r| == |extra.GetOr([])| + 4
    ensures forall i :: 0 <= i < |extra.GetOr([])| ==> r[i] == Some(extra.GetOr([])[i])
    ensures r[|extra.GetOr([])|] == Lookup(css.bricksStyle, BrickName(brick))
    ensures r[|extra.GetOr([])| + 1] == Lookup(css.backboneStyle, CategoryName(category))
    ensures r[|extra.GetOr([])| + 2] ==
              Lookup(css.backboneStyle, if align.None? then "alignStretch" else AlignClassName(align.value))
    ensures r[|extra.GetOr([])| + 3] ==
              Lookup(css.backboneStyle, if justify.None? then "justifyStart" else JustifyClassName(justify.value))
  {
    Present(extra.GetOr([])) + [
      Lookup(css.bricksStyle, BrickName(brick)),
      Lookup(css.backboneStyle, CategoryName(category)),
      Lookup(css.backboneStyle, AlignClassName(align.GetOr(DefaultAlign))),
      Lookup(css.backboneStyle, JustifyClassName(justify.GetOr(DefaultJustify)))
    ]
  }

  /** The `class` attribute of a brick. */
  function ClassString(css: CssModules, extra: Option<seq<string>>, brick: Brick, category: Category,
                       align: Option<Position>, justify: Option<Position>): string
  {
    CreateClassList(css, PropsClassList(css, extra, brick, category, align, justify))
  }

  /** The six kinds of segment of a class string, in their fixed order. */
  function ExpectedSegments(css: CssModules, extra: Option<seq<string>>, brick: Brick, category: Category,
                            align: Option<Position>, justify: Option<Position>): seq<string>
  {
    [Segment(Lookup(css.bricksStyle, "brick"))]
    + extra.GetOr([])
    + [Segment(Lookup(css.bricksStyle, BrickName(brick))),
       Segment(Lookup(css.backboneStyle, CategoryName(category))),
       Segment(Lookup(css.backboneStyle, AlignClassName(align.GetOr(Stretch)))),
       Segment(Lookup(css.backboneStyle, JustifyClassName(justify.GetOr(Start))))]
  }

  /**
   * The class string is the `brick` token, the extra tokens in order, the
   * brick's token, the category's token, the alignment token and the
   * justification token, joined by single spaces; a token the modules lack
   * leaves an empty segment and both its separators.
   */
  lemma ClassStringOrder(css: CssModules, extra: Option<seq<string>>, brick: Brick, category: Category,
                         align: Option<Position>, justify: Option<Position>)
    ensures ClassString(css, extra, brick, category, align, justify)
              == Join(ExpectedSegments(css, extra, brick, category, align, justify))
  {
    SegmentsInOrder(css, extra, brick, category, align, justify);
  }

  lemma SegmentsAppend(a: seq<Option<string>>, b: seq<Option<string>>)
    ensures Segments(a + b) == Segments(a) + Segments(b)
  {
  }

  lemma SegmentsPresent(ts: seq<string>)
    ensures Segments(Present(ts)) == ts
  {
  }

  /** The rendered segments of the shared token and the token array are the expected ones. */
  lemma SegmentsInOrder(css: CssModules, extra: Option<seq<string>>, brick: Brick, category: Category,
                        align: Option<Position>, justify: Option<Position>)
    ensures Segments([Lookup(css.bricksStyle, "brick")] + PropsClassList(css, extra, brick, category, align, justify))
              == ExpectedSegments(css, extra, brick, category, align, justify)
  {
    var e := extra.GetOr([]);
    var brickToken := Lookup(css.bricksStyle, "brick");
    var tail := [Lookup(css.bricksStyle, BrickName(brick)),
                 Lookup(css.backboneStyle, CategoryName(category)),
                 Lookup(css.backboneStyle, AlignClassName(align.GetOr(DefaultAlign))),
                 Lookup(css.backboneStyle, JustifyClassName(justify.GetOr(DefaultJustify)))];
    SegmentsAppend([brickToken], Present(e) + tail);
    SegmentsAppend(Present(e), tail);
    SegmentsPresent(e);
  }

  predicate NoSpaceTokens(m: map<string, string>) {
    forall name :: name in m ==> NoSpace(m[name])
  }

  /**
   * When no token contains a space, splitting the class string on spaces
   * gives back exactly these segments: nothing is deduplicated, so there are
   * always five segments besides the extra ones.
   */
  lemma ClassStringTokens(css: CssModules, extra: Option<seq<string>>, brick: Brick, category: Category,
                          align: Option<Position>, justify: Option<Position>)
    requires NoSpaceTokens(css.bricksStyle) && NoSpaceTokens(css.backboneStyle)
    requires forall i :: 0 <= i < |extra.GetOr([])| ==> NoSpace(extra.GetOr([])[i])
    ensures Split(ClassString(css, extra, brick, category, align, justify))
              == ExpectedSegments(css, extra, brick, category, align, justify)
    ensures |Split(ClassString(css, extra, brick, category, align, justify))| == |extra.GetOr([])| + 5
  {
    ClassStringOrder(css, extra, brick, category, align, justify);
    var parts := ExpectedSegments(css, extra, brick, category, align, justify);
    forall i | 0 <= i < |parts| ensures NoSpace(parts[i]) {
      if 1 <= i < |extra.GetOr([])| + 1 {
        assert parts[i] == extra.GetOr([])[i - 1];
      }
    }
    SplitJoin(parts);
  }

  /** With empty CSS modules and no extra classes the string is four separators and nothing else. */
  lemma MissingTokensKeepSeparators(brick: Brick, category: Category, align: Option<Position>, justify: Option<Position>)
    ensures ClassString(CssModules(map[], map[]), None, brick, category, align, justify) == "    "
  {
    var css := CssModules(map[], map[]);
    ClassStringOrder(css, None, brick, category, align, justify);
    var parts := ExpectedSegments(css, None, brick, category, align, justify);
    assert parts == ["", "", "", "", ""];
    assert Join(parts[4..]) == "";
    assert Join(parts[3..]) == " ";
    assert Join(parts[2..]) == "  ";
    assert Join(parts[1..]) == "   ";
  }
}

/** Font sizing and the placement arithmetic of the title block
    (`_calculate_font_size` and `_add_title_text`). */
module TitleLayout {
  import opened Config
  import opened LineWrap

  /** `int(IMAGE_WIDTH * 0.8)`: the width budget of a line. */
  const MaxTextWidth: int := 1024

  /** Vertical gap between two lines, in pixels. */
  const LineSpacing: int := 20

  /** A text bounding box as Pillow's `textbbox` returns it. */
  datatype BBox = BBox(left: int, top: int, right: int, bottom: int)

  /** One `draw.text((x, y), text, ...)` call. */
  datatype DrawText = DrawText(x: int, y: int, text: string)

  function Width(b: BBox): int { b.right - b.left }

  function Height(b: BBox): int { b.bottom - b.top }

  /** The font size tier for a title, by its number of code points. */
  function FontSize(title: string): (size: int)
    ensures size in {120, 100, 85, 70, 60, 50}
  {
    var length := |title|;
    if length <= 10 then 120
    else if length <= 15 then 100
    else if length <= 20 then 85
    else if length <= 25 then 70
    else if length <= 30 then 60
    else 50
  }

  /** A longer title never gets a larger font, and each tier boundary
      belongs to the larger size. */
  lemma FontSizeMonotone(a: string, b: string)
    requires |a| <= |b|
    ensures FontSize(b) <= FontSize(a)
    ensures |b| == |a| + 1 && |a| in {10, 15, 20, 25, 30} ==> FontSize(b) < FontSize(a)
  {
  }

  /** The three sample titles of the module's own test run: 6, 15 and 21
      code points. */
  lemma SampleTitleSizes()
    ensures FontSize("短いタイトル") == 120
    ensures FontSize("朝5時起きの習慣が私を変えた話") == 100
    ensures FontSize("プログラミング初心者が最短で成長する勉強法") == 70
  {
  }

  function Sum(xs: seq<int>): int {
    if xs == [] then 0 else Sum(xs[..|xs| - 1]) + xs[|xs| - 1]
  }

  /** Height of the whole block: the line heights plus one gap between each
      two lines. */
  function TotalHeight(heights: seq<int>): int
    requires |heights| > 0
  {
    Sum(heights) + (|heights| - 1) * LineSpacing
  }

  /** `(IMAGE_HEIGHT - total_height) // 2`; may be negative. */
  function StartY(heights: seq<int>): int
    requires |heights| > 0
  {
    (ImageHeight - TotalHeight(heights)) / 2
  }

  /** `(IMAGE_WIDTH - text_width) // 2`. */
  function CenteredX(w: int): int {
    (ImageWidth - w) / 2
  }

  /** The draw calls for lines `k..` when line `k` is drawn at `y`. */
  function PlaceFrom(lines: seq<string>, widths: seq<int>, heights: seq<int>, k: nat, y: int): seq<DrawText>
    requires |widths| == |lines| == |heights| && k <= |lines|
    decreases |lines| - k
  {
    if k == |lines| then []
    else [DrawText(CenteredX(widths[k]), y, lines[k])]
         + PlaceFrom(lines, widths, heights, k + 1, y + heights[k] + LineSpacing)
  }

  function Place(lines: seq<string>, widths: seq<int>, heights: seq<int>): seq<DrawText>
    requires |widths| == |lines| == |heights| > 0
  {
    PlaceFrom(lines, widths, heights, 0, StartY(heights))
  }

  /** The measured widths and heights of the wrapped lines at one size. */
  function Widths(lines: seq<string>, size: int, textbbox: (int, string) -> BBox): (ws: seq<int>)
    ensures |ws| == |lines|
    ensures forall k :: 0 <= k < |lines| ==> ws[k] == Width(textbbox(size, lines[k]))
  {
    seq(|lines|, k requires 0 <= k < |lines| => Width(textbbox(size, lines[k])))
  }

  function Heights(lines: seq<string>, size: int, textbbox: (int, string) -> BBox): (hs: seq<int>)
    ensures |hs| == |lines|
    ensures forall k :: 0 <= k < |lines| ==> hs[k] == Height(textbbox(size, lines[k]))
  {
    seq(|lines|, k requires 0 <= k < |lines| => Height(textbbox(size, lines[k])))
  }

  /** The width measurement the wrapper uses at one font size. */
  function MeasureAt(textbbox: (int, string) -> BBox, size: int): string -> int {
    s => Width(textbbox(size, s))
  }

  /** The lines of a title, wrapped at its font size. */
  function TitleLines(title: string, textbbox: (int, string) -> BBox): seq<string> {
    Wrap(title, MeasureAt(textbbox, FontSize(title)), MaxTextWidth)
  }

  /** Every draw call `_add_title_text` makes for a title, in order. */
  function TitleDraws(title: string, textbbox: (int, string) -> BBox): seq<DrawText> {
    var size := FontSize(title);
    var lines := TitleLines(title, textbbox);
    WrapShape(title, MeasureAt(textbbox, size), MaxTextWidth);
    Place(lines, Widths(lines, size, textbbox), Heights(lines, size, textbbox))
  }

  lemma {:induction false} PlaceFromLength(lines: seq<string>, widths: seq<int>, heights: seq<int>, k: nat, y: int)
    requires |widths| == |lines| == |heights| && k <= |lines|
    ensures |PlaceFrom(lines, widths, heights, k, y)| == |lines| - k
    decreases |lines| - k
  {
    if k < |lines| {
      PlaceFromLength(lines, widths, heights, k + 1, y + heights[k] + LineSpacing);
    }
  }

  /** Closed form of the placement from line `k` on: line `j` is drawn
      centred horizontally, below the heights and gaps of lines `k..j`. */
  lemma {:induction false} PlaceFromAt(lines: seq<string>, widths: seq<int>, heights: seq<int>, k: nat, y: int, j: nat)
    requires |widths| == |lines| == |heights| && k <= j < |lines|
    ensures |PlaceFrom(lines, widths, heights, k, y)| == |lines| - k
    ensures PlaceFrom(lines, widths, heights, k, y)[j - k]
            == DrawText(CenteredX(widths[j]), y + Sum(heights[k..j]) + (j - k) * LineSpacing, lines[j])
    decreases j - k
  {
    PlaceFromLength(lines, widths, heights, k, y);
    if k < j {
      PlaceFromAt(lines, widths, heights, k + 1, y + heights[k] + LineSpacing, j);
      SumSplitFirst(heights[k..j]);
      assert heights[k..j][1..] == heights[k + 1..j];
    } else {
      assert heights[k..j] == [];
    }
  }

  lemma {:induction false} SumSplitFirst(xs: seq<int>)
    requires xs != []
    ensures Sum(xs) == xs[0] + Sum(xs[1..])
  {
    if |xs| > 1 {
      SumSplitFirst(xs[..|xs| - 1]);
      assert xs[..|xs| - 1][1..] == xs[1..][..|xs[1..]| - 1];
    }
  }

  /** The geometry of a placed block of lines: one draw per line, in order;
      each line centred horizontally (its left and right margins differ by
      at most one pixel); the first line at the block's start, each next
      line one height and one gap lower; and the block centred vertically
      (its top and bottom margins differ by at most one pixel; the top may be
      negative). */
  lemma PlaceGeometry(lines: seq<string>, ws: seq<int>, hs: seq<int>)
    requires |ws| == |lines| == |hs| > 0
    ensures var draws := Place(lines, ws, hs);
            && |draws| == |lines|
            && (forall j :: 0 <= j < |draws| ==>
                  && draws[j].text == lines[j]
                  && 0 <= (ImageWidth - ws[j] - draws[j].x) - draws[j].x <= 1)
            && draws[0].y == StartY(hs)
            && (forall j :: 0 <= j < |draws| - 1 ==> draws[j + 1].y == draws[j].y + hs[j] + LineSpacing)
            && var bottom := draws[|draws| - 1].y + hs[|draws| - 1];
            && bottom - draws[0].y == TotalHeight(hs)
            && 0 <= (ImageHeight - bottom) - draws[0].y <= 1
  {
    var draws := Place(lines, ws, hs);
    var n := |lines|;
    var y0 := StartY(hs);
    PlaceFromLength(lines, ws, hs, 0, y0);
    forall j | 0 <= j < n
      ensures draws[j] == DrawText(CenteredX(ws[j]), y0 + Sum(hs[..j]) + j * LineSpacing, lines[j])
    {
      PlaceFromAt(lines, ws, hs, 0, y0, j);
      assert hs[0..j] == hs[..j];
    }
    forall j | 0 <= j < n - 1
      ensures draws[j + 1].y == draws[j].y + hs[j] + LineSpacing
    {
      assert hs[..j + 1][..j] == hs[..j];
    }
    assert hs[..n - 1] == hs[..n][..n - 1];
    assert hs[..n] == hs;
  }

  /** The drawn title spells the title, one draw per wrapped line, laid out
      as `PlaceGeometry` states. */
  lemma TitleGeometry(title: string, textbbox: (int, string) -> BBox)
    ensures var lines := TitleLines(title, textbbox);
            var draws := TitleDraws(title, textbbox);
            && |draws| == |lines| > 0
            && Concat(lines) == title
            && forall j :: 0 <= j < |draws| ==> draws[j].text == lines[j]
  {
    var size := FontSize(title);
    var lines := TitleLines(title, textbbox);
    WrapShape(title, MeasureAt(textbbox, size), MaxTextWidth);
    WrapLossless(title, MeasureAt(textbbox, size), MaxTextWidth);
    PlaceGeometry(lines, Widths(lines, size, textbbox), Heights(lines, size, textbbox));
  }

  /** The empty title is drawn as one empty line whose block height is that
      line's own height. */
  lemma EmptyTitleLayout(textbbox: (int, string) -> BBox)
    ensures var draws := TitleDraws("", textbbox);
            var h := Height(textbbox(120, ""));
            && draws == [DrawText(CenteredX(Width(textbbox(120, ""))), (ImageHeight - h) / 2, "")]
            && TotalHeight([h]) == h
  {
    WrapShape("", MeasureAt(textbbox, 120), MaxTextWidth);
    var h := Height(textbbox(120, ""));
    assert Sum([h]) == h by {
      assert [h][..0] == [];
    }
    assert TitleLines("", textbbox) == [""];
    assert Heights([""], 120, textbbox) == [h];
    assert StartY([h]) == (ImageHeight - h) / 2;
  }

  /** `_add_title_text(image, title)`: size the font, wrap the title, measure
      each line's height, then draw the block from its vertically centred
      start. The drawing itself is the returned list of draw calls. */
  method AddTitleText(title: string, textbbox: (int, string) -> BBox) returns (draws: seq<DrawText>)
    ensures draws == TitleDraws(title, textbbox)
  {
    var fontSize := FontSize(title);
    var wrappedLines := WrapText(title, MeasureAt(textbbox, fontSize), MaxTextWidth);
    WrapShape(title, MeasureAt(textbbox, fontSize), MaxTextWidth);

    var lineHeights := MeasureHeights(wrappedLines, fontSize, textbbox);

    var totalHeight := Sum(lineHeights) + (|wrappedLines| - 1) * LineSpacing;
    var startY := (ImageHeight - totalHeight) / 2;
    assert startY == StartY(lineHeights);
    draws := DrawLines(wrappedLines, lineHeights, startY, fontSize, textbbox);
  }

  /** The `line_heights` loop of `_add_title_text`. */
  method MeasureHeights(lines: seq<string>, fontSize: int, textbbox: (int, string) -> BBox)
    returns (lineHeights: seq<int>)
    ensures lineHeights == Heights(lines, fontSize, textbbox)
  {
    lineHeights := [];
    for k := 0 to |lines|
      invariant |lineHeights| == k
      invariant forall j :: 0 <= j < k ==> lineHeights[j] == Height(textbbox(fontSize, lines[j]))
    {
      var bbox := textbbox(fontSize, lines[k]);
      lineHeights := lineHeights + [bbox.bottom - bbox.top];
    }
  }

  /** The drawing loop of `_add_title_text`: each line centred horizontally
      at the current height, which then advances by the line's height and
      the gap. */
  method DrawLines(lines: seq<string>, lineHeights: seq<int>, startY: int, fontSize: int,
                   textbbox: (int, string) -> BBox)
    returns (draws: seq<DrawText>)
    requires |lineHeights| == |lines|
    ensures draws == PlaceFrom(lines, Widths(lines, fontSize, textbbox), lineHeights, 0, startY)
  {
    ghost var ws := Widths(lines, fontSize, textbbox);
    var currentY := startY;
    draws := [];
    for i := 0 to |lines|
      invariant draws + PlaceFrom(lines, ws, lineHeights, i, currentY)
                == PlaceFrom(lines, ws, lineHeights, 0, startY)
    {
      var bbox := textbbox(fontSize, lines[i]);
      var textWidth := bbox.right - bbox.left;
      var x := (ImageWidth - textWidth) / 2;
      ghost var rest := PlaceFrom(lines, ws, lineHeights, i + 1, currentY + lineHeights[i] + LineSpacing);
      assert PlaceFrom(lines, ws, lineHeights, i, currentY) == [DrawText(x, currentY, lines[i])] + rest;
      assert (draws + [DrawText(x, currentY, lines[i])]) + rest
             == draws + ([DrawText(x, currentY, lines[i])] + rest);
      draws := draws + [DrawText(x, currentY, lines[i])];
      currentY := currentY + lineHeights[i] + LineSpacing;
    }
  }
}

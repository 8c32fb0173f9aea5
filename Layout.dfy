/**
 * The caption geometry of `add_text_to_images`: wrap the caption, measure
 * each line, size and centre the translucent banner, then draw every line
 * centred, run by run, moving a cursor right by each run's width and down by
 * each line's height plus the line spacing.
 *
 * Fonts are known only through `draw.textbbox((0, 0), s, font=f)`, the box
 * around `s` drawn at the origin; a `Font` carries its right, top and bottom
 * edges as functions of the text. Drawing itself is recorded, not performed:
 * each `draw.text` call becomes a `Placement`.
 */
module CaptionLayout {
  import opened PyText
  import opened ScriptSegmenter
  import opened LineWrapper

  /** A font at one size, as seen through `draw.textbbox((0, 0), s, font)`. */
  datatype Font = Font(right: string -> int, top: string -> int, bottom: string -> int)

  /** An axis-aligned rectangle `(left, top, right, bottom)`, as `draw.rectangle` takes it. */
  datatype Rect = Rect(left: int, top: int, right: int, bottom: int)

  /** What is computed for one image before anything is drawn. */
  datatype Plan = Plan(lines: seq<string>, heights: seq<int>, spacing: int, textHeight: int, box: Rect)

  /** One `draw.text((x, y), text, font=...)` call; `isCjk` selects the font. */
  datatype Placement = Placement(x: int, y: int, text: string, isCjk: bool)

  /** Vertical padding added to the text block to get the banner height. */
  const BoxPadding: int := 20

  /** Distance from the top of the banner to the top of the first line. */
  const TopInset: int := 10

  /** `font_size // 4`: the floor of a quarter of the font size. */
  function LineSpacing(fontSize: int): (sp: int)
    ensures 4 * sp <= fontSize < 4 * sp + 4
  {
    fontSize / 4
  }

  /** Height of a line: bottom minus top of its box under the main font. */
  function LineHeight(font: Font, line: string): int {
    font.bottom(line) - font.top(line)
  }

  /** `text_heights`: the height of each line. */
  function Heights(font: Font, lines: seq<string>): seq<int> {
    seq(|lines|, i requires 0 <= i < |lines| => LineHeight(font, lines[i]))
  }

  function Sum(xs: seq<int>): int {
    if xs == [] then 0 else Sum(xs[..|xs| - 1]) + xs[|xs| - 1]
  }

  /** `(H - box_height) // 2`: the banner top that splits the free height
      evenly, the extra pixel of an odd remainder going below. */
  function BoxTop(imageHeight: int, boxHeight: int): (y: int)
    ensures y + y <= imageHeight - boxHeight < y + y + 2
  {
    (imageHeight - boxHeight) / 2
  }

  /** `(W - width(line)) // 2`: the left edge that centres the line, measured
      with the main font. */
  function LineLeft(main: Font, imageWidth: int, line: string): (x: int)
    ensures x + x <= imageWidth - main.right(line) < x + x + 2
  {
    (imageWidth - main.right(line)) / 2
  }

  /** The plan of lines 80-95 of the tool, for a caption on an image of the
      given size with the given font size and maximum line width. */
  function MakePlan(main: Font, caption: string, fontSize: int, maxWidth: int,
                    imageWidth: int, imageHeight: int): Plan
  {
    var lines := Wrap(main.right, caption, maxWidth);
    var spacing := LineSpacing(fontSize);
    var heights := Heights(main, lines);
    var textHeight := Sum(heights) + (|heights| - 1) * spacing;
    var boxHeight := textHeight + BoxPadding;
    var boxY := BoxTop(imageHeight, boxHeight);
    Plan(lines, heights, spacing, textHeight, Rect(0, boxY, imageWidth, boxY + boxHeight))
  }

  /** Top of line `k`: the first line sits `TopInset` below the banner top,
      and every line moves the cursor down by its height plus the spacing. */
  function LineTop(plan: Plan, k: nat): int
    requires k <= |plan.heights|
  {
    plan.box.top + TopInset + Sum(plan.heights[..k]) + k * plan.spacing
  }

  function FontFor(main: Font, cjk: Font, isCjk: bool): Font {
    if isCjk then cjk else main
  }

  /** Total width of runs drawn one after another, each in its own font. */
  function Advance(main: Font, cjk: Font, segs: seq<Segment>): int {
    if segs == [] then 0
    else
      var last := segs[|segs| - 1];
      Advance(main, cjk, segs[..|segs| - 1]) + FontFor(main, cjk, last.isCjk).right(last.text)
  }

  /** The draw calls for one line at height `y`: its runs, left to right,
      starting at the centred left edge. */
  function LinePlacements(main: Font, cjk: Font, imageWidth: int, line: string, y: int): seq<Placement> {
    RunPlacements(main, cjk, LineLeft(main, imageWidth, line), y, Runs(line))
  }

  /** Runs drawn one after another from `x0`, each where the ones before it end. */
  function RunPlacements(main: Font, cjk: Font, x0: int, y: int, segs: seq<Segment>): seq<Placement> {
    if segs == [] then []
    else
      var front := segs[..|segs| - 1];
      var last := segs[|segs| - 1];
      RunPlacements(main, cjk, x0, y, front)
      + [Placement(x0 + Advance(main, cjk, front), y, last.text, last.isCjk)]
  }

  /** The draw calls for the first `n` lines of the plan. */
  function Placements(main: Font, cjk: Font, imageWidth: int, plan: Plan, n: nat): seq<Placement>
    requires n <= |plan.lines| == |plan.heights|
  {
    if n == 0 then []
    else
      Placements(main, cjk, imageWidth, plan, n - 1)
      + LinePlacements(main, cjk, imageWidth, plan.lines[n - 1], LineTop(plan, n - 1))
  }

  /** `xs.index(x)`: the position of the first element equal to `x`. */
  function IndexOf(xs: seq<string>, x: string): (i: nat)
    requires x in xs
    ensures i < |xs| && xs[i] == x
    ensures forall j :: 0 <= j < i ==> xs[j] != x
  {
    if xs[0] == x then 0 else 1 + IndexOf(xs[1..], x)
  }

  /** Lines 72-108 of `add_text_to_images` for one image: the plan, and the
      draw calls in the order the loop makes them. */
  method AddTextToImage(main: Font, cjk: Font, imageWidth: int, imageHeight: int,
                        fontSize: int, maxWidth: int, caption: string)
    returns (plan: Plan, drawn: seq<Placement>)
    ensures plan == MakePlan(main, caption, fontSize, maxWidth, imageWidth, imageHeight)
    ensures drawn == Placements(main, cjk, imageWidth, plan, |plan.lines|)
  {
    var lines := WrapText(main.right, caption, maxWidth);
    var spacing := LineSpacing(fontSize);
    var heights := Heights(main, lines);
    var textHeight := Sum(heights) + (|heights| - 1) * spacing;
    var boxHeight := textHeight + BoxPadding;
    var boxY := BoxTop(imageHeight, boxHeight);
    plan := Plan(lines, heights, spacing, textHeight, Rect(0, boxY, imageWidth, boxY + boxHeight));
    drawn := DrawLines(main, cjk, imageWidth, plan);
  }

  /** Lines 97-108: draw the lines top to bottom, each centred, moving the
      cursor down by the height of the line (looked up by `index`) plus the
      spacing. */
  method DrawLines(main: Font, cjk: Font, imageWidth: int, plan: Plan)
    returns (drawn: seq<Placement>)
    requires plan.heights == Heights(main, plan.lines)
    ensures drawn == Placements(main, cjk, imageWidth, plan, |plan.lines|)
  {
    var lines, heights := plan.lines, plan.heights;
    drawn := [];
    var y := plan.box.top + TopInset;
    for k := 0 to |lines|
      invariant y == LineTop(plan, k)
      invariant drawn == Placements(main, cjk, imageWidth, plan, k)
    {
      var line := lines[k];
      var row := DrawLine(main, cjk, imageWidth, line, y);
      drawn := drawn + row;
      HeightLookup(main, lines, k);
      y := y + heights[IndexOf(lines, line)] + plan.spacing;
      LineTopStep(plan, k);
    }
  }

  /** Lines 100-106: centre the line, then draw its runs left to right,
      moving the cursor right by the width of each run in its own font. */
  method DrawLine(main: Font, cjk: Font, imageWidth: int, line: string, y: int)
    returns (row: seq<Placement>)
    ensures row == LinePlacements(main, cjk, imageWidth, line, y)
  {
    var x := LineLeft(main, imageWidth, line);
    var segments := SplitTextByScript(line);
    row := DrawRuns(main, cjk, x, y, segments);
  }

  /** Lines 103-106: draw the runs one after another from `x`, each in its
      own font, moving the cursor right by the width of each. */
  method DrawRuns(main: Font, cjk: Font, x: int, y: int, segments: seq<Segment>)
    returns (row: seq<Placement>)
    ensures row == RunPlacements(main, cjk, x, y, segments)
  {
    var cursor := x;
    row := [];
    for i := 0 to |segments|
      invariant cursor == x + Advance(main, cjk, segments[..i])
      invariant row == RunPlacements(main, cjk, x, y, segments[..i])
    {
      var seg := segments[i];
      var font := FontFor(main, cjk, seg.isCjk);
      PlacementStep(main, cjk, x, y, segments, i);
      row := row + [Placement(cursor, y, seg.text, seg.isCjk)];
      cursor := cursor + font.right(seg.text);
    }
    assert segments[..|segments|] == segments;
  }

  /** Drawing one more run appends its placement where the runs before it
      end, and moves the end by its width in its own font. */
  lemma PlacementStep(main: Font, cjk: Font, x0: int, y: int, segs: seq<Segment>, i: nat)
    requires i < |segs|
    ensures RunPlacements(main, cjk, x0, y, segs[..i + 1])
      == RunPlacements(main, cjk, x0, y, segs[..i])
         + [Placement(x0 + Advance(main, cjk, segs[..i]), y, segs[i].text, segs[i].isCjk)]
    ensures Advance(main, cjk, segs[..i + 1])
      == Advance(main, cjk, segs[..i]) + FontFor(main, cjk, segs[i].isCjk).right(segs[i].text)
  {
    assert segs[..i + 1][..i] == segs[..i];
  }

  /** One placement per run, and run `i` is drawn at `x0` plus the widths of
      the runs before it. */
  lemma {:induction false} RunPlacementAt(main: Font, cjk: Font, x0: int, y: int, segs: seq<Segment>, i: nat)
    requires i < |segs|
    ensures |RunPlacements(main, cjk, x0, y, segs)| == |segs|
    ensures RunPlacements(main, cjk, x0, y, segs)[i]
      == Placement(x0 + Advance(main, cjk, segs[..i]), y, segs[i].text, segs[i].isCjk)
    decreases |segs|
  {
    var front := segs[..|segs| - 1];
    if i < |front| {
      RunPlacementAt(main, cjk, x0, y, front, i);
      assert front[..i] == segs[..i];
    } else if front != [] {
      RunPlacementAt(main, cjk, x0, y, front, 0);
    }
  }

  /** `text_heights[wrapped_text.index(line)]` finds the first line equal to
      `line`, and since a height depends on the text alone, that is the
      height of the line itself even when lines repeat. */
  lemma HeightLookup(font: Font, lines: seq<string>, k: nat)
    requires k < |lines|
    ensures Heights(font, lines)[IndexOf(lines, lines[k])] == Heights(font, lines)[k]
  {
  }

  lemma SumSnoc(xs: seq<int>, k: nat)
    requires k < |xs|
    ensures Sum(xs[..k + 1]) == Sum(xs[..k]) + xs[k]
  {
    assert xs[..k + 1][..k] == xs[..k];
  }

  /** Each line moves the cursor down by its height plus the spacing. */
  lemma LineTopStep(plan: Plan, k: nat)
    requires k < |plan.heights|
    ensures LineTop(plan, k + 1) == LineTop(plan, k) + plan.heights[k] + plan.spacing
  {
    SumSnoc(plan.heights, k);
  }

  /** Shape of the plan: one height per line; the banner spans the full image
      width and is the text block plus padding tall; the space left above it
      and below it differ by at most one pixel (the odd one below); the first
      line starts `TopInset` below the banner top and the last line ends
      `TopInset` above the banner bottom; no lines leave a block of minus one
      spacing. */
  lemma PlanGeometry(main: Font, caption: string, fontSize: int, maxWidth: int,
                     imageWidth: int, imageHeight: int)
    ensures var p := MakePlan(main, caption, fontSize, maxWidth, imageWidth, imageHeight);
      && |p.heights| == |p.lines|
      && (forall k :: 0 <= k < |p.lines| ==> p.heights[k] == LineHeight(main, p.lines[k]))
      && p.lines == Wrap(main.right, caption, maxWidth)
      && p.box.left == 0 && p.box.right == imageWidth
      && p.box.bottom - p.box.top == p.textHeight + BoxPadding
      && p.box.top <= imageHeight - p.box.bottom <= p.box.top + 1
      && (|p.lines| > 0 ==> LineTop(p, 0) == p.box.top + TopInset)
      && (|p.lines| > 0 ==>
            LineTop(p, |p.lines| - 1) + p.heights[|p.lines| - 1] + TopInset == p.box.bottom)
      && (|p.lines| == 0 ==> p.textHeight == -p.spacing)
  {
    var p := MakePlan(main, caption, fontSize, maxWidth, imageWidth, imageHeight);
    var n := |p.lines|;
    if n > 0 {
      SumSnoc(p.heights, n - 1);
      assert p.heights[..n] == p.heights;
    }
  }

  /** The draw calls of a line, read back as runs. */
  function DrawnRuns(ps: seq<Placement>): seq<Segment> {
    seq(|ps|, i requires 0 <= i < |ps| => Segment(ps[i].text, ps[i].isCjk))
  }

  /** What is drawn on a line: all at the line's height, exactly the line's
      text cut into maximal runs of one script, the first run at the centred
      left edge and every next run where the one before it ends, measured in
      the font that run is drawn with. */
  lemma LineDrawing(main: Font, cjk: Font, imageWidth: int, line: string, y: int)
    ensures var ps := LinePlacements(main, cjk, imageWidth, line, y);
      && IsScriptPartition(line, DrawnRuns(ps))
      && (forall i :: 0 <= i < |ps| ==> ps[i].y == y)
      && (ps != [] ==> ps[0].x == LineLeft(main, imageWidth, line))
      && (forall i :: 0 < i < |ps| ==> RunFollows(main, cjk, ps, i))
  {
    var ps := LinePlacements(main, cjk, imageWidth, line, y);
    var segs := Runs(line);
    var x0 := LineLeft(main, imageWidth, line);
    RunPlacementsShape(main, cjk, x0, y, segs);
    RunsPartition(line);
    RunPlacementsFollow(main, cjk, x0, y, segs);
  }

  /** Drawing runs from `x0` gives one placement per run, at height `y`, with
      its text and class, and the first one at `x0`; read back as runs, the
      placements are the runs drawn. */
  lemma RunPlacementsShape(main: Font, cjk: Font, x0: int, y: int, segs: seq<Segment>)
    ensures var ps := RunPlacements(main, cjk, x0, y, segs);
      && |ps| == |segs|
      && DrawnRuns(ps) == segs
      && (forall i :: 0 <= i < |ps| ==> ps[i].y == y)
      && (ps != [] ==> ps[0].x == x0)
  {
    var ps := RunPlacements(main, cjk, x0, y, segs);
    forall i | 0 <= i < |segs|
      ensures |ps| == |segs|
      ensures ps[i] == Placement(x0 + Advance(main, cjk, segs[..i]), y, segs[i].text, segs[i].isCjk)
    {
      RunPlacementAt(main, cjk, x0, y, segs, i);
    }
    if segs == [] {
      assert ps == [];
    } else {
      assert segs[..0] == [];
    }
    assert DrawnRuns(ps) == segs;
  }

  /** Each run drawn after the first starts where the one before it ends,
      measured in the font that one is drawn with. */
  lemma RunPlacementsFollow(main: Font, cjk: Font, x0: int, y: int, segs: seq<Segment>)
    ensures var ps := RunPlacements(main, cjk, x0, y, segs);
      forall i :: 0 < i < |ps| ==> RunFollows(main, cjk, ps, i)
  {
    var ps := RunPlacements(main, cjk, x0, y, segs);
    RunPlacementsShape(main, cjk, x0, y, segs);
    forall i | 0 < i < |ps| ensures RunFollows(main, cjk, ps, i) {
      RunPlacementAt(main, cjk, x0, y, segs, i);
      RunPlacementAt(main, cjk, x0, y, segs, i - 1);
      PlacementStep(main, cjk, x0, y, segs, i - 1);
    }
  }

  /** Run `i` starts where run `i - 1` ends. */
  predicate RunFollows(main: Font, cjk: Font, ps: seq<Placement>, i: int)
    requires 0 < i < |ps|
  {
    ps[i].x == ps[i - 1].x + FontFor(main, cjk, ps[i - 1].isCjk).right(ps[i - 1].text)
  }
}

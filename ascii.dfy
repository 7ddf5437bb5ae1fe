/** The box-drawing string builders (src/utils/ascii-helpers.ts). `String.prototype.repeat`
    throws a RangeError for a negative count; the builders that can reach one return
    `Err(RangeError)` exactly then. */
module AsciiHelpers {
  import opened Types
  import opened Seqs
  import opened Strings

  /** The six glyphs a box is drawn with. */
  datatype Glyphs = Glyphs(tl: char, tr: char, bl: char, br: char, h: char, v: char)

  const SingleGlyphs: Glyphs := Glyphs('┌', '┐', '└', '┘', '─', '│')
  const DoubleGlyphs: Glyphs := Glyphs('╔', '╗', '╚', '╝', '═', '║')

  function GlyphsFor(double: bool): Glyphs
  {
    if double then DoubleGlyphs else SingleGlyphs
  }

  /** The options of `createBox`, with its defaults in `DefaultBoxOptions`. */
  datatype BoxOptions = BoxOptions(title: Option<string>, width: int, padding: int, double: bool)

  const DefaultBoxOptions: BoxOptions := BoxOptions(None, 40, 1, false)

  /** No count passed to `repeat` is negative: the padding, the inner width, and, with a
      title, the rules on either side of it. */
  predicate BoxRenders(o: BoxOptions)
  {
    o.padding >= 0 && o.width >= 2 && (Truthy(o.title) ==> |o.title.value| + 2 <= o.width - 2)
  }

  /** One content line: truncated to the room left by the padding, padded to it with spaces,
      and framed by the vertical glyph (src/utils/ascii-helpers.ts:149-152). */
  function ContentRow(line: string, g: Glyphs, innerWidth: int, padding: nat): (r: string)
    ensures |r| >= 2 && r[0] == g.v && r[|r| - 1] == g.v
  {
    var room := innerWidth - padding * 2;
    [g.v] + Repeat(' ', padding) + PadEnd(SliceTo(line, room), room) + Repeat(' ', padding) + [g.v]
  }

  /** The rows of all content lines, in order. */
  function ContentRows(lines: seq<string>, g: Glyphs, innerWidth: int, padding: nat): (r: seq<string>)
    ensures |r| == |lines|
    ensures forall i :: 0 <= i < |lines| ==> r[i] == ContentRow(lines[i], g, innerWidth, padding)
  {
    seq(|lines|, i requires 0 <= i < |lines| => ContentRow(lines[i], g, innerWidth, padding))
  }

  /** The column where a centred title starts: `Math.floor((innerWidth - |titleText|) / 2)`
      (Dafny's `/` by a positive divisor rounds down, like `Math.floor`). */
  function TitleStart(innerWidth: int, titleLength: int): int
  {
    (innerWidth - titleLength) / 2
  }

  /** The top rule, with the title centred in it when there is one. */
  function TopLine(g: Glyphs, innerWidth: nat, title: Option<string>): (r: string)
    requires Truthy(title) ==> |title.value| + 2 <= innerWidth
    ensures |r| == innerWidth + 2 && r[0] == g.tl && r[|r| - 1] == g.tr
  {
    if Truthy(title) then
      var titleText := " " + title.value + " ";
      var start := TitleStart(innerWidth, |titleText|);
      [g.tl] + Repeat(g.h, start) + titleText + Repeat(g.h, innerWidth - start - |titleText|) + [g.tr]
    else
      [g.tl] + Repeat(g.h, innerWidth) + [g.tr]
  }

  /** The bottom rule. */
  function BottomLine(g: Glyphs, innerWidth: nat): (r: string)
    ensures |r| == innerWidth + 2 && r[0] == g.bl && r[|r| - 1] == g.br
  {
    [g.bl] + Repeat(g.h, innerWidth) + [g.br]
  }

  /** A box around `lines`: the top rule, one row per line, the bottom rule. */
  function Framed(lines: seq<string>, g: Glyphs, innerWidth: nat, title: Option<string>, padding: nat)
    : (r: seq<string>)
    requires Truthy(title) ==> |title.value| + 2 <= innerWidth
    ensures |r| == |lines| + 2
  {
    [TopLine(g, innerWidth, title)] + ContentRows(lines, g, innerWidth, padding) + [BottomLine(g, innerWidth)]
  }

  lemma FramedAt(lines: seq<string>, g: Glyphs, innerWidth: nat, title: Option<string>, padding: nat, i: nat)
    requires Truthy(title) ==> |title.value| + 2 <= innerWidth
    requires i < |lines| + 2
    ensures Framed(lines, g, innerWidth, title, padding)[i]
        == if i == 0 then TopLine(g, innerWidth, title)
           else if i == |lines| + 1 then BottomLine(g, innerWidth)
           else ContentRow(lines[i - 1], g, innerWidth, padding)
  {
    var r := Framed(lines, g, innerWidth, title, padding);
    var rows := ContentRows(lines, g, innerWidth, padding);
    if i == 0 {
      assert r[i] == TopLine(g, innerWidth, title);
    } else if i == |lines| + 1 {
      assert r[i] == BottomLine(g, innerWidth);
    } else {
      assert r[i] == rows[i - 1];
    }
  }

  /** The lines `createBox` joins with "\n": the top rule (with the title, if any), one row per
      "\n"-separated line of the content, and the bottom rule. */
  function BoxLines(content: string, o: BoxOptions): (r: seq<string>)
    requires BoxRenders(o)
    ensures |r| == |Split(content, '\n')| + 2
  {
    Framed(Split(content, '\n'), GlyphsFor(o.double), o.width - 2, o.title, o.padding)
  }

  /** `createBox` (src/utils/ascii-helpers.ts:130-169). */
  function CreateBox(content: string, o: BoxOptions): (r: Result<string>)
    ensures r.Err? <==> !BoxRenders(o)
    ensures r.Err? ==> r.error == RangeError
  {
    if BoxRenders(o) then Ok(Join(BoxLines(content, o), '\n')) else Err(RangeError)
  }

  /** Line `i` of the box: the top rule, a content row, or the bottom rule. */
  lemma BoxLinesAt(content: string, o: BoxOptions, i: nat)
    requires BoxRenders(o) && i < |Split(content, '\n')| + 2
    ensures var g := GlyphsFor(o.double);
      var lines := Split(content, '\n');
      BoxLines(content, o)[i]
        == if i == 0 then TopLine(g, o.width - 2, o.title)
           else if i == |lines| + 1 then BottomLine(g, o.width - 2)
           else ContentRow(lines[i - 1], g, o.width - 2, o.padding)
  {
    FramedAt(Split(content, '\n'), GlyphsFor(o.double), o.width - 2, o.title, o.padding, i);
  }

  /** Every line has at least two characters; the rules carry the corner glyphs and every
      content row starts and ends with the vertical glyph. */
  lemma BoxLinesFrame(content: string, o: BoxOptions)
    requires BoxRenders(o)
    ensures var r := BoxLines(content, o);
      var g := GlyphsFor(o.double);
      && (forall i :: 0 <= i < |r| ==> |r[i]| >= 2)
      && r[0][0] == g.tl && r[0][|r[0]| - 1] == g.tr
      && r[|r| - 1][0] == g.bl && r[|r| - 1][|r[|r| - 1]| - 1] == g.br
      && forall i :: 1 <= i < |r| - 1 ==> r[i][0] == g.v && r[i][|r[i]| - 1] == g.v
  {
    var r := BoxLines(content, o);
    forall i | 0 <= i < |r|
      ensures var g := GlyphsFor(o.double);
        && |r[i]| >= 2
        && (i == 0 ==> r[i][0] == g.tl && r[i][|r[i]| - 1] == g.tr)
        && (i == |r| - 1 ==> r[i][0] == g.bl && r[i][|r[i]| - 1] == g.br)
        && (0 < i < |r| - 1 ==> r[i][0] == g.v && r[i][|r[i]| - 1] == g.v)
    {
      BoxLinesAt(content, o, i);
    }
  }

  /** When the padding fits inside the box, every line is exactly `width` characters. */
  lemma BoxLinesWidth(content: string, o: BoxOptions)
    requires BoxRenders(o) && o.width - 2 >= 2 * o.padding
    ensures forall i :: 0 <= i < |BoxLines(content, o)| ==> |BoxLines(content, o)[i]| == o.width
  {
    var r := BoxLines(content, o);
    var lines := Split(content, '\n');
    forall i | 0 <= i < |r|
      ensures |r[i]| == o.width
    {
      BoxLinesAt(content, o, i);
      if 1 <= i <= |lines| {
        ContentRowShape(lines[i - 1], GlyphsFor(o.double), o.width - 2, o.padding);
      }
    }
  }

  /** Row `i + 1` of the box is content line `i` drawn by `ContentRow`. */
  lemma BoxLinesRow(content: string, o: BoxOptions, i: nat)
    requires BoxRenders(o) && i < |Split(content, '\n')|
    ensures BoxLines(content, o)[i + 1]
         == ContentRow(Split(content, '\n')[i], GlyphsFor(o.double), o.width - 2, o.padding)
  {
    BoxLinesAt(content, o, i + 1);
  }

  /** A content row: the vertical glyph, `padding` spaces, the first `room` characters of the
      line padded with spaces to `room`, `padding` spaces, the vertical glyph. */
  lemma ContentRowShape(line: string, g: Glyphs, innerWidth: int, padding: nat)
    requires innerWidth - 2 * padding >= 0
    ensures var row := ContentRow(line, g, innerWidth, padding);
      var room := innerWidth - 2 * padding;
      var shown := Min(room, |line|);
      && |row| == innerWidth + 2
      && row[1 + padding .. 1 + padding + shown] == line[..shown]
      && (forall j :: 1 <= j <= padding ==> row[j] == ' ')
      && (forall j :: 1 + padding + shown <= j < innerWidth + 1 ==> row[j] == ' ')
      && (forall j :: 1 <= j < innerWidth + 1 && row[j] != ' ' ==> row[j] in line)
  {
    var room := innerWidth - 2 * padding;
    var cut := SliceTo(line, room);
    var cell := PadEnd(cut, room);
    var row := ContentRow(line, g, innerWidth, padding);
    var shown := Min(room, |line|);
    assert |cut| == shown && cut == line[..shown];
    assert row == [g.v] + Repeat(' ', padding) + cell + Repeat(' ', padding) + [g.v];
    assert |cell| == room;
    assert row[1 + padding .. 1 + padding + room] == cell;
    assert cell[..shown] == line[..shown];
    forall j | 1 <= j < innerWidth + 1 && row[j] != ' '
      ensures row[j] in line
    {
      assert 1 + padding <= j < 1 + padding + shown;
      assert row[j] == cell[j - 1 - padding] == line[j - 1 - padding];
    }
  }

  /** With a title, the top rule shows ` title ` after `start` rule glyphs and before
      `innerWidth - start - |titleText|` more; the right-hand run is as long as the left-hand
      one or one glyph longer, so the title is centred, leaning left. */
  lemma TopLineTitle(g: Glyphs, innerWidth: nat, title: Option<string>)
    requires Truthy(title) && |title.value| + 2 <= innerWidth
    ensures var titleText := " " + title.value + " ";
      var start := TitleStart(innerWidth, |titleText|);
      var top := TopLine(g, innerWidth, title);
      && 0 <= start && start <= innerWidth - |titleText| - start <= start + 1
      && top[1 + start .. 1 + start + |titleText|] == titleText
      && (forall j :: 1 <= j < 1 + start ==> top[j] == g.h)
      && (forall j :: 1 + start + |titleText| <= j < innerWidth + 1 ==> top[j] == g.h)
  {
    var titleText := " " + title.value + " ";
    var start := TitleStart(innerWidth, |titleText|);
    var left := [g.tl] + Repeat(g.h, start);
    var right := Repeat(g.h, innerWidth - start - |titleText|) + [g.tr];
    assert TopLine(g, innerWidth, title) == left + titleText + right;
    assert (left + titleText + right)[|left|..|left| + |titleText|] == titleText;
  }

  /** In a box with a title, the first line carries the title centred in its top rule. */
  lemma BoxTitlePlacement(content: string, o: BoxOptions)
    requires BoxRenders(o) && Truthy(o.title)
    ensures var titleText := " " + o.title.value + " ";
      var start := TitleStart(o.width - 2, |titleText|);
      var top := BoxLines(content, o)[0];
      && 0 <= start && start <= o.width - 2 - |titleText| - start <= start + 1
      && top[1 + start .. 1 + start + |titleText|] == titleText
  {
    BoxLinesTop(content, o);
    TopLineTitle(GlyphsFor(o.double), o.width - 2, o.title);
  }

  /** The first line of a box is its top rule. */
  lemma BoxLinesTop(content: string, o: BoxOptions)
    requires BoxRenders(o)
    ensures BoxLines(content, o)[0] == TopLine(GlyphsFor(o.double), o.width - 2, o.title)
  {
    BoxLinesAt(content, o, 0);
  }

  lemma TopLineNoNewline(g: Glyphs, innerWidth: nat, title: Option<string>)
    requires Truthy(title) ==> |title.value| + 2 <= innerWidth
    requires title.Some? ==> '\n' !in title.value
    requires '\n' !in [g.tl, g.tr, g.h]
    ensures '\n' !in TopLine(g, innerWidth, title)
  {
    if Truthy(title) {
      var titleText := " " + title.value + " ";
      var start := TitleStart(innerWidth, |titleText|);
      assert TopLine(g, innerWidth, title)
          == [g.tl] + Repeat(g.h, start) + titleText + Repeat(g.h, innerWidth - start - |titleText|) + [g.tr];
    }
  }

  lemma ContentRowNoNewline(line: string, g: Glyphs, innerWidth: int, padding: nat)
    requires '\n' !in line && g.v != '\n'
    ensures '\n' !in ContentRow(line, g, innerWidth, padding)
  {
    var room := innerWidth - padding * 2;
    var cut := SliceTo(line, room);
    var cell := PadEnd(cut, room);
    assert cut == line[..|cut|];
    assert forall k :: 0 <= k < |cut| ==> cut[k] == line[k];
    assert forall k :: 0 <= k < |cut| ==> cell[k] == cut[k];
  }

  lemma NoNewlineInBoxLines(content: string, o: BoxOptions)
    requires BoxRenders(o)
    requires o.title.Some? ==> '\n' !in o.title.value
    ensures forall i :: 0 <= i < |BoxLines(content, o)| ==> '\n' !in BoxLines(content, o)[i]
  {
    var r := BoxLines(content, o);
    var g := GlyphsFor(o.double);
    var lines := Split(content, '\n');
    forall i | 0 <= i < |r|
      ensures '\n' !in r[i]
    {
      BoxLinesAt(content, o, i);
      if i == 0 {
        TopLineNoNewline(g, o.width - 2, o.title);
      } else if i <= |lines| {
        ContentRowNoNewline(lines[i - 1], g, o.width - 2, o.padding);
      }
    }
  }

  /** The text `createBox` returns has exactly the box's lines: one per content line plus the
      two rules. */
  lemma CreateBoxLineCount(content: string, o: BoxOptions)
    requires BoxRenders(o)
    requires o.title.Some? ==> '\n' !in o.title.value
    ensures CreateBox(content, o).Ok?
    ensures Split(CreateBox(content, o).value, '\n') == BoxLines(content, o)
    ensures |Split(CreateBox(content, o).value, '\n')| == |Split(content, '\n')| + 2
  {
    NoNewlineInBoxLines(content, o);
    SplitJoin(BoxLines(content, o), '\n');
  }

  /** `createDivider` (src/utils/ascii-helpers.ts:172-174): the divider string repeated
      `width` times. */
  function CreateDivider(width: int, ch: string): (r: Result<string>)
    ensures r.Err? <==> width < 0
    ensures r.Ok? ==> |r.value| == width * |ch|
    ensures r.Ok? && |ch| == 1 ==> forall i :: 0 <= i < |r.value| ==> r.value[i] == ch[0]
    ensures r.Ok? && ch != [] ==> forall i :: 0 <= i < |r.value| ==> r.value[i] == ch[i % |ch|]
  {
    if width < 0 then Err(RangeError)
    else
      RepeatStringLength(ch, width);
      if ch != [] then
        RepeatStringAt(ch, width);
        Ok(RepeatString(ch, width))
      else
        Ok(RepeatString(ch, width))
  }

  const DefaultDividerChar: string := "─"

  /** The keys of `STATUS_ICONS`. */
  datatype IconKey = IdleIcon | ThinkingIcon | WorkingIcon | ErrorIcon | WaitingIcon
                   | SuccessIcon | WarningIcon

  function Icon(k: IconKey): char
  {
    match k
    case IdleIcon => '○'
    case ThinkingIcon => '◐'
    case WorkingIcon => '◉'
    case ErrorIcon => '✖'
    case WaitingIcon => '◔'
    case SuccessIcon => '✔'
    case WarningIcon => '⚠'
  }

  /** `formatStatus` (src/utils/ascii-helpers.ts:177-183): the icon alone, or the icon, a
      space and the text when the text is non-empty. */
  function FormatStatus(k: IconKey, text: Option<string>): (r: string)
    ensures |r| >= 1 && r[0] == Icon(k)
    ensures |r| == 1 <==> !Truthy(text)
    ensures Truthy(text) ==> r[1] == ' ' && r[2..] == text.value
  {
    if Truthy(text) then [Icon(k)] + " " + text.value else [Icon(k)]
  }

  const DefaultBarWidth: int := 20

  /** `Math.round((progress / 100) * width)`, computed exactly: rounding half up is
      `floor(x + 1/2)`. */
  function Filled(progress: int, width: int): (f: int)
    ensures 100 * f - 50 <= progress * width < 100 * f + 50
  {
    (progress * width + 50) / 100
  }

  /** `createProgressBar` (src/utils/ascii-helpers.ts:186-193): `[`, the filled and empty
      cells, `] `, the percentage. */
  function CreateProgressBar(progress: int, width: int): (r: Result<string>)
    ensures r.Ok? <==> 0 <= Filled(progress, width) <= width
    ensures r.Ok? ==> var f := Filled(progress, width);
      && |r.value| == width + 4 + |IntToString(progress)|
      && r.value[0] == '['
      && (forall i :: 1 <= i <= f ==> r.value[i] == '█')
      && (forall i :: f < i <= width ==> r.value[i] == '░')
      && r.value[width + 1..] == "] " + IntToString(progress) + "%"
  {
    var filled := Filled(progress, width);
    var empty := width - filled;
    if filled < 0 || empty < 0 then Err(RangeError)
    else
      var bar := "[" + Repeat('█', filled) + Repeat('░', empty);
      var tail := "] " + IntToString(progress) + "%";
      assert |bar| == width + 1 && (bar + tail)[|bar|..] == tail;
      Ok(bar + tail)
  }

  /** A percentage between 0 and 100 always renders, with a bar of exactly `width` cells;
      0% is all empty and 100% all filled. */
  lemma ProgressBarRenders(progress: int, width: int)
    requires 0 <= progress <= 100 && width >= 0
    ensures 0 <= Filled(progress, width) <= width
    ensures CreateProgressBar(progress, width).Ok?
    ensures Filled(0, width) == 0 && Filled(100, width) == width
  {
    var x := progress * width + 50;
    assert 0 <= progress * width <= 100 * width by {
      MulBounds(progress, width);
    }
    assert 0 <= x < 100 * (width + 1);
    DivBelow(x, width);
  }

  lemma MulBounds(p: int, w: int)
    requires 0 <= p <= 100 && w >= 0
    ensures 0 <= p * w <= 100 * w
  {
    assert (100 - p) * w >= 0;
  }

  lemma DivBelow(x: int, w: int)
    requires 0 <= x < 100 * (w + 1)
    ensures 0 <= x / 100 <= w
  {
  }

  /** `createConnectionLine` (src/utils/ascii-helpers.ts:222-228): `length` characters of
      rule, the last one an arrow head when `hasArrow`. */
  function CreateConnectionLine(length: int, hasArrow: bool): (r: Result<string>)
    ensures r.Ok? <==> length >= (if hasArrow then 1 else 0)
    ensures r.Ok? ==> |r.value| == length
    ensures r.Ok? && hasArrow ==> r.value[length - 1] == '▶'
    ensures r.Ok? ==> forall i :: 0 <= i < length - (if hasArrow then 1 else 0) ==> r.value[i] == '─'
  {
    var count := length - (if hasArrow then 1 else 0);
    if count < 0 then Err(RangeError)
    else Ok(Repeat('─', count) + (if hasArrow then "▶" else ""))
  }
}

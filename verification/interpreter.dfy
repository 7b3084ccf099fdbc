/** The drawing-command interpreter (`drawCommands`, index.js:52-95).

    A command list is walked in order with a running cursor. Each command first
    moves the cursor (absolutely, or by its deltas when `relative` is exactly
    `true`), then draws, in this order: its text (a black shadow two units down
    and right, then the text itself), its rectangle (at the command's own literal
    position), its image. `Run` is the meaning of a command list as the sequence
    of calls it makes on the surface; `DrawCommands` is the loop, proved to make
    exactly those calls. */
module Interpreter {

  import opened Wrappers
  import opened Js
  import opened Canvas

  /** A command record. Absent string fields are `""` (falsy, like `undefined`);
      `w` and `h` matter only when `shape` is truthy. */
  datatype Command = Command(
    x: real, y: real, relative: bool,
    font: Option<Font>, text: Value, color: Option<Color>, halign: string,
    shape: string, w: real, h: real,
    image: Option<Image>)

  /** A command with no payload at (0, 0); layouts override the fields they set. */
  const Blank := Command(0.0, 0.0, false, None, Undef, None, "", "", 0.0, 0.0, None)

  /** The interpreter's running position. */
  datatype Cursor = Cursor(x: Num, y: real)

  /** `let x, y = 0`: x starts `undefined`, y starts at 0. */
  const Start := Cursor(Undefined, 0.0)

  /** The cursor update that happens before a command draws anything. */
  function Advance(c: Cursor, cmd: Command): Cursor
  {
    if cmd.relative then Cursor(Add(c.x, cmd.x), c.y + cmd.y) else Cursor(Finite(cmd.x), cmd.y)
  }

  /** `cmd.color || Colors.White` */
  function ColorOf(cmd: Command): Color
  {
    if cmd.color.Some? then cmd.color.value else White
  }

  /** `cmd.halign || 'left'` */
  function HAlignOf(cmd: Command): string
  {
    if cmd.halign != "" then cmd.halign else "left"
  }

  /** The left edge of content `w` wide placed at cursor x under `halign`. */
  function AlignX(halign: string, x: Num, w: real): Num
  {
    if halign == "center" then Sub(x, w / 2.0)
    else if halign == "right" then Sub(x, w)
    else x
  }

  /** The text of a command as drawn, and its two calls at cursor `c`. */
  function TextEvents(m: Metrics, c: Cursor, cmd: Command): seq<DrawEvent>
  {
    if cmd.font.None? then []
    else
      var f := cmd.font.value;
      var text := OrEmpty(cmd.text);
      var textX := AlignX(HAlignOf(cmd), c.x, m.textWidth(f, text));
      [FillText(text, Add(textX, 2.0), c.y + 2.0, f, Black), FillText(text, textX, c.y, f, ColorOf(cmd))]
  }

  /** The rectangle of a command. It takes no cursor: it is drawn at the command's own x, y. */
  function ShapeEvents(cmd: Command): seq<DrawEvent>
  {
    if cmd.shape != "" then [FillRect(cmd.x, cmd.y, cmd.w, cmd.h, ColorOf(cmd))] else []
  }

  function ImageEvents(m: Metrics, c: Cursor, cmd: Command): seq<DrawEvent>
  {
    if cmd.image.None? then []
    else [DrawImage(cmd.image.value, AlignX(HAlignOf(cmd), c.x, m.imageWidth(cmd.image.value)), c.y)]
  }

  /** Everything one command draws once the cursor stands at `c`. */
  function Emit(m: Metrics, c: Cursor, cmd: Command): seq<DrawEvent>
  {
    TextEvents(m, c, cmd) + ShapeEvents(cmd) + ImageEvents(m, c, cmd)
  }

  /** The calls a command list makes, starting with the cursor at `c`. */
  function Run(m: Metrics, c: Cursor, cmds: seq<Command>): seq<DrawEvent>
    decreases |cmds|
  {
    if cmds == [] then []
    else
      var c' := Advance(c, cmds[0]);
      Emit(m, c', cmds[0]) + Run(m, c', cmds[1..])
  }

  /** The cursor after a command list. */
  function CursorAfter(c: Cursor, cmds: seq<Command>): Cursor
    decreases |cmds|
  {
    if cmds == [] then c else CursorAfter(Advance(c, cmds[0]), cmds[1..])
  }

  /** The cursor each command draws at. */
  function Positions(c: Cursor, cmds: seq<Command>): (ps: seq<Cursor>)
    ensures |ps| == |cmds|
    decreases |cmds|
  {
    if cmds == [] then []
    else [Advance(c, cmds[0])] + Positions(Advance(c, cmds[0]), cmds[1..])
  }

  /** The font and fill style a context holds. */
  datatype Pen = Pen(font: Font, style: Color)

  /** The context state a command list leaves behind: text sets the font and ends
      in the command's colour, a rectangle sets the colour, an image sets nothing. */
  function PenAfter(p: Pen, cmds: seq<Command>): Pen
    decreases |cmds|
  {
    if cmds == [] then p else PenAfter(PenStep(p, cmds[0]), cmds[1..])
  }

  function PenStep(p: Pen, cmd: Command): Pen
  {
    Pen(if cmd.font.Some? then cmd.font.value else p.font,
        if cmd.font.Some? || cmd.shape != "" then ColorOf(cmd) else p.style)
  }

  /** `drawCommands(ctx, cmds)`: the loop over the commands, with the cursor in
      local variables. */
  method DrawCommands(ctx: Surface, cmds: seq<Command>, m: Metrics)
    modifies ctx
    ensures ctx.log == old(ctx.log) + Run(m, Start, cmds)
    ensures Pen(ctx.font, ctx.fillStyle) == PenAfter(old(Pen(ctx.font, ctx.fillStyle)), cmds)
  {
    var x: Num, y: real := Undefined, 0.0;
    ghost var log0, pen0 := ctx.log, Pen(ctx.font, ctx.fillStyle);
    for i := 0 to |cmds|
      invariant ctx.log == log0 + Run(m, Start, cmds[..i])
      invariant Cursor(x, y) == CursorAfter(Start, cmds[..i])
      invariant Pen(ctx.font, ctx.fillStyle) == PenAfter(pen0, cmds[..i])
    {
      var cmd := cmds[i];
      ghost var done := Run(m, Start, cmds[..i]);
      StepAt(m, Start, pen0, cmds, i);
      // absolute or relative move, before anything is drawn
      x := if cmd.relative then Add(x, cmd.x) else Finite(cmd.x);
      y := if cmd.relative then y + cmd.y else cmd.y;
      assert Cursor(x, y) == Advance(CursorAfter(Start, cmds[..i]), cmd);
      ghost var drawn := Emit(m, Cursor(x, y), cmd);
      assert Run(m, Start, cmds[..i + 1]) == done + drawn;
      DrawAt(ctx, cmd, x, y, m);
      assert ctx.log == (log0 + done) + drawn;
      ConcatAssoc(log0, done, drawn);
    }
    assert cmds[..|cmds|] == cmds;
  }

  lemma ConcatAssoc<T>(a: seq<T>, b: seq<T>, c: seq<T>)
    ensures (a + b) + c == a + (b + c)
  {
  }

  /** One turn of the loop: after the commands before `i`, the command at `i`
      moves the cursor, draws, and sets the pen. */
  lemma StepAt(m: Metrics, c: Cursor, p: Pen, cmds: seq<Command>, i: nat)
    requires i < |cmds|
    ensures var c' := Advance(CursorAfter(c, cmds[..i]), cmds[i]);
      && Run(m, c, cmds[..i + 1]) == Run(m, c, cmds[..i]) + Emit(m, c', cmds[i])
      && CursorAfter(c, cmds[..i + 1]) == c'
    ensures PenAfter(p, cmds[..i + 1]) == PenStep(PenAfter(p, cmds[..i]), cmds[i])
  {
    assert cmds[..i + 1] == cmds[..i] + [cmds[i]];
    RunConcat(m, c, cmds[..i], [cmds[i]]);
    PenConcat(p, cmds[..i], [cmds[i]]);
    assert [cmds[i]][1..] == [];
  }

  /** The body of the loop in `drawCommands` once the cursor has moved to `(x, y)`:
      the text with its shadow, the rectangle, the image, in that order. */
  method DrawAt(ctx: Surface, cmd: Command, x: Num, y: real, m: Metrics)
    modifies ctx
    ensures ctx.log == old(ctx.log) + Emit(m, Cursor(x, y), cmd)
    ensures Pen(ctx.font, ctx.fillStyle) == PenStep(old(Pen(ctx.font, ctx.fillStyle)), cmd)
  {
    ghost var before := ctx.log;
    DrawText(ctx, cmd, x, y, m);
    DrawShape(ctx, cmd);
    DrawImageOf(ctx, cmd, x, y, m);
    ConcatAssoc(before + TextEvents(m, Cursor(x, y), cmd), ShapeEvents(cmd), ImageEvents(m, Cursor(x, y), cmd));
    ConcatAssoc(before, TextEvents(m, Cursor(x, y), cmd), ShapeEvents(cmd));
  }

  /** If the command has a font, its text twice: a black shadow at (+2, +2), then
      the text in the command's colour. */
  method DrawText(ctx: Surface, cmd: Command, x: Num, y: real, m: Metrics)
    modifies ctx
    ensures ctx.log == old(ctx.log) + TextEvents(m, Cursor(x, y), cmd)
    ensures ctx.font == (if cmd.font.Some? then cmd.font.value else old(ctx.font))
    ensures ctx.fillStyle == (if cmd.font.Some? then ColorOf(cmd) else old(ctx.fillStyle))
  {
    var color := if cmd.color.Some? then cmd.color.value else White;
    var halign := if cmd.halign != "" then cmd.halign else "left";
    if cmd.font.Some? {
      ctx.SetFont(cmd.font.value);
      var text := OrEmpty(cmd.text);
      var textX := AlignX(halign, x, m.textWidth(cmd.font.value, text));
      ctx.SetFillStyle(Black);
      ctx.FillText(text, Add(textX, 2.0), y + 2.0);
      ctx.SetFillStyle(color);
      ctx.FillText(text, textX, y);
    }
  }

  /** If the command has a shape, a filled rectangle at the command's own x, y. */
  method DrawShape(ctx: Surface, cmd: Command)
    modifies ctx
    ensures ctx.log == old(ctx.log) + ShapeEvents(cmd)
    ensures ctx.font == old(ctx.font)
    ensures ctx.fillStyle == (if cmd.shape != "" then ColorOf(cmd) else old(ctx.fillStyle))
  {
    var color := if cmd.color.Some? then cmd.color.value else White;
    if cmd.shape != "" {
      ctx.SetFillStyle(color);
      ctx.FillRect(cmd.x, cmd.y, cmd.w, cmd.h);
    }
  }

  /** If the command has an image, the image aligned on the cursor. */
  method DrawImageOf(ctx: Surface, cmd: Command, x: Num, y: real, m: Metrics)
    modifies ctx
    ensures ctx.log == old(ctx.log) + ImageEvents(m, Cursor(x, y), cmd)
    ensures ctx.font == old(ctx.font) && ctx.fillStyle == old(ctx.fillStyle)
  {
    var halign := if cmd.halign != "" then cmd.halign else "left";
    if cmd.image.Some? {
      var img := cmd.image.value;
      var imgX := AlignX(halign, x, m.imageWidth(img));
      ctx.DrawImage(img, imgX, y);
    }
  }

  // ---------------------------------------------------------------------------
  // Cursor

  /** The cursor is updated before drawing: command `i` adds its calls, drawn at
      its own position, to those of the commands before it. */
  lemma RunAtPositions(m: Metrics, c: Cursor, cmds: seq<Command>, i: nat)
    requires i < |cmds|
    ensures Run(m, c, cmds[..i + 1]) == Run(m, c, cmds[..i]) + Emit(m, Positions(c, cmds)[i], cmds[i])
  {
    StepAt(m, c, Pen(CanvasDefault, Black), cmds, i);
    PositionIsCursorAfterPrefix(c, cmds, i);
  }

  /** An absolute command stands at exactly its own x, y, whatever came before it. */
  lemma {:induction false} AbsolutePosition(c: Cursor, cmds: seq<Command>, i: nat)
    requires i < |cmds| && !cmds[i].relative
    ensures Positions(c, cmds)[i] == Cursor(Finite(cmds[i].x), cmds[i].y)
    decreases i
  {
    if i > 0 {
      AbsolutePosition(Advance(c, cmds[0]), cmds[1..], i - 1);
    }
  }

  /** The cursor each command draws at is the cursor after the commands up to it. */
  lemma {:induction false} PositionIsCursorAfterPrefix(c: Cursor, cmds: seq<Command>, i: nat)
    requires i < |cmds|
    ensures Positions(c, cmds)[i] == CursorAfter(c, cmds[..i + 1])
    decreases i
  {
    assert cmds[..i + 1][0] == cmds[0];
    assert cmds[..i + 1][1..] == cmds[1..][..i];
    if i > 0 {
      PositionIsCursorAfterPrefix(Advance(c, cmds[0]), cmds[1..], i - 1);
    } else {
      assert cmds[1..][..0] == [];
    }
  }

  function SumX(cmds: seq<Command>): real
    decreases |cmds|
  {
    if cmds == [] then 0.0 else cmds[0].x + SumX(cmds[1..])
  }

  function SumY(cmds: seq<Command>): real
    decreases |cmds|
  {
    if cmds == [] then 0.0 else cmds[0].y + SumY(cmds[1..])
  }

  predicate AllRelative(cmds: seq<Command>)
  {
    forall i :: 0 <= i < |cmds| ==> cmds[i].relative
  }

  /** A chain of relative commands moves the cursor by the sum of its deltas. */
  lemma {:induction false} RelativeChain(c: Cursor, cmds: seq<Command>)
    requires |cmds| > 0 && AllRelative(cmds)
    ensures CursorAfter(c, cmds) == Cursor(Add(c.x, SumX(cmds)), c.y + SumY(cmds))
    decreases |cmds|
  {
    var c' := Advance(c, cmds[0]);
    if |cmds| == 1 {
      assert cmds[1..] == [];
    } else {
      RelativeChain(c', cmds[1..]);
      AddAdd(c.x, cmds[0].x, SumX(cmds[1..]));
    }
  }

  /** Without an absolute command first, x is never a number: relative moves from
      the initial `undefined` x give `NaN`. y is always defined. */
  lemma {:induction false} LeadingRelativeHasNoX(c: Cursor, cmds: seq<Command>)
    requires !c.x.Finite? && AllRelative(cmds)
    ensures forall i :: 0 <= i < |cmds| ==> Positions(c, cmds)[i].x == NaN
    decreases |cmds|
  {
    if cmds != [] {
      var c' := Advance(c, cmds[0]);
      LeadingRelativeHasNoX(c', cmds[1..]);
      forall i | 0 <= i < |cmds| ensures Positions(c, cmds)[i].x == NaN {
        if i > 0 {
          assert Positions(c, cmds)[i] == Positions(c', cmds[1..])[i - 1];
        }
      }
    }
  }

  // ---------------------------------------------------------------------------
  // Alignment

  /** Where the cursor falls on content `[o, o + w]` drawn at the aligned origin
      `o`: its middle for "center", its right edge for "right", its left edge for
      anything else. An x that is not a number stays one. */
  lemma AlignmentSpan(halign: string, x: Num, w: real)
    ensures AlignX(halign, x, w).Finite? <==> x.Finite?
    ensures x.Finite? && halign == "center" ==> AlignX(halign, x, w).v + w / 2.0 == x.v
    ensures x.Finite? && halign == "right" ==> AlignX(halign, x, w).v + w == x.v
    ensures halign != "center" && halign != "right" ==> AlignX(halign, x, w) == x
  {
  }

  /** Text and images share the alignment rule: a text command and an image
      command with the same alignment, drawn at the same cursor, whose text and
      image have the same width, start at the same x. */
  lemma TextAndImageAlignAlike(m: Metrics, c: Cursor, text: Command, image: Command)
    requires text.font.Some? && image.image.Some? && text.halign == image.halign
    requires m.textWidth(text.font.value, OrEmpty(text.text)) == m.imageWidth(image.image.value)
    ensures TextEvents(m, c, text)[1].x == ImageEvents(m, c, image)[0].x
  {
  }

  // ---------------------------------------------------------------------------
  // What one command draws

  /** How many calls one command makes: two for text, one for a rectangle, one for an image. */
  function Weight(cmd: Command): nat
  {
    (if cmd.font.Some? then 2 else 0) + (if cmd.shape != "" then 1 else 0) + (if cmd.image.Some? then 1 else 0)
  }

  function TotalWeight(cmds: seq<Command>): nat
    decreases |cmds|
  {
    if cmds == [] then 0 else Weight(cmds[0]) + TotalWeight(cmds[1..])
  }

  /** Text is drawn twice, shadow first: the same string in the same font, the
      shadow in black two units right of and below the text, the text in the
      command's colour with its top at the cursor's y. A command without a font
      draws no text. */
  lemma TextShadowThenFill(m: Metrics, c: Cursor, cmd: Command)
    ensures cmd.font.None? <==> TextEvents(m, c, cmd) == []
    ensures cmd.font.Some? ==>
      var e := TextEvents(m, c, cmd);
      && |e| == 2 && e[0].FillText? && e[1].FillText?
      && e[0].text == e[1].text == OrEmpty(cmd.text)
      && e[0].font == e[1].font == cmd.font.value
      && e[0].style == Black && e[1].style == ColorOf(cmd)
      && e[0].x == Add(e[1].x, 2.0) && e[0].y == e[1].y + 2.0
      && e[1].y == c.y
      && e[1].x == AlignX(HAlignOf(cmd), c.x, m.textWidth(cmd.font.value, OrEmpty(cmd.text)))
  {
  }

  /** A rectangle ignores the cursor: from any two cursors, a command draws the
      same rectangle, at its literal x, y, of its w by h, in its colour. */
  lemma RectangleIgnoresCursor(m: Metrics, c1: Cursor, c2: Cursor, cmd: Command)
    requires cmd.shape != ""
    ensures var k := |TextEvents(m, c1, cmd)|;
      && Emit(m, c1, cmd)[k] == FillRect(cmd.x, cmd.y, cmd.w, cmd.h, ColorOf(cmd))
      && Emit(m, c2, cmd)[k] == Emit(m, c1, cmd)[k]
  {
  }

  /** Within one command: text, then rectangle, then image. */
  lemma {:induction false} EmitOrder(m: Metrics, c: Cursor, cmd: Command)
    ensures |Emit(m, c, cmd)| == Weight(cmd)
    ensures forall i :: 0 <= i < |Emit(m, c, cmd)| && Emit(m, c, cmd)[i].FillRect? ==>
      forall j :: i < j < |Emit(m, c, cmd)| ==> !Emit(m, c, cmd)[j].FillText?
    ensures forall i :: 0 <= i < |Emit(m, c, cmd)| && Emit(m, c, cmd)[i].DrawImage? ==>
      i == |Emit(m, c, cmd)| - 1
  {
  }

  // ---------------------------------------------------------------------------
  // Command lists

  /** Every command makes its calls: the count is the sum over the list. */
  lemma {:induction false} RunLength(m: Metrics, c: Cursor, cmds: seq<Command>)
    ensures |Run(m, c, cmds)| == TotalWeight(cmds)
    decreases |cmds|
  {
    if cmds != [] {
      EmitOrder(m, Advance(c, cmds[0]), cmds[0]);
      RunLength(m, Advance(c, cmds[0]), cmds[1..]);
    }
  }

  /** Commands are processed in list order: running two lists one after the other
      draws the first list's calls and then the second's, from where the first
      left the cursor. */
  lemma {:induction false} RunConcat(m: Metrics, c: Cursor, a: seq<Command>, b: seq<Command>)
    ensures Run(m, c, a + b) == Run(m, c, a) + Run(m, CursorAfter(c, a), b)
    ensures CursorAfter(c, a + b) == CursorAfter(CursorAfter(c, a), b)
    decreases |a|
  {
    if a == [] {
      assert a + b == b;
    } else {
      var c' := Advance(c, a[0]);
      assert (a + b)[0] == a[0];
      assert (a + b)[1..] == a[1..] + b;
      RunConcat(m, c', a[1..], b);
      ConcatAssoc(Emit(m, c', a[0]), Run(m, c', a[1..]), Run(m, CursorAfter(c', a[1..]), b));
    }
  }

  /** Two adjacent slices run one after the other draw the first slice's calls
      and then the second's. */
  lemma RunSplitAt(m: Metrics, c: Cursor, cmds: seq<Command>, i: nat, j: nat, k: nat,
                   c1: Cursor, e0: seq<DrawEvent>, e1: seq<DrawEvent>)
    requires i <= j <= k <= |cmds|
    requires Run(m, c, cmds[i..j]) == e0 && CursorAfter(c, cmds[i..j]) == c1
    requires Run(m, c1, cmds[j..k]) == e1
    ensures Run(m, c, cmds[i..k]) == e0 + e1
    ensures CursorAfter(c, cmds[i..k]) == CursorAfter(c1, cmds[j..k])
  {
    SliceConcat(cmds, i, j, k);
    RunConcat(m, c, cmds[i..j], cmds[j..k]);
  }

  lemma SliceConcat<T>(s: seq<T>, i: nat, j: nat, k: nat)
    requires i <= j <= k <= |s|
    ensures s[i..k] == s[i..j] + s[j..k]
  {
  }

  lemma {:induction false} PenConcat(p: Pen, a: seq<Command>, b: seq<Command>)
    ensures PenAfter(p, a + b) == PenAfter(PenAfter(p, a), b)
    decreases |a|
  {
    if a == [] {
      assert a + b == b;
    } else {
      assert (a + b)[0] == a[0];
      assert (a + b)[1..] == a[1..] + b;
      PenConcat(PenStep(p, a[0]), a[1..], b);
    }
  }

  /** A list that starts with an absolute command draws the same from any cursor. */
  lemma AbsoluteHeadForgetsCursor(m: Metrics, c1: Cursor, c2: Cursor, cmds: seq<Command>)
    requires |cmds| > 0 && !cmds[0].relative
    ensures Run(m, c1, cmds) == Run(m, c2, cmds)
    ensures Positions(c1, cmds) == Positions(c2, cmds)
  {
  }

  /** Two commands that differ only in which image they carry. */
  predicate SameButImage(a: Command, b: Command)
  {
    a.(image := None) == b.(image := None) && a.image.Some? == b.image.Some?
  }

  /** Two draw calls that are equal, or are both image draws on the same row. */
  predicate SameButImageDraw(e1: DrawEvent, e2: DrawEvent)
  {
    e1 == e2 || (e1.DrawImage? && e2.DrawImage? && e1.y == e2.y)
  }

  /** Lists that differ only in their images draw the same calls, except for image
      draws, which stay on the same row. */
  lemma {:induction false} RunDiffersOnlyInImages(m: Metrics, c: Cursor, a: seq<Command>, b: seq<Command>)
    requires |a| == |b|
    requires forall i :: 0 <= i < |a| ==> SameButImage(a[i], b[i])
    ensures |Run(m, c, a)| == |Run(m, c, b)|
    ensures forall i :: 0 <= i < |Run(m, c, a)| ==> SameButImageDraw(Run(m, c, a)[i], Run(m, c, b)[i])
    decreases |a|
  {
    if a != [] {
      var ca := Advance(c, a[0]);
      assert Advance(c, b[0]) == ca;
      assert TextEvents(m, ca, a[0]) == TextEvents(m, ca, b[0]);
      assert ShapeEvents(a[0]) == ShapeEvents(b[0]);
      RunDiffersOnlyInImages(m, ca, a[1..], b[1..]);
    }
  }
}

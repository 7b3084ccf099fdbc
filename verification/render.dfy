/** `render` (index.js:97-172): the static board is drawn once on its own
    canvas; each of the six animation frames starts from a copy of that canvas
    and draws every forecast day's card over it, with that frame's icon image.
    The encoder receives the frames in order, repeating forever with 100 ms
    between frames. A day whose icon condition the table lacks makes the icon
    lookup throw, and nothing is returned. */
module Render {

  import opened Wrappers
  import opened Js
  import opened Canvas
  import opened Interpreter
  import opened Assets
  import opened Layout
  import opened Pieces

  /** What the static canvas holds once its commands have run. */
  function StaticBoard(m: Metrics, r: Report): seq<DrawEvent>
  {
    Run(m, Start, StaticCommands(r))
  }

  /** An icon table as the frame loop reads it: the default condition is there
      and every condition has an image for each frame. */
  predicate IconTable(icons: map<string, seq<Image>>)
  {
    && DefaultCondition in icons
    && forall key :: key in icons ==> |icons[key]| == FrameCount
  }

  /** Every forecast day's condition is in the icon table. */
  predicate IconsKnown(icons: map<string, seq<Image>>, days: seq<Day>)
  {
    forall i :: 0 <= i < |days| ==> days[i].icon in icons
  }

  /** The condition of the first day whose lookup throws. */
  function FirstUnknownIcon(icons: map<string, seq<Image>>, days: seq<Day>): (key: string)
    requires !IconsKnown(icons, days)
    ensures key !in icons
    decreases |days|
  {
    if days[0].icon !in icons then days[0].icon
    else
      assert !IconsKnown(icons, days[1..]) by {
        var i :| 0 <= i < |days| && days[i].icon !in icons;
        assert days[1..][i - 1] == days[i];
      }
      FirstUnknownIcon(icons, days[1..])
  }

  /** Day `d`'s card in frame `f`: its `DayCard` with the condition's image for
      that frame. */
  function Card(m: Metrics, icons: map<string, seq<Image>>, day: Day, d: nat, f: nat): seq<DrawEvent>
    requires IconTable(icons) && day.icon in icons && f < FrameCount
  {
    DayCard(m, day, d, icons[day.icon][f])
  }

  /** What the day-cards of frame `f` draw over the copied board: each day's
      card in forecast order, day `d` as card `d`. */
  function Cards(m: Metrics, icons: map<string, seq<Image>>, days: seq<Day>, f: nat): seq<DrawEvent>
    requires IconTable(icons) && IconsKnown(icons, days) && f < FrameCount
    decreases |days|
  {
    if days == [] then []
    else
      var d := |days| - 1;
      Cards(m, icons, days[..d], f) + Card(m, icons, days[d], d, f)
  }

  /** Frame `f`: the static canvas `board` composited at the origin, then the
      day-cards. */
  function Frame(board: seq<DrawEvent>, m: Metrics, icons: map<string, seq<Image>>, days: seq<Day>, f: nat): seq<DrawEvent>
    requires IconTable(icons) && IconsKnown(icons, days) && f < FrameCount
  {
    [DrawCanvas(board, 0.0, 0.0)] + Cards(m, icons, days, f)
  }

  /** The six frames, in order. */
  function Frames(board: seq<DrawEvent>, m: Metrics, icons: map<string, seq<Image>>, days: seq<Day>): seq<seq<DrawEvent>>
    requires IconTable(icons) && IconsKnown(icons, days)
  {
    seq(FrameCount, f requires 0 <= f < FrameCount => Frame(board, m, icons, days, f))
  }

  /** What the encoder was given: its size, its settings and its frames. */
  datatype Animation = Animation(width: nat, height: nat, repeat: int, delay: int, frames: seq<seq<DrawEvent>>)

  /** `render(info)`. */
  method Render(r: Report, m: Metrics) returns (res: Result<Animation, RenderError>)
    ensures IconTable(Icons)
    ensures res.Success? <==> IconsKnown(Icons, r.forecast)
    ensures res.Success? ==> res.value == Animation(BoardWidth, BoardHeight, 0, 100, Frames(StaticBoard(m, r), m, Icons, r.forecast))
    ensures res.Failure? ==> res.error == UndefinedIconSet(FirstUnknownIcon(Icons, r.forecast))
  {
    var canvas := DrawStaticBoard(r, m);

    // every frame starts from a copy of the static canvas
    var encoder := new GifEncoder(BoardWidth, BoardHeight);
    encoder.Start();
    encoder.SetRepeat(0);
    encoder.SetDelay(100);

    ProgramIconTable();
    var thrown := EncodeFrames(canvas, encoder, Icons, r.forecast, m);
    if thrown.Some? {
      return Failure(thrown.value);
    }
    encoder.Finish();
    return Success(Animation(encoder.width, encoder.height, encoder.repeat, encoder.delay, encoder.frames));
  }

  /** The static canvas: the background, heading, clock and ticker. */
  method DrawStaticBoard(r: Report, m: Metrics) returns (canvas: Surface)
    ensures fresh(canvas)
    ensures canvas.log == StaticBoard(m, r)
  {
    canvas := new Surface(BoardWidth, BoardHeight);
    DrawCommands(canvas, StaticCommands(r), m);
  }

  /** The frame loop: frame `f` for `f` from 0 to 5 is handed to the encoder,
      or the first unknown icon condition stops it. */
  method EncodeFrames(canvas: Surface, encoder: GifEncoder, icons: map<string, seq<Image>>, days: seq<Day>, m: Metrics)
    returns (thrown: Option<RenderError>)
    requires IconTable(icons)
    requires encoder.frames == []
    modifies encoder
    ensures thrown.None? <==> IconsKnown(icons, days)
    ensures thrown.None? ==> encoder.frames == Frames(canvas.log, m, icons, days)
    ensures thrown.Some? ==> thrown.value == UndefinedIconSet(FirstUnknownIcon(icons, days))
    ensures encoder.started == old(encoder.started) && encoder.finished == old(encoder.finished)
    ensures encoder.repeat == old(encoder.repeat) && encoder.delay == old(encoder.delay)
  {
    for f := 0 to FrameCount
      invariant f > 0 ==> IconsKnown(icons, days)
      invariant |encoder.frames| == f
      invariant forall g :: 0 <= g < f ==> encoder.frames[g] == Frame(canvas.log, m, icons, days, g)
      invariant encoder.started == old(encoder.started) && encoder.finished == old(encoder.finished)
      invariant encoder.repeat == old(encoder.repeat) && encoder.delay == old(encoder.delay)
    {
      var frame;
      frame, thrown := DrawFrame(canvas, icons, days, m, f);
      if thrown.Some? {
        return;
      }
      encoder.AddFrame(frame);
    }
    return None;
  }

  /** One pass of the frame loop: a fresh canvas, the static canvas copied onto
      it, then the day-cards with frame `f`'s icons. */
  method DrawFrame(canvas: Surface, icons: map<string, seq<Image>>, days: seq<Day>, m: Metrics, f: nat)
    returns (frame: Surface, thrown: Option<RenderError>)
    requires IconTable(icons) && f < FrameCount
    ensures fresh(frame)
    ensures thrown.None? <==> IconsKnown(icons, days)
    ensures thrown.None? ==> frame.log == Frame(canvas.log, m, icons, days, f)
    ensures thrown.Some? ==> thrown.value == UndefinedIconSet(FirstUnknownIcon(icons, days))
  {
    frame := new Surface(BoardWidth, BoardHeight);
    frame.DrawCanvas(canvas, 0.0, 0.0);
    thrown := DrawForecast(frame, icons, days, m, f);
  }

  /** The inner loop of frame `f`: each day's card in forecast order, or the
      error of the first day whose icon lookup throws. */
  method DrawForecast(frame: Surface, icons: map<string, seq<Image>>, days: seq<Day>, m: Metrics, f: nat)
    returns (thrown: Option<RenderError>)
    requires IconTable(icons) && f < FrameCount
    modifies frame
    ensures thrown.None? <==> IconsKnown(icons, days)
    ensures thrown.None? ==> frame.log == old(frame.log) + Cards(m, icons, days, f)
    ensures thrown.Some? ==> thrown.value == UndefinedIconSet(FirstUnknownIcon(icons, days))
  {
    ghost var log0 := frame.log;
    for d := 0 to |days|
      invariant IconsKnown(icons, days[..d])
      invariant frame.log == log0 + Cards(m, icons, days[..d], f)
    {
      thrown := DrawDay(frame, icons, days[d], d, m, f);
      if thrown.Some? {
        FirstUnknownIs(icons, days, d);
        return;
      }
      CardsStep(m, icons, days, d, f);
      ConcatAssoc(log0, Cards(m, icons, days[..d], f), Card(m, icons, days[d], d, f));
    }
    assert days[..|days|] == days;
    return None;
  }

  /** One pass of the inner loop: the icon lookup, then the day's commands. */
  method DrawDay(frame: Surface, icons: map<string, seq<Image>>, day: Day, d: nat, m: Metrics, f: nat)
    returns (thrown: Option<RenderError>)
    requires IconTable(icons) && f < FrameCount
    modifies frame
    ensures thrown.None? <==> day.icon in icons
    ensures thrown.None? ==> frame.log == old(frame.log) + Card(m, icons, day, d, f)
    ensures thrown.Some? ==> thrown.value == UndefinedIconSet(day.icon) && frame.log == old(frame.log)
  {
    var icon := SelectIcon(icons, day.icon, f);
    if icon.Failure? {
      // `Icons[day.icon]` is undefined: indexing it throws
      return Some(icon.error);
    }
    assert icon.value == Some(icons[day.icon][f]);
    DrawCommands(frame, DayCommands(day, d, icon.value), m);
    DayCardResolved(m, Start, day, d, icons[day.icon][f]);
    return None;
  }

  // ---------------------------------------------------------------------------
  // The loop's steps

  /** The program's table is one the frame loop can read. */
  lemma ProgramIconTable()
    ensures IconTable(Icons)
  {
    IconTableShape();
  }

  /** When the first `d` days are known and day `d` is not, day `d` names the
      error. */
  lemma {:induction false} FirstUnknownIs(icons: map<string, seq<Image>>, days: seq<Day>, d: nat)
    requires d < |days| && IconsKnown(icons, days[..d]) && days[d].icon !in icons
    ensures !IconsKnown(icons, days)
    ensures FirstUnknownIcon(icons, days) == days[d].icon
    decreases d
  {
    if d > 0 {
      assert days[..d][0] == days[0];
      assert days[1..][..d - 1] == days[..d][1..];
      var known := days[1..][..d - 1];
      forall i | 0 <= i < |known| ensures known[i].icon in icons {
        assert known[i] == days[..d][i + 1];
      }
      FirstUnknownIs(icons, days[1..], d - 1);
    }
  }

  /** The error names the first day whose condition the table lacks: every
      earlier day's condition is in the table. */
  lemma {:induction false} FirstUnknownIsFirst(icons: map<string, seq<Image>>, days: seq<Day>) returns (d: nat)
    requires !IconsKnown(icons, days)
    ensures d < |days| && days[d].icon == FirstUnknownIcon(icons, days)
    ensures IconsKnown(icons, days[..d])
    decreases |days|
  {
    if days[0].icon !in icons {
      d := 0;
    } else {
      assert !IconsKnown(icons, days[1..]) by {
        var i :| 0 <= i < |days| && days[i].icon !in icons;
        assert days[1..][i - 1] == days[i];
      }
      var e := FirstUnknownIsFirst(icons, days[1..]);
      d := e + 1;
      assert days[d] == days[1..][e];
      var known := days[..d];
      forall i | 0 <= i < |known| ensures known[i].icon in icons {
        if i > 0 {
          assert known[i] == days[1..][..e][i - 1];
        }
      }
    }
  }

  /** One more day drawn: the cards of the first `d + 1` days are those of the
      first `d` days followed by day `d`'s card. */
  lemma CardsStep(m: Metrics, icons: map<string, seq<Image>>, days: seq<Day>, d: nat, f: nat)
    requires IconTable(icons) && f < FrameCount
    requires d < |days| && IconsKnown(icons, days[..d]) && days[d].icon in icons
    ensures IconsKnown(icons, days[..d + 1])
    ensures Cards(m, icons, days[..d + 1], f)
      == Cards(m, icons, days[..d], f) + Card(m, icons, days[d], d, f)
  {
    assert days[..d + 1][..d] == days[..d];
    assert days[..d + 1][d] == days[d];
  }

  // ---------------------------------------------------------------------------
  // The frames

  /** The cards of frame `f`, one per day. */
  function CardList(m: Metrics, icons: map<string, seq<Image>>, days: seq<Day>, f: nat): (cards: seq<seq<DrawEvent>>)
    requires IconTable(icons) && IconsKnown(icons, days) && f < FrameCount
    ensures |cards| == |days|
  {
    seq(|days|, d requires 0 <= d < |days| => Card(m, icons, days[d], d, f))
  }

  /** What the inner loop draws is its cards one after another. */
  lemma {:induction false} CardsAreConcat(m: Metrics, icons: map<string, seq<Image>>, days: seq<Day>, f: nat)
    requires IconTable(icons) && IconsKnown(icons, days) && f < FrameCount
    ensures Cards(m, icons, days, f) == Concat(CardList(m, icons, days, f))
    decreases |days|
  {
    if days != [] {
      var n := |days| - 1;
      var prefix := days[..n];
      assert IconsKnown(icons, prefix) by {
        forall i | 0 <= i < |prefix| ensures prefix[i].icon in icons {
          assert prefix[i] == days[i];
        }
      }
      CardsAreConcat(m, icons, prefix, f);
      var cards := CardList(m, icons, days, f);
      assert cards[..n] == CardList(m, icons, prefix, f);
    }
  }

  /** Day `d`'s cards in frames `f` and `g` have 13 calls each and differ at
      most in the third, the icon, which draws the condition's image for the
      frame centred on A + 100 at y = 145. */
  lemma CardsOfTwoFrames(m: Metrics, icons: map<string, seq<Image>>, day: Day, d: nat, f: nat, g: nat)
    requires IconTable(icons) && day.icon in icons && f < FrameCount && g < FrameCount
    ensures |Card(m, icons, day, d, f)| == 13 && |Card(m, icons, day, d, g)| == 13
    ensures forall k :: 0 <= k < 13 && k != 2 ==> Card(m, icons, day, d, f)[k] == Card(m, icons, day, d, g)[k]
    ensures Card(m, icons, day, d, f)[2]
      == DrawImage(icons[day.icon][f], Finite(Anchor(d) + 100.0 - m.imageWidth(icons[day.icon][f]) / 2.0), 145.0)
  {
    DayCardIconSlot(m, day, d, icons[day.icon][f], icons[day.icon][g]);
    DayCardIconSlot(m, day, d, icons[day.icon][g], icons[day.icon][f]);
  }

  /** Whether call `i` of a frame is a day-card's icon. */
  predicate IsIconCall(i: nat)
  {
    i >= 1 && (i - 1) % 13 == 2
  }

  /** A frame is the copied board followed by the cards one after another:
      one call for the board plus 13 per day. */
  lemma FrameLayout(board: seq<DrawEvent>, m: Metrics, icons: map<string, seq<Image>>, days: seq<Day>, f: nat)
    requires IconTable(icons) && IconsKnown(icons, days) && f < FrameCount
    ensures forall d :: 0 <= d < |days| ==> |CardList(m, icons, days, f)[d]| == 13
    ensures Frame(board, m, icons, days, f) == [DrawCanvas(board, 0.0, 0.0)] + Concat(CardList(m, icons, days, f))
    ensures |Frame(board, m, icons, days, f)| == 1 + 13 * |days|
  {
    var a := CardList(m, icons, days, f);
    forall d | 0 <= d < |days| ensures |a[d]| == 13 {
      CardsOfTwoFrames(m, icons, days[d], d, f, f);
    }
    ConcatLength(a, 13);
    CardsAreConcat(m, icons, days, f);
  }

  /** Card `d`'s icon in frame `f` is the condition's image for that frame,
      centred on A + 100 at y = 145. */
  lemma FrameIconCalls(board: seq<DrawEvent>, m: Metrics, icons: map<string, seq<Image>>, days: seq<Day>, f: nat)
    requires IconTable(icons) && IconsKnown(icons, days) && f < FrameCount
    ensures |Frame(board, m, icons, days, f)| == 1 + 13 * |days|
    ensures forall d :: 0 <= d < |days| ==>
      Frame(board, m, icons, days, f)[1 + 13 * d + 2]
        == DrawImage(icons[days[d].icon][f], Finite(Anchor(d) + 100.0 - m.imageWidth(icons[days[d].icon][f]) / 2.0), 145.0)
  {
    FrameLayout(board, m, icons, days, f);
    forall d | 0 <= d < |days|
      ensures Frame(board, m, icons, days, f)[1 + 13 * d + 2]
        == DrawImage(icons[days[d].icon][f], Finite(Anchor(d) + 100.0 - m.imageWidth(icons[days[d].icon][f]) / 2.0), 145.0)
    {
      FrameIconCallAt(board, m, icons, days, f, d);
    }
  }

  lemma FrameIconCallAt(board: seq<DrawEvent>, m: Metrics, icons: map<string, seq<Image>>, days: seq<Day>, f: nat, d: nat)
    requires IconTable(icons) && IconsKnown(icons, days) && f < FrameCount && d < |days|
    ensures 1 + 13 * d + 2 < |Frame(board, m, icons, days, f)|
    ensures Frame(board, m, icons, days, f)[1 + 13 * d + 2]
      == DrawImage(icons[days[d].icon][f], Finite(Anchor(d) + 100.0 - m.imageWidth(icons[days[d].icon][f]) / 2.0), 145.0)
  {
    var a := CardList(m, icons, days, f);
    FrameLayout(board, m, icons, days, f);
    CardsOfTwoFrames(m, icons, days[d], d, f, f);
    ConcatAt(a, 13, d, 2);
  }

  /** Any two frames agree on every call but the cards' icons. */
  lemma FramesAgreeOffIcons(board: seq<DrawEvent>, m: Metrics, icons: map<string, seq<Image>>, days: seq<Day>, f: nat, g: nat)
    requires IconTable(icons) && IconsKnown(icons, days) && f < FrameCount && g < FrameCount
    ensures |Frame(board, m, icons, days, g)| == |Frame(board, m, icons, days, f)|
    ensures forall i :: 0 <= i < |Frame(board, m, icons, days, f)| && !IsIconCall(i) ==>
      Frame(board, m, icons, days, f)[i] == Frame(board, m, icons, days, g)[i]
  {
    var a := CardList(m, icons, days, f);
    var b := CardList(m, icons, days, g);
    forall d | 0 <= d < |days|
      ensures |a[d]| == 13 && |b[d]| == 13
      ensures forall k :: 0 <= k < 13 && k != 2 ==> a[d][k] == b[d][k]
    {
      CardsOfTwoFrames(m, icons, days[d], d, f, g);
    }
    ConcatAgreeOffSlot(a, b, 13, 2);
    FrameLayout(board, m, icons, days, f);
    FrameLayout(board, m, icons, days, g);
  }

  /** The frames of an animation differ only in their icon images: each has one
      call for the copied board plus 13 per day; any two agree on every call but
      the cards' icons, and card `d`'s icon in frame `f` is the condition's image
      for that frame, centred on A + 100 at y = 145. */
  lemma FramesDifferOnlyInIcons(board: seq<DrawEvent>, m: Metrics, icons: map<string, seq<Image>>, days: seq<Day>, f: nat, g: nat)
    requires IconTable(icons) && IconsKnown(icons, days) && f < FrameCount && g < FrameCount
    ensures |Frame(board, m, icons, days, f)| == 1 + 13 * |days|
    ensures Frame(board, m, icons, days, f)[0] == DrawCanvas(board, 0.0, 0.0)
    ensures |Frame(board, m, icons, days, g)| == |Frame(board, m, icons, days, f)|
    ensures forall i :: 0 <= i < |Frame(board, m, icons, days, f)| && !IsIconCall(i) ==>
      Frame(board, m, icons, days, f)[i] == Frame(board, m, icons, days, g)[i]
    ensures forall d :: 0 <= d < |days| ==>
      Frame(board, m, icons, days, f)[1 + 13 * d + 2]
        == DrawImage(icons[days[d].icon][f], Finite(Anchor(d) + 100.0 - m.imageWidth(icons[days[d].icon][f]) / 2.0), 145.0)
  {
    FramesAgreeOffIcons(board, m, icons, days, f, g);
    FrameIconCalls(board, m, icons, days, f);
  }

  /** Two frames are equal exactly when every day's condition has the same
      image in both. */
  lemma FramesEqualIffSameIcons(board: seq<DrawEvent>, m: Metrics, icons: map<string, seq<Image>>, days: seq<Day>, f: nat, g: nat)
    requires IconTable(icons) && IconsKnown(icons, days) && f < FrameCount && g < FrameCount
    ensures Frame(board, m, icons, days, f) == Frame(board, m, icons, days, g)
      <==> (forall d :: 0 <= d < |days| ==> icons[days[d].icon][f] == icons[days[d].icon][g])
  {
    FramesAgreeOffIcons(board, m, icons, days, f, g);
    FrameIconCalls(board, m, icons, days, f);
    FrameIconCalls(board, m, icons, days, g);
    var F, G := Frame(board, m, icons, days, f), Frame(board, m, icons, days, g);
    if forall d :: 0 <= d < |days| ==> icons[days[d].icon][f] == icons[days[d].icon][g] {
      forall i | 0 <= i < |F| ensures F[i] == G[i] {
        if IsIconCall(i) {
          var d := (i - 1) / 13;
          assert i == 1 + 13 * d + 2 && d < |days|;
          assert icons[days[d].icon][f] == icons[days[d].icon][g];
        }
      }
    } else {
      var d :| 0 <= d < |days| && icons[days[d].icon][f] != icons[days[d].icon][g];
      assert F[1 + 13 * d + 2] != G[1 + 13 * d + 2];
    }
  }

  /** With the program's table, the animation stands still exactly when every
      forecast condition has a single image: then all six frames equal the
      first; one animated condition makes its card's icon differ between frames
      0 and 1. */
  lemma StillExactlyWhenNoAnimatedIcon(board: seq<DrawEvent>, m: Metrics, days: seq<Day>)
    requires IconsKnown(Icons, days)
    ensures IconTable(Icons)
    ensures (forall f :: 0 <= f < FrameCount ==> Frames(board, m, Icons, days)[f] == Frames(board, m, Icons, days)[0])
      <==> (forall d :: 0 <= d < |days| ==> days[d].icon in StillConditions)
  {
    ProgramIconTable();
    var frames := Frames(board, m, Icons, days);
    if forall d :: 0 <= d < |days| ==> days[d].icon in StillConditions {
      forall f | 0 <= f < FrameCount ensures frames[f] == frames[0] {
        forall d | 0 <= d < |days| ensures Icons[days[d].icon][f] == Icons[days[d].icon][0] {
          StillConditionRepeats(days[d].icon, f);
        }
        FramesEqualIffSameIcons(board, m, Icons, days, f, 0);
        assert frames[f] == Frame(board, m, Icons, days, f) && frames[0] == Frame(board, m, Icons, days, 0);
      }
    } else {
      var d :| 0 <= d < |days| && days[d].icon !in StillConditions;
      AnimatedConditionMoves(days[d].icon);
      FramesEqualIffSameIcons(board, m, Icons, days, 1, 0);
      assert frames[1] == Frame(board, m, Icons, days, 1) && frames[0] == Frame(board, m, Icons, days, 0);
    }
  }

  /** The sample forecast opens with rain, so its animation moves: frame 1
      differs from frame 0. */
  lemma SampleForecastAnimates(board: seq<DrawEvent>, m: Metrics, alert: Value)
    ensures IconTable(Icons) && IconsKnown(Icons, SampleReport(alert).forecast)
    ensures Frames(board, m, Icons, SampleReport(alert).forecast)[1]
      != Frames(board, m, Icons, SampleReport(alert).forecast)[0]
  {
    ProgramIconTable();
    var days := SampleReport(alert).forecast;
    assert IconsKnown(Icons, days) by {
      IconTableShape();
    }
    AnimatedConditionMoves(days[0].icon);
    FramesEqualIffSameIcons(board, m, Icons, days, 1, 0);
    var frames := Frames(board, m, Icons, days);
    assert frames[1] == Frame(board, m, Icons, days, 1) && frames[0] == Frame(board, m, Icons, days, 0);
  }

  lemma StillConditionRepeats(key: string, f: nat)
    requires key in StillConditions && f < FrameCount
    ensures key in Icons && Icons[key][f] == Icons[key][0]
  {
    IconTableShape();
  }

  lemma AnimatedConditionMoves(key: string)
    requires key in Icons && key !in StillConditions
    ensures Icons[key][1] != Icons[key][0]
  {
    IconTableShape();
    assert key in AnimatedConditions;
  }
}

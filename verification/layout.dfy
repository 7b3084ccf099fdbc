/** The command lists `render` builds from a weather report: the static board
    (index.js:105-126) and one day-card per forecast day (index.js:146-161).
    Dates arrive already formatted: the clock's two lines and each day's
    abbreviated weekday are inputs. */
module Layout {

  import opened Wrappers
  import opened Js
  import opened Canvas
  import opened Interpreter

  /** One forecast day. `weekday` is the day's date formatted as 'ddd'. */
  datatype Day = Day(weekday: string, icon: string, summary: Value, loTemp: Value, hiTemp: Value)

  /** The report `render` receives. `clockTime` and `clockDate` are its date
      formatted as 'h:mm:ss A' and 'ddd MMM D'. */
  datatype Report = Report(
    address: Value, unit: Value,
    clockTime: string, clockDate: string,
    temperature: Value, feelsLike: Value, alert: Value,
    forecast: seq<Day>)

  /** The second ticker line: current and feels-like temperature with the unit. */
  function TempLine(r: Report): string
  {
    "Temp: " + ToString(r.temperature) + "°" + ToString(r.unit)
      + "   Feels Like: " + ToString(r.feelsLike) + "°" + ToString(r.unit)
  }

  /** The ticker text: the alert on a line of its own when there is one. */
  function Ticker(r: Report): string
  {
    (if Truthy(r.alert) then ToString(r.alert) + "\n" else "") + TempLine(r)
  }

  /** The footer is red under an alert and teal otherwise. */
  function FooterColor(r: Report): Color
  {
    if Truthy(r.alert) then Red else Teal
  }

  /** The static board: background, address and label, clock, footer, ticker. */
  function StaticCommands(r: Report): seq<Command>
  {
    [ Blank.(image := Some(Background), x := 0.0, y := 0.0),
      // the address, and the heading under it
      Blank.(font := Some(MdFont), text := r.address, x := 150.0, y := 34.0),
      Blank.(font := Some(MdFont), text := Str("Extended Forecast"), color := Some(Yellow), relative := true, x := 0.0, y := 36.0),
      // the time, and the date under it
      Blank.(font := Some(SmFont), text := Str(r.clockTime), x := 695.0, y := 45.0),
      Blank.(font := Some(SmFont), text := Str(r.clockDate), relative := true, x := 0.0, y := 25.0),
      // the footer band, and the ticker text on it
      Blank.(shape := "rectangle", color := Some(FooterColor(r)), x := 0.0, y := 479.0, w := 975.0, h := 96.0),
      Blank.(font := Some(MdFont), text := Str(Ticker(r)), x := 5.0, y := 510.0) ]
  }

  /** The left edge of day-card `d`: cards are 244 units apart from x = 15. */
  function Anchor(d: nat): real
  {
    (15 + 244 * d) as real
  }

  /** Day-card `d`: one absolute move to its corner, then relative moves only. */
  function DayCommands(day: Day, d: nat, icon: Option<Image>): seq<Command>
  {
    [ Blank.(x := Anchor(d), y := 90.0),
      // the card's upper half: weekday, icon, summary
      Blank.(font := Some(MdFont), text := Str(ToUpper(day.weekday)), halign := "center", color := Some(Yellow), relative := true, x := 100.0, y := 40.0),
      Blank.(image := icon, halign := "center", relative := true, x := 0.0, y := 15.0),
      Blank.(font := Some(MdFont), text := day.summary, halign := "center", relative := true, x := 0.0, y := 165.0),
      // the low temperature, labelled
      Blank.(font := Some(MdFont), text := Str("Lo"), color := Some(TealAlso), halign := "center", relative := true, x := -50.0, y := 90.0),
      Blank.(font := Some(LgFont), text := day.loTemp, halign := "center", relative := true, x := 0.0, y := 45.0),
      // the high temperature, labelled: 100 right of the low, on the same row
      Blank.(font := Some(MdFont), text := Str("Hi"), color := Some(Yellow), halign := "center", relative := true, x := 100.0, y := -45.0),
      Blank.(font := Some(LgFont), text := day.hiTemp, halign := "center", relative := true, x := 0.0, y := 45.0) ]
  }

  // ---------------------------------------------------------------------------
  // Ticker and footer

  /** With an alert, the ticker's first line is the alert and the rest is the
      temperature line; without one, the ticker is the temperature line alone. */
  lemma TickerLines(r: Report)
    ensures Truthy(r.alert) ==>
      var a := ToString(r.alert);
      && Ticker(r)[..|a| + 1] == a + "\n"
      && Ticker(r)[|a| + 1..] == TempLine(r)
    ensures !Truthy(r.alert) ==> Ticker(r) == TempLine(r)
  {
  }

  /** The report with the values of the program's sample data. */
  function SampleReport(alert: Value): Report
  {
    Report(Str("Lake Hopatcong 07849, NJ"), Str("F"), "", "", Number(75), Number(76), alert, [
      Day("Wed", "rain", Str("Rain"), Number(65), Number(80)),
      Day("Thu", "partly-cloudy-day", Str("Partly\nCloudy"), Number(64), Number(83)),
      Day("Fri", "cloudy", Str("Cloudy"), Number(65), Number(79)),
      Day("Sat", "rain", Str("Rain"), Number(64), Number(81))])
  }

  /** The spelling of the sample temperatures. */
  lemma SampleNumbers()
    ensures IntToString(75) == "75" && IntToString(76) == "76"
  {
    assert NatToString(7) == "7";
    assert NatToString(75) == NatToString(7) + [DigitChar(5)];
    assert NatToString(76) == NatToString(7) + [DigitChar(6)];
  }

  /** The sample report's temperature line, whatever its alert. */
  lemma SampleTempLine(alert: Value)
    ensures TempLine(SampleReport(alert)) == "Temp: 75°F   Feels Like: 76°F"
  {
    SampleNumbers();
    assert TempLine(SampleReport(alert)) == "Temp: " + "75" + "°" + "F" + "   Feels Like: " + "76" + "°" + "F";
  }

  /** The sample report's ticker and footer, without and with an alert. */
  lemma SampleTickerAndFooter()
    ensures Ticker(SampleReport(Undef)) == "Temp: 75°F   Feels Like: 76°F"
    ensures FooterColor(SampleReport(Undef)) == Teal
    ensures Ticker(SampleReport(Str("Severe Thunderstorm Watch")))
      == "Severe Thunderstorm Watch" + "\n" + "Temp: 75°F   Feels Like: 76°F"
    ensures FooterColor(SampleReport(Str("Severe Thunderstorm Watch"))) == Red
  {
    SampleTempLine(Undef);
    SampleTempLine(Str("Severe Thunderstorm Watch"));
  }

  // ---------------------------------------------------------------------------
  // The static board, resolved

  /** The static board resolves to these calls, whatever the text and image
      widths (it is all left-aligned): the background at the origin; the address
      at (150, 34) with the yellow heading 36 below it; the time at (695, 45) with
      the date 25 below it; the footer rectangle (0, 479, 975, 96) in the footer
      colour and the ticker at (5, 510). Each text comes after its black shadow at
      (+2, +2). */
  lemma StaticBoardResolved(m: Metrics, r: Report)
    ensures Run(m, Start, StaticCommands(r)) ==
      [DrawImage(Background, Finite(0.0), 0.0)]
      + [FillText(OrEmpty(r.address), Finite(152.0), 36.0, MdFont, Black),
         FillText(OrEmpty(r.address), Finite(150.0), 34.0, MdFont, White),
         FillText("Extended Forecast", Finite(152.0), 72.0, MdFont, Black),
         FillText("Extended Forecast", Finite(150.0), 70.0, MdFont, Yellow)]
      + [FillText(r.clockTime, Finite(697.0), 47.0, SmFont, Black),
         FillText(r.clockTime, Finite(695.0), 45.0, SmFont, White),
         FillText(r.clockDate, Finite(697.0), 72.0, SmFont, Black),
         FillText(r.clockDate, Finite(695.0), 70.0, SmFont, White)]
      + [FillRect(0.0, 479.0, 975.0, 96.0, FooterColor(r)),
         FillText(Ticker(r), Finite(7.0), 512.0, MdFont, Black),
         FillText(Ticker(r), Finite(5.0), 510.0, MdFont, White)]
  {
    var cmds := StaticCommands(r);
    var c1 := CursorAfter(Start, cmds[0..1]);
    StaticBackground(m, r, Start);
    StaticAddress(m, r, c1);
    RunSplitAt(m, Start, cmds, 0, 1, 3, c1,
      [DrawImage(Background, Finite(0.0), 0.0)],
      [FillText(OrEmpty(r.address), Finite(152.0), 36.0, MdFont, Black),
       FillText(OrEmpty(r.address), Finite(150.0), 34.0, MdFont, White),
       FillText("Extended Forecast", Finite(152.0), 72.0, MdFont, Black),
       FillText("Extended Forecast", Finite(150.0), 70.0, MdFont, Yellow)]);
    var c3 := CursorAfter(Start, cmds[0..3]);
    StaticClock(m, r, c3);
    RunSplitAt(m, Start, cmds, 0, 3, 5, c3, Run(m, Start, cmds[0..3]), Run(m, c3, cmds[3..5]));
    var c5 := CursorAfter(Start, cmds[0..5]);
    StaticFooter(m, r, c5);
    RunSplitAt(m, Start, cmds, 0, 5, 7, c5, Run(m, Start, cmds[0..5]), Run(m, c5, cmds[5..7]));
    WholeSlice(cmds);
  }

  /** The background, at the origin, from any cursor. */
  lemma StaticBackground(m: Metrics, r: Report, c: Cursor)
    ensures Run(m, c, StaticCommands(r)[0..1]) == [DrawImage(Background, Finite(0.0), 0.0)]
  {
    var cmds := StaticCommands(r)[0..1];
    assert cmds[1..] == [];
    assert Emit(m, Cursor(Finite(0.0), 0.0), cmds[0]) == [DrawImage(Background, Finite(0.0), 0.0)];
  }

  /** The address and, 36 below it, the heading, from any cursor. */
  lemma StaticAddress(m: Metrics, r: Report, c: Cursor)
    ensures Run(m, c, StaticCommands(r)[1..3]) ==
      [FillText(OrEmpty(r.address), Finite(152.0), 36.0, MdFont, Black),
       FillText(OrEmpty(r.address), Finite(150.0), 34.0, MdFont, White),
       FillText("Extended Forecast", Finite(152.0), 72.0, MdFont, Black),
       FillText("Extended Forecast", Finite(150.0), 70.0, MdFont, Yellow)]
  {
    var cmds := StaticCommands(r)[1..3];
    var c1, c2 := Cursor(Finite(150.0), 34.0), Cursor(Finite(150.0), 70.0);
    assert Advance(c, cmds[0]) == c1 && Advance(c1, cmds[1]) == c2;
    assert Emit(m, c1, cmds[0]) ==
      [FillText(OrEmpty(r.address), Finite(152.0), 36.0, MdFont, Black),
       FillText(OrEmpty(r.address), Finite(150.0), 34.0, MdFont, White)];
    assert OrEmpty(Str("Extended Forecast")) == "Extended Forecast";
    assert Emit(m, c2, cmds[1]) ==
      [FillText("Extended Forecast", Finite(152.0), 72.0, MdFont, Black),
       FillText("Extended Forecast", Finite(150.0), 70.0, MdFont, Yellow)];
    assert cmds[1..][1..] == [];
    assert Run(m, c1, cmds[1..]) == Emit(m, c2, cmds[1]);
  }

  /** The time and, 25 below it, the date, from any cursor. */
  lemma StaticClock(m: Metrics, r: Report, c: Cursor)
    ensures Run(m, c, StaticCommands(r)[3..5]) ==
      [FillText(r.clockTime, Finite(697.0), 47.0, SmFont, Black),
       FillText(r.clockTime, Finite(695.0), 45.0, SmFont, White),
       FillText(r.clockDate, Finite(697.0), 72.0, SmFont, Black),
       FillText(r.clockDate, Finite(695.0), 70.0, SmFont, White)]
  {
    var cmds := StaticCommands(r)[3..5];
    var c1, c2 := Cursor(Finite(695.0), 45.0), Cursor(Finite(695.0), 70.0);
    assert Advance(c, cmds[0]) == c1 && Advance(c1, cmds[1]) == c2;
    assert OrEmpty(Str(r.clockTime)) == r.clockTime && OrEmpty(Str(r.clockDate)) == r.clockDate;
    assert Emit(m, c1, cmds[0]) ==
      [FillText(r.clockTime, Finite(697.0), 47.0, SmFont, Black),
       FillText(r.clockTime, Finite(695.0), 45.0, SmFont, White)];
    assert Emit(m, c2, cmds[1]) ==
      [FillText(r.clockDate, Finite(697.0), 72.0, SmFont, Black),
       FillText(r.clockDate, Finite(695.0), 70.0, SmFont, White)];
    assert cmds[1..][1..] == [];
    assert Run(m, c1, cmds[1..]) == Emit(m, c2, cmds[1]);
  }

  /** The footer rectangle and the ticker, from any cursor. */
  lemma StaticFooter(m: Metrics, r: Report, c: Cursor)
    ensures Run(m, c, StaticCommands(r)[5..7]) ==
      [FillRect(0.0, 479.0, 975.0, 96.0, FooterColor(r)),
       FillText(Ticker(r), Finite(7.0), 512.0, MdFont, Black),
       FillText(Ticker(r), Finite(5.0), 510.0, MdFont, White)]
  {
    var cmds := StaticCommands(r)[5..7];
    var c1, c2 := Cursor(Finite(0.0), 479.0), Cursor(Finite(5.0), 510.0);
    assert Advance(c, cmds[0]) == c1 && Advance(c1, cmds[1]) == c2;
    assert Emit(m, c1, cmds[0]) == [FillRect(0.0, 479.0, 975.0, 96.0, FooterColor(r))];
    assert Ticker(r) != "";
    assert Emit(m, c2, cmds[1]) ==
      [FillText(Ticker(r), Finite(7.0), 512.0, MdFont, Black),
       FillText(Ticker(r), Finite(5.0), 510.0, MdFont, White)];
    assert cmds[1..][1..] == [];
    assert Run(m, c1, cmds[1..]) == Emit(m, c2, cmds[1]);
  }

  // ---------------------------------------------------------------------------
  // Day-cards, resolved

  /** Where each of day-card `d`'s eight commands stands, from any cursor: the
      corner (A, 90) with A = 15 + 244 d; the weekday at (A + 100, 130), the icon
      at (A + 100, 145), the summary at (A + 100, 310); "Lo" at (A + 50, 400) with
      its value at (A + 50, 445); "Hi" at (A + 150, 400) with its value at
      (A + 150, 445). */
  lemma DayCardPositions(c: Cursor, day: Day, d: nat, icon: Option<Image>)
    ensures var a := Anchor(d);
      Positions(c, DayCommands(day, d, icon)) == [
        Cursor(Finite(a), 90.0),
        Cursor(Finite(a + 100.0), 130.0),
        Cursor(Finite(a + 100.0), 145.0),
        Cursor(Finite(a + 100.0), 310.0),
        Cursor(Finite(a + 50.0), 400.0),
        Cursor(Finite(a + 50.0), 445.0),
        Cursor(Finite(a + 150.0), 400.0),
        Cursor(Finite(a + 150.0), 445.0)]
  {
    var cmds := DayCommands(day, d, icon);
    var a := Anchor(d);
    assert cmds[1..][1..] == cmds[2..];
    assert cmds[2..][1..] == cmds[3..];
    assert cmds[3..][1..] == cmds[4..];
    assert cmds[4..][1..] == cmds[5..];
    assert cmds[5..][1..] == cmds[6..];
    assert cmds[6..][1..] == cmds[7..];
    assert cmds[7..][1..] == [];
    assert Positions(Cursor(Finite(a + 150.0), 400.0), cmds[7..]) == [Cursor(Finite(a + 150.0), 445.0)];
    assert Positions(Cursor(Finite(a + 50.0), 445.0), cmds[6..])
      == [Cursor(Finite(a + 150.0), 400.0), Cursor(Finite(a + 150.0), 445.0)];
    assert Positions(Cursor(Finite(a + 50.0), 400.0), cmds[5..])
      == [Cursor(Finite(a + 50.0), 445.0), Cursor(Finite(a + 150.0), 400.0), Cursor(Finite(a + 150.0), 445.0)];
    assert Positions(Cursor(Finite(a + 100.0), 310.0), cmds[4..])[0] == Cursor(Finite(a + 50.0), 400.0);
    assert Positions(Cursor(Finite(a + 100.0), 145.0), cmds[3..])[0] == Cursor(Finite(a + 100.0), 310.0);
    assert Positions(Cursor(Finite(a + 100.0), 130.0), cmds[2..])[0] == Cursor(Finite(a + 100.0), 145.0);
    assert Positions(Cursor(Finite(a), 90.0), cmds[1..])[0] == Cursor(Finite(a + 100.0), 130.0);
  }

  /** The card's landmarks: the weekday and the icon share a column 100 right of
      the anchor; "Lo" and "Hi" share the row y = 400 with "Hi" exactly 100 to
      the right; both values sit on y = 445 under their labels. The four cards of
      a report are at 15, 259, 503 and 747. */
  lemma DayCardLandmarks(c: Cursor, day: Day, d: nat, icon: Option<Image>)
    ensures var ps := Positions(c, DayCommands(day, d, icon));
      && ps[1].x == ps[2].x == Finite(Anchor(d) + 100.0)
      && ps[4].y == ps[6].y == 400.0
      && ps[6].x == Add(ps[4].x, 100.0)
      && ps[5].y == ps[7].y == 445.0
      && ps[5].x == ps[4].x && ps[7].x == ps[6].x
    ensures [Anchor(0), Anchor(1), Anchor(2), Anchor(3)] == [15.0, 259.0, 503.0, 747.0]
  {
    DayCardPositions(c, day, d, icon);
  }

  /** A centred text at (x, y): its shadow, then the text, both shifted left by
      half the text's width. */
  function CenteredText(m: Metrics, font: Font, text: string, x: real, y: real, style: Color): seq<DrawEvent>
  {
    var left := x - m.textWidth(font, text) / 2.0;
    [FillText(text, Finite(left + 2.0), y + 2.0, font, Black), FillText(text, Finite(left), y, font, style)]
  }

  /** The picture of day-card `d` with icon image `icon`, stated without the
      interpreter, as four drawings one after the other. */
  function DayCard(m: Metrics, day: Day, d: nat, icon: Image): seq<DrawEvent>
  {
    WeekdayDrawing(m, day, d) + IconAndSummaryDrawing(m, day, d, icon) + LoDrawing(m, day, d) + HiDrawing(m, day, d)
  }

  /** The upper-cased weekday in yellow, centred on A + 100 at y = 130. */
  function WeekdayDrawing(m: Metrics, day: Day, d: nat): seq<DrawEvent>
  {
    CenteredText(m, MdFont, ToUpper(day.weekday), Anchor(d) + 100.0, 130.0, Yellow)
  }

  /** The icon centred on A + 100 at y = 145, then the summary under it at y = 310. */
  function IconAndSummaryDrawing(m: Metrics, day: Day, d: nat, icon: Image): seq<DrawEvent>
  {
    [DrawImage(icon, Finite(Anchor(d) + 100.0 - m.imageWidth(icon) / 2.0), 145.0)]
    + CenteredText(m, MdFont, OrEmpty(day.summary), Anchor(d) + 100.0, 310.0, White)
  }

  /** "Lo" in light teal at y = 400 over the low temperature in the large font at
      y = 445, both centred on A + 50. */
  function LoDrawing(m: Metrics, day: Day, d: nat): seq<DrawEvent>
  {
    CenteredText(m, MdFont, "Lo", Anchor(d) + 50.0, 400.0, TealAlso)
    + CenteredText(m, LgFont, OrEmpty(day.loTemp), Anchor(d) + 50.0, 445.0, White)
  }

  /** "Hi" in yellow at y = 400 over the high temperature at y = 445, both centred
      on A + 150: the same row as "Lo", 100 to its right. */
  function HiDrawing(m: Metrics, day: Day, d: nat): seq<DrawEvent>
  {
    CenteredText(m, MdFont, "Hi", Anchor(d) + 150.0, 400.0, Yellow)
    + CenteredText(m, LgFont, OrEmpty(day.hiTemp), Anchor(d) + 150.0, 445.0, White)
  }

  /** Two pictures of the same card with different icon images have the same
      length and agree on every call except the icon's, which draws the given
      image centred on A + 100 at y = 145. */
  lemma DayCardIconSlot(m: Metrics, day: Day, d: nat, icon: Image, other: Image)
    ensures |DayCard(m, day, d, icon)| == 13
    ensures DayCard(m, day, d, icon)[2]
      == DrawImage(icon, Finite(Anchor(d) + 100.0 - m.imageWidth(icon) / 2.0), 145.0)
    ensures forall k :: 0 <= k < 13 && k != 2 ==> DayCard(m, day, d, icon)[k] == DayCard(m, day, d, other)[k]
  {
  }

  /** Run from any cursor, day-card `d`'s commands draw exactly `DayCard`,
      independent of where the previous card left the cursor. */
  lemma DayCardResolved(m: Metrics, c: Cursor, day: Day, d: nat, icon: Image)
    ensures Run(m, c, DayCommands(day, d, Some(icon))) == DayCard(m, day, d, icon)
  {
    var cmds := DayCommands(day, d, Some(icon));
    CardUpperAndLo(m, c, day, d, icon);
    CardHi(m, day, d, icon);
    RunSplitAt(m, c, cmds, 0, 6, 8, Cursor(Finite(Anchor(d) + 50.0), 445.0),
      WeekdayDrawing(m, day, d) + IconAndSummaryDrawing(m, day, d, icon) + LoDrawing(m, day, d), HiDrawing(m, day, d));
    WholeSlice(cmds);
  }

  lemma CardUpperAndLo(m: Metrics, c: Cursor, day: Day, d: nat, icon: Image)
    ensures var cmds := DayCommands(day, d, Some(icon));
      && Run(m, c, cmds[0..6]) == WeekdayDrawing(m, day, d) + IconAndSummaryDrawing(m, day, d, icon) + LoDrawing(m, day, d)
      && CursorAfter(c, cmds[0..6]) == Cursor(Finite(Anchor(d) + 50.0), 445.0)
  {
    var cmds := DayCommands(day, d, Some(icon));
    CardUpper(m, c, day, d, icon);
    CardLo(m, day, d, icon);
    RunSplitAt(m, c, cmds, 0, 4, 6, Cursor(Finite(Anchor(d) + 100.0), 310.0),
      WeekdayDrawing(m, day, d) + IconAndSummaryDrawing(m, day, d, icon), LoDrawing(m, day, d));
  }

  lemma CardUpper(m: Metrics, c: Cursor, day: Day, d: nat, icon: Image)
    ensures var cmds := DayCommands(day, d, Some(icon));
      && Run(m, c, cmds[0..4]) == WeekdayDrawing(m, day, d) + IconAndSummaryDrawing(m, day, d, icon)
      && CursorAfter(c, cmds[0..4]) == Cursor(Finite(Anchor(d) + 100.0), 310.0)
  {
    var cmds := DayCommands(day, d, Some(icon));
    CardWeekday(m, c, day, d, icon);
    CardIconAndSummary(m, day, d, icon);
    RunSplitAt(m, c, cmds, 0, 2, 4, Cursor(Finite(Anchor(d) + 100.0), 130.0),
      WeekdayDrawing(m, day, d), IconAndSummaryDrawing(m, day, d, icon));
  }

  lemma WholeSlice<T>(s: seq<T>)
    ensures s[0..|s|] == s
  {
  }

  /** A centred text command without a rectangle or an image draws `CenteredText`. */
  lemma CenteredTextEmit(m: Metrics, c: Cursor, cmd: Command)
    requires cmd.font.Some? && cmd.halign == "center" && cmd.shape == "" && cmd.image.None? && c.x.Finite?
    ensures Emit(m, c, cmd) == CenteredText(m, cmd.font.value, OrEmpty(cmd.text), c.x.v, c.y, ColorOf(cmd))
  {
  }

  lemma CardWeekday(m: Metrics, c: Cursor, day: Day, d: nat, icon: Image)
    ensures var cmds := DayCommands(day, d, Some(icon))[0..2];
      && Run(m, c, cmds) == WeekdayDrawing(m, day, d)
      && CursorAfter(c, cmds) == Cursor(Finite(Anchor(d) + 100.0), 130.0)
  {
    var cmds := DayCommands(day, d, Some(icon))[0..2];
    var c1 := Cursor(Finite(Anchor(d)), 90.0);
    var c2 := Cursor(Finite(Anchor(d) + 100.0), 130.0);
    assert Advance(c, cmds[0]) == c1 && Advance(c1, cmds[1]) == c2;
    assert Emit(m, c1, cmds[0]) == [];
    CenteredTextEmit(m, c2, cmds[1]);
    assert OrEmpty(Str(ToUpper(day.weekday))) == ToUpper(day.weekday);
    assert cmds[1..][1..] == [];
    assert CursorAfter(c1, cmds[1..]) == CursorAfter(c2, cmds[1..][1..]) == c2;
    assert Run(m, c1, cmds[1..]) == Emit(m, c2, cmds[1]);
    assert Run(m, c, cmds) == Emit(m, c1, cmds[0]) + Emit(m, c2, cmds[1]);
  }

  lemma CardIconAndSummary(m: Metrics, day: Day, d: nat, icon: Image)
    ensures var cmds := DayCommands(day, d, Some(icon))[2..4];
      var c := Cursor(Finite(Anchor(d) + 100.0), 130.0);
      && Run(m, c, cmds) == IconAndSummaryDrawing(m, day, d, icon)
      && CursorAfter(c, cmds) == Cursor(Finite(Anchor(d) + 100.0), 310.0)
  {
    var cmds := DayCommands(day, d, Some(icon))[2..4];
    var c1 := Cursor(Finite(Anchor(d) + 100.0), 145.0);
    var c2 := Cursor(Finite(Anchor(d) + 100.0), 310.0);
    assert Advance(Cursor(Finite(Anchor(d) + 100.0), 130.0), cmds[0]) == c1 && Advance(c1, cmds[1]) == c2;
    assert Emit(m, c1, cmds[0]) == [DrawImage(icon, Finite(Anchor(d) + 100.0 - m.imageWidth(icon) / 2.0), 145.0)];
    CenteredTextEmit(m, c2, cmds[1]);
    assert cmds[1..][1..] == [];
    assert CursorAfter(c1, cmds[1..]) == CursorAfter(c2, cmds[1..][1..]) == c2;
    assert Run(m, c1, cmds[1..]) == Emit(m, c2, cmds[1]);
    assert Run(m, Cursor(Finite(Anchor(d) + 100.0), 130.0), cmds) == Emit(m, c1, cmds[0]) + Emit(m, c2, cmds[1]);
  }

  lemma CardLo(m: Metrics, day: Day, d: nat, icon: Image)
    ensures var cmds := DayCommands(day, d, Some(icon))[4..6];
      var c := Cursor(Finite(Anchor(d) + 100.0), 310.0);
      && Run(m, c, cmds) == LoDrawing(m, day, d)
      && CursorAfter(c, cmds) == Cursor(Finite(Anchor(d) + 50.0), 445.0)
  {
    var cmds := DayCommands(day, d, Some(icon))[4..6];
    var c1 := Cursor(Finite(Anchor(d) + 50.0), 400.0);
    var c2 := Cursor(Finite(Anchor(d) + 50.0), 445.0);
    assert Advance(Cursor(Finite(Anchor(d) + 100.0), 310.0), cmds[0]) == c1 && Advance(c1, cmds[1]) == c2;
    CenteredTextEmit(m, c1, cmds[0]);
    CenteredTextEmit(m, c2, cmds[1]);
    assert OrEmpty(Str("Lo")) == "Lo";
    assert cmds[1..][1..] == [];
    assert CursorAfter(c1, cmds[1..]) == CursorAfter(c2, cmds[1..][1..]) == c2;
    assert Run(m, c1, cmds[1..]) == Emit(m, c2, cmds[1]);
    assert Run(m, Cursor(Finite(Anchor(d) + 100.0), 310.0), cmds) == Emit(m, c1, cmds[0]) + Emit(m, c2, cmds[1]);
  }

  lemma CardHi(m: Metrics, day: Day, d: nat, icon: Image)
    ensures var cmds := DayCommands(day, d, Some(icon))[6..8];
      var c := Cursor(Finite(Anchor(d) + 50.0), 445.0);
      Run(m, c, cmds) == HiDrawing(m, day, d)
  {
    var cmds := DayCommands(day, d, Some(icon))[6..8];
    var c1 := Cursor(Finite(Anchor(d) + 150.0), 400.0);
    var c2 := Cursor(Finite(Anchor(d) + 150.0), 445.0);
    assert Advance(Cursor(Finite(Anchor(d) + 50.0), 445.0), cmds[0]) == c1 && Advance(c1, cmds[1]) == c2;
    CenteredTextEmit(m, c1, cmds[0]);
    CenteredTextEmit(m, c2, cmds[1]);
    assert OrEmpty(Str("Hi")) == "Hi";
    assert cmds[1..][1..] == [];
    assert Run(m, c1, cmds[1..]) == Emit(m, c2, cmds[1]);
    assert Run(m, Cursor(Finite(Anchor(d) + 50.0), 445.0), cmds) == Emit(m, c1, cmds[0]) + Emit(m, c2, cmds[1]);
  }
}

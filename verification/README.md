# jsweather drawing pipeline, in Dafny

jsweather renders a weather report as a 975 × 575 animated image in the style of
a cable-TV forecast board. Its core, in `index.js`, has three parts. This project
models all three and proves what they draw.

- **The drawing-command interpreter** (`drawCommands`).
  - It walks an ordered list of command records, keeping a running cursor.
  - A command either sets the cursor or, when `relative` is exactly `true`, moves it.
  - Each command then draws, in this order:
    - its text: a black shadow at (+2, +2), then the text in the command's colour;
    - its rectangle, at the command's own literal position;
    - its image.
  - Text and images are aligned left, centre or right against a measured width.
- **The layouts.**
  - The static board: background, address and heading, clock, footer, ticker.
  - One day-card per forecast day: an absolute move to `(15 + 244 d, 90)`, then relative moves only.
- **The frame loop.**
  - The static board is drawn once.
  - Each of six frames copies it onto a fresh canvas and overlays every day's card.
  - Frame `f` of a day uses the icon `Icons[day.icon][f] || Icons['clear-day'][f]`.
  - The encoder receives the frames in order, looping forever with 100 ms between frames.

The raster surface is a recording sink. A `Surface` object keeps the log of calls
made on its 2D context (`FillText`, `FillRect`, `DrawImage`, and `DrawCanvas` for
compositing another canvas), with the font and fill style current at each call.
The GIF encoder is a `GifEncoder` object that keeps its settings and the frames
handed to it.

Text widths and image widths come from the font engine and the image files. They
are a `Metrics` parameter, and every result holds for any metrics.

Modules:
- `Js`: the JavaScript semantics the code relies on.
  - Numbers: `undefined`, `NaN` and finite reals.
  - Truthiness and `v || ''`.
  - Decimal spelling of integers, with its inverse.
  - ASCII `toUpperCase`.
- `Canvas`: colours, fonts, images, draw events, `Surface` and `GifEncoder`.
- `Interpreter`: `Run` is the meaning of a command list, a fold with the cursor as accumulator. `DrawCommands` is the loop, proved to make exactly `Run`'s calls.
- `Assets`: the icon table and the icon lookup.
- `Layout`: the report, the ticker, the two command lists, and their resolved drawings.
- `Pieces`: sequences made of equal-length pieces.
- `Render`: `render` and its frame loop, proved against `Frames`.

Where the code and the program's written description differ, the model follows the code:
- The cursor's x starts `undefined`, not 0. A relative command before any absolute one yields `NaN` (`Interpreter.LeadingRelativeHasNoX`).
- Any truthy `shape` draws a rectangle; the shape kind is never checked.
- A forecast condition missing from the icon table is not replaced by the default condition. `Icons[day.icon]` is `undefined`, indexing it throws, and the render fails. The fallback to `clear-day` applies only to a missing entry inside an existing set, and with this table that never happens.
- The ticker has no humidity, and the address is not truncated.
- On a day-card, the low and high temperatures are drawn through `text || ''`, so a 0° low or high draws as the empty string (`Js.ZeroDrawsNothing`). The ticker's temperatures go through a template literal instead and still spell `0`. The model keeps both as written.

## Model

| member | source | states |
|---|---|---|
| Interpreter.DrawCommands | index.js:52-95 | The loop appends to the surface's log exactly `Run(m, Start, cmds)`, starting from x `undefined` and y 0. It leaves the font and fill style that `PenAfter` predicts. |
| Interpreter.DrawAt | index.js:59-93 | One command at cursor (x, y) draws its text, then its rectangle, then its image. The pen advances by `PenStep`. |
| Interpreter.DrawText | index.js:63-78 | Text is drawn only when the command has a font: shadow, then fill. Afterwards the font is the command's and the fill style is the command's colour; without a font both are unchanged. |
| Interpreter.DrawShape | index.js:80-84 | A truthy shape fills one rectangle in the command's colour. Otherwise nothing is drawn and the pen is unchanged. |
| Interpreter.DrawImageOf | index.js:86-93 | An image is drawn at the aligned cursor. The pen is unchanged. |
| Interpreter.RunAtPositions | index.js:54-93 | The cursor moves before a command draws: for every index `i`, the calls of the first `i + 1` commands are those of the first `i`, followed by command `i`'s calls drawn at its own position `Positions(c, cmds)[i]`. |
| Interpreter.AbsolutePosition | index.js:56-57 | An absolute command stands at exactly `(cmd.x, cmd.y)`, whatever came before it. |
| Interpreter.PositionIsCursorAfterPrefix | index.js:54-57 | The position each command draws at is the cursor after the commands up to and including it. |
| Interpreter.RelativeChain | index.js:56-57 | A chain of relative commands moves the cursor by the sum of its deltas. |
| Interpreter.LeadingRelativeHasNoX | index.js:53-57 | From the initial `undefined` x, relative moves alone never give a numeric x: every position's x is `NaN`. |
| Interpreter.AlignmentSpan | index.js:71 | `center` places the content so the cursor is at its middle and `right` so the cursor is at its right edge. Any other value leaves x as is. A non-numeric x stays non-numeric. |
| Interpreter.TextAndImageAlignAlike | index.js:71-89 | Text and images use the same alignment rule: a text command and an image command with the same `halign` at the same cursor, with equal widths, start at the same x. |
| Interpreter.TextShadowThenFill | index.js:60-78 | A command draws text iff it has a font, and then exactly two calls. The first is the shadow in black at (+2, +2). The second is the text `OrEmpty(text)` at the aligned cursor in the command's colour (white by default). |
| Interpreter.RectangleIgnoresCursor | index.js:80-84 | From any two cursors, a shaped command draws the same rectangle, at its literal x, y, of its w × h, in its colour. |
| Interpreter.EmitOrder | index.js:63-93 | One command makes 2 + 1 + 1 calls at most (text, rectangle, image). No text follows a rectangle, and the image is last. |
| Interpreter.RunLength | index.js:54-94 | A list makes the sum of its commands' call counts. |
| Interpreter.RunConcat | index.js:54-94 | Commands run in list order: two lists in a row draw the first's calls, then the second's from where the first left the cursor. |
| Interpreter.AbsoluteHeadForgetsCursor | index.js:56-57 | A list whose first command is absolute draws the same from any starting cursor. |
| Interpreter.RunDiffersOnlyInImages | index.js:54-93 | Lists that differ only in their images make the same calls, except image draws, which stay on the same row. |
| Js.ZeroDrawsNothing | index.js:67 | The number 0 is falsy, so the empty-text fallback draws the empty string, although `String(0)` is `"0"`. |
| Js.NatToString | index.js:108 | The decimal spelling is non-empty and all digits, with a leading zero only for 0. |
| Js.IntToStringRoundTrip | index.js:108 | Every integer's spelling reads back as that integer. |
| Js.IntToStringInjective | index.js:108 | Different temperatures are spelled differently. |
| Js.ToUpperProperties | index.js:146 | Upper-casing keeps the length and changes exactly the lower-case letters, each to its upper-case letter. It is idempotent. |
| Assets.IconTableShape | index.js:21-32 | The table has ten conditions, four animated and six still, with six entries each. An animated condition has file `i` at index `i`; a still one repeats file 0. |
| Assets.KnownConditionUsesOwnFrame | index.js:147 | For a condition in the table and f < 6, the condition's own frame is used and the fallback never runs. |
| Assets.UnknownConditionThrows | index.js:147 | A condition missing from the table makes the lookup throw before any fallback. The error value records which condition it was. |
| Assets.FallbackOnlyForMissingEntry | index.js:147 | For any table, the `clear-day` entry is taken exactly when the condition's set exists but has no entry at `f`. |
| Assets.NoIconPastLastFrame | index.js:21-32 | Past frame 5, both lookups give `undefined`: no icon. |
| Layout.TickerLines | index.js:107-108 | With a truthy alert, the ticker is the alert, a newline, then the temperature line. Without one, it is the temperature line alone. |
| Layout.SampleTempLine | index.js:174-180 | The sample report's temperature line is `Temp: 75°F   Feels Like: 76°F`. |
| Layout.SampleTickerAndFooter | index.js:107-124 | The sample report's ticker and footer colour, both without an alert (teal) and with one (red, alert line first). |
| Layout.StaticBoardResolved | index.js:112-126 | For any metrics, the static list draws exactly the calls listed in order: background, address, heading, time, date, footer rectangle (0, 479, 975, 96) in the footer colour, then the ticker. Each text is drawn with its shadow. |
| Layout.StaticBackground | index.js:113 | The background image at the origin. |
| Layout.StaticAddress | index.js:116-117 | The address at (150, 34), and "Extended Forecast" in yellow 36 below it. |
| Layout.StaticClock | index.js:120-121 | The time at (695, 45), and the date 25 below it. |
| Layout.StaticFooter | index.js:124-125 | The footer rectangle in red under an alert and teal otherwise, then the ticker at (5, 510). |
| Layout.DayCardPositions | index.js:150-160 | From any cursor, card `d`'s eight commands stand at: (A, 90); A + 100 at y = 130, 145, 310; A + 50 at y = 400, 445; A + 150 at y = 400, 445. Here A = 15 + 244 d. |
| Layout.DayCardLandmarks | index.js:150-160 | The weekday and icon share a column. "Lo" and "Hi" share y = 400, with "Hi" exactly 100 to the right. Both values sit at y = 445 under their labels. The anchors of four cards are 15, 259, 503, 747. |
| Layout.DayCardIconSlot | index.js:153 | A card is 13 calls. Call 2 is the icon, centred on A + 100 at y = 145. Cards with different icons agree on every other call. |
| Layout.DayCardResolved | index.js:148-163 | From any cursor, a day's commands draw exactly `DayCard`: the upper-cased weekday, the icon, the summary, then "Lo" over the low and "Hi" over the high, each centred. |
| Layout.CardWeekday | index.js:150-152 | The corner move draws nothing. The weekday is upper-cased and centred on A + 100 at y = 130, in yellow. |
| Layout.CardIconAndSummary | index.js:153-154 | The icon is centred on A + 100 at y = 145, and the summary at y = 310. |
| Layout.CardLo | index.js:156-157 | "Lo" in light teal at y = 400, over the low temperature in the large font at y = 445, centred on A + 50. |
| Layout.CardHi | index.js:159-160 | "Hi" in yellow at y = 400, over the high temperature at y = 445, centred on A + 150. |
| Render.Render | index.js:97-172 | The result is success iff every forecast condition is in the table. A success holds size 975 × 575, repeat 0, delay 100 and the six frames `Frames(StaticBoard)`. A failure happens where the first unknown condition's lookup throws. The error value records that condition, though the thrown TypeError carries none. |
| Render.DrawStaticBoard | index.js:98-128 | A fresh canvas holding exactly the static board's calls. |
| Render.EncodeFrames | index.js:137-167 | For f = 0..5 in order, the encoder receives frame `f`, and no setting changes. Otherwise the first unknown condition stops the loop. |
| Render.DrawFrame | index.js:138-164 | A fresh canvas holding a copy of the static canvas at the origin, then the day-cards of frame `f`. |
| Render.DrawForecast | index.js:144-164 | Every day's card is appended in report order, day `d` as card `d`. The first unknown condition stops the loop. The error value records that condition. |
| Render.DrawDay | index.js:146-163 | A known condition appends the day's card with the frame's icon. An unknown one throws and draws nothing. |
| Render.ProgramIconTable | index.js:21-32 | The program's table has the default condition and six entries per condition. |
| Render.FirstUnknownIcon | index.js:145-147 | The condition that stops the loop is not in the table. |
| Render.FirstUnknownIs | index.js:145-147 | If day `d` is unknown and all earlier days are known, the error value records day `d`'s condition. |
| Render.FirstUnknownIsFirst | index.js:145-147 | The condition the error value records is that of a day all of whose predecessors are known. |
| Render.CardsStep | index.js:145-164 | One more day appends that day's card. |
| Render.CardsAreConcat | index.js:145-164 | A frame's overlay is its cards one after another. |
| Render.CardsOfTwoFrames | index.js:147-161 | A day's cards in two frames have 13 calls each and differ at most in the icon call. |
| Render.FrameLayout | index.js:138-164 | A frame is one copy of the board followed by 13 calls per day. |
| Render.FrameIconCalls | index.js:147-153 | In frame `f`, call 1 + 13 d + 2 is day `d`'s condition image for frame `f`, centred on A + 100 at y = 145. |
| Render.FrameIconCallAt | index.js:147-153 | The same, for one day. |
| Render.FramesAgreeOffIcons | index.js:137-164 | Any two frames have the same length and agree on every call except the day-cards' icons. |
| Render.FramesDifferOnlyInIcons | index.js:137-167 | Each frame starts with the board copy. Frames differ only in the icon calls, which hold each frame's images. |
| Render.FramesEqualIffSameIcons | index.js:137-167 | Two frames are equal iff every day's condition has the same image in both. |
| Render.StillExactlyWhenNoAnimatedIcon | index.js:21-167 | With the program's table, all six frames are equal iff every forecast condition is a still one. |
| Render.SampleForecastAnimates | index.js:182-186 | The sample forecast (rain first) is known to the table, and its frames 0 and 1 differ. |
| Render.StillConditionRepeats | index.js:23-31 | A still condition shows the same image in every frame. |
| Render.AnimatedConditionMoves | index.js:22-29 | A condition outside the still ones changes image between frames 0 and 1. |
| Canvas.Surface.FillText | index.js:75-77 | `fillText` logs the text at (x, y) in the current font and fill style. Nothing else changes. |
| Canvas.Surface.FillRect | index.js:82-83 | `rect` then `fill` logs one rectangle in the current fill style. |
| Canvas.Surface.DrawImage | index.js:92 | `drawImage` logs the image at (x, y). |
| Canvas.Surface.DrawCanvas | index.js:142 | Compositing another canvas logs a snapshot of that canvas's calls at that moment. |
| Canvas.GifEncoder.AddFrame | index.js:166 | The frame's content is appended to the encoder's frames. Nothing else changes. |

## Left out

- Loading assets is left out: `createCanvas`, `registerFont`, `loadImage`, and awaiting image promises. Images are the values `Background` and `IconFile(condition, file)`.
- Text measurement (`measureText`) and image widths depend on the font engine and the image files, so they are the `Metrics` parameter.
- Pixels, alpha blending and `antialias` are not modelled. Colours and fonts are the program's constants.
- `ctx.rect` without `beginPath` lets earlier rectangles stay in the path. Each fill is modelled as one `FillRect` of the newest rectangle.
- GIF encoding is not modelled: palette, LZW compression, `encoder.out.getData()` and the returned bytes. The model returns what the encoder was given.
- `moment` date formatting is not modelled. The clock lines (`h:mm:ss A`, `ddd MMM D`) and each day's `ddd` are input strings. Their upper-casing is modelled.
- `getWeather`, the `require.main` entry point and `fs.writeFileSync` are left out. They are I/O around `render`.
- Numbers are integers or finite reals. Fractional temperatures and JavaScript's floating-point rounding are not modelled.
- `Js.ToUpper`: upper-cases ASCII letters only, not the rest of Unicode.
- The TypeError thrown at index.js:147 carries no condition. The key in the model's `UndefinedIconSet` error records which day's lookup threw.
- Keys such as `constructor` inherited from `Object.prototype` are not modelled. With them, `Icons[day.icon]` would not be `undefined`. Such a key is treated like any other missing condition.
- `Render.Card`, `Render.Frame` and the methods below `Render.Render` require an icon table with the default condition and six entries per condition. The program's table has both (`Render.ProgramIconTable`). Frames past the sixth are not produced by the loop, and `Assets.NoIconPastLastFrame` states what the lookup would give for them.

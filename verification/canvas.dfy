/** The raster surface as a recording sink: every call the drawing code makes on a
    2D context is appended to the surface's log, together with the font and fill
    style the context holds at that moment. Fonts, colours and images are the
    module-level presets of the program; their pixels are not modelled. */
module Canvas {

  import opened Js

  /** The program's colour presets, as opaque constants. */
  datatype Color = White | Black | Blue | LightBlue | DarkBlue | Orange | Red | Teal | TealAlso | Yellow

  /** The three registered fonts, and the font a fresh context starts with. */
  datatype Font = SmFont | MdFont | LgFont | CanvasDefault

  /** A loaded image: the background, or frame file `file`.png of an icon condition. */
  datatype Image = Background | IconFile(condition: string, file: nat)

  /** Text and image extents. Both come from the font engine and the image files,
      so they are parameters of the model. */
  datatype Metrics = Metrics(textWidth: (Font, string) -> real, imageWidth: Image -> real)

  /** One call on a 2D context. `x` values that the cursor feeds are JavaScript
      numbers; `DrawCanvas` records that another surface was composited as a whole. */
  datatype DrawEvent =
    | FillText(text: string, x: Num, y: real, font: Font, style: Color)
    | FillRect(left: real, top: real, w: real, h: real, style: Color)
    | DrawImage(image: Image, x: Num, y: real)
    | DrawCanvas(source: seq<DrawEvent>, dx: real, dy: real)

  /** The board is 975 by 575 logical units. */
  const BoardWidth: nat := 975
  const BoardHeight: nat := 575

  /** A canvas and its 2D context. */
  class Surface {
    const width: nat
    const height: nat
    var font: Font
    var fillStyle: Color
    var log: seq<DrawEvent>

    constructor (w: nat, h: nat)
      ensures width == w && height == h
      ensures font == CanvasDefault && fillStyle == Black && log == []
    {
      width, height := w, h;
      font, fillStyle := CanvasDefault, Black;
      log := [];
    }

    /** `ctx.font = f` */
    method SetFont(f: Font)
      modifies this
      ensures font == f && fillStyle == old(fillStyle) && log == old(log)
    {
      font := f;
    }

    /** `ctx.fillStyle = c` */
    method SetFillStyle(c: Color)
      modifies this
      ensures fillStyle == c && font == old(font) && log == old(log)
    {
      fillStyle := c;
    }

    /** `ctx.fillText(text, x, y)`, in the current font and fill style. */
    method FillText(text: string, x: Num, y: real)
      modifies this
      ensures log == old(log) + [DrawEvent.FillText(text, x, y, font, fillStyle)]
      ensures font == old(font) && fillStyle == old(fillStyle)
    {
      log := log + [DrawEvent.FillText(text, x, y, font, fillStyle)];
    }

    /** `ctx.rect(x, y, w, h); ctx.fill()`, in the current fill style. */
    method FillRect(x: real, y: real, w: real, h: real)
      modifies this
      ensures log == old(log) + [DrawEvent.FillRect(x, y, w, h, fillStyle)]
      ensures font == old(font) && fillStyle == old(fillStyle)
    {
      log := log + [DrawEvent.FillRect(x, y, w, h, fillStyle)];
    }

    /** `ctx.drawImage(img, x, y)` */
    method DrawImage(img: Image, x: Num, y: real)
      modifies this
      ensures log == old(log) + [DrawEvent.DrawImage(img, x, y)]
      ensures font == old(font) && fillStyle == old(fillStyle)
    {
      log := log + [DrawEvent.DrawImage(img, x, y)];
    }

    /** `ctx.drawImage(canvas, dx, dy)`: composites what `src` holds now. */
    method DrawCanvas(src: Surface, dx: real, dy: real)
      modifies this
      ensures log == old(log) + [DrawEvent.DrawCanvas(old(src.log), dx, dy)]
      ensures font == old(font) && fillStyle == old(fillStyle)
    {
      log := log + [DrawEvent.DrawCanvas(src.log, dx, dy)];
    }
  }

  /** The animated-image encoder, seen only through what is handed to it. */
  class GifEncoder {
    const width: nat
    const height: nat
    var started: bool
    var finished: bool
    var repeat: int
    var delay: int
    var frames: seq<seq<DrawEvent>>

    constructor (w: nat, h: nat)
      ensures width == w && height == h
      ensures !started && !finished && repeat == -1 && delay == 0 && frames == []
    {
      width, height := w, h;
      started, finished := false, false;
      repeat, delay := -1, 0;
      frames := [];
    }

    method Start()
      modifies this
      ensures started && finished == old(finished)
      ensures repeat == old(repeat) && delay == old(delay) && frames == old(frames)
    {
      started := true;
    }

    /** `setRepeat(n)`: 0 loops forever. */
    method SetRepeat(n: int)
      modifies this
      ensures repeat == n
      ensures started == old(started) && finished == old(finished) && delay == old(delay) && frames == old(frames)
    {
      repeat := n;
    }

    /** `setDelay(ms)`: the pause after each frame, in milliseconds. */
    method SetDelay(ms: int)
      modifies this
      ensures delay == ms
      ensures started == old(started) && finished == old(finished) && repeat == old(repeat) && frames == old(frames)
    {
      delay := ms;
    }

    /** `addFrame(ctx)`: takes the surface's current content as the next frame. */
    method AddFrame(s: Surface)
      modifies this
      ensures frames == old(frames) + [s.log]
      ensures started == old(started) && finished == old(finished) && repeat == old(repeat) && delay == old(delay)
    {
      frames := frames + [s.log];
    }

    method Finish()
      modifies this
      ensures finished && started == old(started)
      ensures repeat == old(repeat) && delay == old(delay) && frames == old(frames)
    {
      finished := true;
    }
  }
}

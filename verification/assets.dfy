/** The icon table (index.js:21-32) and the per-frame icon lookup of the frame
    loop (index.js:147). */
module Assets {

  import opened Wrappers
  import opened Canvas

  /** Every icon set holds one image per animation frame. */
  const FrameCount: nat := 6

  /** A condition with its own image per frame: `res/<condition>/<i>.png`. */
  function Animated(condition: string): seq<Image>
  {
    seq(FrameCount, i requires 0 <= i => IconFile(condition, i))
  }

  /** A condition with a single image, loaded for every frame: `res/<condition>/0.png`. */
  function Still(condition: string): seq<Image>
  {
    seq(FrameCount, _ => IconFile(condition, 0))
  }

  /** The condition whose frame stands in for a missing entry. */
  const DefaultCondition := "clear-day"

  const Icons: map<string, seq<Image>> := map[
    "clear-day" := Animated("clear-day"),
    "clear-night" := Still("clear-night"),
    "cloudy" := Still("cloudy"),
    "fog" := Still("fog"),
    "partly-cloudy-day" := Animated("partly-cloudy-day"),
    "partly-cloudy-night" := Still("partly-cloudy-night"),
    "rain" := Animated("rain"),
    "sleet" := Animated("sleet"),
    "snow" := Still("snow"),
    "wind" := Still("wind")
  ]

  const AnimatedConditions := {"clear-day", "partly-cloudy-day", "rain", "sleet"}
  const StillConditions := {"clear-night", "cloudy", "fog", "partly-cloudy-night", "snow", "wind"}

  /** Reading `Icons[key]` of a key the table lacks gives `undefined`, and indexing
      `undefined` throws a TypeError. The TypeError itself carries no key: `key`
      records which condition's lookup threw. */
  datatype RenderError = UndefinedIconSet(key: string)

  /** `icons[key][f]`, where an index past the end reads `undefined`. */
  function Entry(frames: seq<Image>, f: nat): Option<Image>
  {
    if f < |frames| then Some(frames[f]) else None
  }

  /** `icons[key][f] || icons['clear-day'][f]`: the second lookup runs only when
      the first entry is missing, and either lookup throws on a key the table lacks. */
  function SelectIcon(icons: map<string, seq<Image>>, key: string, f: nat): Result<Option<Image>, RenderError>
  {
    if key !in icons then Failure(UndefinedIconSet(key))
    else if Entry(icons[key], f).Some? then Success(Entry(icons[key], f))
    else if DefaultCondition !in icons then Failure(UndefinedIconSet(DefaultCondition))
    else Success(Entry(icons[DefaultCondition], f))
  }

  /** The table's shape: ten conditions, six entries each; an animated condition
      has frame file `i` at index `i`, a still one repeats file 0. */
  lemma IconTableShape()
    ensures Icons.Keys == AnimatedConditions + StillConditions
    ensures AnimatedConditions !! StillConditions
    ensures forall key :: key in Icons ==> |Icons[key]| == FrameCount
    ensures forall key, i :: key in AnimatedConditions && 0 <= i < FrameCount ==> Icons[key][i] == IconFile(key, i)
    ensures forall key, i :: key in StillConditions && 0 <= i < FrameCount ==> Icons[key][i] == IconFile(key, 0)
  {
  }

  /** For a condition in the table and any of the six frames, the condition's own
      entry is used and the fallback never runs; the image belongs to that condition. */
  lemma KnownConditionUsesOwnFrame(key: string, f: nat)
    requires key in Icons && f < FrameCount
    ensures SelectIcon(Icons, key, f) == Success(Some(Icons[key][f]))
    ensures Icons[key][f].condition == key
    ensures Icons[key][f].file == (if key in AnimatedConditions then f else 0)
  {
    IconTableShape();
  }

  /** A condition the table lacks does not fall back: the lookup throws, naming the key. */
  lemma UnknownConditionThrows(key: string, f: nat)
    requires key !in Icons
    ensures SelectIcon(Icons, key, f) == Failure(UndefinedIconSet(key))
  {
  }

  /** For any table, the default condition's frame is taken exactly when the key's
      set exists but has no entry at `f`. */
  lemma FallbackOnlyForMissingEntry(icons: map<string, seq<Image>>, key: string, f: nat)
    requires key in icons && DefaultCondition in icons
    ensures SelectIcon(icons, key, f).Success?
    ensures f < |icons[key]| ==> SelectIcon(icons, key, f).value == Some(icons[key][f])
    ensures f >= |icons[key]| ==> SelectIcon(icons, key, f).value == Entry(icons[DefaultCondition], f)
  {
  }

  /** Past the sixth frame even the fallback has no entry: no icon is drawn. */
  lemma NoIconPastLastFrame(key: string, f: nat)
    requires key in Icons && f >= FrameCount
    ensures SelectIcon(Icons, key, f) == Success(None)
  {
    IconTableShape();
  }
}

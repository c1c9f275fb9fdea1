/**
 * The per-character heading animator. When mounted, it cuts the heading's text
 * into one span per UTF-16 code unit and gives each span a paused timeline.
 * Hovering a span restarts its timeline and paints it. With a positive stagger,
 * it also schedules the same for the neighbouring spans through delayed calls.
 * Leaving a span resets the paint. Cleanup kills the timelines and swaps every
 * span for a listener-free copy.
 *
 * The animation library is abstracted away. A timeline is its family, its
 * steps (each step's duration in tenths of the configured duration), its play
 * state and the number of restarts asked of it.
 */
module HeadingAnimation {
  import opened Optional

  // ---------------------------------------------------------------------------
  // Text and segmentation
  // ---------------------------------------------------------------------------

  /** A UTF-16 code unit: what `split('')` cuts a JavaScript string into. */
  newtype CodeUnit = x: int | 0 <= x < 0x1_0000

  const Space: CodeUnit := 0x20
  const NoBreakSpace: CodeUnit := 0xA0

  function Visible(u: CodeUnit): CodeUnit {
    if u == Space then NoBreakSpace else u
  }

  /**
   * The split into characters: one unit per code
   * unit of the text, in order, with each space made a no-break space.
   */
  function Segment(text: seq<CodeUnit>): (units: seq<CodeUnit>)
    ensures |units| == |text|
    ensures forall k :: 0 <= k < |text| ==> units[k] == if text[k] == Space then NoBreakSpace else text[k]
    ensures forall k :: 0 <= k < |units| ==> units[k] != Space
  {
    if text == [] then [] else [Visible(text[0])] + Segment(text[1..])
  }

  /** No space survives segmentation, so segmenting the units again changes nothing. */
  lemma SegmentIdempotent(text: seq<CodeUnit>)
    ensures Segment(Segment(text)) == Segment(text)
  {
    var units := Segment(text);
    assert forall k :: 0 <= k < |units| ==> Segment(units)[k] == units[k];
  }

  /** Only spaces change: two texts with the same segmentation differ at most where one has a space and the other a no-break space. */
  lemma SegmentOnlyReplacesSpaces(a: seq<CodeUnit>, b: seq<CodeUnit>)
    requires Segment(a) == Segment(b)
    ensures |a| == |b|
    ensures forall k :: 0 <= k < |a| && a[k] != b[k] ==> a[k] in {Space, NoBreakSpace} && b[k] in {Space, NoBreakSpace}
  {
    forall k | 0 <= k < |a| && a[k] != b[k] ensures a[k] in {Space, NoBreakSpace} && b[k] in {Space, NoBreakSpace} {
      assert Segment(a)[k] == Segment(b)[k];
    }
  }

  // ---------------------------------------------------------------------------
  // Options, defaults and presets
  // ---------------------------------------------------------------------------

  datatype Family = Bounce | Flip | Rotate | Elastic | Squeeze | Wave

  /** The six families, in the order both the random draw and the varied cycle list them. */
  const Families: seq<Family> := [Bounce, Flip, Rotate, Elastic, Squeeze, Wave]

  /** The eight strings the timeline `switch` has an arm for. */
  const AnimationNames: set<string> := {"bounce", "flip", "rotate", "elastic", "squeeze", "wave", "random", "varied"}

  /** A string the `switch` has no arm for. */
  type UnlistedName = s: string | s !in AnimationNames witness ""

  /**
   * The `animationType` option. The declared union lists every single family
   * but bounce; bounce is the default and has its own arm, and any other string
   * a caller passes falls through to the default arm.
   */
  datatype AnimationType =
    | Single(family: Family)
    | RandomPerUnit
    | VariedPerUnit
    | Unlisted(name: UnlistedName)

  function FamilyName(f: Family): string {
    match f
    case Bounce => "bounce"
    case Flip => "flip"
    case Rotate => "rotate"
    case Elastic => "elastic"
    case Squeeze => "squeeze"
    case Wave => "wave"
  }

  /** Each family's name selects that family's own arm. */
  lemma NamedFamily(f: Family)
    ensures AnimationNamed(FamilyName(f)) == Single(f)
  {
  }

  /** The arm of the `switch` the option string selects. */
  function AnimationNamed(name: string): (t: AnimationType)
    ensures t.Unlisted? <==> name !in AnimationNames
    ensures t.Unlisted? ==> t.name == name
    ensures t.Single? ==> FamilyName(t.family) == name
    ensures t == RandomPerUnit <==> name == "random"
    ensures t == VariedPerUnit <==> name == "varied"
  {
    if name == "random" then RandomPerUnit
    else if name == "varied" then VariedPerUnit
    else if name == "bounce" then Single(Bounce)
    else if name == "flip" then Single(Flip)
    else if name == "rotate" then Single(Rotate)
    else if name == "elastic" then Single(Elastic)
    else if name == "squeeze" then Single(Squeeze)
    else if name == "wave" then Single(Wave)
    else Unlisted(name)
  }

  /**
   * The options after defaulting. Durations and the stagger are in
   * milliseconds, the scale in thousandths. An absent `hoverColor` is the empty
   * string: both are falsy, and the handlers test only truthiness.
   */
  datatype Settings = Settings(
    animation: AnimationType,
    durationMs: nat,
    ease: string,
    scaleMilli: nat,
    squish: bool,
    hoverColor: string,
    glow: bool,
    staggerMs: int)

  /** The options as a caller writes them; every field may be left out. */
  datatype Options = Options(
    animation: Option<AnimationType>,
    durationMs: Option<nat>,
    ease: Option<string>,
    scaleMilli: Option<nat>,
    squish: Option<bool>,
    hoverColor: Option<string>,
    glow: Option<bool>,
    staggerMs: Option<int>)

  const NoOptions := Options(None, None, None, None, None, None, None, None)

  /** The destructuring defaults: an absent option takes its documented default. */
  function WithDefaults(o: Options): (s: Settings)
    ensures o.animation == None ==> s.animation == Single(Bounce)
    ensures o.durationMs == None ==> s.durationMs == 500
    ensures o.ease == None ==> s.ease == "elastic.out(1, 0.3)"
    ensures o.scaleMilli == None ==> s.scaleMilli == 1200
    ensures o.squish == None ==> s.squish
    ensures o.hoverColor == None ==> s.hoverColor == ""
    ensures o.glow == None ==> !s.glow
    ensures o.staggerMs == None ==> s.staggerMs == 50
    ensures o.animation.Some? ==> s.animation == o.animation.value
    ensures o.hoverColor.Some? ==> s.hoverColor == o.hoverColor.value
    ensures o.glow.Some? ==> s.glow == o.glow.value
    ensures o.staggerMs.Some? ==> s.staggerMs == o.staggerMs.value
  {
    Settings(
      o.animation.GetOr(Single(Bounce)),
      o.durationMs.GetOr(500),
      o.ease.GetOr("elastic.out(1, 0.3)"),
      o.scaleMilli.GetOr(1200),
      o.squish.GetOr(true),
      o.hoverColor.GetOr(""),
      o.glow.GetOr(false),
      o.staggerMs.GetOr(50))
  }

  datatype Preset = Playful | Elegant | Energetic | Minimal | Dynamic | Chaotic | GsapStyle | Varied

  /** The exported preset table. */
  function PresetOptions(p: Preset): Options {
    match p
    case Playful => NoOptions.(animation := Some(Single(Bounce)), durationMs := Some(600),
        ease := Some("elastic.out(1, 0.3)"), scaleMilli := Some(1200), squish := Some(false))
    case Elegant => NoOptions.(animation := Some(Single(Wave)), durationMs := Some(800),
        ease := Some("power2.out"), scaleMilli := Some(1100), squish := Some(false))
    case Energetic => NoOptions.(animation := Some(Single(Elastic)), durationMs := Some(700),
        ease := Some("elastic.out(1.2, 0.4)"), scaleMilli := Some(1300), squish := Some(false),
        glow := Some(true))
    case Minimal => NoOptions.(animation := Some(Single(Squeeze)), durationMs := Some(400),
        ease := Some("power2.inOut"), scaleMilli := Some(1100), squish := Some(false))
    case Dynamic => NoOptions.(animation := Some(Single(Flip)), durationMs := Some(500),
        ease := Some("back.out(1.7)"), scaleMilli := Some(1150), squish := Some(false))
    case Chaotic => NoOptions.(animation := Some(RandomPerUnit), durationMs := Some(600),
        ease := Some("elastic.out(1, 0.3)"), scaleMilli := Some(1200), squish := Some(false),
        staggerMs := Some(80))
    case GsapStyle => NoOptions.(animation := Some(Single(Bounce)), durationMs := Some(500),
        ease := Some("power2.out"), scaleMilli := Some(1000), squish := Some(false),
        hoverColor := Some("#88CE02"), glow := Some(false), staggerMs := Some(0))
    case Varied => NoOptions.(animation := Some(VariedPerUnit), durationMs := Some(2000),
        ease := Some("elastic.out(1, 0.3)"), scaleMilli := Some(1200), squish := Some(true),
        hoverColor := Some("#4472ca"), glow := Some(true), staggerMs := Some(120))
  }

  /**
   * What the presets leave to the defaults: only `gsapStyle` and `varied`
   * paint on hover, and every preset but `gsapStyle` reaches its neighbours.
   */
  lemma PresetHover(p: Preset)
    ensures var s := WithDefaults(PresetOptions(p));
            && (s.hoverColor != "" <==> p in {GsapStyle, Varied})
            && (s.glow <==> p in {Energetic, Varied})
            && (s.staggerMs > 0 <==> p != GsapStyle)
  {
  }

  // ---------------------------------------------------------------------------
  // Timelines
  // ---------------------------------------------------------------------------

  /** The family the varied mode gives the unit at `index`. */
  function VariedFamily(index: nat): Family {
    Families[index % |Families|]
  }

  /** The varied mode repeats every six units, and neighbouring units never share a family. */
  lemma VariedCycle(index: nat)
    ensures VariedFamily(index + 6) == VariedFamily(index)
    ensures VariedFamily(index + 1) != VariedFamily(index)
    ensures index < 6 ==> VariedFamily(index) == Families[index]
  {
  }

  /** Step durations in tenths of `duration`, when the family is chosen for the whole heading. */
  function SingleSteps(f: Family): seq<nat> {
    match f
    case Bounce => [4, 6]
    case Flip => [10]
    case Rotate => [10]
    case Elastic => [3, 3, 4]
    case Squeeze => [3, 4, 3]
    case Wave => [4, 3, 3]
  }

  /** Step durations when the family comes from the unit's position. */
  function VariedSteps(f: Family): seq<nat> {
    match f
    case Bounce => [4, 3, 3]
    case Flip => [10]
    case Rotate => [10]
    case Elastic => [3, 3, 2, 2]
    case Squeeze => [3, 4, 3]
    case Wave => [4, 3, 3]
  }

  /** Step durations when the family is drawn at random: only three draws build anything. */
  function RandomSteps(f: Family): seq<nat> {
    match f
    case Bounce => [4, 6]
    case Rotate => [10]
    case Wave => [4, 3, 3]
    case _ => []
  }

  const DefaultArmSteps: seq<nat> := [5, 5]

  function Total(steps: seq<nat>): nat {
    if steps == [] then 0 else steps[0] + Total(steps[1..])
  }

  lemma TotalOfThree(a: nat, b: nat, c: nat)
    ensures Total([a, b, c]) == a + b + c
  {
    assert [a, b, c][1..] == [b, c];
    assert [b, c][1..] == [c];
    assert [c][1..] == [];
    assert Total([c]) == c;
    assert Total([b, c]) == b + c;
  }

  /** Every non-empty step list covers the whole duration: its tenths add up to ten. */
  lemma StepsCoverDuration(f: Family)
    ensures Total(SingleSteps(f)) == 10
    ensures Total(VariedSteps(f)) == 10
    ensures RandomSteps(f) != [] ==> Total(RandomSteps(f)) == 10
    ensures RandomSteps(f) == [] <==> f in {Flip, Elastic, Squeeze}
    ensures Total(DefaultArmSteps) == 10
  {
    TotalOfThree(3, 3, 4);
    TotalOfThree(3, 4, 3);
    TotalOfThree(4, 3, 3);
    assert [3, 3, 2, 2][1..] == [3, 2, 2];
    TotalOfThree(3, 2, 2);
    assert [4, 6][1..] == [6] && [6][1..] == [];
    assert [5, 5][1..] == [5] && [5][1..] == [];
    assert [10][1..] == [];
  }

  datatype PlayState = Paused | Playing | Killed

  datatype Timeline = Timeline(family: Option<Family>, steps: seq<nat>, state: PlayState, restarts: nat)

  /**
   * The paused timeline built for the unit at `index`. `draw` stands for the
   * random draw the random mode makes for that unit.
   */
  function TimelineFor(s: Settings, index: nat, draw: nat -> Family): (tl: Timeline)
    ensures tl.state == Paused && tl.restarts == 0
    ensures tl.steps == [] <==> s.animation == RandomPerUnit && draw(index) in {Flip, Elastic, Squeeze}
    ensures tl.steps != [] ==> Total(tl.steps) == 10
    ensures s.animation.Single? ==> tl.family == Some(s.animation.family)
    ensures s.animation == VariedPerUnit ==> tl.family == Some(Families[index % 6])
    ensures s.animation == RandomPerUnit ==> tl.family == Some(draw(index))
    ensures s.animation.Unlisted? ==> tl.family == None && Total(tl.steps) == 10
  {
    StepsCoverDuration(match s.animation case RandomPerUnit => draw(index) case VariedPerUnit => VariedFamily(index) case Single(f) => f case Unlisted(_) => Bounce);
    match s.animation
    case Single(f) => Timeline(Some(f), SingleSteps(f), Paused, 0)
    case RandomPerUnit => Timeline(Some(draw(index)), RandomSteps(draw(index)), Paused, 0)
    case VariedPerUnit => Timeline(Some(VariedFamily(index)), VariedSteps(VariedFamily(index)), Paused, 0)
    case Unlisted(_) => Timeline(None, DefaultArmSteps, Paused, 0)
  }

  /**
   * `restart()`: counted, and a live timeline plays again. Whether the
   * animation library plays a killed timeline again is left open: `revive`
   * chooses, and what is proved below holds for both choices.
   */
  function Restarted(tl: Timeline, revive: bool): (r: Timeline)
    ensures r.restarts == tl.restarts + 1
    ensures r.family == tl.family && r.steps == tl.steps
    ensures tl.state != Killed ==> r.state == Playing
    ensures tl.state == Killed ==> r.state == if revive then Playing else Killed
  {
    tl.(state := if tl.state == Killed && !revive then Killed else Playing, restarts := tl.restarts + 1)
  }

  function KilledTimeline(tl: Timeline): Timeline {
    tl.(state := Killed)
  }

  // ---------------------------------------------------------------------------
  // Spans, delayed calls and the heading
  // ---------------------------------------------------------------------------

  /**
   * A character span: its glyph, its inline `color` ("" while unset), whether
   * its `textShadow` carries the glow, and whether the hover listeners are on it.
   */
  datatype Span = Span(glyph: CodeUnit, color: string, glow: bool, listening: bool)

  const White := "white"

  /** A pending `delayedCall` for a neighbour: its target index and the options the closure captured. */
  datatype DelayedCall = DelayedCall(target: nat, hoverColor: string, glow: bool)

  /**
   * The heading as the animator leaves it.
   * - `content`: the heading's text, read again by every mount.
   * - `shown`: the spans on screen.
   * - `chars` and `timelines`: what the refs hold, the targets of handlers and delayed calls.
   * - `pending`: scheduled delayed calls that have not fired yet.
   * - `live`: a mount whose cleanup has not run.
   * - `settings`: the options of the latest mount.
   */
  datatype HeadingState = HeadingState(
    content: seq<CodeUnit>,
    shown: seq<Span>,
    chars: seq<Span>,
    timelines: seq<Timeline>,
    pending: seq<DelayedCall>,
    live: bool,
    settings: Settings)

  function Glyphs(spans: seq<Span>): (text: seq<CodeUnit>)
    ensures |text| == |spans| && forall k :: 0 <= k < |spans| ==> text[k] == spans[k].glyph
  {
    seq(|spans|, k requires 0 <= k < |spans| => spans[k].glyph)
  }

  /**
   * What every reachable state satisfies: one timeline per span ref, the refs
   * on screen while mounted, and the spans on screen spelling the content.
   */
  predicate Valid(h: HeadingState) {
    && |h.chars| == |h.timelines|
    && (h.live ==> h.shown == h.chars)
    && (h.live ==> forall k :: 0 <= k < |h.timelines| ==> h.timelines[k].state != Killed)
    && (h.shown != [] ==> Glyphs(h.shown) == h.content)
  }

  /** The heading before the first mount: its raw text and nothing else. */
  function Initial(text: seq<CodeUnit>): (h: HeadingState)
    ensures Valid(h) && !h.live && h.content == text && h.pending == []
  {
    HeadingState(text, [], [], [], [], false, WithDefaults(NoOptions))
  }

  function FreshSpan(u: CodeUnit): Span {
    Span(u, "", false, true)
  }

  /**
   * The effect body: segment the content and build one fresh listening span
   * and one paused timeline per unit. Delayed calls from an earlier mount
   * stay scheduled.
   */
  function Mounted(h: HeadingState, s: Settings, draw: nat -> Family): (m: HeadingState)
    requires !h.live
    ensures m.live && m.settings == s && m.pending == h.pending
    ensures m.content == Segment(h.content)
    ensures |m.chars| == |h.content| && |m.timelines| == |h.content| && m.shown == m.chars
    ensures forall k :: 0 <= k < |m.chars| ==> m.chars[k] == Span(m.content[k], "", false, true)
    ensures forall k :: 0 <= k < |m.timelines| ==> m.timelines[k] == TimelineFor(s, k, draw)
    ensures forall k :: 0 <= k < |m.timelines| ==> m.timelines[k].state == Paused
  {
    var units := Segment(h.content);
    var spans := seq(|units|, k requires 0 <= k < |units| => FreshSpan(units[k]));
    var timelines := seq(|units|, k requires 0 <= k < |units| => TimelineFor(s, k, draw));
    HeadingState(units, spans, spans, timelines, h.pending, true, s)
  }

  /** A span with the hover paint the options ask for. */
  function Lit(sp: Span, hoverColor: string, glow: bool): (r: Span)
    ensures r.glyph == sp.glyph && r.listening == sp.listening
    ensures r.color == if hoverColor != "" then hoverColor else sp.color
    ensures r.glow == (glow || sp.glow)
  {
    sp.(color := if hoverColor != "" then hoverColor else sp.color, glow := glow || sp.glow)
  }

  /** A span with the hover paint the options set taken off again. */
  function Unlit(sp: Span, s: Settings): (r: Span)
    ensures r.glyph == sp.glyph && r.listening == sp.listening
    ensures r.color == if s.hoverColor != "" then White else sp.color
    ensures r.glow == (!s.glow && sp.glow)
  {
    sp.(color := if s.hoverColor != "" then White else sp.color, glow := if s.glow then false else sp.glow)
  }

  /** The delayed calls a hover on `index` of `n` units schedules, left neighbour first. */
  function NeighbourCalls(index: nat, n: nat, s: Settings): seq<DelayedCall> {
    if s.staggerMs <= 0 then []
    else
      (if index > 0 then [DelayedCall(index - 1, s.hoverColor, s.glow)] else [])
      + (if index + 1 < n then [DelayedCall(index + 1, s.hoverColor, s.glow)] else [])
  }

  /**
   * A hover schedules exactly one call for each neighbour that exists, none for
   * anything else, and none at all unless the stagger is positive; every call
   * carries the options of the mount.
   */
  lemma NeighbourCallTargets(index: nat, n: nat, s: Settings)
    requires index < n
    ensures var calls := NeighbourCalls(index, n, s);
            && |calls| == (if s.staggerMs > 0 then (if index > 0 then 1 else 0) + (if index + 1 < n then 1 else 0) else 0)
            && (forall k :: 0 <= k < |calls| ==> calls[k].hoverColor == s.hoverColor && calls[k].glow == s.glow)
            && (forall k :: 0 <= k < |calls| ==> calls[k].target < n && (calls[k].target + 1 == index || calls[k].target == index + 1))
            && (s.staggerMs > 0 && index > 0 ==> exists k :: 0 <= k < |calls| && calls[k].target + 1 == index)
            && (s.staggerMs > 0 && index + 1 < n ==> exists k :: 0 <= k < |calls| && calls[k].target == index + 1)
            && (s.staggerMs <= 0 ==> calls == [])
  {
    var calls := NeighbourCalls(index, n, s);
    if s.staggerMs > 0 && index > 0 {
      assert calls[0].target + 1 == index;
    }
    if s.staggerMs > 0 && index + 1 < n {
      assert calls[|calls| - 1].target == index + 1;
    }
  }

  /** `mouseenter` on the span at `index`. */
  function Entered(h: HeadingState, index: nat): (e: HeadingState)
    requires Valid(h)
    ensures Valid(e) && e.content == h.content && e.live == h.live && e.settings == h.settings
    ensures !h.live || index >= |h.chars| ==> e == h
    ensures h.live && index < |h.chars| ==>
      && |e.chars| == |h.chars|
      && e.chars[index] == Lit(h.chars[index], h.settings.hoverColor, h.settings.glow)
      && e.timelines[index] == Restarted(h.timelines[index], false)
      && e.timelines[index].state == Playing
      && (forall k :: 0 <= k < |h.chars| && k != index ==> e.chars[k] == h.chars[k] && e.timelines[k] == h.timelines[k])
      && e.pending == h.pending + NeighbourCalls(index, |h.chars|, h.settings)
  {
    if !h.live || index >= |h.chars| then h
    else
      var s := h.settings;
      var chars := h.chars[index := Lit(h.chars[index], s.hoverColor, s.glow)];
      h.(shown := chars, chars := chars,
         timelines := h.timelines[index := Restarted(h.timelines[index], false)],
         pending := h.pending + NeighbourCalls(index, |h.chars|, s))
  }

  /** Whether `mouseleave` on `index` resets the span at `k`: itself, and its neighbours when the stagger is positive. */
  predicate LeaveResets(index: nat, k: nat, s: Settings) {
    k == index || (s.staggerMs > 0 && (k + 1 == index || k == index + 1))
  }

  /** `mouseleave` on the span at `index`. Timelines and pending calls are left alone. */
  function Left(h: HeadingState, index: nat): (l: HeadingState)
    requires Valid(h)
    ensures Valid(l) && l.content == h.content && l.live == h.live && l.settings == h.settings
    ensures l.timelines == h.timelines && l.pending == h.pending
    ensures !h.live || index >= |h.chars| ==> l == h
    ensures h.live && index < |h.chars| ==>
      && |l.chars| == |h.chars|
      && forall k :: 0 <= k < |h.chars| ==>
           l.chars[k] == if LeaveResets(index, k, h.settings) then Unlit(h.chars[k], h.settings) else h.chars[k]
  {
    if !h.live || index >= |h.chars| then h
    else
      var chars := LeftSpans(h.chars, index, h.settings);
      assert Glyphs(chars) == Glyphs(h.chars);
      h.(shown := chars, chars := chars)
  }

  /** The spans after `mouseleave` on `index`: the reset ones unlit, the rest as they were. */
  function LeftSpans(spans: seq<Span>, index: nat, s: Settings): (r: seq<Span>)
    ensures |r| == |spans|
    ensures forall k :: 0 <= k < |spans| ==> r[k] == if LeaveResets(index, k, s) then Unlit(spans[k], s) else spans[k]
  {
    seq(|spans|, k requires 0 <= k < |spans| => if LeaveResets(index, k, s) then Unlit(spans[k], s) else spans[k])
  }

  /** The handler's three updates in a row, on the span and then on each neighbour, give `LeftSpans`. */
  lemma LeaveInSequence(before: seq<Span>, index: nat, s: Settings)
    requires index < |before|
    ensures var c1 := before[index := Unlit(before[index], s)];
            var c2 := if s.staggerMs > 0 && index > 0 then c1[index - 1 := Unlit(c1[index - 1], s)] else c1;
            var c3 := if s.staggerMs > 0 && index < |c2| - 1 then c2[index + 1 := Unlit(c2[index + 1], s)] else c2;
            c3 == LeftSpans(before, index, s)
  {
  }

  /**
   * The `k`-th pending delayed call fires. It restarts and paints the target
   * the refs hold now, with the options it captured. While unmounted, the refs
   * hold detached spans and nothing on screen changes, but the call still
   * restarts a timeline the cleanup killed; `revive` is the library's
   * unmodelled answer to that. A target the refs no longer have stops the call
   * before it changes anything.
   */
  function Fired(h: HeadingState, k: nat, revive: bool): (f: HeadingState)
    requires Valid(h)
    ensures Valid(f) && f.content == h.content && f.live == h.live && f.settings == h.settings
    ensures k < |h.pending| ==> f.pending == h.pending[..k] + h.pending[k + 1..]
    ensures k < |h.pending| ==> multiset(f.pending) == multiset(h.pending) - multiset{h.pending[k]}
    ensures k >= |h.pending| ==> f == h
    ensures !h.live ==> f.shown == h.shown
    ensures k < |h.pending| && h.pending[k].target >= |h.chars| ==> f == h.(pending := h.pending[..k] + h.pending[k + 1..])
    ensures k < |h.pending| && h.pending[k].target < |h.chars| ==>
      var c := h.pending[k];
      && |f.chars| == |h.chars|
      && f.chars[c.target] == Lit(h.chars[c.target], c.hoverColor, c.glow)
      && f.timelines[c.target] == Restarted(h.timelines[c.target], revive)
      && (forall j :: 0 <= j < |h.chars| && j != c.target ==> f.chars[j] == h.chars[j] && f.timelines[j] == h.timelines[j])
  {
    if k >= |h.pending| then h
    else
      var c := h.pending[k];
      var rest := h.pending[..k] + h.pending[k + 1..];
      CallRemoved(h.pending, k);
      if c.target >= |h.chars| then h.(pending := rest)
      else
        var chars := h.chars[c.target := Lit(h.chars[c.target], c.hoverColor, c.glow)];
        h.(shown := if h.live then chars else h.shown, chars := chars,
           timelines := h.timelines[c.target := Restarted(h.timelines[c.target], revive)],
           pending := rest)
  }

  /** Taking the `k`-th call out of the queue removes exactly that call. */
  lemma CallRemoved(pending: seq<DelayedCall>, k: nat)
    requires k < |pending|
    ensures multiset(pending[..k] + pending[k + 1..]) == multiset(pending) - multiset{pending[k]}
  {
    assert pending == pending[..k] + [pending[k]] + pending[k + 1..];
  }

  /** The clone `cloneNode(true)` makes: the same text and inline style, no listeners. */
  function Cloned(sp: Span): Span {
    sp.(listening := false)
  }

  /**
   * The cleanup: every timeline killed and every span on screen swapped for
   * its clone. Pending delayed calls stay scheduled, and the refs keep
   * pointing at the detached originals.
   */
  function TornDown(h: HeadingState): (t: HeadingState)
    requires Valid(h)
    ensures Valid(t) && !t.live && t.content == h.content && t.settings == h.settings
    ensures t.pending == h.pending && t.chars == h.chars
    ensures h.live ==>
      && |t.shown| == |h.chars| && |t.timelines| == |h.timelines|
      && (forall k :: 0 <= k < |h.chars| ==> t.shown[k] == h.chars[k].(listening := false))
      && (forall k :: 0 <= k < |h.timelines| ==> t.timelines[k] == h.timelines[k].(state := Killed))
    ensures !h.live ==> t == h
  {
    if !h.live then h
    else
      var shown := seq(|h.chars|, k requires 0 <= k < |h.chars| => Cloned(h.chars[k]));
      assert Glyphs(shown) == Glyphs(h.chars);
      h.(shown := shown,
         timelines := seq(|h.timelines|, k requires 0 <= k < |h.timelines| => KilledTimeline(h.timelines[k])),
         live := false)
  }

  // ---------------------------------------------------------------------------
  // Properties of the handlers
  // ---------------------------------------------------------------------------

  /** Entering then leaving a span leaves it white and without glow, as far as the options paint at all. */
  lemma LeaveUndoesEnter(h: HeadingState, index: nat)
    requires Valid(h) && h.live && index < |h.chars|
    ensures var l := Left(Entered(h, index), index);
            && (h.settings.hoverColor != "" ==> l.chars[index].color == White)
            && (h.settings.glow ==> !l.chars[index].glow)
            && l.timelines[index].restarts == h.timelines[index].restarts + 1
  {
  }

  /**
   * Leaving does not cancel the neighbour calls the enter scheduled: the right
   * neighbour is painted again after the mouse has left.
   */
  lemma {:induction false} LateCallRepaints(h: HeadingState, index: nat, revive: bool)
    requires Valid(h) && h.live && index + 1 < |h.chars|
    requires h.settings.hoverColor != "" && h.settings.staggerMs > 0
    ensures var l := Left(Entered(h, index), index);
            var k := |h.pending| + if index > 0 then 1 else 0;
            && k < |l.pending|
            && Fired(l, k, revive).shown[index + 1].color == h.settings.hoverColor
            && l.shown[index + 1].color == White
  {
    var e := Entered(h, index);
    var l := Left(e, index);
    var calls := NeighbourCalls(index, |h.chars|, h.settings);
    var k := |h.pending| + if index > 0 then 1 else 0;
    assert calls == (if index > 0 then [DelayedCall(index - 1, h.settings.hoverColor, h.settings.glow)] else [])
                    + [DelayedCall(index + 1, h.settings.hoverColor, h.settings.glow)];
    assert l.pending[k] == DelayedCall(index + 1, h.settings.hoverColor, h.settings.glow);
  }

  /** With a stagger of zero or less, hovering schedules nothing. */
  lemma NoStaggerNoCalls(h: HeadingState, index: nat)
    requires Valid(h) && h.settings.staggerMs <= 0
    ensures Entered(h, index).pending == h.pending
  {
  }

  /** The gsapStyle preset paints only the hovered span. */
  lemma GsapStyleStaysLocal(h: HeadingState, index: nat)
    requires Valid(h) && h.settings == WithDefaults(PresetOptions(GsapStyle))
    ensures Entered(h, index).pending == h.pending
    ensures h.live && index < |h.chars| ==> Entered(h, index).chars[index].color == "#88CE02"
  {
  }

  /** A mouse event on a span, or the scheduler running a pending call. */
  datatype Event = Enter(index: nat) | Leave(index: nat) | Fire(k: nat, revive: bool)

  function Step(h: HeadingState, ev: Event): (r: HeadingState)
    requires Valid(h)
    ensures Valid(r) && r.live == h.live && r.content == h.content
  {
    match ev
    case Enter(i) => Entered(h, i)
    case Leave(i) => Left(h, i)
    case Fire(k, revive) => Fired(h, k, revive)
  }

  /** The state after the events, in order. */
  function Replay(h: HeadingState, events: seq<Event>): (r: HeadingState)
    requires Valid(h)
    ensures Valid(r) && r.live == h.live && r.content == h.content
    decreases |events|
  {
    if events == [] then h else Replay(Step(h, events[0]), events[1..])
  }

  /** Once unmounted, the heading ignores the mouse: the clones carry no listeners. */
  lemma UnmountedIgnoresMouse(h: HeadingState, index: nat)
    requires Valid(h) && !h.live
    ensures Step(h, Enter(index)) == h && Step(h, Leave(index)) == h
  {
  }

  /**
   * After cleanup nothing the mouse or a late delayed call does reaches the
   * screen, no new call is ever scheduled, and with nothing left pending the
   * whole state, killed timelines included, stays as it is.
   */
  lemma {:induction false} TeardownFreezes(h: HeadingState, events: seq<Event>)
    requires Valid(h) && !h.live
    ensures Replay(h, events).shown == h.shown
    ensures multiset(Replay(h, events).pending) <= multiset(h.pending)
    ensures h.pending == [] ==> Replay(h, events) == h
    decreases |events|
  {
    if events != [] {
      UnmountedStep(h, events[0]);
      TeardownFreezes(Step(h, events[0]), events[1..]);
    }
  }

  /** One event after cleanup: the screen stays, the queue only loses calls, and with nothing queued nothing changes. */
  lemma UnmountedStep(h: HeadingState, e: Event)
    requires Valid(h) && !h.live
    ensures Step(h, e).shown == h.shown
    ensures multiset(Step(h, e).pending) <= multiset(h.pending)
    ensures h.pending == [] ==> Step(h, e) == h
  {
  }

  /**
   * After cleanup the screen is frozen whatever happens. The timelines stay
   * killed when no delayed call was pending; otherwise only those calls can
   * still restart one (see `LateCallRestartsKilled`).
   */
  lemma AfterTeardown(h: HeadingState, events: seq<Event>)
    requires Valid(h) && h.live
    ensures var t := TornDown(h);
            && Replay(t, events).shown == t.shown
            && multiset(Replay(t, events).pending) <= multiset(h.pending)
            && (h.pending == [] ==>
                  && |Replay(t, events).timelines| == |h.timelines|
                  && forall k :: 0 <= k < |Replay(t, events).timelines| ==> Replay(t, events).timelines[k].state == Killed)
  {
    TeardownFreezes(TornDown(h), events);
  }

  /**
   * A neighbour call scheduled by a hover just before cleanup still fires
   * afterwards and restarts the killed timeline of the right neighbour; it
   * plays again exactly when the library revives killed timelines. The screen
   * does not change.
   */
  lemma {:induction false} LateCallRestartsKilled(h: HeadingState, index: nat, revive: bool)
    requires Valid(h) && h.live && index + 1 < |h.chars| && h.settings.staggerMs > 0
    ensures var t := TornDown(Entered(h, index));
            var k := |h.pending| + if index > 0 then 1 else 0;
            && k < |t.pending|
            && t.timelines[index + 1].state == Killed
            && Fired(t, k, revive).timelines[index + 1].restarts == t.timelines[index + 1].restarts + 1
            && Fired(t, k, revive).timelines[index + 1].state == (if revive then Playing else Killed)
            && Fired(t, k, revive).shown == t.shown
  {
    var e := Entered(h, index);
    var t := TornDown(e);
    var calls := NeighbourCalls(index, |h.chars|, h.settings);
    var k := |h.pending| + if index > 0 then 1 else 0;
    assert calls == (if index > 0 then [DelayedCall(index - 1, h.settings.hoverColor, h.settings.glow)] else [])
                    + [DelayedCall(index + 1, h.settings.hoverColor, h.settings.glow)];
    assert t.pending[k] == DelayedCall(index + 1, h.settings.hoverColor, h.settings.glow);
  }

  /**
   * A cleanup followed by a new mount, as React does when an option changes,
   * rebuilds the same units: segmenting the no-break spaces again changes nothing.
   */
  lemma RemountKeepsText(h: HeadingState, s1: Settings, s2: Settings, draw1: nat -> Family, draw2: nat -> Family)
    requires Valid(h) && !h.live
    ensures var m1 := Mounted(h, s1, draw1);
            var m2 := Mounted(TornDown(m1), s2, draw2);
            && m2.content == m1.content
            && Glyphs(m2.shown) == Glyphs(m1.shown)
            && |m2.timelines| == |m1.timelines|
  {
    SegmentIdempotent(h.content);
  }

  // ---------------------------------------------------------------------------
  // The hook's state, updated in place
  // ---------------------------------------------------------------------------

  /** The heading element, the two refs and the animation scheduler's queue of delayed calls. */
  class AnimatedHeading {
    var content: seq<CodeUnit>
    var shown: seq<Span>
    var chars: seq<Span>
    var timelines: seq<Timeline>
    var pending: seq<DelayedCall>
    var live: bool
    var settings: Settings

    function Snapshot(): HeadingState
      reads this
    {
      HeadingState(content, shown, chars, timelines, pending, live, settings)
    }

    predicate Consistent()
      reads this
    {
      Valid(Snapshot())
    }

    constructor(text: seq<CodeUnit>)
      ensures Snapshot() == Initial(text)
    {
      content, shown, chars, timelines, pending := text, [], [], [], [];
      live, settings := false, WithDefaults(NoOptions);
    }

    /** The effect body: one span and one paused timeline per unit of the current text. */
    method Mount(s: Settings, draw: nat -> Family)
      requires Consistent() && !live
      modifies this
      ensures Snapshot() == Mounted(old(Snapshot()), s, draw)
    {
      var units := Segment(content);
      var spans: seq<Span> := [];
      var i := 0;
      while i < |units|
        invariant 0 <= i <= |units| && |spans| == i
        invariant forall k :: 0 <= k < i ==> spans[k] == FreshSpan(units[k])
      {
        spans := spans + [FreshSpan(units[i])];
        i := i + 1;
      }
      var built: seq<Timeline> := [];
      i := 0;
      while i < |spans|
        invariant 0 <= i <= |spans| && |built| == i
        invariant forall k :: 0 <= k < i ==> built[k] == TimelineFor(s, k, draw)
      {
        built := built + [TimelineFor(s, i, draw)];
        i := i + 1;
      }
      ghost var m := Mounted(old(Snapshot()), s, draw);
      assert spans == m.chars;
      assert built == m.timelines;
      content, shown, chars, timelines, live, settings := units, spans, spans, built, true, s;
    }

    /** `mouseenter` on the span at `index`. */
    method Enter(index: nat)
      requires Consistent()
      modifies this
      ensures Snapshot() == Entered(old(Snapshot()), index)
    {
      if !live || index >= |chars| {
        return;
      }
      timelines := timelines[index := Restarted(timelines[index], false)];
      var span := chars[index];
      if settings.hoverColor != "" {
        span := span.(color := settings.hoverColor);
      }
      if settings.glow {
        span := span.(glow := true);
      }
      chars := chars[index := span];
      var calls: seq<DelayedCall> := [];
      if settings.staggerMs > 0 {
        if index > 0 {
          calls := calls + [DelayedCall(index - 1, settings.hoverColor, settings.glow)];
        }
        if index < |chars| - 1 {
          calls := calls + [DelayedCall(index + 1, settings.hoverColor, settings.glow)];
        }
      }
      assert calls == NeighbourCalls(index, |chars|, settings);
      assert span == Lit(old(chars)[index], settings.hoverColor, settings.glow);
      pending := pending + calls;
      shown := chars;
    }

    /** `mouseleave` on the span at `index`. */
    method Leave(index: nat)
      requires Consistent()
      modifies this
      ensures Snapshot() == Left(old(Snapshot()), index)
    {
      if !live || index >= |chars| {
        return;
      }
      var s := settings;
      var spans := chars[index := Unlit(chars[index], s)];
      if s.staggerMs > 0 {
        if index > 0 {
          spans := spans[index - 1 := Unlit(spans[index - 1], s)];
        }
        if index < |spans| - 1 {
          spans := spans[index + 1 := Unlit(spans[index + 1], s)];
        }
      }
      LeaveInSequence(chars, index, s);
      chars, shown := spans, spans;
    }

    /** The scheduler runs the `k`-th pending delayed call. */
    method Fire(k: nat, revive: bool)
      requires Consistent()
      modifies this
      ensures Snapshot() == Fired(old(Snapshot()), k, revive)
    {
      if k >= |pending| {
        return;
      }
      var c := pending[k];
      pending := pending[..k] + pending[k + 1..];
      if c.target < |chars| {
        timelines := timelines[c.target := Restarted(timelines[c.target], revive)];
        chars := chars[c.target := Lit(chars[c.target], c.hoverColor, c.glow)];
        if live {
          shown := chars;
        }
      }
    }

    /** The cleanup: kill every timeline, then swap every span for its clone. */
    method Teardown()
      requires Consistent()
      modifies this
      ensures Snapshot() == TornDown(old(Snapshot()))
    {
      if !live {
        return;
      }
      var killed: seq<Timeline> := [];
      var i := 0;
      while i < |timelines|
        invariant 0 <= i <= |timelines| && |killed| == i
        invariant forall k :: 0 <= k < i ==> killed[k] == KilledTimeline(timelines[k])
      {
        killed := killed + [KilledTimeline(timelines[i])];
        i := i + 1;
      }
      var clones: seq<Span> := [];
      i := 0;
      while i < |chars|
        invariant 0 <= i <= |chars| && |clones| == i
        invariant forall k :: 0 <= k < i ==> clones[k] == Cloned(chars[k])
      {
        clones := clones + [Cloned(chars[i])];
        i := i + 1;
      }
      timelines, shown, live := killed, clones, false;
      ghost var t := TornDown(old(Snapshot()));
      assert timelines == t.timelines;
      assert shown == t.shown;
    }
  }
}

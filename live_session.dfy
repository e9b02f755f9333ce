/**
 * The live-performance session as a value: the four pieces of state of the
 * live view (src/components/LiveMode.jsx:8-11) and one transition function per
 * handler, effect and timer tick. The class in module LiveMode is proved
 * against these functions; the lemmas below are about whole runs of them.
 */
module LiveSession {

  /** Bounds and step of the speed slider, in percent (LiveMode.jsx:235-242). */
  const MinSpeed: int := 10
  const MaxSpeed: int := 100
  const SpeedStep: int := 10
  /** Initial slider value (LiveMode.jsx:10). */
  const InitialSpeed: int := 50

  predicate ValidSpeed(percent: int) {
    MinSpeed <= percent <= MaxSpeed && percent % SpeedStep == 0
  }

  /**
   * Pixels advanced per tick, `scrollSpeed[0] / 10`. The source divides in
   * floating point; since every slider value is a multiple of ten the quotient
   * is exact, which the second postcondition records.
   */
  function ScrollStep(percent: int): (step: int)
    requires ValidSpeed(percent)
    ensures 1 <= step <= 10
    ensures step * 10 == percent
  {
    percent / 10
  }

  datatype Session = Session(
    currentIndex: int,
    isAutoScrolling: bool,
    scrollSpeed: int,
    scrollPosition: int)

  /** The state the component mounts with. */
  const Initial: Session := Session(0, false, InitialSpeed, 0)

  /**
   * The invariant of a session over `count` songs: the cursor is a valid index
   * (or 0 when there are no songs), the speed is a slider value and the
   * scroll position is not negative.
   */
  predicate Valid(s: Session, count: nat) {
    && 0 <= s.currentIndex
    && (count == 0 ==> s.currentIndex == 0)
    && (count > 0 ==> s.currentIndex < count)
    && ValidSpeed(s.scrollSpeed)
    && 0 <= s.scrollPosition
  }

  /** The content element is rendered only when `musicas[currentIndex]` exists (LiveMode.jsx:15, 106). */
  predicate HasContent(s: Session, count: nat) {
    0 <= s.currentIndex < count
  }

  /**
   * Moving the cursor to song `i`, followed by the effect that runs on every
   * change of `currentIndex`: scroll back to the top and stop auto-scroll.
   */
  function ChangeSong(s: Session, i: int): (r: Session)
    requires i != s.currentIndex
    ensures r.currentIndex == i && r.scrollSpeed == s.scrollSpeed
    ensures r.scrollPosition == 0 && !r.isAutoScrolling
  {
    s.(currentIndex := i, scrollPosition := 0, isAutoScrolling := false)
  }

  /** `goToPrevious`: step back unless at the first song. */
  function Previous(s: Session): (r: Session)
    ensures r.currentIndex == if s.currentIndex > 0 then s.currentIndex - 1 else s.currentIndex
    ensures r.scrollSpeed == s.scrollSpeed
    ensures r.currentIndex != s.currentIndex ==> r.scrollPosition == 0 && !r.isAutoScrolling
    ensures r.currentIndex == s.currentIndex ==> r == s
  {
    if s.currentIndex > 0 then ChangeSong(s, s.currentIndex - 1) else s
  }

  /** `goToNext`: step forward unless at the last song of `count`. */
  function Next(s: Session, count: nat): (r: Session)
    ensures r.currentIndex == if s.currentIndex < count - 1 then s.currentIndex + 1 else s.currentIndex
    ensures r.scrollSpeed == s.scrollSpeed
    ensures r.currentIndex != s.currentIndex ==> r.scrollPosition == 0 && !r.isAutoScrolling
    ensures r.currentIndex == s.currentIndex ==> r == s
  {
    if s.currentIndex < count - 1 then ChangeSong(s, s.currentIndex + 1) else s
  }

  /** `toggleAutoScroll`: flips the flag and nothing else. */
  function Toggle(s: Session): (r: Session)
    ensures r.isAutoScrolling != s.isAutoScrolling
    ensures r.currentIndex == s.currentIndex && r.scrollSpeed == s.scrollSpeed
    ensures r.scrollPosition == s.scrollPosition
  {
    s.(isAutoScrolling := !s.isAutoScrolling)
  }

  /** `resetScroll`: back to the top with auto-scroll off, on the same song and speed. */
  function Reset(s: Session): (r: Session)
    ensures r.scrollPosition == 0 && !r.isAutoScrolling
    ensures r.currentIndex == s.currentIndex && r.scrollSpeed == s.scrollSpeed
  {
    s.(scrollPosition := 0, isAutoScrolling := false)
  }

  /** The slider's `onValueChange`: only the speed changes; the next tick uses it. */
  function SetSpeed(s: Session, percent: int): (r: Session)
    requires ValidSpeed(percent)
    ensures r.scrollSpeed == percent && ValidSpeed(r.scrollSpeed)
    ensures r.currentIndex == s.currentIndex && r.isAutoScrolling == s.isAutoScrolling
    ensures r.scrollPosition == s.scrollPosition
  {
    s.(scrollSpeed := percent)
  }

  /**
   * One firing of the interval (LiveMode.jsx:18-47). An interval exists only
   * while auto-scroll is on and the content element is rendered; each firing
   * advances by the step and clamps at `maxScroll`, stopping auto-scroll when
   * the end is reached.
   */
  function Tick(s: Session, count: nat, maxScroll: int): (r: Session)
    requires ValidSpeed(s.scrollSpeed)
    ensures r.currentIndex == s.currentIndex && r.scrollSpeed == s.scrollSpeed
    ensures !(s.isAutoScrolling && HasContent(s, count)) ==> r == s
    ensures s.isAutoScrolling && HasContent(s, count) ==>
      var target := s.scrollPosition + ScrollStep(s.scrollSpeed);
      && r.scrollPosition <= maxScroll
      && (target >= maxScroll ==> r.scrollPosition == maxScroll && !r.isAutoScrolling)
      && (target < maxScroll ==> r.scrollPosition == target && r.isAutoScrolling)
  {
    if s.isAutoScrolling && HasContent(s, count) then
      var newPosition := s.scrollPosition + ScrollStep(s.scrollSpeed);
      if newPosition >= maxScroll then
        s.(scrollPosition := maxScroll, isAutoScrolling := false)
      else
        s.(scrollPosition := newPosition)
    else
      s
  }

  /** What a key of the live view's keyboard listener does (LiveMode.jsx:83-99). */
  datatype Action = GoPrevious | GoNext | ToggleAutoScroll | ResetScroll | Ignore

  function KeyAction(key: string): (a: Action)
    ensures a == GoPrevious <==> key == "ArrowLeft"
    ensures a == GoNext <==> key == "ArrowRight"
    ensures a == ToggleAutoScroll <==> key == " "
    ensures a == ResetScroll <==> key == "r"
  {
    match key
    case "ArrowLeft" => GoPrevious
    case "ArrowRight" => GoNext
    case " " => ToggleAutoScroll
    case "r" => ResetScroll
    case _ => Ignore
  }

  /** Only the space bar's default action (scrolling the page) is suppressed. */
  function PreventsDefault(key: string): (b: bool)
    ensures b <==> key == " "
  {
    KeyAction(key) == ToggleAutoScroll
  }

  function Perform(s: Session, count: nat, a: Action): Session {
    match a
    case GoPrevious => Previous(s)
    case GoNext => Next(s, count)
    case ToggleAutoScroll => Toggle(s)
    case ResetScroll => Reset(s)
    case Ignore => s
  }

  /** `handleKeyPress`: the handler the key maps to, or no change for any other key. */
  function HandleKey(s: Session, count: nat, key: string): (r: Session)
    ensures key == "ArrowLeft" ==> r == Previous(s)
    ensures key == "ArrowRight" ==> r == Next(s, count)
    ensures key == " " ==> r == Toggle(s)
    ensures key == "r" ==> r == Reset(s)
    ensures key !in {"ArrowLeft", "ArrowRight", " ", "r"} ==> r == s
  {
    Perform(s, count, KeyAction(key))
  }

  /** Everything that can happen to a mounted live view. */
  datatype Event =
    | PressKey(key: string)
    | ClickPrevious
    | ClickNext
    | ClickToggle
    | ClickReset
    | SlideSpeed(percent: int)
    | TimerTick(maxScroll: int)

  /** The slider yields only slider values; the DOM's scrollHeight - clientHeight is never negative. */
  predicate ValidEvent(e: Event) {
    match e
    case SlideSpeed(p) => ValidSpeed(p)
    case TimerTick(m) => 0 <= m
    case _ => true
  }

  function Apply(s: Session, count: nat, e: Event): (r: Session)
    requires ValidSpeed(s.scrollSpeed) && ValidEvent(e)
    ensures ValidSpeed(r.scrollSpeed)
  {
    match e
    case PressKey(k) => HandleKey(s, count, k)
    case ClickPrevious => Previous(s)
    case ClickNext => Next(s, count)
    case ClickToggle => Toggle(s)
    case ClickReset => Reset(s)
    case SlideSpeed(p) => SetSpeed(s, p)
    case TimerTick(m) => Tick(s, count, m)
  }

  function Run(s: Session, count: nat, events: seq<Event>): Session
    requires ValidSpeed(s.scrollSpeed)
    requires forall i :: 0 <= i < |events| ==> ValidEvent(events[i])
    decreases |events|
  {
    if events == [] then s else Run(Apply(s, count, events[0]), count, events[1..])
  }

  // ---------------------------------------------------------------------
  // Properties of single steps

  /** Every event keeps the session invariant. */
  lemma ApplyPreservesValid(s: Session, count: nat, e: Event)
    requires Valid(s, count) && ValidEvent(e)
    ensures Valid(Apply(s, count, e), count)
  {
  }

  /**
   * The cross-component rule of the live view: an event that moves the cursor
   * moves it by exactly one and always leaves the new song at the top with
   * auto-scroll off, whatever the previous position and flag were.
   */
  lemma IndexChangeResets(s: Session, count: nat, e: Event)
    requires ValidSpeed(s.scrollSpeed) && ValidEvent(e)
    ensures var r := Apply(s, count, e);
      r.currentIndex != s.currentIndex ==>
        && (r.currentIndex == s.currentIndex + 1 || r.currentIndex == s.currentIndex - 1)
        && r.scrollPosition == 0 && !r.isAutoScrolling && r.scrollSpeed == s.scrollSpeed
  {
  }

  /** With no songs the navigation handlers change nothing. */
  lemma EmptyListNavigationIsNoOp(s: Session)
    requires Valid(s, 0)
    ensures Previous(s) == s && Next(s, 0) == s
  {
  }

  /** With no songs no interval is ever created, so ticks change nothing, even after a toggle. */
  lemma EmptyListNeverScrolls(s: Session, maxScroll: int)
    requires Valid(s, 0)
    ensures Tick(s, 0, maxScroll) == s
    ensures Tick(Toggle(s), 0, maxScroll) == Toggle(s)
  {
  }

  /** Two toggles restore the flag (and the whole state). */
  lemma ToggleTwice(s: Session)
    ensures Toggle(Toggle(s)) == s
  {
  }

  /** Resetting twice is resetting once. */
  lemma ResetIdempotent(s: Session)
    ensures Reset(Reset(s)) == Reset(s)
  {
  }

  /** Keys other than the four, upper-case R among them, change nothing. */
  lemma OtherKeysIgnored(s: Session, count: nat, key: string)
    requires key !in {"ArrowLeft", "ArrowRight", " ", "r"}
    ensures HandleKey(s, count, key) == s && !PreventsDefault(key)
    ensures HandleKey(s, count, "R") == s && !PreventsDefault("R")
  {
  }

  // ---------------------------------------------------------------------
  // Properties of runs

  /** Any run of valid events from a valid session ends in a valid session. */
  lemma {:induction false} RunPreservesValid(s: Session, count: nat, events: seq<Event>)
    requires Valid(s, count)
    requires forall i :: 0 <= i < |events| ==> ValidEvent(events[i])
    ensures Valid(Run(s, count, events), count)
    decreases |events|
  {
    if events != [] {
      ApplyPreservesValid(s, count, events[0]);
      RunPreservesValid(Apply(s, count, events[0]), count, events[1..]);
    }
  }

  /** In particular every run from the initial state keeps the cursor inside the song list. */
  lemma {:induction false} CursorStaysInBounds(count: nat, events: seq<Event>)
    requires count > 0
    requires forall i :: 0 <= i < |events| ==> ValidEvent(events[i])
    ensures 0 <= Run(Initial, count, events).currentIndex < count
  {
    RunPreservesValid(Initial, count, events);
  }

  /** The cursor moves by at most one song per event. */
  lemma {:induction false} RunMovesCursorSlowly(s: Session, count: nat, events: seq<Event>)
    requires ValidSpeed(s.scrollSpeed)
    requires forall i :: 0 <= i < |events| ==> ValidEvent(events[i])
    ensures s.currentIndex - |events| <= Run(s, count, events).currentIndex <= s.currentIndex + |events|
    decreases |events|
  {
    if events != [] {
      IndexChangeResets(s, count, events[0]);
      RunMovesCursorSlowly(Apply(s, count, events[0]), count, events[1..]);
    }
  }

  /** `k` consecutive firings of the interval with a fixed content height. */
  function Ticks(s: Session, count: nat, maxScroll: int, k: nat): Session
    requires ValidSpeed(s.scrollSpeed)
    decreases k
  {
    if k == 0 then s else Ticks(Tick(s, count, maxScroll), count, maxScroll, k - 1)
  }

  /**
   * While auto-scroll runs, the position moves by exactly one step per tick
   * and never passes the end; once auto-scroll has stopped it is at the end.
   */
  lemma {:induction false} TicksProgress(s: Session, count: nat, maxScroll: int, k: nat)
    requires ValidSpeed(s.scrollSpeed)
    requires s.isAutoScrolling && HasContent(s, count)
    requires s.scrollPosition <= maxScroll
    ensures var r := Ticks(s, count, maxScroll, k);
      && r.currentIndex == s.currentIndex && r.scrollSpeed == s.scrollSpeed
      && r.scrollPosition <= maxScroll
      && (r.isAutoScrolling ==> r.scrollPosition == s.scrollPosition + k * ScrollStep(s.scrollSpeed))
      && (!r.isAutoScrolling ==> r.scrollPosition == maxScroll)
    decreases k
  {
    if k > 0 {
      var t := Tick(s, count, maxScroll);
      if t.isAutoScrolling {
        TicksProgress(t, count, maxScroll, k - 1);
      } else {
        StoppedTicksChangeNothing(t, count, maxScroll, k - 1);
      }
    }
  }

  /** Once auto-scroll is off, further ticks change nothing (the interval is cleared). */
  lemma {:induction false} StoppedTicksChangeNothing(s: Session, count: nat, maxScroll: int, k: nat)
    requires ValidSpeed(s.scrollSpeed) && !s.isAutoScrolling
    ensures Ticks(s, count, maxScroll, k) == s
    decreases k
  {
    if k > 0 {
      StoppedTicksChangeNothing(Tick(s, count, maxScroll), count, maxScroll, k - 1);
    }
  }

  /**
   * Auto-scroll always finishes: from any position at or before the end,
   * `(maxScroll - position) / step + 1` ticks bring the view exactly to the
   * end with auto-scroll stopped.
   */
  lemma TicksReachEnd(s: Session, count: nat, maxScroll: int)
    requires ValidSpeed(s.scrollSpeed)
    requires s.isAutoScrolling && HasContent(s, count)
    requires 0 <= s.scrollPosition <= maxScroll
    ensures var k := (maxScroll - s.scrollPosition) / ScrollStep(s.scrollSpeed) + 1;
      var r := Ticks(s, count, maxScroll, k);
      r.scrollPosition == maxScroll && !r.isAutoScrolling
  {
    var step := ScrollStep(s.scrollSpeed);
    var k := (maxScroll - s.scrollPosition) / step + 1;
    TicksProgress(s, count, maxScroll, k);
    assert s.scrollPosition + k * step > maxScroll by {
      var q := (maxScroll - s.scrollPosition) / step;
      assert maxScroll - s.scrollPosition == q * step + (maxScroll - s.scrollPosition) % step;
      assert k * step == q * step + step;
    }
  }

  // ---------------------------------------------------------------------
  // Scenarios

  /** Three songs: two presses of ArrowRight reach the last song, a third stays there. */
  lemma ThreeSongScenario()
    ensures Run(Initial, 3, [PressKey("ArrowRight"), PressKey("ArrowRight")]).currentIndex == 2
    ensures Run(Initial, 3, [PressKey("ArrowRight"), PressKey("ArrowRight"), PressKey("ArrowRight")]).currentIndex == 2
  {
  }

  /** At speed 50 a tick advances five pixels; from 98 of 100 it clamps to 100 and stops. */
  lemma ClampScenario()
    ensures ScrollStep(50) == 5
    ensures var r := Tick(Session(0, true, 50, 98), 1, 100);
      r.scrollPosition == 100 && !r.isAutoScrolling
  {
  }
}

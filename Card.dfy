/**
 * One notification card: its theme, what it renders, and its lifecycle
 * visible -> exiting -> closed, driven by an auto-close timer, a progress
 * interval and the exit delay.
 *
 * Time is an abstract integer clock: `Advance` moves it on, and each timer
 * callback is an explicit event that may run once its deadline has passed.
 */
module Notification {
  import opened Records

  /** The length of the exit animation after which the card asks to be removed (ms). */
  const ExitDelay: int := 250

  /** The duration a card has when its `duration` prop is left undefined (ms). */
  const DefaultCardDuration: int := 5000

  /** The props a card is rendered with; None and Undefined are props left undefined. */
  datatype Props = Props(id: string, kind: Option<string>, duration: Field<Option<int>>, showClose: Option<bool>)

  /** The props the container passes for a record: all of them are defined. */
  function PropsOf(r: Record): Props {
    Props(r.id, Some(r.kind), Defined(r.duration), Some(r.showClose))
  }

  /** The type prop with its default, which applies only when it is undefined. */
  function KindProp(p: Props): string {
    if p.kind.Some? then p.kind.value else "info"
  }

  /** The duration prop with its default; an explicit null stays null (persistent). */
  function DurationProp(p: Props): Option<int> {
    if p.duration.Defined? then p.duration.value else Some(DefaultCardDuration)
  }

  function ShowCloseProp(p: Props): bool {
    if p.showClose.Some? then p.showClose.value else true
  }

  /** A record's own type, duration and close control reach the card unchanged. */
  lemma PropsOfRecord(r: Record)
    ensures KindProp(PropsOf(r)) == r.kind
    ensures DurationProp(PropsOf(r)) == r.duration
    ensures ShowCloseProp(PropsOf(r)) == r.showClose
  {
  }

  /** The colour theme of a type: the five known types have their own, anything else gets the info theme. */
  function Theme(kind: string): (k: Kind)
    ensures k.Name() == kind || k == Info
  {
    if kind == "success" then Success
    else if kind == "error" then Error
    else if kind == "warning" then Warning
    else if kind == "violation" then Violation
    else Info
  }

  lemma ThemeOfName(k: Kind)
    ensures Theme(k.Name()) == k
  {
  }

  lemma UnknownKindIsInfo(kind: string)
    requires forall k: Kind :: k.Name() != kind
    ensures Theme(kind) == Info
  {
  }

  /**
   * `stylesByType[type] || stylesByType.info` exactly as written, over an
   * object literal: None is a type the table inherits (such as "toString"),
   * whose value is a function, truthy, so the info fallback is skipped and the
   * card gets no theme colours.
   */
  function ThemeAsWritten(kind: string): (r: Option<Kind>)
    ensures r.None? <==> ObjectPrototypeKey(kind)
    ensures r.Some? ==> r.value == Theme(kind)
  {
    if ObjectPrototypeKey(kind) then None else Some(Theme(kind))
  }

  lemma InheritedKindUnthemed()
    ensures ThemeAsWritten("constructor") == None
    ensures Theme("constructor") == Info
  {
  }

  /**
   * `Math.max(0, end - now)` with `end = start + duration`: the time left
   * before the auto-close deadline, never negative and, once the effect has
   * started, never more than the duration.
   */
  function Remaining(start: int, duration: int, now: int): (r: int)
    ensures r >= 0
    ensures r == 0 <==> now >= start + duration
    ensures r > 0 ==> r + (now - start) == duration
    ensures start <= now && duration >= 0 ==> r <= duration
  {
    Max(0, start + duration - now)
  }

  /** What a card renders apart from colours and layout. */
  datatype View = View(theme: Kind, closeButton: bool, progressBar: bool, exitAnimation: bool)

  /** A snapshot of every field of a card. */
  datatype CardState = CardState(
    kind: string,
    showClose: bool,
    duration: Option<int>,
    now: int,
    mounted: bool,
    exiting: bool,
    effectStart: int,
    autoClose: Option<int>,
    ticking: bool,
    remaining: Option<int>,
    exitTimers: seq<int>,
    closeCalls: seq<string>)

  class Card {
    const id: string
    var kind: string
    var showClose: bool
    var duration: Option<int>
    /** The clock. */
    var now: int
    var mounted: bool
    /** The source's `exiting` state. */
    var exiting: bool
    /** When the auto-close effect last started. */
    var effectStart: int
    /** The deadline of the pending auto-close timer, if any. */
    var autoClose: Option<int>
    /** Whether the progress interval is running. */
    var ticking: bool
    /** The last value the interval computed; None while the bar is at its initial 100%. */
    var remaining: Option<int>
    /** The deadlines of the pending exit timeouts, one per close. */
    var exitTimers: seq<int>
    /** The arguments of the `onClose` calls made so far. */
    var closeCalls: seq<string>
    /** How many times the close handler has run. */
    ghost var closes: nat

    ghost function State(): CardState
      reads this
    {
      CardState(kind, showClose, duration, now, mounted, exiting, effectStart,
                autoClose, ticking, remaining, exitTimers, closeCalls)
    }

    ghost predicate Valid()
      reads this
    {
      // a persistent card starts no timer and no interval
      && (duration.None? ==> autoClose.None?)
      && (ticking <==> mounted && duration.Some?)
      && (autoClose.Some? ==> mounted && duration.Some? && autoClose.value == effectStart + duration.value)
      && effectStart <= now
      // every close schedules one exit timeout, which later calls onClose with the card's own id
      && (forall c | c in closeCalls :: c == id)
      && |closeCalls| + |exitTimers| == closes
      && (exiting <==> closes > 0)
      && (forall k | 0 <= k < |exitTimers| :: exitTimers[k] <= now + ExitDelay)
      && (remaining.Some? ==> remaining.value >= 0)
    }

    function Render(): (v: View)
      reads this
      ensures v.theme == Theme(kind)
      ensures v.closeButton <==> showClose
      ensures v.progressBar <==> duration.Some?
      ensures v.exitAnimation <==> exiting
    {
      View(Theme(kind), showClose, duration.Some?, exiting)
    }

    /** Mounting: the effect starts the auto-close timer and the interval unless the duration is null. */
    constructor Mount(p: Props, time: int)
      ensures Valid() && id == p.id && closes == 0
      ensures State() == CardState(
        KindProp(p), ShowCloseProp(p), DurationProp(p), time, true, false, time,
        if DurationProp(p).Some? then Some(time + DurationProp(p).value) else None,
        DurationProp(p).Some?, None, [], [])
    {
      id := p.id;
      kind := KindProp(p);
      showClose := ShowCloseProp(p);
      duration := DurationProp(p);
      now := time;
      mounted := true;
      exiting := false;
      effectStart := time;
      autoClose := if DurationProp(p).Some? then Some(time + DurationProp(p).value) else None;
      ticking := DurationProp(p).Some?;
      remaining := None;
      exitTimers := [];
      closeCalls := [];
      closes := 0;
    }

    /** Time passes. */
    method Advance(t: int)
      requires Valid() && t >= now
      modifies this
      ensures Valid() && closes == old(closes)
      ensures State() == old(State()).(now := t)
    {
      now := t;
    }

    /** The interval callback: recompute the time left. */
    method IntervalFire()
      requires Valid() && ticking
      modifies this
      ensures Valid() && closes == old(closes)
      ensures duration.Some?
      ensures State() == old(State()).(remaining := Some(Remaining(effectStart, duration.value, now)))
    {
      remaining := Some(Remaining(effectStart, duration.value, now));
    }

    /** The close handler: start the exit animation and schedule `onClose(id)` after the exit delay. */
    method HandleClose()
      requires Valid()
      modifies this
      ensures Valid() && closes == old(closes) + 1
      ensures State() == old(State()).(exiting := true, exitTimers := old(exitTimers) + [now + ExitDelay])
    {
      exiting := true;
      exitTimers := exitTimers + [now + ExitDelay];
      closes := closes + 1;
    }

    /** A click on the close button, which is only there when `showClose` is set. */
    method Click()
      requires Valid() && mounted && Render().closeButton
      modifies this
      ensures Valid() && closes == old(closes) + 1
      ensures State() == old(State()).(exiting := true, exitTimers := old(exitTimers) + [now + ExitDelay])
    {
      HandleClose();
    }

    /** The auto-close timer, which fires once the duration has elapsed since the effect started. */
    method AutoCloseFire()
      requires Valid() && autoClose.Some? && now >= autoClose.value
      modifies this
      ensures Valid() && closes == old(closes) + 1
      ensures State() == old(State()).(autoClose := None, exiting := true,
                                       exitTimers := old(exitTimers) + [now + ExitDelay])
      ensures duration.Some? && now >= effectStart + duration.value
    {
      autoClose := None;
      HandleClose();
    }

    /** The exit timeout number `i`, due by now: it calls back `onClose` with the card's id. */
    method ExitFire(i: nat) returns (closed: string)
      requires Valid() && i < |exitTimers| && exitTimers[i] <= now
      modifies this
      ensures Valid() && closes == old(closes)
      ensures closed == id
      ensures State() == old(State()).(exitTimers := old(exitTimers[..i] + exitTimers[i + 1..]),
                                       closeCalls := old(closeCalls) + [id])
    {
      closed := id;
      exitTimers := exitTimers[..i] + exitTimers[i + 1..];
      closeCalls := closeCalls + [id];
    }

    /**
     * The effect's cleanup and rerun for a new duration: the old timer and
     * interval are cancelled and, unless the new duration is null, new ones
     * start from now.
     */
    method RestartEffect(d: Option<int>)
      requires Valid() && mounted
      modifies this
      ensures Valid() && closes == old(closes)
      ensures State() == old(State()).(duration := d, effectStart := now,
        autoClose := if d.Some? then Some(now + d.value) else None, ticking := d.Some?)
    {
      duration := d;
      effectStart := now;
      autoClose := if d.Some? then Some(now + d.value) else None;
      ticking := d.Some?;
    }

    /**
     * A new render with new props (the provider updated the record). The
     * effect is cleaned up and restarted only when the duration changed.
     */
    method Rerender(p: Props)
      requires Valid() && mounted && p.id == id
      modifies this
      ensures Valid() && closes == old(closes)
      ensures kind == KindProp(p) && showClose == ShowCloseProp(p) && duration == DurationProp(p)
      ensures DurationProp(p) == old(duration) ==>
        State() == old(State()).(kind := KindProp(p), showClose := ShowCloseProp(p))
      ensures DurationProp(p) != old(duration) ==>
        State() == old(State()).(kind := KindProp(p), showClose := ShowCloseProp(p),
          duration := DurationProp(p), effectStart := now,
          autoClose := if DurationProp(p).Some? then Some(now + DurationProp(p).value) else None,
          ticking := DurationProp(p).Some?)
    {
      kind := KindProp(p);
      showClose := ShowCloseProp(p);
      if DurationProp(p) != duration {
        RestartEffect(DurationProp(p));
      }
    }

    /** Unmounting cancels the auto-close timer and the interval, but not the pending exit timeouts. */
    method Unmount()
      requires Valid() && mounted
      modifies this
      ensures Valid() && closes == old(closes)
      ensures State() == old(State()).(mounted := false, autoClose := None, ticking := false)
    {
      mounted := false;
      autoClose := None;
      ticking := false;
    }
  }
}

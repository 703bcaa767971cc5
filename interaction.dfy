/**
  Idle/interaction handling of the viewer (javascript/three.js:130-158).

  Pointer and control gestures stop the idle rotation; when a gesture ends a
  single resume timer is armed, and only that timer turns rotation back on.
  The module first gives the transitions as functions on a `State` value and
  proves their properties, then gives the handlers as methods of a class whose
  fields are the script's variables, each proved to perform one `Step`.

  Timers are modelled by the host's table of pending `setTimeout` callbacks:
  a handle is pending from `setTimeout` until it fires or is cleared, and the
  host hands out a fresh, positive handle each time. No wall-clock time is
  modelled: a timer may fire whenever it is pending.
 */
module Interaction {
  import opened Wrappers
  import opened Three

  /** A `setTimeout` handle; browsers return positive integers. */
  type Handle = nat

  /**
    The script's variables `isInteracting` and `resumeTimeout`, the shared
    `controls.autoRotate` flag, and the host's timer table (the handles still
    pending, and the next handle it will return).
   */
  datatype State = State(
    interacting: bool,
    resumeTimeout: Option<Handle>,
    autoRotate: bool,
    pending: set<Handle>,
    nextHandle: Handle)

  /** What can happen to the handlers. */
  datatype Event =
    | Start          // pointerdown, or the controls' 'start' event
    | End            // pointerup, pointercancel, or the controls' 'end' event
    | Fire(h: Handle) // the host runs the callback of timer h
    | Wheel          // a wheel tick: start immediately followed by end

  /** Page load: rotation on, nothing pending, no gesture (lines 30, 131-132). */
  function Initial(): State
  {
    State(false, None, true, {}, 1)
  }

  /**
    At most one resume timer is pending, it is exactly the one `resumeTimeout`
    holds, and it was handed out before the host's next handle (handles are
    positive, so a pending handle is truthy in `if (resumeTimeout)`).
   */
  predicate WellFormed(s: State)
  {
    && 0 < s.nextHandle
    && match s.resumeTimeout
       case None => s.pending == {}
       case Some(h) => s.pending == {h} && 0 < h < s.nextHandle
  }

  /** Rotation is off only while a gesture is in progress or a resume is pending. */
  predicate PausedForAReason(s: State)
  {
    !s.autoRotate ==> s.interacting || s.resumeTimeout.Some?
  }

  /** The host only runs callbacks of timers that are still pending. */
  predicate Enabled(s: State, e: Event)
  {
    e.Fire? ==> e.h in s.pending
  }

  /** `onInteractionStart` (lines 135-139). */
  function OnStart(s: State): State
  {
    var s1 := s.(interacting := true);
    var s2 :=
      if s1.resumeTimeout.Some?
      then s1.(pending := s1.pending - {s1.resumeTimeout.value}, resumeTimeout := None)
      else s1;
    s2.(autoRotate := false)
  }

  /** `onInteractionEnd` (lines 140-147): clear the old timer, arm a new one. */
  function OnEnd(s: State): State
  {
    var s1 := s.(interacting := false);
    var s2 :=
      if s1.resumeTimeout.Some?
      then s1.(pending := s1.pending - {s1.resumeTimeout.value})
      else s1;
    var h := s2.nextHandle;
    s2.(pending := s2.pending + {h}, nextHandle := h + 1, resumeTimeout := Some(h))
  }

  /** The host retires timer h and runs its callback (lines 143-146). */
  function OnFire(s: State, h: Handle): State
  {
    s.(pending := s.pending - {h}, autoRotate := true, resumeTimeout := None)
  }

  /**
    One event. Each kind of event leaves at most one timer pending; only a
    timer firing turns rotation on; a start cancels the pending timer; an end
    or a wheel tick replaces it by a fresh one.
   */
  function Step(s: State, e: Event): (r: State)
    requires WellFormed(s) && Enabled(s, e)
    ensures WellFormed(r) && PausedForAReason(r)
    ensures r.nextHandle >= s.nextHandle
    ensures !s.autoRotate && r.autoRotate ==> e.Fire?
    ensures e.Start? ==>
      r.interacting && !r.autoRotate && r.resumeTimeout == None && r.pending == {}
    ensures e.End? || e.Wheel? ==>
      && !r.interacting
      && s.nextHandle !in s.pending
      && r.resumeTimeout == Some(s.nextHandle) && r.pending == {s.nextHandle}
    ensures e.End? ==> r.autoRotate == s.autoRotate
    ensures e.Wheel? ==> !r.autoRotate
    ensures e.Fire? ==>
      && e.h == s.resumeTimeout.value
      && r.autoRotate && r.interacting == s.interacting
      && r.resumeTimeout == None && r.pending == {}
  {
    match e
    case Start => OnStart(s)
    case End => OnEnd(s)
    case Fire(h) => OnFire(s, h)
    case Wheel => OnEnd(OnStart(s))
  }

  /** Every event of `es` can happen, one after the other, from `s`. */
  predicate Trace(s: State, es: seq<Event>)
    requires WellFormed(s)
    decreases |es|
  {
    es == [] || (Enabled(s, es[0]) && Trace(Step(s, es[0]), es[1..]))
  }

  /** The state after the events `es`, starting from `s`. */
  function Run(s: State, es: seq<Event>): (r: State)
    requires WellFormed(s) && Trace(s, es)
    ensures WellFormed(r)
    ensures r.nextHandle >= s.nextHandle
    decreases |es|
  {
    if es == [] then s else Run(Step(s, es[0]), es[1..])
  }

  /** Rotation stays accounted for along any run. */
  lemma {:induction false} RunKeepsPausedForAReason(s: State, es: seq<Event>)
    requires WellFormed(s) && PausedForAReason(s) && Trace(s, es)
    ensures PausedForAReason(Run(s, es))
    decreases |es|
  {
    if es != [] {
      RunKeepsPausedForAReason(Step(s, es[0]), es[1..]);
    }
  }

  /**
    After any sequence of events since page load, rotation is off only while a
    gesture is in progress or a resume timer is pending. (Initially rotation is
    on, so the claim holds there trivially.)
   */
  lemma PausedOnlyWhileBusy(es: seq<Event>)
    requires Trace(Initial(), es)
    ensures PausedForAReason(Run(Initial(), es))
  {
    RunKeepsPausedForAReason(Initial(), es);
  }

  /** Once off, rotation stays off along any run in which no timer fires. */
  lemma {:induction false} StaysPausedUntilFire(s: State, es: seq<Event>)
    requires WellFormed(s) && Trace(s, es) && !s.autoRotate
    requires forall i :: 0 <= i < |es| ==> !es[i].Fire?
    ensures !Run(s, es).autoRotate
    decreases |es|
  {
    if es != [] {
      StaysPausedUntilFire(Step(s, es[0]), es[1..]);
    }
  }

  /**
    During a gesture, with no timer pending, nothing but an end (or a wheel
    tick) can change the state: further starts are no-ops and no timer can fire.
   */
  lemma {:induction false} GestureHoldsUntilEnd(s: State, es: seq<Event>)
    requires WellFormed(s) && Trace(s, es)
    requires s.interacting && !s.autoRotate && s.resumeTimeout == None
    requires forall i :: 0 <= i < |es| ==> es[i] != End && es[i] != Wheel
    ensures Run(s, es) == s
    decreases |es|
  {
    if es != [] {
      assert es[0] == Start;
      assert Step(s, Start) == s;
      GestureHoldsUntilEnd(s, es[1..]);
    }
  }

  /**
    A handle that is not pending and was handed out already never becomes
    pending again, so the host never fires it.
   */
  lemma {:induction false} RetiredTimerNeverFires(s: State, h: Handle, es: seq<Event>)
    requires WellFormed(s) && Trace(s, es)
    requires h < s.nextHandle && h !in s.pending
    ensures forall i :: 0 <= i < |es| ==> es[i] != Fire(h)
    decreases |es|
  {
    if es != [] {
      var r := Step(s, es[0]);
      RetiredTimerNeverFires(r, h, es[1..]);
      forall i | 0 < i < |es|
        ensures es[i] != Fire(h)
      {
        assert es[i] == es[1..][i - 1];
      }
    }
  }

  /**
    Cancel-then-rearm: the timer pending before a start, an end or a wheel
    tick is superseded and never fires afterwards.
   */
  lemma SupersededTimerNeverFires(s: State, e: Event, es: seq<Event>)
    requires WellFormed(s) && s.resumeTimeout.Some? && !e.Fire?
    requires Trace(Step(s, e), es)
    ensures forall i :: 0 <= i < |es| ==> es[i] != Fire(s.resumeTimeout.value)
  {
    RetiredTimerNeverFires(Step(s, e), s.resumeTimeout.value, es);
  }

  /** `n` consecutive interaction ends. */
  function Ends(n: nat): (es: seq<Event>)
    ensures |es| == n && forall i :: 0 <= i < n ==> es[i] == End
  {
    seq(n, _ => End)
  }

  /**
    A burst of `n` >= 1 ends arms `n` timers one after the other, and only the
    last one is left pending.
   */
  lemma {:induction false} EndBurstKeepsLastTimer(s: State, n: nat)
    requires WellFormed(s) && n >= 1
    ensures Trace(s, Ends(n))
    ensures Run(s, Ends(n)).resumeTimeout == Some(s.nextHandle + n - 1)
    ensures Run(s, Ends(n)).pending == {s.nextHandle + n - 1}
    ensures !Run(s, Ends(n)).interacting
    decreases n
  {
    var r := Step(s, End);
    if n == 1 {
      assert Ends(1)[1..] == [];
    } else {
      assert Ends(n)[1..] == Ends(n - 1);
      EndBurstKeepsLastTimer(r, n - 1);
    }
  }

  /**
    A wheel tick is a tap: rotation goes off, and once the timer it armed fires
    the controller is back to idle rotation with nothing pending.
   */
  lemma WheelThenResume(s: State)
    requires WellFormed(s)
    ensures var w := Step(s, Wheel);
      && !w.autoRotate && !w.interacting
      && w.resumeTimeout == Some(s.nextHandle)
      && Enabled(w, Fire(s.nextHandle))
      && var f := Step(w, Fire(s.nextHandle));
      && f.autoRotate && !f.interacting && f.resumeTimeout == None && f.pending == {}
  {
  }

  /** The host's table of pending `setTimeout` callbacks. */
  class TimerHost {
    var pending: set<Handle>
    var nextHandle: Handle

    constructor ()
      ensures pending == {} && nextHandle == 1
    {
      pending := {};
      nextHandle := 1;
    }

    /** `setTimeout`: a fresh handle, now pending. */
    method SetTimeout() returns (h: Handle)
      modifies this
      ensures h == old(nextHandle)
      ensures pending == old(pending) + {h} && nextHandle == h + 1
    {
      h := nextHandle;
      pending := pending + {h};
      nextHandle := nextHandle + 1;
    }

    /** `clearTimeout`: the callback of h will not run. */
    method ClearTimeout(h: Handle)
      modifies this
      ensures pending == old(pending) - {h} && nextHandle == old(nextHandle)
    {
      pending := pending - {h};
    }

    /** The host takes a due timer out of its table before running its callback. */
    method Dispatch(h: Handle)
      requires h in pending
      modifies this
      ensures pending == old(pending) - {h} && nextHandle == old(nextHandle)
    {
      pending := pending - {h};
    }
  }

  /** The script's interaction handlers and the variables they share. */
  class IdleController {
    var isInteracting: bool
    var resumeTimeout: Option<Handle>
    const controls: OrbitControls
    const timers: TimerHost

    function Abstract(): State
      reads this, controls, timers
    {
      State(isInteracting, resumeTimeout, controls.autoRotate, timers.pending, timers.nextHandle)
    }

    predicate Valid()
      reads this, controls, timers
    {
      WellFormed(Abstract())
    }

    /** The script's start-up state (lines 30, 131-132). */
    constructor (controls: OrbitControls)
      requires controls.autoRotate
      ensures this.controls == controls && fresh(timers)
      ensures Valid() && Abstract() == Initial()
    {
      isInteracting := false;
      resumeTimeout := None;
      this.controls := controls;
      timers := new TimerHost();
    }

    /** `onInteractionStart` (lines 135-139). */
    method OnInteractionStart()
      requires Valid()
      modifies this, controls`autoRotate, timers
      ensures controls.target == old(controls.target)
      ensures Valid() && Abstract() == Step(old(Abstract()), Start)
      ensures isInteracting && !controls.autoRotate && resumeTimeout == None
    {
      isInteracting := true;
      if resumeTimeout.Some? {
        timers.ClearTimeout(resumeTimeout.value);
        resumeTimeout := None;
      }
      controls.autoRotate := false;
    }

    /** `onInteractionEnd` (lines 140-147). */
    method OnInteractionEnd()
      requires Valid()
      modifies this, controls`autoRotate, timers
      ensures controls.target == old(controls.target)
      ensures Valid() && Abstract() == Step(old(Abstract()), End)
      ensures !isInteracting && resumeTimeout == Some(old(timers.nextHandle))
      ensures timers.pending == {old(timers.nextHandle)}
    {
      isInteracting := false;
      if resumeTimeout.Some? {
        timers.ClearTimeout(resumeTimeout.value);
      }
      var h := timers.SetTimeout();
      resumeTimeout := Some(h);
    }

    /** The resume callback of timer h runs (lines 143-146). */
    method OnResumeTimer(h: Handle)
      requires Valid() && h in timers.pending
      modifies this, controls`autoRotate, timers
      ensures controls.target == old(controls.target)
      ensures Valid() && Abstract() == Step(old(Abstract()), Fire(h))
      ensures controls.autoRotate && resumeTimeout == None && timers.pending == {}
    {
      timers.Dispatch(h);
      controls.autoRotate := true;
      resumeTimeout := None;
    }

    /** The wheel listener (line 154). */
    method OnWheel()
      requires Valid()
      modifies this, controls`autoRotate, timers
      ensures controls.target == old(controls.target)
      ensures Valid() && Abstract() == Step(old(Abstract()), Wheel)
      ensures !isInteracting && !controls.autoRotate
      ensures resumeTimeout == Some(old(timers.nextHandle))
    {
      OnInteractionStart();
      OnInteractionEnd();
    }
  }
}

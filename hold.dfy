/**
 * The hold-to-explode interaction: `mousedown`, `mouseup` and `mouseleave`
 * handlers flipping `isBeingHeld`, `isShaking` and `isExploding`, and the
 * timers they start. Host timers are modelled as a queue of pending timers
 * ordered by due time on a logical millisecond clock; `TimerFires` runs the
 * earliest one and `Wait` lets time pass up to the next due timer.
 */
module HoldToExplode {
  import opened Wrappers

  const ShakeDelay: nat := 500
  const ExplodeDelay: nat := 3000
  const FadeOutDelay: nat := 4000
  const HideDelay: nat := 1000

  datatype TimerKind = Shake | Explode | FadeOut | Hide

  /** A pending `setTimeout`: its handle, the callback it runs and when. */
  datatype Timer = Timer(id: nat, kind: TimerKind, due: nat)

  datatype HoldState = HoldState(
    now: nat,
    isBeingHeld: bool,
    isShaking: bool,
    isExploding: bool,
    fadingOut: bool,
    hidden: bool,
    holdStartTime: Option<nat>,
    explosionStartTime: Option<nat>,
    sphereHoldTimeout: Option<nat>,
    pending: seq<Timer>,
    nextTimerId: nat)

  datatype Event = MouseDown | MouseUp | MouseLeave | TimerFires | Wait(ms: nat)

  /** The sphere as created: nothing held, no timers. */
  function Initial(): (r: HoldState)
    ensures HoldInv(r)
  {
    HoldState(0, false, false, false, false, false, None, None, None, [], 1)
  }

  ghost predicate Sorted(q: seq<Timer>)
  {
    forall i, j :: 0 <= i < j < |q| ==> q[i].due <= q[j].due
  }

  ghost predicate IdsDistinct(q: seq<Timer>)
  {
    forall i, j :: 0 <= i < j < |q| ==> q[i].id != q[j].id
  }

  /**
   * `setTimeout`: the new timer goes after every pending timer due no later
   * than it, so timers run by due time and, on a tie, in scheduling order.
   */
  function Schedule(q: seq<Timer>, t: Timer): (r: seq<Timer>)
    ensures |r| == |q| + 1
    ensures forall x :: x in r <==> x in q || x == t
  {
    if q == [] then [t]
    else if t.due < q[0].due then [t] + q
    else [q[0]] + Schedule(q[1..], t)
  }

  /** Inserting by due time keeps the queue ordered. */
  lemma {:induction false} ScheduleSorted(q: seq<Timer>, t: Timer)
    requires Sorted(q)
    ensures Sorted(Schedule(q, t))
  {
    if q != [] && t.due >= q[0].due {
      var rest := Schedule(q[1..], t);
      ScheduleSorted(q[1..], t);
      forall x | x in rest ensures q[0].due <= x.due {
        if x != t {
          var i :| 0 <= i < |q[1..]| && q[1..][i] == x;
          assert q[i + 1] == x;
        }
      }
      var r := [q[0]] + rest;
      forall i, j | 0 <= i < j < |r| ensures r[i].due <= r[j].due {
        if i == 0 {
          assert r[j] == rest[j - 1];
          assert rest[j - 1] in rest;
        } else {
          assert r[i] == rest[i - 1] && r[j] == rest[j - 1];
        }
      }
    }
  }

  /** A timer with a fresh handle keeps the handles distinct. */
  lemma {:induction false} ScheduleIdsDistinct(q: seq<Timer>, t: Timer)
    requires IdsDistinct(q) && forall x :: x in q ==> x.id != t.id
    ensures IdsDistinct(Schedule(q, t))
  {
    if q != [] && t.due >= q[0].due {
      var rest := Schedule(q[1..], t);
      ScheduleIdsDistinct(q[1..], t);
      forall x | x in rest ensures q[0].id != x.id {
        if x != t {
          var i :| 0 <= i < |q[1..]| && q[1..][i] == x;
          assert q[i + 1] == x;
        } else {
          assert q[0] in q;
        }
      }
      var r := [q[0]] + rest;
      forall i, j | 0 <= i < j < |r| ensures r[i].id != r[j].id {
        if i == 0 {
          assert r[j] == rest[j - 1];
          assert rest[j - 1] in rest;
        } else {
          assert r[i] == rest[i - 1] && r[j] == rest[j - 1];
        }
      }
    } else if q != [] {
      forall i, j | 0 <= i < j < |[t] + q| ensures ([t] + q)[i].id != ([t] + q)[j].id {
        if i == 0 {
          assert ([t] + q)[j] == q[j - 1];
          assert q[j - 1] in q;
        }
      }
    }
  }

  /** In an ordered queue the head is due no later than any timer. */
  lemma HeadIsEarliest(q: seq<Timer>)
    requires Sorted(q) && q != []
    ensures forall x :: x in q ==> q[0].due <= x.due
  {
    forall x | x in q ensures q[0].due <= x.due {
      var i :| 0 <= i < |q| && q[i] == x;
    }
  }

  /** `clearTimeout(id)`: drop the pending timer with that handle, if any. */
  function Cancel(q: seq<Timer>, id: nat): (r: seq<Timer>)
    ensures forall x :: x in r <==> x in q && x.id != id
    ensures |r| <= |q|
  {
    if q == [] then []
    else
      var rest := Cancel(q[1..], id);
      if q[0].id == id then rest else [q[0]] + rest
  }

  /** Cancelling keeps the queue ordered. */
  lemma {:induction false} CancelSorted(q: seq<Timer>, id: nat)
    requires Sorted(q)
    ensures Sorted(Cancel(q, id))
  {
    if q != [] {
      TailWellFormed(q);
      CancelSorted(q[1..], id);
      if q[0].id != id {
        HeadIsEarliest(q);
        PrependSorted(q[0], Cancel(q[1..], id));
      }
    }
  }

  /** Cancelling keeps the handles distinct. */
  lemma {:induction false} CancelIdsDistinct(q: seq<Timer>, id: nat)
    requires IdsDistinct(q)
    ensures IdsDistinct(Cancel(q, id))
  {
    if q != [] {
      TailWellFormed(q);
      CancelIdsDistinct(q[1..], id);
      if q[0].id != id {
        TailOtherIds(q);
        PrependDistinct(q[0], Cancel(q[1..], id));
      }
    }
  }

  lemma PrependSorted(t: Timer, rest: seq<Timer>)
    requires Sorted(rest) && forall x :: x in rest ==> t.due <= x.due
    ensures Sorted([t] + rest)
  {
    var r := [t] + rest;
    forall i, j | 0 <= i < j < |r| ensures r[i].due <= r[j].due {
      assert r[j] == rest[j - 1];
      if i == 0 {
        assert rest[j - 1] in rest;
      } else {
        assert r[i] == rest[i - 1];
      }
    }
  }

  lemma PrependDistinct(t: Timer, rest: seq<Timer>)
    requires IdsDistinct(rest) && forall x :: x in rest ==> t.id != x.id
    ensures IdsDistinct([t] + rest)
  {
    var r := [t] + rest;
    forall i, j | 0 <= i < j < |r| ensures r[i].id != r[j].id {
      assert r[j] == rest[j - 1];
      if i == 0 {
        assert rest[j - 1] in rest;
      } else {
        assert r[i] == rest[i - 1];
      }
    }
  }

  /** `clearTimeout(sphereHoldTimeout)`; clearing `undefined` does nothing. */
  function ClearTimeout(q: seq<Timer>, handle: Option<nat>): seq<Timer>
  {
    if handle.Some? then Cancel(q, handle.value) else q
  }

  /** `setTimeout(callback, delay)` on the page state: queue the timer under the next handle. */
  function SetTimer(s: HoldState, kind: TimerKind, delay: nat): HoldState
  {
    s.(pending := Schedule(s.pending, Timer(s.nextTimerId, kind, s.now + delay)),
       nextTimerId := s.nextTimerId + 1)
  }

  /** The `mousedown` handler: ignored while exploding, otherwise starts a hold and both timers. */
  function OnMouseDown(s: HoldState): (r: HoldState)
    ensures !s.isExploding ==>
              && r == s.(isBeingHeld := true, holdStartTime := Some(s.now),
                         sphereHoldTimeout := Some(s.nextTimerId + 1),
                         nextTimerId := s.nextTimerId + 2, pending := r.pending)
              && (forall x :: x in r.pending <==>
                    x in s.pending || x == Timer(s.nextTimerId, Shake, s.now + ShakeDelay)
                    || x == Timer(s.nextTimerId + 1, Explode, s.now + ExplodeDelay))
  {
    if s.isExploding then s
    else
      var held := s.(isBeingHeld := true, holdStartTime := Some(s.now));
      SetTimer(SetTimer(held, Shake, ShakeDelay), Explode, ExplodeDelay)
        .(sphereHoldTimeout := Some(s.nextTimerId + 1))
  }

  /** The `mouseup` and `mouseleave` handlers: end the hold, cancel only the explode timer. */
  function OnRelease(s: HoldState): (r: HoldState)
    ensures r == s.(isBeingHeld := false, isShaking := false, pending := r.pending)
    ensures s.sphereHoldTimeout.Some? ==>
              forall t :: t in r.pending <==> t in s.pending && t.id != s.sphereHoldTimeout.value
    ensures s.sphereHoldTimeout.None? ==> r.pending == s.pending
  {
    s.(isBeingHeld := false,
       isShaking := false,
       pending := ClearTimeout(s.pending, s.sphereHoldTimeout))
  }

  /** Take the earliest timer off the queue; the clock moves to its due time. */
  function PopTimer(s: HoldState): HoldState
    requires s.pending != []
  {
    var t := s.pending[0];
    s.(now := if t.due < s.now then s.now else t.due, pending := s.pending[1..])
  }

  /** The callbacks the four kinds of timer run. */
  function RunCallback(s: HoldState, kind: TimerKind): (r: HoldState)
    ensures r.now == s.now && forall x :: x in s.pending ==> x in r.pending
    ensures forall x :: x in r.pending ==> x in s.pending || x.id == s.nextTimerId
    ensures kind == Shake ==> r == s.(isShaking := s.isShaking || s.isBeingHeld)
    ensures kind == Explode && !s.isBeingHeld ==> r == s
    ensures kind == Explode && s.isBeingHeld ==>
              && r == s.(isExploding := true, explosionStartTime := Some(s.now),
                         isBeingHeld := false, isShaking := false,
                         nextTimerId := s.nextTimerId + 1, pending := r.pending)
              && |r.pending| == |s.pending| + 1
              && Timer(s.nextTimerId, FadeOut, s.now + FadeOutDelay) in r.pending
    ensures kind == FadeOut ==>
              && r == s.(fadingOut := true, nextTimerId := s.nextTimerId + 1, pending := r.pending)
              && |r.pending| == |s.pending| + 1
              && Timer(s.nextTimerId, Hide, s.now + HideDelay) in r.pending
    ensures kind == Hide ==> r == s.(hidden := true)
  {
    match kind
    case Shake =>
      if s.isBeingHeld then s.(isShaking := true) else s
    case Explode =>
      if s.isBeingHeld then
        SetTimer(s.(isExploding := true,
                    explosionStartTime := Some(s.now),
                    isBeingHeld := false,
                    isShaking := false), FadeOut, FadeOutDelay)
      else s
    case FadeOut =>
      SetTimer(s.(fadingOut := true), Hide, HideDelay)
    case Hide =>
      s.(hidden := true)
  }

  /** The host runs the earliest pending timer's callback at its due time. */
  function OnTimerFires(s: HoldState): (r: HoldState)
    ensures s.pending == [] ==> r == s
    ensures s.pending != [] ==>
              && r.now == (if s.pending[0].due < s.now then s.now else s.pending[0].due)
              && (forall x :: x in s.pending[1..] ==> x in r.pending)
  {
    if s.pending == [] then s else RunCallback(PopTimer(s), s.pending[0].kind)
  }

  /** A timer is one-shot: the timer that fires is no longer pending afterwards. */
  lemma FiredTimerLeavesQueue(s: HoldState)
    requires WellFormed(s) && s.pending != []
    ensures s.pending[0] !in OnTimerFires(s).pending
  {
    TailOtherIds(s.pending);
  }

  /** Idle for up to ms; time cannot pass a due timer, so the wait ends at the first one. */
  function OnWait(s: HoldState, ms: nat): (r: HoldState)
    ensures r == s.(now := r.now) && s.now <= r.now <= s.now + ms
    ensures s.pending == [] || s.pending[0].due >= s.now + ms ==> r.now == s.now + ms
    ensures s.pending != [] && s.now <= s.pending[0].due < s.now + ms ==> r.now == s.pending[0].due
  {
    var until := s.now + ms;
    if s.pending != [] && s.pending[0].due < until then
      s.(now := if s.pending[0].due < s.now then s.now else s.pending[0].due)
    else s.(now := until)
  }

  /** One event. Nothing ever clears `isExploding`, and a `mousedown` while exploding changes nothing. */
  function Step(s: HoldState, e: Event): (r: HoldState)
    ensures s.isExploding ==> r.isExploding
    ensures s.isExploding && e == MouseDown ==> r == s
  {
    match e
    case MouseDown => OnMouseDown(s)
    case MouseUp => OnRelease(s)
    case MouseLeave => OnRelease(s)
    case TimerFires => OnTimerFires(s)
    case Wait(ms) => OnWait(s, ms)
  }

  function Run(s: HoldState, es: seq<Event>): HoldState
    decreases |es|
  {
    if es == [] then s else Run(Step(s, es[0]), es[1..])
  }

  /** k timer firings in a row, with no user input. */
  function Fires(k: nat): (r: seq<Event>)
    ensures |r| == k && forall i :: 0 <= i < k ==> r[i] == TimerFires
  {
    seq(k, _ => TimerFires)
  }

  /** The timer queue is ordered, every timer is due no earlier than now, handles are fresh. */
  ghost predicate WellFormed(s: HoldState)
  {
    && Sorted(s.pending)
    && IdsDistinct(s.pending)
    && (forall t :: t in s.pending ==> s.now <= t.due && t.id < s.nextTimerId)
  }

  lemma TailWellFormed(q: seq<Timer>)
    requires q != []
    ensures Sorted(q) ==> Sorted(q[1..])
    ensures IdsDistinct(q) ==> IdsDistinct(q[1..])
    ensures forall x :: x in q[1..] ==> x in q
  {
  }

  /** `setTimeout` keeps a well-formed state well formed. */
  lemma SetTimerWellFormed(s: HoldState, kind: TimerKind, delay: nat)
    requires WellFormed(s)
    ensures WellFormed(SetTimer(s, kind, delay))
  {
    var t := Timer(s.nextTimerId, kind, s.now + delay);
    ScheduleSorted(s.pending, t);
    ScheduleIdsDistinct(s.pending, t);
  }

  lemma MouseDownWellFormed(s: HoldState)
    requires WellFormed(s)
    ensures WellFormed(OnMouseDown(s))
  {
    if !s.isExploding {
      var held := s.(isBeingHeld := true, holdStartTime := Some(s.now));
      SetTimerWellFormed(held, Shake, ShakeDelay);
      SetTimerWellFormed(SetTimer(held, Shake, ShakeDelay), Explode, ExplodeDelay);
    }
  }

  lemma ReleaseWellFormed(s: HoldState)
    requires WellFormed(s)
    ensures WellFormed(OnRelease(s))
  {
    if s.sphereHoldTimeout.Some? {
      CancelSorted(s.pending, s.sphereHoldTimeout.value);
      CancelIdsDistinct(s.pending, s.sphereHoldTimeout.value);
    }
  }

  /** Running the head timer moves the clock to its due time and keeps the rest well formed. */
  lemma PopWellFormed(s: HoldState)
    requires WellFormed(s) && s.pending != []
    ensures WellFormed(PopTimer(s))
  {
    TailWellFormed(s.pending);
    HeadIsEarliest(s.pending);
  }

  lemma FireWellFormed(s: HoldState)
    requires WellFormed(s)
    ensures WellFormed(OnTimerFires(s))
  {
    if s.pending != [] {
      var t := s.pending[0];
      assert t in s.pending;
      var s1 := PopTimer(s);
      PopWellFormed(s);
      match t.kind
      case Shake =>
      case Explode =>
        if s1.isBeingHeld {
          SetTimerWellFormed(s1.(isExploding := true, explosionStartTime := Some(s1.now),
                                 isBeingHeld := false, isShaking := false), FadeOut, FadeOutDelay);
        }
      case FadeOut =>
        SetTimerWellFormed(s1.(fadingOut := true), Hide, HideDelay);
      case Hide =>
    }
  }

  lemma WaitWellFormed(s: HoldState, ms: nat)
    requires WellFormed(s)
    ensures WellFormed(OnWait(s, ms))
  {
    if s.pending != [] {
      HeadIsEarliest(s.pending);
    }
  }

  /** Every event keeps the timer queue well formed. */
  lemma StepWellFormed(s: HoldState, e: Event)
    requires WellFormed(s)
    ensures WellFormed(Step(s, e))
  {
    match e
    case MouseDown => MouseDownWellFormed(s);
    case MouseUp => ReleaseWellFormed(s);
    case MouseLeave => ReleaseWellFormed(s);
    case TimerFires => FireWellFormed(s);
    case Wait(ms) => WaitWellFormed(s, ms);
  }

  /**
   * The only way into the explosion: the earliest pending timer is an
   * explode timer and fires while the pointer is held. That step clears
   * `isBeingHeld` and `isShaking` and stamps the explosion start.
   */
  lemma ExplodesOnlyFromHeldTimer(s: HoldState, e: Event)
    requires !s.isExploding && Step(s, e).isExploding
    ensures e == TimerFires && s.pending != [] && s.pending[0].kind == Explode && s.isBeingHeld
    ensures var s' := Step(s, e);
      !s'.isBeingHeld && !s'.isShaking && s'.explosionStartTime == Some(s'.now)
  {
  }

  /**
   * The invariant of single-button use (no second `mousedown` while held):
   * shaking only while held; while held there is exactly one explode timer,
   * the one `sphereHoldTimeout` names, due 3000 ms after the hold began;
   * when not held there is none; fade-out and hide timers exist only after
   * the explosion.
   */
  ghost predicate HoldInv(s: HoldState)
  {
    && WellFormed(s)
    && (s.isShaking ==> s.isBeingHeld)
    && (s.isBeingHeld ==>
          && !s.isExploding && s.holdStartTime.Some? && s.sphereHoldTimeout.Some?
          && HoldTimer(s) in s.pending)
    && (forall t :: t in s.pending && t.kind == Explode ==> s.isBeingHeld && t == HoldTimer(s))
    && (forall t :: t in s.pending && (t.kind == FadeOut || t.kind == Hide) ==> s.isExploding)
  }

  /** The explode timer of the current hold. */
  function HoldTimer(s: HoldState): Timer
    requires s.holdStartTime.Some? && s.sphereHoldTimeout.Some?
  {
    Timer(s.sphereHoldTimeout.value, Explode, s.holdStartTime.value + ExplodeDelay)
  }

  /** Events that single-button use can produce: no `mousedown` while already held. */
  predicate SingleButton(s: HoldState, e: Event)
  {
    e == MouseDown ==> !s.isBeingHeld
  }

  /** Single-button events keep the hold invariant. */
  lemma StepHoldInv(s: HoldState, e: Event)
    requires HoldInv(s) && SingleButton(s, e)
    ensures HoldInv(Step(s, e))
  {
    match e
    case MouseDown => MouseDownHoldInv(s);
    case MouseUp => ReleaseHoldInv(s);
    case MouseLeave => ReleaseHoldInv(s);
    case TimerFires => FireHoldInv(s);
    case Wait(ms) => WaitHoldInv(s, ms);
  }

  lemma MouseDownHoldInv(s: HoldState)
    requires HoldInv(s) && !s.isBeingHeld
    ensures HoldInv(OnMouseDown(s))
  {
    MouseDownWellFormed(s);
    if !s.isExploding {
      var s' := OnMouseDown(s);
      assert HoldTimer(s') == Timer(s.nextTimerId + 1, Explode, s.now + ExplodeDelay);
    }
  }

  lemma ReleaseHoldInv(s: HoldState)
    requires HoldInv(s)
    ensures HoldInv(OnRelease(s))
  {
    ReleaseWellFormed(s);
    var s' := OnRelease(s);
    forall t | t in s'.pending ensures t.kind != Explode {
      if s.sphereHoldTimeout.Some? {
        assert t in s.pending && t.id != s.sphereHoldTimeout.value;
      }
    }
  }

  /** Every timer after the head of a queue with distinct handles has another handle. */
  lemma TailOtherIds(q: seq<Timer>)
    requires IdsDistinct(q) && q != []
    ensures forall x :: x in q[1..] ==> x.id != q[0].id
  {
    forall x | x in q[1..] ensures x.id != q[0].id {
      var i :| 0 <= i < |q[1..]| && q[1..][i] == x;
      assert q[i + 1] == x;
    }
  }

  lemma WaitHoldInv(s: HoldState, ms: nat)
    requires HoldInv(s)
    ensures HoldInv(OnWait(s, ms))
  {
    WaitWellFormed(s, ms);
  }

  lemma FireHoldInv(s: HoldState)
    requires HoldInv(s)
    ensures HoldInv(OnTimerFires(s))
  {
    FireWellFormed(s);
    if s.pending != [] {
      FireHeadHoldInv(s);
    }
  }

  lemma FireHeadHoldInv(s: HoldState)
    requires HoldInv(s) && s.pending != [] && WellFormed(OnTimerFires(s))
    ensures HoldInv(OnTimerFires(s))
  {
    match s.pending[0].kind
    case Shake => FireShakeHoldInv(s);
    case Explode => FireExplodeHoldInv(s);
    case FadeOut => FireLateHoldInv(s);
    case Hide => FireLateHoldInv(s);
  }

  lemma FireShakeHoldInv(s: HoldState)
    requires HoldInv(s) && s.pending != [] && s.pending[0].kind == Shake && WellFormed(OnTimerFires(s))
    ensures HoldInv(OnTimerFires(s))
  {
    TailWellFormed(s.pending);
    if s.isBeingHeld {
      assert HoldTimer(s) in s.pending[1..];
    }
  }

  lemma FireExplodeHoldInv(s: HoldState)
    requires HoldInv(s) && s.pending != [] && s.pending[0].kind == Explode && WellFormed(OnTimerFires(s))
    ensures HoldInv(OnTimerFires(s))
  {
    assert s.pending[0] in s.pending;
    TailWellFormed(s.pending);
    TailOtherIds(s.pending);
  }

  lemma FireLateHoldInv(s: HoldState)
    requires HoldInv(s) && s.pending != [] && s.pending[0].kind in {FadeOut, Hide} && WellFormed(OnTimerFires(s))
    ensures HoldInv(OnTimerFires(s))
  {
    assert s.pending[0] in s.pending;
    TailWellFormed(s.pending);
  }

  /**
   * Under single-button use the explosion needs the full hold: the step
   * that sets `isExploding` runs exactly 3000 ms after the `mousedown` that
   * began the current hold, with the pointer still held (a release in
   * between would have cleared `isBeingHeld` and cancelled that timer).
   */
  lemma ExplosionNeedsFullHold(s: HoldState, e: Event)
    requires HoldInv(s) && SingleButton(s, e)
    requires !s.isExploding && Step(s, e).isExploding
    ensures e == TimerFires && s.isBeingHeld
    ensures Step(s, e).now == s.holdStartTime.value + ExplodeDelay
  {
    ExplodesOnlyFromHeldTimer(s, e);
    assert s.pending[0] in s.pending;
  }

  /**
   * Without a new `mousedown` a released pointer never explodes, however
   * the other events and the timers interleave.
   */
  lemma {:induction false} NoPressNoExplosion(s: HoldState, es: seq<Event>)
    requires HoldInv(s) && !s.isBeingHeld && !s.isExploding
    requires forall i :: 0 <= i < |es| ==> es[i] != MouseDown
    ensures !Run(s, es).isExploding
    decreases |es|
  {
    if es != [] {
      var s' := Step(s, es[0]);
      StepHoldInv(s, es[0]);
      if s'.isExploding {
        ExplodesOnlyFromHeldTimer(s, es[0]);
      }
      assert !s'.isBeingHeld;
      NoPressNoExplosion(s', es[1..]);
    }
  }

  /**
   * Held through the timer, the sphere explodes: with the pointer held, the
   * host firing the pending timers in order reaches the explosion, exactly
   * 3000 ms after the hold began.
   */
  lemma HeldThroughTimerExplodes(s: HoldState)
    requires HoldInv(s) && s.isBeingHeld
    ensures exists k :: 0 < k <= |s.pending|
              && Run(s, Fires(k)).isExploding
              && Run(s, Fires(k)).now == s.holdStartTime.value + ExplodeDelay
  {
    var boom := HoldTimer(s);
    var j :| 0 <= j < |s.pending| && s.pending[j] == boom;
    forall i | 0 <= i < j ensures s.pending[i].kind == Shake {
      var x := s.pending[i];
      assert x in s.pending;
    }
    FiringReachesExplosion(s, j);
  }

  lemma {:induction false} FiringReachesExplosion(s: HoldState, j: nat)
    requires HoldInv(s) && s.isBeingHeld
    requires j < |s.pending| && s.pending[j] == HoldTimer(s)
    requires forall i :: 0 <= i < j ==> s.pending[i].kind == Shake
    ensures Run(s, Fires(j + 1)).isExploding
    ensures Run(s, Fires(j + 1)).now == s.holdStartTime.value + ExplodeDelay
    decreases j
  {
    if j == 0 {
      FireHoldTimerExplodes(s);
    } else {
      var s' := FireShakeKeepsHold(s, j);
      forall i | 0 <= i < j - 1 ensures s'.pending[i].kind == Shake {
        assert s'.pending[i] == s.pending[i + 1];
      }
      FiringReachesExplosion(s', j - 1);
    }
  }

  /** With the hold's explode timer first, firing it explodes the sphere at its due time. */
  lemma FireHoldTimerExplodes(s: HoldState)
    requires HoldInv(s) && s.isBeingHeld
    requires s.pending != [] && s.pending[0] == HoldTimer(s)
    ensures Run(s, Fires(1)).isExploding
    ensures Run(s, Fires(1)).now == s.holdStartTime.value + ExplodeDelay
  {
    assert s.pending[0] in s.pending;
    RunFiresOnce(s, 0);
  }

  /**
   * Firing a shake timer that is not the hold's own keeps the hold and
   * drops just that timer; the rest of the run goes on from there.
   */
  lemma FireShakeKeepsHold(s: HoldState, j: nat) returns (s': HoldState)
    requires HoldInv(s) && s.isBeingHeld
    requires s.pending != [] && s.pending[0].kind == Shake
    ensures Run(s, Fires(j + 1)) == Run(s', Fires(j))
    ensures HoldInv(s') && s'.isBeingHeld
    ensures s'.pending == s.pending[1..] && HoldTimer(s') == HoldTimer(s)
  {
    s' := Step(s, TimerFires);
    StepHoldInv(s, TimerFires);
    RunFiresOnce(s, j);
  }

  lemma RunFiresOnce(s: HoldState, j: nat)
    ensures Run(s, Fires(j + 1)) == Run(Step(s, TimerFires), Fires(j))
  {
    assert Fires(j + 1)[1..] == Fires(j);
  }

  /** Running two traces one after the other is running their concatenation. */
  lemma {:induction false} RunAppend(s: HoldState, a: seq<Event>, b: seq<Event>)
    ensures Run(s, a + b) == Run(Run(s, a), b)
    decreases |a|
  {
    if a != [] {
      assert (a + b)[0] == a[0];
      assert (a + b)[1..] == a[1..] + b;
      RunAppend(Step(s, a[0]), a[1..], b);
    } else {
      assert a + b == b;
    }
  }

  lemma RunPair(s: HoldState, a: Event, b: Event)
    ensures Run(s, [a, b]) == Step(Step(s, a), b)
  {
    assert [a, b][1..] == [b];
    assert Run(s, [a, b]) == Run(Step(s, a), [b]);
    assert [b][1..] == [];
    assert Run(Step(s, a), [b]) == Run(Step(Step(s, a), b), []);
  }

  /** A state with the pointer held and nothing shaking or exploding yet. */
  function Holding(now: nat, start: nat, handle: nat, pending: seq<Timer>, next: nat): HoldState
  {
    HoldState(now, true, false, false, false, false, Some(start), None, Some(handle), pending, next)
  }

  /** A released state that has not exploded. */
  function Released(now: nat, start: nat, handle: nat, pending: seq<Timer>, next: nat): HoldState
  {
    HoldState(now, false, false, false, false, false, Some(start), None, Some(handle), pending, next)
  }

  // Single steps between concrete states, used by the traces below.

  lemma FirstPressStep()
    ensures Step(Initial(), MouseDown)
         == Holding(0, 0, 2, [Timer(1, Shake, 500), Timer(2, Explode, 3000)], 3)
  {
    assert Schedule([Timer(1, Shake, 500)], Timer(2, Explode, 3000))
        == [Timer(1, Shake, 500), Timer(2, Explode, 3000)];
  }

  lemma FirstPressThenWait()
    ensures Run(Initial(), [MouseDown, Wait(100)])
         == Holding(100, 0, 2, [Timer(1, Shake, 500), Timer(2, Explode, 3000)], 3)
  {
    RunPair(Initial(), MouseDown, Wait(100));
    FirstPressStep();
  }

  lemma EarlyReleaseStep()
    ensures Step(Holding(100, 0, 2, [Timer(1, Shake, 500), Timer(2, Explode, 3000)], 3), MouseUp)
         == Released(100, 0, 2, [Timer(1, Shake, 500)], 3)
  {
    assert Cancel([Timer(2, Explode, 3000)], 2) == [];
  }

  lemma EarlyReleaseThenWait()
    ensures Run(Holding(100, 0, 2, [Timer(1, Shake, 500), Timer(2, Explode, 3000)], 3), [MouseUp, Wait(300)])
         == Released(400, 0, 2, [Timer(1, Shake, 500)], 3)
  {
    RunPair(Holding(100, 0, 2, [Timer(1, Shake, 500), Timer(2, Explode, 3000)], 3), MouseUp, Wait(300));
    EarlyReleaseStep();
  }

  lemma LatePressStep()
    ensures Step(Released(400, 0, 2, [Timer(1, Shake, 500)], 3), MouseDown)
         == Holding(400, 400, 4, [Timer(1, Shake, 500), Timer(3, Shake, 900), Timer(4, Explode, 3400)], 5)
  {
    assert Schedule([Timer(1, Shake, 500)], Timer(3, Shake, 900))
        == [Timer(1, Shake, 500), Timer(3, Shake, 900)];
    assert Schedule([Timer(3, Shake, 900)], Timer(4, Explode, 3400))
        == [Timer(3, Shake, 900), Timer(4, Explode, 3400)];
  }

  lemma StaleShakeStep()
    ensures Step(Holding(400, 400, 4, [Timer(1, Shake, 500), Timer(3, Shake, 900), Timer(4, Explode, 3400)], 5), TimerFires)
         == Holding(400, 400, 4, [Timer(3, Shake, 900), Timer(4, Explode, 3400)], 5).(now := 500, isShaking := true)
  {
  }

  lemma LatePressThenStaleShake()
    ensures Run(Released(400, 0, 2, [Timer(1, Shake, 500)], 3), [MouseDown, TimerFires])
         == Holding(400, 400, 4, [Timer(3, Shake, 900), Timer(4, Explode, 3400)], 5).(now := 500, isShaking := true)
  {
    RunPair(Released(400, 0, 2, [Timer(1, Shake, 500)], 3), MouseDown, TimerFires);
    LatePressStep();
    StaleShakeStep();
  }

  /**
   * The shake timer is never cancelled: press, release after 100 ms, press
   * again at 400 ms, and the first press's 500 ms timer sets `isShaking`
   * only 100 ms into the second hold.
   */
  lemma ShakeTimerOutlivesRelease()
    ensures var s := Run(Initial(), [MouseDown, Wait(100), MouseUp, Wait(300), MouseDown, TimerFires]);
      s.isShaking && s.isBeingHeld && s.now == 500 && s.holdStartTime == Some(400)
  {
    var a, b, c := [MouseDown, Wait(100)], [MouseUp, Wait(300)], [MouseDown, TimerFires];
    assert [MouseDown, Wait(100), MouseUp, Wait(300), MouseDown, TimerFires] == a + b + c;
    RunAppend(Initial(), a + b, c);
    RunAppend(Initial(), a, b);
    FirstPressThenWait();
    EarlyReleaseThenWait();
    LatePressThenStaleShake();
  }

  lemma SecondPressStep()
    ensures Step(Holding(100, 0, 2, [Timer(1, Shake, 500), Timer(2, Explode, 3000)], 3), MouseDown)
         == Holding(100, 100, 4, [Timer(1, Shake, 500), Timer(3, Shake, 600), Timer(2, Explode, 3000), Timer(4, Explode, 3100)], 5)
  {
    assert Schedule([Timer(1, Shake, 500), Timer(2, Explode, 3000)], Timer(3, Shake, 600))
        == [Timer(1, Shake, 500), Timer(3, Shake, 600), Timer(2, Explode, 3000)];
    assert Schedule([Timer(2, Explode, 3000)], Timer(4, Explode, 3100))
        == [Timer(2, Explode, 3000), Timer(4, Explode, 3100)];
    assert Schedule([Timer(3, Shake, 600), Timer(2, Explode, 3000)], Timer(4, Explode, 3100))
        == [Timer(3, Shake, 600), Timer(2, Explode, 3000), Timer(4, Explode, 3100)];
  }

  lemma SecondPressThenWait()
    ensures Run(Holding(100, 0, 2, [Timer(1, Shake, 500), Timer(2, Explode, 3000)], 3), [MouseDown, Wait(100)])
         == Holding(200, 100, 4, [Timer(1, Shake, 500), Timer(3, Shake, 600), Timer(2, Explode, 3000), Timer(4, Explode, 3100)], 5)
  {
    RunPair(Holding(100, 0, 2, [Timer(1, Shake, 500), Timer(2, Explode, 3000)], 3), MouseDown, Wait(100));
    SecondPressStep();
  }

  lemma CancelSecondExplode()
    ensures Cancel([Timer(1, Shake, 500), Timer(3, Shake, 600), Timer(2, Explode, 3000), Timer(4, Explode, 3100)], 4)
         == [Timer(1, Shake, 500), Timer(3, Shake, 600), Timer(2, Explode, 3000)]
  {
    var t1, t3, t2, t4 := Timer(1, Shake, 500), Timer(3, Shake, 600), Timer(2, Explode, 3000), Timer(4, Explode, 3100);
    assert Cancel([t4], 4) == [];
    CancelKeeps(t2, [t4], 4);
    assert [t2] + [t4] == [t2, t4];
    CancelKeeps(t3, [t2, t4], 4);
    assert [t3] + [t2, t4] == [t3, t2, t4];
    CancelKeeps(t1, [t3, t2, t4], 4);
    assert [t1] + [t3, t2, t4] == [t1, t3, t2, t4];
  }

  lemma CancelKeeps(t: Timer, q: seq<Timer>, id: nat)
    requires t.id != id
    ensures Cancel([t] + q, id) == [t] + Cancel(q, id)
  {
    assert ([t] + q)[1..] == q;
  }

  lemma OrphaningReleaseStep()
    ensures Step(Holding(200, 100, 4, [Timer(1, Shake, 500), Timer(3, Shake, 600), Timer(2, Explode, 3000), Timer(4, Explode, 3100)], 5), MouseUp)
         == Released(200, 100, 4, [Timer(1, Shake, 500), Timer(3, Shake, 600), Timer(2, Explode, 3000)], 5)
  {
    CancelSecondExplode();
  }

  lemma IdleShakeStep()
    ensures Step(Released(200, 100, 4, [Timer(1, Shake, 500), Timer(3, Shake, 600), Timer(2, Explode, 3000)], 5), TimerFires)
         == Released(500, 100, 4, [Timer(3, Shake, 600), Timer(2, Explode, 3000)], 5)
  {
  }

  lemma ReleaseThenIdleShake()
    ensures Run(Holding(200, 100, 4, [Timer(1, Shake, 500), Timer(3, Shake, 600), Timer(2, Explode, 3000), Timer(4, Explode, 3100)], 5),
                [MouseUp, TimerFires])
         == Released(500, 100, 4, [Timer(3, Shake, 600), Timer(2, Explode, 3000)], 5)
  {
    RunPair(Holding(200, 100, 4, [Timer(1, Shake, 500), Timer(3, Shake, 600), Timer(2, Explode, 3000), Timer(4, Explode, 3100)], 5),
            MouseUp, TimerFires);
    OrphaningReleaseStep();
    IdleShakeStep();
  }

  lemma IdleShakeThenWait()
    ensures Run(Released(500, 100, 4, [Timer(3, Shake, 600), Timer(2, Explode, 3000)], 5), [TimerFires, Wait(2300)])
         == Released(2900, 100, 4, [Timer(2, Explode, 3000)], 5)
  {
    RunPair(Released(500, 100, 4, [Timer(3, Shake, 600), Timer(2, Explode, 3000)], 5), TimerFires, Wait(2300));
    assert Step(Released(500, 100, 4, [Timer(3, Shake, 600), Timer(2, Explode, 3000)], 5), TimerFires)
        == Released(600, 100, 4, [Timer(2, Explode, 3000)], 5);
  }

  lemma ThirdPressStep()
    ensures Step(Released(2900, 100, 4, [Timer(2, Explode, 3000)], 5), MouseDown)
         == Holding(2900, 2900, 6, [Timer(2, Explode, 3000), Timer(5, Shake, 3400), Timer(6, Explode, 5900)], 7)
  {
    assert Schedule([Timer(2, Explode, 3000)], Timer(5, Shake, 3400))
        == [Timer(2, Explode, 3000), Timer(5, Shake, 3400)];
    assert Schedule([Timer(5, Shake, 3400)], Timer(6, Explode, 5900))
        == [Timer(5, Shake, 3400), Timer(6, Explode, 5900)];
  }

  lemma OrphanExplodesStep()
    ensures Step(Holding(2900, 2900, 6, [Timer(2, Explode, 3000), Timer(5, Shake, 3400), Timer(6, Explode, 5900)], 7), TimerFires)
         == HoldState(3000, false, false, true, false, false, Some(2900), Some(3000), Some(6),
                      [Timer(5, Shake, 3400), Timer(6, Explode, 5900), Timer(7, FadeOut, 7000)], 8)
  {
    assert Schedule([Timer(6, Explode, 5900)], Timer(7, FadeOut, 7000))
        == [Timer(6, Explode, 5900), Timer(7, FadeOut, 7000)];
    assert Schedule([Timer(5, Shake, 3400), Timer(6, Explode, 5900)], Timer(7, FadeOut, 7000))
        == [Timer(5, Shake, 3400), Timer(6, Explode, 5900), Timer(7, FadeOut, 7000)];
  }

  lemma ThirdPressExplodes()
    ensures Run(Released(2900, 100, 4, [Timer(2, Explode, 3000)], 5), [MouseDown, TimerFires])
         == HoldState(3000, false, false, true, false, false, Some(2900), Some(3000), Some(6),
                      [Timer(5, Shake, 3400), Timer(6, Explode, 5900), Timer(7, FadeOut, 7000)], 8)
  {
    RunPair(Released(2900, 100, 4, [Timer(2, Explode, 3000)], 5), MouseDown, TimerFires);
    ThirdPressStep();
    OrphanExplodesStep();
  }

  /**
   * A second `mousedown` while held (a second button) replaces
   * `sphereHoldTimeout`, so releasing cancels only the second press's
   * explode timer. The first one stays pending and explodes the sphere
   * 100 ms into a later hold.
   */
  lemma OrphanedExplodeTimer()
    ensures var s := Run(Initial(), [MouseDown, Wait(100), MouseDown, Wait(100), MouseUp,
                                      TimerFires, TimerFires, Wait(2300), MouseDown, TimerFires]);
      s.isExploding && s.now == 3000 && s.holdStartTime == Some(2900)
  {
    var a, b, c, d, e := [MouseDown, Wait(100)], [MouseDown, Wait(100)], [MouseUp, TimerFires],
                         [TimerFires, Wait(2300)], [MouseDown, TimerFires];
    assert [MouseDown, Wait(100), MouseDown, Wait(100), MouseUp,
            TimerFires, TimerFires, Wait(2300), MouseDown, TimerFires] == a + b + c + d + e;
    RunAppend(Initial(), a + b + c + d, e);
    RunAppend(Initial(), a + b + c, d);
    RunAppend(Initial(), a + b, c);
    RunAppend(Initial(), a, b);
    FirstPressThenWait();
    SecondPressThenWait();
    ReleaseThenIdleShake();
    IdleShakeThenWait();
    ThirdPressExplodes();
  }

  /**
   * The sphere's hold flags and the page's timers, updated in place by the
   * three document listeners and by the host running due timers. Each of
   * the five handler methods (`HandleMouseDown`, `HandleMouseUp`,
   * `HandleMouseLeave`, `RunNextTimer`, `AdvanceClock`) performs exactly one
   * `Step` of the machine above; the other methods are their pieces.
   */
  class HoldController {
    var now: nat
    var isBeingHeld: bool
    var isShaking: bool
    var isExploding: bool
    var fadingOut: bool
    var hidden: bool
    var holdStartTime: Option<nat>
    var explosionStartTime: Option<nat>
    var sphereHoldTimeout: Option<nat>
    var pending: seq<Timer>
    var nextTimerId: nat

    function State(): HoldState
      reads this
    {
      HoldState(now, isBeingHeld, isShaking, isExploding, fadingOut, hidden,
                holdStartTime, explosionStartTime, sphereHoldTimeout, pending, nextTimerId)
    }

    ghost predicate Valid()
      reads this
    {
      WellFormed(State())
    }

    constructor()
      ensures State() == Initial() && Valid()
    {
      now := 0;
      isBeingHeld := false;
      isShaking := false;
      isExploding := false;
      fadingOut := false;
      hidden := false;
      holdStartTime := None;
      explosionStartTime := None;
      sphereHoldTimeout := None;
      pending := [];
      nextTimerId := 1;
    }

    /** `setTimeout(callback, delay)`: queue the timer and return its handle. */
    method SetTimeout(kind: TimerKind, delay: nat) returns (handle: nat)
      modifies this
      ensures handle == old(nextTimerId)
      ensures State() == SetTimer(old(State()), kind, delay)
    {
      handle := nextTimerId;
      pending := Schedule(pending, Timer(handle, kind, now + delay));
      nextTimerId := nextTimerId + 1;
    }

    method HandleMouseDown()
      requires Valid()
      modifies this
      ensures State() == Step(old(State()), Event.MouseDown)
      ensures Valid()
    {
      ghost var s := State();
      if !isExploding {
        StartHold();
      }
      MouseDownWellFormed(s);
    }

    /** A `mousedown` outside the explosion: start the hold and both timers. */
    method StartHold()
      requires !isExploding
      modifies this
      ensures State() == OnMouseDown(old(State()))
    {
      isBeingHeld := true;
      holdStartTime := Some(now);
      var _ := SetTimeout(Shake, ShakeDelay);
      var boom := SetTimeout(Explode, ExplodeDelay);
      sphereHoldTimeout := Some(boom);
    }

    /** The body shared by the `mouseup` and `mouseleave` listeners. */
    method Release()
      modifies this
      ensures State() == OnRelease(old(State()))
    {
      isBeingHeld := false;
      isShaking := false;
      pending := ClearTimeout(pending, sphereHoldTimeout);
    }

    method HandleMouseUp()
      requires Valid()
      modifies this
      ensures State() == Step(old(State()), Event.MouseUp)
      ensures Valid()
    {
      ghost var s := State();
      Release();
      StepWellFormed(s, Event.MouseUp);
    }

    method HandleMouseLeave()
      requires Valid()
      modifies this
      ensures State() == Step(old(State()), Event.MouseLeave)
      ensures Valid()
    {
      ghost var s := State();
      Release();
      StepWellFormed(s, Event.MouseLeave);
    }

    /** Take the earliest timer off the queue and move the clock to its due time. */
    method PopNextTimer()
      requires pending != []
      modifies this
      ensures State() == PopTimer(old(State()))
    {
      var t := pending[0];
      pending := pending[1..];
      if now < t.due {
        now := t.due;
      }
    }

    /** The callback a timer of this kind runs. */
    method Callback(kind: TimerKind)
      modifies this
      ensures State() == RunCallback(old(State()), kind)
    {
      match kind
      case Shake =>
        if isBeingHeld {
          isShaking := true;
        }
      case Explode =>
        if isBeingHeld {
          StartExplosion();
        }
      case FadeOut =>
        fadingOut := true;
        var _ := SetTimeout(Hide, HideDelay);
      case Hide =>
        hidden := true;
    }

    /** The explode callback with the pointer still held: start the explosion and the fade-out timer. */
    method StartExplosion()
      requires isBeingHeld
      modifies this
      ensures State() == RunCallback(old(State()), TimerKind.Explode)
    {
      isExploding := true;
      explosionStartTime := Some(now);
      isBeingHeld := false;
      isShaking := false;
      var _ := SetTimeout(FadeOut, FadeOutDelay);
    }

    /** The host runs the earliest pending timer's callback. */
    method RunNextTimer()
      requires Valid()
      modifies this
      ensures State() == Step(old(State()), Event.TimerFires)
      ensures Valid()
    {
      ghost var s := State();
      if pending != [] {
        var kind := pending[0].kind;
        PopNextTimer();
        Callback(kind);
      }
      StepWellFormed(s, Event.TimerFires);
    }

    /** Time passes with no input, up to ms or until the next timer is due. */
    method AdvanceClock(ms: nat)
      requires Valid()
      modifies this
      ensures State() == Step(old(State()), Event.Wait(ms))
      ensures Valid()
    {
      ghost var s := State();
      var until := now + ms;
      if pending != [] && pending[0].due < until {
        if now < pending[0].due {
          now := pending[0].due;
        }
      } else {
        now := until;
      }
      StepWellFormed(s, Event.Wait(ms));
    }
  }
}

/** The preparation session: the player toggles tools into a bounded loadout
    while a countdown runs; when it runs out, or the skip-timer control is
    used, the loadout locks and the forecast is fixed. Time is counted in whole
    milliseconds. */
module Prep {
  import opened Tools
  import opened Selection
  import opened Forecasting
  import opened Wrappers

  /** The state the preparation screen keeps. `forecast` is `None` until the
      loadout locks, and then holds the forecast written at that moment. */
  datatype Session = Session(
    selected: seq<Tool>,
    locked: bool,
    timeLeft: nat,
    maxTools: nat,
    forecast: Option<Forecast>)

  /** What a tool click did; the screen plays a click for the first two, a
      warning for a full loadout and nothing once locked. */
  datatype ToggleOutcome = Removed | Added | RejectedFull | RejectedLocked

  /** What the screen reacts to: a tool button click, a frame of `delta`
      milliseconds, or the skip-timer control. */
  datatype Event = Click(tool: Tool) | Frame(delta: nat) | Skip

  /** The session invariant: a duplicate-free loadout within capacity, and a
      lock that comes with zero time left and the forecast of the loadout. */
  ghost predicate Valid(s: Session)
  {
    && NoDup(s.selected)
    && |s.selected| <= s.maxTools
    && (s.locked <==> s.forecast.Some?)
    && (s.locked ==> s.timeLeft == 0 && s.forecast == Some(ForecastOf(s.selected)))
  }

  /** The session at the start of preparation. */
  function Init(prepTime: nat, maxTools: nat): (s: Session)
    ensures Valid(s)
    ensures s.selected == [] && !s.locked && s.timeLeft == prepTime && s.maxTools == maxTools
  {
    Session([], false, prepTime, maxTools, None)
  }

  /** Locks the loadout and records its forecast. */
  function LockIn(s: Session): (r: Session)
    ensures r.locked && r.forecast == Some(ForecastOf(s.selected))
    ensures r.selected == s.selected && r.timeLeft == s.timeLeft && r.maxTools == s.maxTools
  {
    s.(locked := true, forecast := Some(ForecastOf(s.selected)))
  }

  /** A click on a tool button. */
  function ToggleTool(s: Session, t: Tool): (r: (Session, ToggleOutcome))
    ensures s.locked ==> r == (s, RejectedLocked)
    ensures !s.locked && t in s.selected ==>
              r.1 == Removed && r.0 == s.(selected := Remove(s.selected, t))
    ensures !s.locked && t !in s.selected && |s.selected| >= s.maxTools ==>
              r == (s, RejectedFull)
    ensures !s.locked && t !in s.selected && |s.selected| < s.maxTools ==>
              r.1 == Added && r.0 == s.(selected := s.selected + [t])
    ensures r.0.locked == s.locked && r.0.timeLeft == s.timeLeft
    ensures r.0.maxTools == s.maxTools && r.0.forecast == s.forecast
  {
    if s.locked then (s, RejectedLocked)
    else if t in s.selected then (s.(selected := Remove(s.selected, t)), Removed)
    else if |s.selected| >= s.maxTools then (s, RejectedFull)
    else (s.(selected := s.selected + [t]), Added)
  }

  /** One frame of the countdown, `delta` milliseconds long. */
  function Tick(s: Session, delta: nat): (r: Session)
    ensures s.locked ==> r == s
    ensures !s.locked && delta >= s.timeLeft ==>
              r.timeLeft == 0 && r.locked && r.forecast == Some(ForecastOf(s.selected))
    ensures !s.locked && delta < s.timeLeft ==>
              r.timeLeft + delta == s.timeLeft && !r.locked && r.forecast == s.forecast
    ensures r.selected == s.selected && r.maxTools == s.maxTools
  {
    if s.locked then s
    else if s.timeLeft as int - delta <= 0 then LockIn(s.(timeLeft := 0))
    else s.(timeLeft := s.timeLeft - delta)
  }

  /** The skip-timer control: zero the countdown and lock at once. */
  function SkipTimer(s: Session): (r: Session)
    ensures s.locked ==> r == s
    ensures r.locked
    ensures !s.locked ==> r.timeLeft == 0
    ensures !s.locked ==> r.forecast == Some(ForecastOf(s.selected))
    ensures r.selected == s.selected && r.maxTools == s.maxTools
  {
    if s.locked then s else LockIn(s.(timeLeft := 0))
  }

  function Step(s: Session, e: Event): Session
  {
    match e
    case Click(t) => ToggleTool(s, t).0
    case Frame(d) => Tick(s, d)
    case Skip => SkipTimer(s)
  }

  /** The session after a sequence of events, in order. */
  function Run(s: Session, es: seq<Event>): Session
    decreases |es|
  {
    if es == [] then s else Run(Step(s, es[0]), es[1..])
  }

  /** Every transition keeps the session invariant. */
  lemma StepPreservesValid(s: Session, e: Event)
    requires Valid(s)
    ensures Valid(Step(s, e))
  {
    match e
    case Click(t) =>
      if !s.locked && t in s.selected {
        RemoveNoDup(s.selected, t);
      } else if !s.locked && |s.selected| < s.maxTools {
        var sel := s.selected + [t];
        assert forall i :: 0 <= i < |s.selected| ==> sel[i] == s.selected[i];
      }
    case Frame(d) =>
    case Skip =>
  }

  lemma {:induction false} RunPreservesValid(s: Session, es: seq<Event>)
    requires Valid(s)
    ensures Valid(Run(s, es))
    decreases |es|
  {
    if es != [] {
      StepPreservesValid(s, es[0]);
      RunPreservesValid(Step(s, es[0]), es[1..]);
    }
  }

  /** Whatever the player does from the start of preparation, the loadout has
      no tool twice and never more tools than the capacity. */
  lemma ReachableIsValid(prepTime: nat, maxTools: nat, es: seq<Event>)
    ensures NoDup(Run(Init(prepTime, maxTools), es).selected)
    ensures |Run(Init(prepTime, maxTools), es).selected| <= maxTools
    ensures Run(Init(prepTime, maxTools), es).maxTools == maxTools
  {
    RunPreservesValid(Init(prepTime, maxTools), es);
    RunKeepsCapacity(Init(prepTime, maxTools), es);
  }

  lemma {:induction false} RunKeepsCapacity(s: Session, es: seq<Event>)
    ensures Run(s, es).maxTools == s.maxTools
    decreases |es|
  {
    if es != [] {
      RunKeepsCapacity(Step(s, es[0]), es[1..]);
    }
  }

  /** Once locked, no event changes anything: the loadout, the countdown and
      the forecast are final. */
  lemma {:induction false} LockedIsTerminal(s: Session, es: seq<Event>)
    requires s.locked
    ensures Run(s, es) == s
    decreases |es|
  {
    if es != [] {
      assert Step(s, es[0]) == s;
      LockedIsTerminal(s, es[1..]);
    }
  }

  /** A locked session's forecast is the one the lock-in routine writes as
      text for the locked loadout. */
  lemma LockedForecastText(s: Session)
    requires Valid(s) && s.locked
    ensures RiskText(Names(s.selected)) == RiskLabel(s.forecast.value.risk)
    ensures PayoutText(Names(s.selected)) == PayoutLabel(s.forecast.value.payout)
  {
    RiskTextMatches(s.selected);
    PayoutTextMatches(s.selected);
  }

  /** Skipping the timer twice is the same as skipping it once. */
  lemma SkipTimerIdempotent(s: Session)
    ensures SkipTimer(SkipTimer(s)) == SkipTimer(s)
  {
  }

  /** Adding a tool and clicking it again restores the session. */
  lemma ToggleTwiceRestores(s: Session, t: Tool)
    requires !s.locked && t !in s.selected && |s.selected| < s.maxTools
    ensures ToggleTool(ToggleTool(s, t).0, t).0 == s
    ensures ToggleTool(s, t).1 == Added && ToggleTool(ToggleTool(s, t).0, t).1 == Removed
  {
    RemoveAppended(s.selected, t);
  }

  /** The frame lengths of the ticks in an event sequence. */
  function Deltas(es: seq<Event>): seq<nat>
    decreases |es|
  {
    if es == [] then []
    else (if es[0].Frame? then [es[0].delta] else []) + Deltas(es[1..])
  }

  function Sum(ds: seq<nat>): nat
    decreases |ds|
  {
    if ds == [] then 0 else ds[0] + Sum(ds[1..])
  }

  predicate NoSkip(es: seq<Event>)
  {
    forall i :: 0 <= i < |es| ==> !es[i].Skip?
  }

  /** The ticks of a non-empty event sequence are those of its first event
      followed by those of the rest. */
  lemma DeltasFirst(es: seq<Event>)
    requires es != []
    ensures |Deltas(es)| == (if es[0].Frame? then 1 else 0) + |Deltas(es[1..])|
    ensures Sum(Deltas(es)) == (if es[0].Frame? then es[0].delta else 0) + Sum(Deltas(es[1..]))
  {
    if es[0].Frame? {
      var ds := [es[0].delta] + Deltas(es[1..]);
      assert Deltas(es) == ds;
      assert ds[0] == es[0].delta && ds[1..] == Deltas(es[1..]);
    } else {
      assert Deltas(es) == [] + Deltas(es[1..]) == Deltas(es[1..]);
    }
  }

  lemma NoSkipRest(es: seq<Event>)
    requires es != [] && NoSkip(es)
    ensures NoSkip(es[1..]) && !es[0].Skip?
  {
    assert !es[0].Skip?;
    forall i | 0 <= i < |es[1..]|
      ensures !es[1..][i].Skip?
    {
      assert es[1..][i] == es[i + 1];
    }
  }

  /** Without the skip-timer control, an unlocked session locks exactly when
      at least one tick arrives and the ticks add up to the time left; until
      then the countdown has gone down by exactly their total, and once locked
      it reads zero. */
  lemma {:induction false} CountdownLocksWhenTimeRunsOut(s: Session, es: seq<Event>)
    requires !s.locked && NoSkip(es)
    ensures Run(s, es).locked <==> |Deltas(es)| > 0 && Sum(Deltas(es)) >= s.timeLeft
    ensures Run(s, es).locked ==> Run(s, es).timeLeft == 0
    ensures !Run(s, es).locked ==> Run(s, es).timeLeft + Sum(Deltas(es)) == s.timeLeft
    decreases |es|
  {
    if es != [] {
      var s' := Step(s, es[0]);
      var rest := es[1..];
      assert Run(s, es) == Run(s', rest);
      NoSkipRest(es);
      DeltasFirst(es);
      if s'.locked {
        LockedIsTerminal(s', rest);
      } else {
        CountdownLocksWhenTimeRunsOut(s', rest);
      }
    }
  }
}

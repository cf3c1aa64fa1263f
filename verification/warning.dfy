/** The warning sound played as the countdown nears ten seconds. The screen
    tests, after each frame that does not expire the countdown, whether the
    time left is within 20 ms of 10 s. That window can be skipped by one long
    frame and hit by several short ones. `Crossing` is the rule the warning
    evidently means: play once, on the frame that takes the countdown from
    above 10 s to 10 s or below. Times are in milliseconds. */
module Warning {
  import Prep

  const WarnAt: nat := 10000
  const Tolerance: nat := 20

  datatype Rule = NearEquality | Crossing

  /** Whether a frame that takes the countdown from `before` to `after`
      (without expiring it) plays the warning. */
  predicate Warns(rule: Rule, before: nat, after: nat)
  {
    match rule
    case NearEquality => -(Tolerance as int) < after as int - WarnAt < Tolerance
    case Crossing => before > WarnAt >= after
  }

  /** The time left after a sequence of frames, zero once it has expired. */
  function Final(t: nat, ds: seq<nat>): nat
    decreases |ds|
  {
    if ds == [] then t
    else if t <= ds[0] then 0
    else Final(t - ds[0], ds[1..])
  }

  /** How many times the warning plays over a sequence of frames starting with
      `t` ms left; a frame that expires the countdown locks the screen and ends
      the count. */
  function Count(rule: Rule, t: nat, ds: seq<nat>): nat
    decreases |ds|
  {
    if ds == [] || t <= ds[0] then 0
    else (if Warns(rule, t, t - ds[0]) then 1 else 0) + Count(rule, t - ds[0], ds[1..])
  }

  /** As written, two 60 ms frames from 10.03 s step over the window and the
      warning never plays, though the countdown passes 10 s and keeps running. */
  lemma NearEqualityCanMiss()
    ensures Final(10030, [60, 60]) == 9910
    ensures Count(NearEquality, 10030, [60, 60]) == 0
    ensures Count(Crossing, 10030, [60, 60]) == 1
  {
  }

  /** As written, two 16 ms frames from 10.02 s both land in the window and the
      warning plays twice. */
  lemma NearEqualityCanRepeat()
    ensures Count(NearEquality, 10020, [16, 16]) == 2
    ensures Count(Crossing, 10020, [16, 16]) == 1
  {
  }

  /** Once the countdown is at or below 10 s the crossing rule stays silent. */
  lemma {:induction false} CrossingSilentBelow(t: nat, ds: seq<nat>)
    requires t <= WarnAt
    ensures Count(Crossing, t, ds) == 0
    decreases |ds|
  {
    if ds != [] && t > ds[0] {
      CrossingSilentBelow(t - ds[0], ds[1..]);
    }
  }

  /** With the crossing rule the warning plays at most once, and exactly once
      when the countdown starts above 10 s and ends at or below 10 s without
      having expired. */
  lemma {:induction false} CrossingWarnsOnce(t: nat, ds: seq<nat>)
    ensures Count(Crossing, t, ds) <= 1
    ensures t > WarnAt && 0 < Final(t, ds) <= WarnAt ==> Count(Crossing, t, ds) == 1
    ensures Final(t, ds) > WarnAt ==> Count(Crossing, t, ds) == 0
    decreases |ds|
  {
    if ds != [] && t > ds[0] {
      var t' := t - ds[0];
      if t' <= WarnAt {
        CrossingSilentBelow(t', ds[1..]);
        if t > WarnAt {
          FinalAtMost(t', ds[1..]);
        }
      } else {
        CrossingWarnsOnce(t', ds[1..]);
      }
    }
  }

  /** Frames never raise the time left. */
  lemma {:induction false} FinalAtMost(t: nat, ds: seq<nat>)
    ensures Final(t, ds) <= t
    decreases |ds|
  {
    if ds != [] && t > ds[0] {
      FinalAtMost(t - ds[0], ds[1..]);
    }
  }

  /** The frames, as tick events of the preparation session. */
  function Frames(ds: seq<nat>): (es: seq<Prep.Event>)
    ensures |es| == |ds|
    ensures forall i :: 0 <= i < |ds| ==> es[i] == Prep.Frame(ds[i])
    decreases |ds|
  {
    if ds == [] then [] else [Prep.Frame(ds[0])] + Frames(ds[1..])
  }

  /** The countdown `Final` follows is the session's own: an unlocked session
      that receives the frames as ticks ends with exactly `Final` ms left, and
      a session they lock reads zero. */
  lemma {:induction false} FinalIsSessionCountdown(s: Prep.Session, ds: seq<nat>)
    requires !s.locked
    ensures Prep.Run(s, Frames(ds)).timeLeft == Final(s.timeLeft, ds)
    ensures Prep.Run(s, Frames(ds)).locked ==> Final(s.timeLeft, ds) == 0
    decreases |ds|
  {
    if ds != [] {
      var es := Frames(ds);
      assert es[1..] == Frames(ds[1..]);
      var s' := Prep.Tick(s, ds[0]);
      assert Prep.Run(s, es) == Prep.Run(s', es[1..]);
      if s.timeLeft <= ds[0] {
        Prep.LockedIsTerminal(s', es[1..]);
      } else {
        FinalIsSessionCountdown(s', ds[1..]);
      }
    }
  }
}

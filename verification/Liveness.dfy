/**
 One peer's liveness: live, stale, dead, and why it was last seen when it was
 (crates/mosschat-net/src/live.rs:35-142, 144-466). Instants and durations are
 nanoseconds on a clock that only goes forward; nothing saturates.
 */
module Liveness {
  import opened Common

  const MILLI := 1_000_000
  const VISIT_PROBE_INTERVAL := 500 * MILLI
  const DEAD_PROBE_INTERVAL := 1_000 * MILLI
  const PROBE_LOSS_FLOOR := 500 * MILLI
  const DEAD_GRACE_BASE := 5_000 * MILLI
  const KEEPALIVE_FLOOR := 5_000 * MILLI
  const KEEPALIVE_CEILING := 15_000 * MILLI
  const PROBES_TO_STALE := 3

  function KeepaliveInterval(srtt: Option<nat>): nat {
    if srtt.None? then KEEPALIVE_FLOOR else Min(Max(8 * srtt.value, KEEPALIVE_FLOOR), KEEPALIVE_CEILING)
  }

  function ProbeLossDeadline(srtt: Option<nat>): nat {
    if srtt.None? then PROBE_LOSS_FLOOR else Max(4 * srtt.value, PROBE_LOSS_FLOOR)
  }

  function DeadGrace(srtt: Option<nat>): nat {
    if srtt.None? then DEAD_GRACE_BASE else 4 * srtt.value + DEAD_GRACE_BASE
  }

  datatype Activity = Idle | Visit
  datatype Life = Live | Stale | Dead
  datatype Reason = SaidGoodbye | TimedOut
  datatype LastSeen = LastSeen(at: nat, reason: Reason)
  datatype Change = WentStale | WentDead

  datatype State = State(
    activity: Activity,
    life: Life,
    srtt: Option<nat>,
    outstanding: Option<nat>,
    misses: nat,
    lastSent: Option<nat>,
    lastAnswer: nat,
    staleSince: Option<nat>,
    lastSeen: Option<LastSeen>)

  function New(now: nat, srtt: Option<nat>): State {
    State(Idle, Live, srtt, None, 0, None, now, None, None)
  }

  function ProbeInterval(s: State): nat {
    if s.life.Stale? then DEAD_PROBE_INTERVAL
    else if s.activity.Visit? then VISIT_PROBE_INTERVAL
    else KeepaliveInterval(s.srtt)
  }

  /** Whether a probe goes out, recorded as sent; the oldest unanswered one keeps the clock. */
  function DueProbe(s: State, now: nat): (State, bool) {
    if s.life.Dead? || (s.lastSent.Some? && Since(now, s.lastSent.value) < ProbeInterval(s)) then (s, false)
    else (s.(lastSent := Some(now), outstanding := if s.outstanding.None? then Some(now) else s.outstanding), true)
  }

  function ProbeNotSent(s: State, sentAt: nat): State {
    if s.outstanding == Some(sentAt) then s.(outstanding := None) else s
  }

  function OnPong(s: State, now: nat, rtt: nat): (State, bool) {
    if s.life.Dead? then (s, false)
    else (s.(srtt := Some(Smoothed(s.srtt, rtt)),
             outstanding := None, misses := 0, lastAnswer := now), true)
  }

  function CountLoss(s: State, now: nat): State {
    if s.outstanding.Some? && Since(now, s.outstanding.value) >= ProbeLossDeadline(s.srtt) then
      s.(misses := s.misses + 1, outstanding := None)
    else s
  }

  function Poll(s: State, now: nat): (State, Option<Change>) {
    if s.life.Dead? then (s, None)
    else
      var c := CountLoss(s, now);
      if c.life.Live? then
        if c.misses >= PROBES_TO_STALE then (c.(life := Stale, staleSince := Some(now)), Some(WentStale))
        else (c, None)
      else if c.staleSince.Some? && Since(now, c.staleSince.value) >= DeadGrace(c.srtt) then
        (c.(life := Dead, lastSeen := Some(LastSeen(c.lastAnswer, TimedOut))), Some(WentDead))
      else (c, None)
  }

  function OnGoodbye(s: State, now: nat): (State, Option<Change>) {
    if s.life.Dead? then (s, None)
    else (s.(life := Dead, lastSeen := Some(LastSeen(now, SaidGoodbye))), Some(WentDead))
  }

  // ----- as the source writes it -----

  class PeerLiveness {
    var activity: Activity
    var life: Life
    var srtt: Option<nat>
    var outstanding: Option<nat>
    var misses: nat
    var lastSent: Option<nat>
    var lastAnswer: nat
    var staleSince: Option<nat>
    var lastSeen: Option<LastSeen>

    ghost function Value(): State
      reads this
    {
      State(activity, life, srtt, outstanding, misses, lastSent, lastAnswer, staleSince, lastSeen)
    }

    constructor (now: nat, srtt: Option<nat>)
      ensures Value() == New(now, srtt)
    {
      activity, life, this.srtt := Idle, Live, srtt;
      outstanding, misses, lastSent, lastAnswer := None, 0, None, now;
      staleSince, lastSeen := None, None;
    }

    method SetActivity(activity: Activity)
      modifies this`activity
      ensures Value() == old(Value()).(activity := activity)
    {
      this.activity := activity;
    }

    function Interval(): nat
      reads this
      ensures Interval() == ProbeInterval(Value())
    {
      match (life, activity)
      case (Stale, _) => DEAD_PROBE_INTERVAL
      case (_, Visit) => VISIT_PROBE_INTERVAL
      case (_, Idle) => KeepaliveInterval(srtt)
    }

    method ProbeIsDue(now: nat) returns (due: bool)
      modifies this`lastSent, this`outstanding
      ensures (Value(), due) == DueProbe(old(Value()), now)
      ensures old(outstanding).Some? ==> outstanding == old(outstanding)
      ensures due ==> outstanding.Some? && lastSent == Some(now)
      ensures life.Dead? || !due ==> Value() == old(Value())
    {
      if life == Dead {
        return false;
      }
      if lastSent.Some? && Since(now, lastSent.value) < Interval() {
        return false;
      }
      lastSent := Some(now);
      if outstanding.None? {
        outstanding := Some(now);
      }
      return true;
    }

    method ProbeWasNotSent(sentAt: nat)
      modifies this`outstanding
      ensures Value() == ProbeNotSent(old(Value()), sentAt)
    {
      if outstanding == Some(sentAt) {
        outstanding := None;
      }
    }

    method PongArrives(now: nat, rtt: nat) returns (counted: bool)
      modifies this`srtt, this`outstanding, this`misses, this`lastAnswer
      ensures (Value(), counted) == OnPong(old(Value()), now, rtt)
    {
      if life == Dead {
        return false;
      }
      srtt := match srtt case None => Some(rtt) case Some(previous) => Some((previous * 7 + rtt) / 8);
      outstanding := None;
      misses := 0;
      lastAnswer := now;
      return true;
    }

    method Advance(now: nat) returns (change: Option<Change>)
      modifies this`outstanding, this`misses, this`life, this`staleSince, this`lastSeen
      ensures (Value(), change) == Poll(old(Value()), now)
      ensures old(misses) <= misses <= old(misses) + 1
      ensures change.Some? <==> life != old(life)
      ensures life != old(life) ==> (old(life).Live? && life.Stale?) || (old(life).Stale? && life.Dead?)
      ensures change == Some(WentStale) <==> old(life).Live? && misses >= PROBES_TO_STALE
    {
      if life == Dead {
        return None;
      }
      if outstanding.Some? && Since(now, outstanding.value) >= ProbeLossDeadline(srtt) {
        misses := misses + 1;
        outstanding := None;
      }
      if life == Live {
        if misses >= PROBES_TO_STALE {
          life := Stale;
          staleSince := Some(now);
          return Some(WentStale);
        }
      } else if staleSince.Some? && Since(now, staleSince.value) >= DeadGrace(srtt) {
        life := Dead;
        lastSeen := Some(LastSeen(lastAnswer, TimedOut));
        return Some(WentDead);
      }
      return None;
    }

    method GoodbyeArrives(now: nat) returns (change: Option<Change>)
      modifies this`life, this`lastSeen
      ensures (Value(), change) == OnGoodbye(old(Value()), now)
    {
      if life == Dead {
        return None;
      }
      life := Dead;
      lastSeen := Some(LastSeen(now, SaidGoodbye));
      return Some(WentDead);
    }
  }
}

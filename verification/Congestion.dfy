/**
 The congestion controller that starts over when the path's epoch has moved
 (crates/mosschat-net/src/path.rs:848-966). The controller inside is any type, built
 from a reading and an MTU and changed by the calls it is given.
 */
module Congestion {

  /** A controller library: how one is built, and what a call and an MTU change do to it. */
  datatype Library<!C> = Library(build: (nat, nat) -> C, feed: (C, Call) -> C, resize: (C, nat) -> C)

  /** One of the four calls that carry a reading: sent, acknowledged, end of acks, congestion. */
  datatype Call = Call(now: nat, what: nat)

  datatype Event =
    | Switch                // the path entry bumps the shared epoch
    | On(call: Call)
    | Resize(mtu: nat)

  datatype State<C> = State(epoch: nat, observed: nat, mtu: nat, inner: C)

  function MaybeReset<C>(lib: Library<C>, s: State<C>, now: nat): State<C> {
    if s.epoch == s.observed then s else s.(observed := s.epoch, inner := lib.build(now, s.mtu))
  }

  function Step<C>(lib: Library<C>, s: State<C>, e: Event): State<C> {
    match e
    case Switch => s.(epoch := s.epoch + 1)
    case On(call) => var r := MaybeReset(lib, s, call.now); r.(inner := lib.feed(r.inner, call))
    case Resize(mtu) => s.(mtu := mtu, inner := lib.resize(s.inner, mtu))
  }

  function Run<C>(lib: Library<C>, s: State<C>, events: seq<Event>): State<C> {
    if events == [] then s else Step(lib, Run(lib, s, events[..|events| - 1]), events[|events| - 1])
  }

  /** As the factory builds it, whatever the epoch is by then. */
  function Built<C>(lib: Library<C>, epoch: nat, now: nat, mtu: nat): State<C> {
    State(epoch, epoch, mtu, lib.build(now, mtu))
  }

  /** The MTU last told of, or the first one. */
  function LastMtu(first: nat, events: seq<Event>): nat {
    if events == [] then first
    else match events[|events| - 1]
         case Resize(mtu) => mtu
         case _ => LastMtu(first, events[..|events| - 1])
  }

  /** Whatever controller is built is built for the MTU last told of, across switches too. */
  lemma {:induction false} MtuIsTheLast<C>(lib: Library<C>, s: State<C>, events: seq<Event>)
    ensures Run(lib, s, events).mtu == LastMtu(s.mtu, events)
  {
    if events != [] {
      MtuIsTheLast(lib, s, events[..|events| - 1]);
    }
  }

  predicate Called(events: seq<Event>) {
    exists k :: 0 <= k < |events| && events[k].On?
  }

  /** The epoch only goes up, so no switch is ever mistaken for one already seen. */
  lemma {:induction false} NeverAhead<C>(lib: Library<C>, s: State<C>, events: seq<Event>)
    requires s.observed <= s.epoch
    ensures var r := Run(lib, s, events); r.observed <= r.epoch && s.epoch <= r.epoch
  {
    if events != [] {
      NeverAhead(lib, s, events[..|events| - 1]);
    }
  }

  lemma RunsOneMore<C>(lib: Library<C>, s: State<C>, before: seq<Event>, e: Event)
    ensures Run(lib, s, before + [e]) == Step(lib, Run(lib, s, before), e)
  {
    assert (before + [e])[..|before|] == before;
  }

  /** Alike but for where the epochs stand; both seen, or both still to be. */
  predicate Alike<C(==)>(a: State<C>, b: State<C>, called: bool) {
    && a.mtu == b.mtu
    && (if called then a.observed == a.epoch && b.observed == b.epoch && a.inner == b.inner
        else a.observed < a.epoch && b.observed < b.epoch)
  }

  lemma {:induction false} AlikeAfterSwitch<C>(lib: Library<C>, a: State<C>, b: State<C>, events: seq<Event>)
    requires a.mtu == b.mtu && a.observed <= a.epoch && b.observed <= b.epoch
    requires forall k :: 0 <= k < |events| ==> !events[k].Switch?
    ensures Alike(Run(lib, a, [Switch] + events), Run(lib, b, [Switch] + events), Called(events))
    decreases |events|
  {
    if events == [] {
      assert [Switch] + events == [] + [Switch];
      RunsOneMore(lib, a, [], Switch);
      RunsOneMore(lib, b, [], Switch);
    } else {
      var n := |events| - 1;
      AlikeAfterSwitch(lib, a, b, events[..n]);
      assert [Switch] + events == ([Switch] + events[..n]) + [events[n]];
      RunsOneMore(lib, a, [Switch] + events[..n], events[n]);
      RunsOneMore(lib, b, [Switch] + events[..n], events[n]);
      assert Called(events) <==> Called(events[..n]) || events[n].On? by {
        if Called(events[..n]) {
          var k :| 0 <= k < n && events[..n][k].On?;
          assert events[k].On?;
        }
        if Called(events) {
          var k :| 0 <= k < |events| && events[k].On?;
          assert k < n ==> events[..n][k].On?;
        }
      }
    }
  }

  /**
   Nothing carries over a switch: after one, and a first call, the controller in use is
   the same whatever path came before it, given only the same MTU.
   */
  lemma {:induction false} NothingCarriesOver<C>(lib: Library<C>, one: State<C>, other: State<C>,
                              before: seq<Event>, otherBefore: seq<Event>, after: seq<Event>)
    requires one.observed <= one.epoch && other.observed <= other.epoch
    requires Run(lib, one, before).mtu == Run(lib, other, otherBefore).mtu
    requires (forall k :: 0 <= k < |after| ==> !after[k].Switch?) && Called(after)
    ensures Run(lib, one, before + [Switch] + after).inner == Run(lib, other, otherBefore + [Switch] + after).inner
  {
    hide Run;
    NeverAhead(lib, one, before);
    NeverAhead(lib, other, otherBefore);
    RunsOn(lib, one, before, [Switch] + after);
    RunsOn(lib, other, otherBefore, [Switch] + after);
    assert before + [Switch] + after == before + ([Switch] + after);
    assert otherBefore + [Switch] + after == otherBefore + ([Switch] + after);
    AlikeAfterSwitch(lib, Run(lib, one, before), Run(lib, other, otherBefore), after);
  }

  lemma {:induction false} RunsOn<C>(lib: Library<C>, s: State<C>, before: seq<Event>, after: seq<Event>)
    ensures Run(lib, s, before + after) == Run(lib, Run(lib, s, before), after)
    decreases |after|
  {
    if after == [] {
      assert before + after == before;
    } else {
      var n := |after| - 1;
      RunsOn(lib, s, before, after[..n]);
      assert before + after == (before + after[..n]) + [after[n]];
      RunsOneMore(lib, s, before + after[..n], after[n]);
    }
  }

  /** A controller with no epoch to look at, given the same calls. */
  function Replayed<C>(lib: Library<C>, c: C, events: seq<Event>): C {
    if events == [] then c
    else
      var so := Replayed(lib, c, events[..|events| - 1]);
      match events[|events| - 1]
      case On(call) => lib.feed(so, call)
      case Resize(mtu) => lib.resize(so, mtu)
      case Switch => so
  }

  /**
   From the first call after a switch the controller in use is one newly built at that
   call, given exactly the calls since: slow start restarts from the initial window.
   */
  lemma {:induction false} CallsSinceSwitchOnly<C>(lib: Library<C>, s: State<C>, before: seq<Event>, call: Call, after: seq<Event>)
    requires s.observed <= s.epoch && forall k :: 0 <= k < |after| ==> !after[k].Switch?
    ensures var r := Run(lib, s, before + [Switch, On(call)] + after);
            && r.inner == Replayed(lib, lib.build(call.now, Run(lib, s, before).mtu), [On(call)] + after)
            && r.observed == r.epoch
    decreases |after|
  {
    hide Run, Replayed;
    var built, first := lib.build(call.now, Run(lib, s, before).mtu), before + [Switch, On(call)];
    if after == [] {
      FirstCallBuilds(lib, s, before, call);
      assert first + [] == first && [On(call)] + [] == [On(call)];
    } else {
      var n := |after| - 1;
      CallsSinceSwitchOnly(lib, s, before, call, after[..n]);
      RunsOneMore(lib, s, first + after[..n], after[n]);
      ReplaysOneMore(lib, built, [On(call)] + after[..n], after[n]);
      OneMoreAfter(first, after);
      OneMoreAfter([On(call)], after);
    }
  }

  lemma OneMoreAfter(before: seq<Event>, after: seq<Event>)
    requires after != []
    ensures before + after == before + after[..|after| - 1] + [after[|after| - 1]]
  {
  }

  lemma FirstCallBuilds<C>(lib: Library<C>, s: State<C>, before: seq<Event>, call: Call)
    requires s.observed <= s.epoch
    ensures var r := Run(lib, s, before + [Switch, On(call)]);
            && r.inner == Replayed(lib, lib.build(call.now, Run(lib, s, before).mtu), [On(call)])
            && r.observed == r.epoch
  {
    hide Run, Replayed;
    var built := lib.build(call.now, Run(lib, s, before).mtu);
    NeverAhead(lib, s, before);
    RunsOneMore(lib, s, before, Switch);
    RunsOneMore(lib, s, before + [Switch], On(call));
    assert before + [Switch, On(call)] == before + [Switch] + [On(call)];
    ReplaysNothing(lib, built);
    ReplaysOneMore(lib, built, [], On(call));
    assert [] + [On(call)] == [On(call)];
  }

  lemma ReplaysNothing<C>(lib: Library<C>, c: C)
    ensures Replayed(lib, c, []) == c
  {
  }

  lemma ReplaysOneMore<C>(lib: Library<C>, c: C, events: seq<Event>, e: Event)
    ensures Replayed(lib, c, events + [e])
            == match e
               case On(call) => lib.feed(Replayed(lib, c, events), call)
               case Resize(mtu) => lib.resize(Replayed(lib, c, events), mtu)
               case Switch => Replayed(lib, c, events)
  {
    assert (events + [e])[..|events|] == events;
  }

  predicate OnlySwitches(events: seq<Event>) {
    forall k :: 0 <= k < |events| ==> events[k].Switch?
  }

  /**
   Until that first call the old path's controller still answers: switches alone move
   nothing, and however many there were the next call builds one controller.
   */
  lemma {:induction false} SwitchWaitsForACall<C>(lib: Library<C>, s: State<C>, switches: seq<Event>, call: Call)
    requires s.observed <= s.epoch && OnlySwitches(switches)
    ensures var r := Run(lib, s, switches);
            && r == s.(epoch := s.epoch + |switches|)
            && (switches != [] ==> Step(lib, r, On(call)).inner == lib.feed(lib.build(call.now, s.mtu), call))
  {
    if switches != [] {
      var so := switches[..|switches| - 1];
      assert OnlySwitches(so) && switches[|switches| - 1] == Switch;
      SwitchWaitsForACall(lib, s, so, call);
    }
  }

  // ----- as the source writes it -----

  class Controller<C> {
    const lib: Library<C>
    var epoch: nat
    var observed: nat
    var mtu: nat
    var inner: C

    ghost function Value(): State<C>
      reads this
    {
      State(epoch, observed, mtu, inner)
    }

    constructor (lib: Library<C>, epoch: nat, now: nat, mtu: nat)
      ensures this.lib == lib && Value() == Built(lib, epoch, now, mtu)
    {
      this.lib, this.epoch, observed, this.mtu := lib, epoch, epoch, mtu;
      inner := lib.build(now, mtu);
    }

    method Reset(now: nat)
      modifies this`observed, this`inner
      ensures Value() == MaybeReset(lib, old(Value()), now)
    {
      if epoch != observed {
        observed := epoch;
        inner := lib.build(now, mtu);
      }
    }

    method OnCall(call: Call)
      modifies this`observed, this`inner
      ensures Value() == Step(lib, old(Value()), On(call))
      ensures observed == epoch
    {
      Reset(call.now);
      inner := lib.feed(inner, call);
    }

    method OnMtuUpdate(mtu: nat)
      modifies this`mtu, this`inner
      ensures Value() == Step(lib, old(Value()), Resize(mtu))
    {
      this.mtu := mtu;
      inner := lib.resize(inner, mtu);
    }

    method BumpEpoch()
      modifies this`epoch
      ensures Value() == Step(lib, old(Value()), Switch)
    {
      epoch := epoch + 1;
    }
  }
}

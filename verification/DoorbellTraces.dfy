/**
 Where a path's smoothed round trip comes from, over whole runs of both houses
 (crates/mosschat-net/src/punch.rs:2505-2545, 2608-2620, crates/mosschat-net/src/path.rs:96-104, 199-256).
 Beside the world runs a record of every sample a house folded into its path's
 estimate, with the epoch it was heard in. The estimate is always that of the samples
 since the last switch, but a relayed path's samples are pongs of the direct path it
 has replaced.
 */
module DoorbellTraces {
  import opened Common
  import opened Addresses
  import opened Doorbell
  import opened DoorbellSafety
  import Path

  /** One sample; `stale` when the traffic had already left the path that answered. */
  datatype Sample = Sample(epoch: nat, value: nat, stale: bool)

  /** Each house's samples, and the address of each path it won. */
  datatype Trace = Trace(w: World, i: seq<Sample>, r: seq<Sample>, wonI: seq<SocketAddr>, wonR: seq<SocketAddr>)

  /** What one action of one house adds to its record. */
  function Heard(h: House, action: Action): seq<Sample>
    requires Enabled(h, action)
  {
    match action
    case Wins(_, rtt) => [Sample(Act(h, action).house.path.epoch, rtt, false)]
    case Answers(value) => [Sample(h.path.epoch, value, h.stage.phase == Watching(Stale))]
    case _ => []
  }

  function Won(action: Action): seq<SocketAddr> {
    match action
    case Wins(addr, _) => [addr]
    case _ => []
  }

  function Go(t: Trace, step: Step): Trace {
    var w := Next(t.w, step);
    match step
    case ByI(action) =>
      if Enabled(t.w.i, action) then Trace(w, t.i + Heard(t.w.i, action), t.r, t.wonI + Won(action), t.wonR) else t.(w := w)
    case ByR(action) =>
      if Enabled(t.w.r, action) then Trace(w, t.i, t.r + Heard(t.w.r, action), t.wonI, t.wonR + Won(action)) else t.(w := w)
    case _ => t.(w := w)
  }

  function GoOn(t: Trace, steps: seq<Step>): Trace {
    if steps == [] then t else Go(GoOn(t, steps[..|steps| - 1]), steps[|steps| - 1])
  }

  ghost predicate Traced(t: Trace) {
    exists heldI, noPunchI, heldR, noPunchR, steps ::
      t == GoOn(Trace(Start(heldI, noPunchI, heldR, noPunchR), [], [], [], []), steps)
  }

  /** A trace is a run with a record beside it: it changes nothing of the world. */
  lemma {:induction false} TraceIsARun(t: Trace, steps: seq<Step>)
    ensures GoOn(t, steps).w == Run(t.w, steps)
  {
    if steps != [] {
      TraceIsARun(t, steps[..|steps| - 1]);
      hide Next, Enabled, Heard;
    }
  }

  /** The samples heard in one epoch, in order. */
  function InEpoch(samples: seq<Sample>, epoch: nat): seq<nat> {
    if samples == [] then []
    else
      var last := samples[|samples| - 1];
      InEpoch(samples[..|samples| - 1], epoch) + if last.epoch == epoch then [last.value] else []
  }

  lemma {:induction false} InEpochIff(samples: seq<Sample>, epoch: nat)
    ensures InEpoch(samples, epoch) != [] <==> exists k :: 0 <= k < |samples| && samples[k].epoch == epoch
  {
    if samples != [] {
      var so := samples[..|samples| - 1];
      InEpochIff(so, epoch);
      if k :| 0 <= k < |samples| && samples[k].epoch == epoch {
        assert k < |so| ==> so[k].epoch == epoch;
      }
      if k :| 0 <= k < |so| && so[k].epoch == epoch {
        assert samples[k].epoch == epoch;
      }
    }
  }

  lemma OneMoreInEpoch(samples: seq<Sample>, sample: Sample, epoch: nat)
    ensures InEpoch(samples + [sample], epoch) == InEpoch(samples, epoch) + if sample.epoch == epoch then [sample.value] else []
  {
    assert (samples + [sample])[..|samples|] == samples;
  }

  lemma EstimateOfOneMore(samples: seq<nat>, sample: nat)
    ensures Estimate(samples + [sample]) == Some(Smoothed(Estimate(samples), sample))
  {
    assert (samples + [sample])[..|samples|] == samples;
  }

  /** The record explains the estimate: relayed epochs are the even ones, and every sample in them is stale. */
  predicate Explains(path: Path.State, samples: seq<Sample>) {
    && (forall k :: 0 <= k < |samples| ==> samples[k].epoch <= path.epoch && (samples[k].stale <==> samples[k].epoch % 2 == 0))
    && path.srtt == Estimate(InEpoch(samples, path.epoch))
    && (path.kind.Direct? ==> path.srtt.Some?)
  }

  /** A switch with nothing heard since. */
  lemma SwitchExplains(path: Path.State, after: Path.State, samples: seq<Sample>)
    requires Explains(path, samples) && after.epoch > path.epoch && after.srtt == None
    ensures Explains(after.(kind := Path.Relay), samples)
  {
    InEpochIff(samples, after.epoch);
  }

  lemma SampleExplains(path: Path.State, samples: seq<Sample>, value: nat, stale: bool)
    requires Explains(path.(kind := Path.Relay), samples) && (stale <==> path.epoch % 2 == 0)
    ensures Explains(Path.Sampled(path, value), samples + [Sample(path.epoch, value, stale)])
  {
    OneMoreInEpoch(samples, Sample(path.epoch, value, stale), path.epoch);
    EstimateOfOneMore(InEpoch(samples, path.epoch), value);
    hide InEpoch, Estimate, Smoothed;
  }

  lemma ForgettingTheKind(path: Path.State, samples: seq<Sample>)
    requires Explains(path, samples)
    ensures Explains(path.(kind := Path.Relay), samples)
  {
  }

  /** Reading a frame changes a path only by leaving it. */
  lemma HandlingOnlyLeaves(h: House, frame: Frame, draw: Draw)
    ensures var after := Handle(h, frame, draw).house.path; after == h.path || after == Path.FellBack(h.path)
  {
  }

  lemma OthersOnlyLeave(h: House, action: Action)
    requires Enabled(h, action) && !action.Wins? && !action.Answers?
    ensures var after := Act(h, action).house.path; after == h.path || after == Path.FellBack(h.path)
  {
    if action.Takes? {
      HandlingOnlyLeaves(h.(queue := h.queue[1..]), h.queue[0], action.draw);
      hide Handle;
    }
    hide Path.FellBack;
  }

  lemma TurnExplains(h: House, action: Action, samples: seq<Sample>)
    requires DoorbellSafety.Local(h) && Enabled(h, action) && Explains(h.path, samples)
    ensures Explains(Act(h, action).house.path, samples + Heard(h, action))
  {
    match action {
      case Wins(addr, rtt) =>
        hide Explains;
        var up := Path.Upgraded(h.path, addr);
        assert h.path.kind.Relay? && up.epoch == h.path.epoch + 1;
        SwitchExplains(h.path, up, samples);
        SampleExplains(up, samples, rtt, false);
      case Answers(value) =>
        hide Explains;
        assert Explains(h.path.(kind := Path.Relay), samples) by { ForgettingTheKind(h.path, samples); }
        SampleExplains(h.path, samples, value, h.stage.phase == Watching(Stale));
      case _ =>
        OthersOnlyLeave(h, action);
        assert samples + [] == samples;
        if h.path.kind.Direct? {
          SwitchExplains(h.path, Path.FellBack(h.path), samples);
        }
        hide Act, Told, Estimate, InEpoch, DirectIffWatched;
    }
  }

  /** A direct path is the last one won. */
  predicate LeadsToLast(path: Path.State, won: seq<SocketAddr>) {
    path.kind.Direct? ==> won != [] && path.kind.addr == won[|won| - 1]
  }

  lemma TurnLeads(h: House, action: Action, won: seq<SocketAddr>)
    requires DoorbellSafety.Local(h) && Enabled(h, action) && LeadsToLast(h.path, won)
    ensures LeadsToLast(Act(h, action).house.path, won + Won(action))
  {
    if !action.Wins? {
      assert won + [] == won;
      if !action.Answers? {
        OthersOnlyLeave(h, action);
      }
      hide Told;
    }
  }

  /** A turn that draws an id wins no path. */
  lemma LeadsKeeps(h: House, after: House, action: Action, won: seq<SocketAddr>, drawn: set<AttemptId>)
    requires DoorbellSafety.Local(h) && LeadsToLast(h.path, won)
    requires after == if Enabled(h, action) && Act(h, action).drew !! drawn then Act(h, action).house else h
    ensures LeadsToLast(after.path, if Enabled(h, action) then won + Won(action) else won)
  {
    hide DoorbellSafety.Local, LeadsToLast;
    if Enabled(h, action) {
      TurnLeads(h, action, won);
      assert Act(h, action).drew != {} ==> Won(action) == [];
      assert won + [] == won;
    }
  }

  ghost predicate Keeps(t: Trace) {
    && Inv(t.w) && Explains(t.w.i.path, t.i) && Explains(t.w.r.path, t.r)
    && LeadsToLast(t.w.i.path, t.wonI) && LeadsToLast(t.w.r.path, t.wonR)
  }

  /** A turn that draws an id is not one that hears a sample. */
  lemma UndoneTurnsHearNothing(h: House, action: Action)
    requires Enabled(h, action)
    ensures Act(h, action).drew != {} ==> Heard(h, action) == []
  {
  }

  /** What one house's record explains, it explains after that house's turn, done or not. */
  lemma TurnKeeps(h: House, after: House, action: Action, samples: seq<Sample>, drawn: set<AttemptId>)
    requires DoorbellSafety.Local(h) && Explains(h.path, samples)
    requires after == if Enabled(h, action) && Act(h, action).drew !! drawn then Act(h, action).house else h
    ensures Explains(after.path, if Enabled(h, action) then samples + Heard(h, action) else samples)
  {
    hide DoorbellSafety.Local, Explains, Act, Enabled, Heard;
    if Enabled(h, action) {
      TurnExplains(h, action, samples);
      UndoneTurnsHearNothing(h, action);
      assert samples + [] == samples;
    }
  }

  lemma {:induction false} GoOnKeeps(heldI: bool, noPunchI: bool, heldR: bool, noPunchR: bool, steps: seq<Step>)
    ensures Keeps(GoOn(Trace(Start(heldI, noPunchI, heldR, noPunchR), [], [], [], []), steps))
    decreases |steps|
  {
    if steps == [] {
      StartKeeps(heldI, noPunchI, heldR, noPunchR);
    } else {
      var step := steps[|steps| - 1];
      GoOnKeeps(heldI, noPunchI, heldR, noPunchR, steps[..|steps| - 1]);
      var t := GoOn(Trace(Start(heldI, noPunchI, heldR, noPunchR), [], [], [], []), steps[..|steps| - 1]);
      NextKeeps(t.w, step);
      assert DoorbellSafety.Local(t.w.i) && DoorbellSafety.Local(t.w.r);
      hide Inv, Explains, DoorbellSafety.Local, Act, Enabled, Heard, Won, LeadsToLast;
      match step {
        case ByI(action) =>
          TurnKeeps(t.w.i, Next(t.w, step).i, action, t.i, t.w.drawn);
          LeadsKeeps(t.w.i, Next(t.w, step).i, action, t.wonI, t.w.drawn);
        case ByR(action) =>
          TurnKeeps(t.w.r, Next(t.w, step).r, action, t.r, t.w.drawn);
          LeadsKeeps(t.w.r, Next(t.w, step).r, action, t.wonR, t.w.drawn);
        case _ =>
      }
    }
  }

  lemma TracedKeeps(t: Trace)
    requires Traced(t)
    ensures Keeps(t)
  {
    hide Start, Keeps, GoOn;
    var heldI, noPunchI, heldR, noPunchR, steps :|
      t == GoOn(Trace(Start(heldI, noPunchI, heldR, noPunchR), [], [], [], []), steps);
    GoOnKeeps(heldI, noPunchI, heldR, noPunchR, steps);
  }

  lemma StartKeeps(heldI: bool, noPunchI: bool, heldR: bool, noPunchR: bool)
    ensures Keeps(Trace(Start(heldI, noPunchI, heldR, noPunchR), [], [], [], []))
  {
    assert Estimate(InEpoch([], 0)) == None;
    hide Estimate, InEpoch;
  }

  /** In every reachable world a direct path leads to the address its house won last. */
  lemma DirectIsTheLastWin(t: Trace)
    requires Traced(t)
    ensures t.w.i.path.kind.Direct? ==> t.wonI != [] && t.w.i.path.kind == Path.Direct(t.wonI[|t.wonI| - 1])
    ensures t.w.r.path.kind.Direct? ==> t.wonR != [] && t.w.r.path.kind == Path.Direct(t.wonR[|t.wonR| - 1])
  {
    TracedKeeps(t);
    hide Inv, Explains;
  }

  /** In every reachable world a path's estimate is that of the samples heard since its last switch, and no others. */
  lemma EstimateIsSinceLastSwitch(t: Trace)
    requires Traced(t)
    ensures t.w.i.path.srtt == Estimate(InEpoch(t.i, t.w.i.path.epoch))
    ensures t.w.r.path.srtt == Estimate(InEpoch(t.r, t.w.r.path.epoch))
    ensures forall k :: 0 <= k < |t.i| ==> t.i[k].epoch <= t.w.i.path.epoch
    ensures forall k :: 0 <= k < |t.r| ==> t.r[k].epoch <= t.w.r.path.epoch
  {
    TracedKeeps(t);
    hide Inv;
  }

  /** Whether a pong of a path already left was heard since the last switch. */
  predicate StaleSinceSwitch(path: Path.State, samples: seq<Sample>) {
    exists k :: 0 <= k < |samples| && samples[k].epoch == path.epoch && samples[k].stale
  }

  /**
   In every reachable world a relayed path has an estimate if and only if a stale pong
   of the path it replaced was heard since the switch, and a direct path's estimate
   holds no stale pong at all.
   */
  lemma RelayEstimateIffStalePong(t: Trace)
    requires Traced(t)
    ensures t.w.i.path.kind.Relay? ==> (t.w.i.path.srtt.Some? <==> StaleSinceSwitch(t.w.i.path, t.i))
    ensures t.w.r.path.kind.Relay? ==> (t.w.r.path.srtt.Some? <==> StaleSinceSwitch(t.w.r.path, t.r))
    ensures t.w.i.path.kind.Direct? ==> t.w.i.path.srtt.Some? && !StaleSinceSwitch(t.w.i.path, t.i)
    ensures t.w.r.path.kind.Direct? ==> t.w.r.path.srtt.Some? && !StaleSinceSwitch(t.w.r.path, t.r)
  {
    TracedKeeps(t);
    EvenIsRelay(t.w.i);
    EvenIsRelay(t.w.r);
    InEpochIff(t.i, t.w.i.path.epoch);
    InEpochIff(t.r, t.w.r.path.epoch);
    hide Inv, InEpoch;
  }

  lemma EvenIsRelay(h: House)
    requires DoorbellSafety.Local(h)
    ensures h.path.kind.Relay? <==> h.path.epoch % 2 == 0
  {
  }

  // ----- it happens -----

  /** One visit: exchanged, upgraded, stale, and a late pong of 7 from the path just left. */
  function LatePong(): seq<Step> {
    [ByI(Begins(Draw(1, 11))), DeliverToR, ByR(Takes(Draw(0, 22))), DeliverToI, ByI(Takes(Draw(0, 0))),
     ByI(StartArrives), ByI(Wins(SocketAddr(V4(203, 0, 113, 1), 4433), 5)), ByI(DirectStale), ByI(Answers(7))]
  }

  lemma RunsOn(w: World, steps: seq<Step>, k: nat)
    requires k < |steps|
    ensures Run(w, steps[..k + 1]) == Next(Run(w, steps[..k]), steps[k])
  {
    assert steps[..k + 1][..k] == steps[..k];
    hide Next;
  }

  /** The initiator's `Candidates` reaches the responder, which answers. */
  lemma LatePongAsks(w0: World)
    requires w0 == Start(true, false, true, false)
    ensures var steps := LatePong();
            var w := Next(Next(Next(w0, steps[0]), steps[1]), steps[2]);
            && w.i == w0.i.(stage := Exchanging(1, 11)) && w.toI == [Candidates(1, 22, false)]
  {
    var steps := LatePong();
    var w1 := Next(w0, steps[0]);
    assert w1.i.stage == Exchanging(1, 11) && w1.toR == [Candidates(1, 11, false)] && w1.r == w0.r && w1.toI == [];
    var w2 := Next(w1, steps[1]);
    assert w2.r.queue == [Candidates(1, 11, false)] && w2.i == w1.i;
  }

  /** The answer is read, and the initiator waits for the start signal. */
  lemma LatePongIsAnswered(w: World)
    requires w.i == Fresh(Initiator, true, false).(stage := Exchanging(1, 11)) && w.toI == [Candidates(1, 22, false)]
    ensures var steps := LatePong();
            var after := Next(Next(w, steps[3]), steps[4]);
            after.i.live && after.i.held && after.i.path == Path.FRESH && after.i.stage == Running(1, 11, 22, false, Starting)
  {
    var steps := LatePong();
    var w1 := Next(w, steps[3]);
    assert w1.i == w.i.(queue := [Candidates(1, 22, false)]) && w1.drawn == w.drawn;
    var w2 := Next(w1, steps[4]);
    assert w2.i == w.i.(stage := Running(1, 11, 22, false, Starting));
  }

  /** The initiator is back on the relay with the estimate of the direct path it has left. */
  lemma LatePongIsKept()
    ensures var w := Run(Start(true, false, true, false), LatePong());
            w.i.live && w.i.path == Path.State(Path.Relay, 2, Some(7))
  {
    hide Next, Act, Handle, Enabled, Start, Run;
    var steps, w0 := LatePong(), Start(true, false, true, false);
    StartIs(w0);
    LatePongAsks(w0);
    RunsThree(w0, steps, 0);
    RunsThree(w0, steps, 3);
    RunsThree(w0, steps, 6);
    RunsNothing(w0);
    assert steps[..0] == [] && steps[..9] == steps;
    LatePongIsAnswered(Run(w0, steps[..3]));
    LatePongEnds(Run(w0, steps[..5]));
  }

  lemma StartIs(w: World)
    requires w == Start(true, false, true, false)
    ensures w.i == Fresh(Initiator, true, false)
  {
  }

  lemma RunsNothing(w: World)
    ensures Run(w, []) == w
  {
  }

  lemma RunsThree(w: World, steps: seq<Step>, k: nat)
    requires k + 2 < |steps|
    ensures Run(w, steps[..k + 1]) == Next(Run(w, steps[..k]), steps[k])
    ensures Run(w, steps[..k + 2]) == Next(Run(w, steps[..k + 1]), steps[k + 1])
    ensures Run(w, steps[..k + 3]) == Next(Run(w, steps[..k + 2]), steps[k + 2])
  {
    RunsOn(w, steps, k);
    RunsOn(w, steps, k + 1);
    RunsOn(w, steps, k + 2);
    hide Run, Next;
  }

  lemma LatePongEnds(w: World)
    requires w.i.live && w.i.held && w.i.path == Path.FRESH && w.i.stage == Running(1, 11, 22, false, Starting)
    ensures var steps := LatePong();
            var last := Next(Next(Next(Next(w, steps[5]), steps[6]), steps[7]), steps[8]);
            last.i.live && last.i.path == Path.State(Path.Relay, 2, Some(7))
  {
    var steps := LatePong();
    var w1 := Next(w, steps[5]);
    assert w1.i == w.i.(stage := Running(1, 11, 22, false, Probing));
    var w2 := Next(w1, steps[6]);
    assert w2.i.path.kind.Direct? && w2.i.path.epoch == 1 && w2.i.stage.phase == Watching(Live);
    var w3 := Next(w2, steps[7]);
    assert w3.i.path == Path.State(Path.Relay, 2, None) && w3.i.stage.phase == Watching(Stale) && w3.i.live;
  }
}

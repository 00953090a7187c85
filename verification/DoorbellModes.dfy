/**
 What a house does with its instructions, over every reachable world
 (crates/mosschat-net/src/punch.rs:2076-2178, 2222-2440, 2687-2818): told not to punch,
 by itself or by its peer, it stays on the relay; otherwise it waits for the start
 signal; within an attempt its phases follow one map, each move told and announced as
 the map says; and a held visit ends for three reasons only.
 */
module DoorbellModes {
  import opened Common
  import opened Addresses
  import opened Doorbell
  import opened DoorbellSafety
  import DoorbellTraces
  import Path

  // ----- told not to punch -----

  /** Every `Candidates` carries the word of the house that wrote it. */
  predicate Carries(s: seq<Frame>, noPunch: bool) {
    forall k :: 0 <= k < |s| && s[k].Candidates? ==> s[k].noUpgrade == noPunch
  }

  predicate StaysOnRelay(h: House) {
    h.path == Path.FRESH && (h.stage.Running? ==> h.stage.phase.Relayed?)
  }

  /** What a one-shot visit may still be doing: it is over as soon as its path is. */
  predicate OneShotAtWork(phase: Phase, noPunch: bool) {
    if noPunch then phase == Relayed(Live) || phase == Relayed(Stale)
    else phase == Starting || phase == Probing || phase == Watching(Live)
  }

  predicate Obeys(h: House, noPunch: bool) {
    && (noPunch ==> StaysOnRelay(h))
    && (h.stage.Running? ==> h.stage.phase != Watching(Dead))
    && (h.live && !h.held && h.stage.Running? ==> OneShotAtWork(h.stage.phase, noPunch))
  }

  /** Past the exchange of an attempt it was not in before. */
  predicate Enters(before: House, after: House) {
    after.stage.Running? && !(before.stage.Running? && before.stage.attempt == after.stage.attempt)
  }

  lemma TakingObeys(h: House, frame: Frame, draw: Draw, peer: bool)
    requires Obeys(h, h.noPunch || peer) && Carries([frame], peer) && h.live && !h.stage.Opening?
    ensures var turn := Handle(h, frame, draw);
            && Obeys(turn.house, h.noPunch || peer) && Carries(turn.wrote, h.noPunch) && turn.house.noPunch == h.noPunch
            && turn.house.held == h.held
            && (Enters(h, turn.house) ==> turn.house.stage.phase == if h.noPunch || peer then Relayed(Live) else Starting)
  {
    assert [frame][0] == frame;
  }

  lemma TurnObeys(h: House, action: Action, peer: bool)
    requires Obeys(h, h.noPunch || peer) && Enabled(h, action) && Carries(h.queue, peer)
    ensures var turn := Act(h, action);
            && Obeys(turn.house, h.noPunch || peer) && Carries(turn.wrote, h.noPunch) && turn.house.noPunch == h.noPunch
            && turn.house.held == h.held && Carries(turn.house.queue, peer)
            && (Enters(h, turn.house) ==> turn.house.stage.phase == if h.noPunch || peer then Relayed(Live) else Starting)
  {
    if action.Takes? {
      TakingObeys(h.(queue := h.queue[1..]), h.queue[0], action.draw, peer);
      HandleLeavesQueue(h.(queue := h.queue[1..]), h.queue[0], action.draw);
      hide Handle;
    } else {
      ActLeavesQueue(h, action);
    }
  }

  predicate Modes(w: World) {
    var noPunch := w.i.noPunch || w.r.noPunch;
    && Obeys(w.i, noPunch) && Obeys(w.r, noPunch)
    && Carries(w.i.queue, w.r.noPunch) && Carries(w.toI, w.r.noPunch)
    && Carries(w.r.queue, w.i.noPunch) && Carries(w.toR, w.i.noPunch)
  }

  lemma StepModes(w: World, step: Step)
    requires Modes(w)
    ensures var after := Next(w, step);
            && Modes(after) && after.i.noPunch == w.i.noPunch && after.r.noPunch == w.r.noPunch
            && (Enters(w.i, after.i) ==> after.i.stage.phase == if w.i.noPunch || w.r.noPunch then Relayed(Live) else Starting)
            && (Enters(w.r, after.r) ==> after.r.stage.phase == if w.i.noPunch || w.r.noPunch then Relayed(Live) else Starting)
  {
    match step {
      case ByI(action) =>
        if Enabled(w.i, action) {
          TurnObeys(w.i, action, w.r.noPunch);
        }
        hide Act, Enabled, Obeys;
      case ByR(action) =>
        if Enabled(w.r, action) {
          TurnObeys(w.r, action, w.i.noPunch);
        }
        hide Act, Enabled, Obeys;
      case _ =>
    }
  }

  lemma {:induction false} RunModes(heldI: bool, noPunchI: bool, heldR: bool, noPunchR: bool, steps: seq<Step>)
    ensures Modes(Run(Start(heldI, noPunchI, heldR, noPunchR), steps))
  {
    if steps != [] {
      RunModes(heldI, noPunchI, heldR, noPunchR, steps[..|steps| - 1]);
      hide Modes, Next, Start;
      StepModes(Run(Start(heldI, noPunchI, heldR, noPunchR), steps[..|steps| - 1]), steps[|steps| - 1]);
    }
  }

  lemma ReachableModes(w: World)
    requires Reachable(w)
    ensures Modes(w)
  {
    hide Start, Modes, Run;
    var heldI, noPunchI, heldR, noPunchR, steps :| w == Run(Start(heldI, noPunchI, heldR, noPunchR), steps);
    RunModes(heldI, noPunchI, heldR, noPunchR, steps);
  }

  /**
   If either house was told not to punch, then in every reachable world neither has ever
   left the relay, neither has told of a switch, and a house past the exchange is watching
   the relay: it neither waits for a start signal nor probes.
   */
  lemma NoPunchStaysOnRelay(w: World, h: House)
    requires Reachable(w) && (w.i.noPunch || w.r.noPunch) && (h == w.i || h == w.r)
    ensures h.path == Path.FRESH && Switches(h.events) == []
    ensures h.stage.Running? ==> h.stage.phase.Relayed?
  {
    ReachableModes(w);
    ReachableKeeps(w);
    hide Between, Carries;
  }

  /**
   A house that comes out of the exchange, of its first attempt or of any rerun, waits for
   the start signal, unless either of the two was told not to punch: then it is on the
   relay at once.
   */
  lemma ExchangeLeadsTo(w: World, step: Step)
    requires Reachable(w)
    ensures var after, noPunch := Next(w, step), w.i.noPunch || w.r.noPunch;
            && (Enters(w.i, after.i) ==> after.i.stage.phase == if noPunch then Relayed(Live) else Starting)
            && (Enters(w.r, after.r) ==> after.r.stage.phase == if noPunch then Relayed(Live) else Starting)
  {
    ReachableModes(w);
    StepModes(w, step);
  }

  /** A visit that is not held never outlives its path, nor its chance of one. */
  lemma OneShotEndsWithItsPath(w: World, h: House)
    requires Reachable(w) && (h == w.i || h == w.r) && h.live && !h.held && h.stage.Running?
    ensures OneShotAtWork(h.stage.phase, w.i.noPunch || w.r.noPunch)
  {
    ReachableModes(w);
    hide Carries;
  }

  /** While a house waits for the start signal it does nothing else: what is queued for it stays queued. */
  lemma WaitsForTheStart(w: World, action: Action)
    ensures InThis(w.i, Starting) && Next(w, ByI(action)) != w ==> action.StartArrives? || action.StartFails? || action.Fails?
    ensures InThis(w.r, Starting) && Next(w, ByR(action)) != w ==> action.StartArrives? || action.StartFails? || action.Fails?
  {
  }

  /** The reader drops the newest frame, and only onto a queue of 16; what was queued stays, in order. */
  lemma ReaderDropsTheNewest(h: House, frame: Frame)
    ensures |h.queue| <= 16 ==> |Queued(h, frame).queue| <= 16
    ensures Queued(h, frame).queue == if |h.queue| < 16 then h.queue + [frame] else h.queue
    ensures |Queued(h, frame).queue| + Lost(h) == |h.queue| + 1
  {
  }

  // ----- the phases of one attempt -----

  /** The moves of one attempt, with what each tells its own house and writes to the other. */
  predicate OnTheMap(from: Phase, to: Phase, told: seq<Event>, wrote: seq<Frame>, attempt: AttemptId, fellBack: bool) {
    match (from, to)
    case (Starting, Probing) => told == [] && wrote == []
    case (Starting, Relayed(Live)) => told == [] && wrote == []
    case (Probing, Relayed(Live)) => told == [] && wrote == []
    case (Probing, Watching(Live)) => told == [if fellBack then Recovered else Upgraded] && wrote == [PathUp(attempt)]
    case (Watching(Live), Watching(Stale)) => told == [PathStale, FellBack] && wrote == [PathDown(attempt)]
    case (Watching(Live), Relayed(Live)) => told == [FellBack] && wrote == []
    case (Watching(Stale), Relayed(Live)) => (told == [PathDead] || told == []) && wrote == []
    case (Relayed(Live), Relayed(Stale)) => told == [PathStale] && wrote == []
    case (Relayed(Stale), Relayed(Dead)) => told == [PathDead] && wrote == []
    case (Relayed(Dead), Relayed(Live)) => (told == [RelayAnswersAgain] || told == []) && wrote == []
    case (Relayed(Stale), Relayed(Live)) => told == [] && wrote == []      // the peer's `PathDown` starts a new watch
    case _ => from == to && told == [] && wrote == []
  }

  predicate ReadsOrMeasures(action: Action) {
    action.Takes? || action.Answers?
  }

  /** The house goes on in the attempt it was in. */
  predicate GoesOn(h: House, after: House)
    requires h.stage.Running?
  {
    after.live && after.stage.Running? && after.stage.attempt == h.stage.attempt
  }

  predicate Maps(h: House, turn: Turn)
    requires h.stage.Running? && turn.house.stage.Running?
  {
    && h.events <= turn.house.events
    && OnTheMap(h.stage.phase, turn.house.stage.phase, turn.house.events[|h.events|..], turn.wrote, h.stage.attempt, h.fellBack)
  }

  lemma FramesAreOnTheMap(h: House, action: Action)
    requires Enabled(h, action) && action.Takes? && h.stage.Running? && DirectIffWatched(h) && h.stage.phase != Watching(Dead)
    ensures var turn := Act(h, action); GoesOn(h, turn.house) ==> Maps(h, turn)
  {
    var frame := h.queue[0];
    if frame.PathDown? && frame.attempt == h.stage.attempt && h.path.kind.Direct? {
      assert (h.events + [FellBack])[|h.events|..] == [FellBack];
    } else {
      assert h.events[|h.events|..] == [];
    }
  }

  lemma GoingStaleIsOnTheMap(h: House)
    requires Enabled(h, DirectStale)
    ensures Maps(h, Act(h, DirectStale))
  {
    assert h.events + [PathStale] + [FellBack] == h.events + [PathStale, FellBack];
    assert (h.events + [PathStale, FellBack])[|h.events|..] == [PathStale, FellBack];
  }

  lemma OthersAreOnTheMap(h: House, action: Action)
    requires Enabled(h, action) && !action.Takes? && !action.DirectStale? && h.stage.Running?
    ensures var turn := Act(h, action); GoesOn(h, turn.house) ==> Maps(h, turn)
  {
    assert forall event :: (h.events + [event])[|h.events|..] == [event];
    assert h.events[|h.events|..] == [];
  }

  /**
   In every reachable world a house that goes on in its attempt moves along the map, and
   every action but reading a frame or a pong moves it.
   */
  lemma MovesAreOnTheMap(w: World, h: House, action: Action)
    requires Reachable(w) && (h == w.i || h == w.r) && Enabled(h, action) && h.stage.Running?
    ensures var turn := Act(h, action);
            GoesOn(h, turn.house) ==> Maps(h, turn) && (!ReadsOrMeasures(action) ==> turn.house.stage.phase != h.stage.phase)
  {
    assert DirectIffWatched(h) && h.stage.phase != Watching(Dead) by {
      ReachableKeeps(w);
      ReachableModes(w);
    }
    match action {
      case Takes(_) => FramesAreOnTheMap(h, action);
      case DirectStale => GoingStaleIsOnTheMap(h);
      case _ => OthersAreOnTheMap(h, action);
    }
    hide Maps;
  }

  /** What a house tells as it leaves an attempt for another: a direct path it was watching is told dead, once. */
  function LastWords(phase: Phase): seq<Event> {
    match phase
    case Watching(Live) => [FellBack, PathDead]
    case Watching(_) => [PathDead]
    case _ => []
  }

  /** Only the responder adopts, and never while it is direct. */
  lemma AdoptsOnRelay(w: World, h: House, action: Action)
    requires Reachable(w) && (h == w.i || h == w.r) && Enabled(h, action) && h.stage.Running? && action.Takes?
    requires h.queue[0].Candidates? && h.queue[0].attempt != h.stage.attempt
    ensures !WatchesLive(h)
  {
    ReachableKeeps(w);
    if h == w.i {
      InitiatorNeverAdopts(w);
    } else {
      RerunFindsRelay(w);
    }
    hide Between;
  }

  lemma LeavesWithLastWords(h: House, action: Action)
    requires Enabled(h, action) && h.stage.Running? && DirectIffWatched(h) && h.stage.phase != Watching(Dead)
    requires action.Takes? && h.queue[0].Candidates? && h.queue[0].attempt != h.stage.attempt ==> !WatchesLive(h)
    ensures var after := Act(h, action).house;
            after.live && !GoesOn(h, after) ==> after.events == h.events + LastWords(h.stage.phase)
  {
    assert h.events + [] == h.events && h.events + [FellBack] + [PathDead] == h.events + [FellBack, PathDead];
  }

  /**
   In every reachable world a house that leaves an attempt, to name a rerun or to join
   one, tells of the path it was watching and of nothing else: fallen back if it was
   still direct, and dead.
   */
  lemma LeavingTells(w: World, h: House, action: Action)
    requires Reachable(w) && (h == w.i || h == w.r) && Enabled(h, action) && h.stage.Running?
    ensures var after := Act(h, action).house;
            after.live && !GoesOn(h, after) ==> after.events == h.events + LastWords(h.stage.phase)
  {
    if action.Takes? && h.queue[0].Candidates? && h.queue[0].attempt != h.stage.attempt {
      AdoptsOnRelay(w, h, action);
    }
    ReachableKeeps(w);
    ReachableModes(w);
    hide Between, Act, Carries, Told, GoesOn;
    LeavesWithLastWords(h, action);
  }

  // ----- what ends a visit -----

  /** The frame the exchange waits for. */
  predicate IsAwaited(h: House, frame: Frame) {
    || (h.stage.Awaiting? && frame.Candidates?)
    || (h.stage.Exchanging? && frame.Candidates? && frame.attempt == h.stage.attempt)
  }

  predicate LosesThePath(h: House, action: Action)
    requires Enabled(h, action)
  {
    || action.StartFails? || action.GivesUp? || action.DirectStale? || action.RelayDead?
    || (action.Takes? && h.stage.Running? && h.queue[0] == PathDown(h.stage.attempt))
  }

  /**
   A visit ends at a turn exactly if it says goodbye, hears one, fails, reads during an
   exchange anything but the frame it waits for, or is not held and loses its path or its
   chance of one.
   */
  lemma VisitEndsIff(h: House, action: Action)
    requires Enabled(h, action)
    ensures !Act(h, action).house.live <==>
              || action.Stops? || action.Fails?
              || (action.Takes? && h.stage.Running? && h.queue[0] == Goodbye)
              || (action.Takes? && !h.stage.Running? && !IsAwaited(h, h.queue[0]))
              || (!h.held && LosesThePath(h, action))
    ensures Act(h, action).wrote != [] && Act(h, action).wrote[0] == Goodbye <==> action.Stops?
  {
  }

  lemma EndingByFrameTells(h: House, frame: Frame, draw: Draw)
    requires h.live && !Handle(h, frame, draw).house.live && DirectIffWatched(h)
    ensures Handle(h, frame, draw).house.events == h.events +
              if h.stage.Running? && frame == Goodbye then [PeerSaidGoodbye] else if WatchesLive(h) then [FellBack] else []
  {
    assert h.events + [] == h.events;
  }

  /** What a house tells as its visit ends. */
  lemma EndingTells(h: House, action: Action)
    requires Enabled(h, action) && !Act(h, action).house.live && DirectIffWatched(h)
    ensures Act(h, action).house.events == h.events + match action
            case Stops => [SaidGoodbye]
            case DirectStale => [PathStale, FellBack]
            case RelayDead => [PathDead]
            case Takes(_) =>
              if h.stage.Running? && h.queue[0] == Goodbye then [PeerSaidGoodbye]
              else if WatchesLive(h) then [FellBack] else []
            case _ => []
  {
    hide Handle, Path.FellBack;
    if action.Takes? {
      EndingByFrameTells(h.(queue := h.queue[1..]), h.queue[0], action.draw);
    } else {
      assert h.events + [] == h.events && h.events + [PathStale] + [FellBack] == h.events + [PathStale, FellBack];
    }
  }

  /**
   The exchange of a rerun reads what the responder still has to say about the attempt
   being left as a breach of the protocol: in every reachable world it survives the next
   frame if and only if that frame is `Candidates`. The responder's own wait never reads
   anything else.
   */
  lemma ExchangeSurvivesIff(w: World, draw: Draw)
    requires Reachable(w)
    ensures w.i.stage.Exchanging? && Reads(w.i) ==>
              (Act(w.i, Takes(draw)).house.live <==> w.i.queue[0].Candidates?)
    ensures w.r.stage.Awaiting? && Reads(w.r) ==> w.r.queue[0].Candidates? && Act(w.r, Takes(draw)).house.live
  {
    ReachableKeeps(w);
    hide DoorbellSafety.Local, HandleRunning, Pending, Streams;
    if w.i.stage.Exchanging? && Reads(w.i) {
      FirstInExchange(w.i, w.r, ToReadByR(w), ToReadByI(w));
      assert ToReadByI(w)[0] == w.i.queue[0];
    }
    if w.r.stage.Awaiting? && Reads(w.r) {
      WhatIsAwaited(w.i, w.r, ToReadByR(w), ToReadByI(w), w.drawn);
      assert ToReadByR(w)[0] == w.r.queue[0];
    }
  }

  lemma FirstInExchange(i: House, r: House, inR: seq<Frame>, inI: seq<Frame>)
    requires i.stage.Exchanging? && inI != [] && (Pending(i, r, inR, inI) || Answered(i, r, inR, inI))
    ensures inI[0].Candidates? ==> inI[0].attempt == i.stage.attempt
  {
    hide Streams;
    if Answered(i, r, inR, inI) {
      var k: nat :| AnsweredAt(i, r, inI, k);
    } else {
      OneOfATail(r, inI);
    }
  }

  lemma WhatIsAwaited(i: House, r: House, inR: seq<Frame>, inI: seq<Frame>, drawn: set<AttemptId>)
    requires Protocol(i, r, inR, inI, drawn) && r.stage.Awaiting? && inR != []
    ensures inR[0].Candidates?
  {
  }

  /** The initiator's path dies and it names a rerun while the responder is still winning the old attempt. */
  function Crossing(): seq<Step> {
    [ByI(Begins(Draw(1, 11))), DeliverToR, ByR(Takes(Draw(0, 22))), DeliverToI, ByI(Takes(Draw(0, 0))),
     ByI(StartArrives), ByR(StartArrives), ByI(Wins(SocketAddr(V4(203, 0, 113, 1), 4433), 5)), ByI(DirectStale),
     ByI(DirectDead(Draw(2, 33))), ByR(Wins(SocketAddr(V4(203, 0, 113, 2), 4433), 6)), DeliverToI, ByI(Takes(Draw(0, 0)))]
  }

  predicate EndsAVisit(step: Step) {
    match step
    case ByI(action) => action.Stops? || action.Fails?
    case ByR(action) => action.Stops? || action.Fails?
    case _ => false
  }

  lemma IActs(w: World, action: Action, after: House, wrote: seq<Frame>)
    requires Enabled(w.i, action) && Act(w.i, action) == Turn(after, wrote, {})
    ensures Next(w, ByI(action)) == w.(i := after, toR := w.toR + wrote)
  {
    assert w.drawn + {} == w.drawn;
    hide Act, Enabled;
  }

  lemma RActs(w: World, action: Action, after: House, wrote: seq<Frame>)
    requires Enabled(w.r, action) && Act(w.r, action) == Turn(after, wrote, {})
    ensures Next(w, ByR(action)) == w.(r := after, toI := w.toI + wrote)
  {
    assert w.drawn + {} == w.drawn;
    hide Act, Enabled;
  }

  lemma IOpens(w: World, action: Action, after: House, draw: Draw)
    requires Enabled(w.i, action) && draw.attempt !in w.drawn
    requires Act(w.i, action) == Turn(after, [Candidates(draw.attempt, draw.half, w.i.noPunch)], {draw.attempt})
    ensures Next(w, ByI(action)) == w.(i := after, toR := w.toR + [Candidates(draw.attempt, draw.half, w.i.noPunch)],
                                       drawn := w.drawn + {draw.attempt})
  {
    hide Act, Enabled;
  }

  lemma ToTheResponder(w: World, frame: Frame)
    requires w.r.live && w.toR == [frame] && w.r.queue == []
    ensures Next(w, DeliverToR) == w.(r := w.r.(queue := [frame]), toR := [])
  {
  }

  lemma ToTheInitiator(w: World, frame: Frame)
    requires w.i.live && w.toI == [frame] && w.i.queue == []
    ensures Next(w, DeliverToI) == w.(i := w.i.(queue := [frame]), toI := [])
  {
  }

  /** Both houses in one attempt, waiting for the start signal. */
  lemma CrossingMeets(w0: World, s: seq<Step>)
    requires w0 == Start(true, false, true, false) && s == Crossing()
    ensures var w := Next(Next(Next(Next(Next(w0, s[0]), s[1]), s[2]), s[3]), s[4]);
            && w.i == w0.i.(stage := Running(1, 11, 22, false, Starting)) && w.r == w0.r.(stage := Running(1, 11, 22, false, Starting))
            && w.toI == [] && w.toR == [] && w.drawn == {1}
  {
    hide Next;
    var asks, answers := Candidates(1, 11, false), Candidates(1, 22, false);
    var i1, r3 := w0.i.(stage := Exchanging(1, 11)), w0.r.(stage := Running(1, 11, 22, false, Starting));
    IOpens(w0, Begins(Draw(1, 11)), i1, Draw(1, 11));
    var w1 := Next(w0, s[0]);
    assert w1.toR == [asks];
    ToTheResponder(w1, asks);
    var w2 := Next(w1, s[1]);
    RActs(w2, Takes(Draw(0, 22)), r3, [answers]);
    var w3 := Next(w2, s[2]);
    assert w3.toI == [answers];
    ToTheInitiator(w3, answers);
    var w4 := Next(w3, s[3]);
    IActs(w4, Takes(Draw(0, 0)), w0.i.(stage := Running(1, 11, 22, false, Starting)), []);
  }

  /** One house alone: its path comes up, goes stale and dies. */
  lemma UpThenDead(h: House, addr: SocketAddr, draw: Draw)
    requires h.live && h.held && h.role.Initiator? && h.stage == Running(1, 11, 22, false, Probing)
    ensures var up := Win(h, addr, 5).house;
            var stale := GoStale(up).house;
            var dead := GoDead(stale, draw);
            && up.stage.Running? && stale.stage.Running?
            && Enabled(h, Wins(addr, 5)) && Act(h, Wins(addr, 5)) == Turn(up, [PathUp(1)], {})
            && Enabled(up, DirectStale) && Act(up, DirectStale) == Turn(stale, [PathDown(1)], {})
            && Enabled(stale, DirectDead(draw)) && Act(stale, DirectDead(draw)) == dead
            && dead.wrote == [Candidates(draw.attempt, draw.half, stale.noPunch)] && dead.drew == {draw.attempt}
            && dead.house.live && dead.house.held && dead.house.queue == h.queue
            && dead.house.stage == Exchanging(draw.attempt, draw.half)
  {
    hide Path.Sampled, Path.Upgraded, Path.FellBack;
  }

  /** Both get the start signal. */
  lemma CrossingStarts(w: World, s: seq<Step>)
    requires s == Crossing()
    requires w.i.live && w.i.stage == Running(1, 11, 22, false, Starting) && w.r.live && w.r.stage == w.i.stage
    ensures Next(Next(w, s[5]), s[6]) == w.(i := InPhase(w.i, Probing), r := InPhase(w.r, Probing))
  {
    hide Next;
    IActs(w, StartArrives, InPhase(w.i, Probing), []);
    var w1 := Next(w, s[5]);
    assert w1.toR == w.toR;
    RActs(w1, StartArrives, InPhase(w.r, Probing), []);
    assert w1.toI + [] == w.toI;
  }

  /** The initiator's path comes up, goes stale and dies, and it names a rerun. */
  lemma CrossingReruns(w: World, wins: Action, stales: Action, dies: Action, draw: Draw)
    requires w.i.live && w.i.held && w.i.role.Initiator? && w.i.stage == Running(1, 11, 22, false, Probing)
    requires wins.Wins? && wins.rtt == 5 && stales == DirectStale && dies == DirectDead(draw) && draw.attempt !in w.drawn
    ensures var after := Next(Next(Next(w, ByI(wins)), ByI(stales)), ByI(dies));
            && after.i.live && after.i.held && after.i.queue == w.i.queue && after.i.stage == Exchanging(draw.attempt, draw.half)
            && after.r == w.r && after.toI == w.toI
  {
    hide Next, Act, Enabled, Win, GoStale, GoDead;
    UpThenDead(w.i, wins.addr, draw);
    var up := Win(w.i, wins.addr, 5).house;
    var stale := GoStale(up).house;
    IActs(w, wins, up, [PathUp(1)]);
    var w1 := Next(w, ByI(wins));
    IActs(w1, stales, stale, [PathDown(1)]);
    var w2 := Next(w1, ByI(stales));
    IOpens(w2, dies, GoDead(stale, draw).house, draw);
  }

  /** The responder's `PathUp` for the old attempt is read in the new exchange, and the visit is over. */
  lemma CrossingEnds(w: World, s: seq<Step>)
    requires s == Crossing() && w.toI == [] && w.r.live && w.r.stage == Running(1, 11, 22, false, Probing)
    requires w.i.live && w.i.held && w.i.queue == [] && w.i.stage == Exchanging(2, 33)
    ensures var after := Next(Next(Next(w, s[10]), s[11]), s[12]);
            !after.i.live && after.i.held && after.i.stage == Exchanging(2, 33)
  {
    hide Next;
    var addr := SocketAddr(V4(203, 0, 113, 2), 4433);
    RActs(w, Wins(addr, 6), Win(w.r, addr, 6).house, [PathUp(1)]);
    var w1 := Next(w, s[10]);
    assert w1.toI == [PathUp(1)];
    ToTheInitiator(w1, PathUp(1));
    var w2 := Next(w1, s[11]);
    IActs(w2, Takes(Draw(0, 0)), Exit(w.i), []);
  }

  /** A held visit that nobody ends, and in which nothing fails, is over after thirteen steps. */
  lemma CrossingEndsAHeldVisit()
    ensures var w := Run(Start(true, false, true, false), Crossing());
            !w.i.live && w.i.held && w.i.stage == Exchanging(2, 33)
    ensures forall k :: 0 <= k < |Crossing()| ==> !EndsAVisit(Crossing()[k])
  {
    var s, w0 := Crossing(), Start(true, false, true, false);
    hide Next, Act, Enabled, Run, Crossing;
    CrossingLength(s);
    CrossingMeets(w0, s);
    var w5 := Next(Next(Next(Next(Next(w0, s[0]), s[1]), s[2]), s[3]), s[4]);
    CrossingStarts(w5, s);
    var w7 := Next(Next(w5, s[5]), s[6]);
    CrossingSteps(s);
    CrossingReruns(w7, s[7].action, s[8].action, s[9].action, s[9].action.draw);
    var w10 := Next(Next(Next(w7, s[7]), s[8]), s[9]);
    CrossingEnds(w10, s);
    RunsOf(w0, s);
  }

  lemma CrossingSteps(s: seq<Step>)
    requires s == Crossing()
    ensures s[7].ByI? && s[7].action.Wins? && s[7].action.rtt == 5 && s[8] == ByI(DirectStale) && s[9] == ByI(DirectDead(Draw(2, 33)))
  {
  }

  lemma CrossingLength(s: seq<Step>)
    requires s == Crossing()
    ensures |s| == 13 && forall k :: 0 <= k < |s| ==> !EndsAVisit(s[k])
  {
  }

  lemma RunsOf(w0: World, s: seq<Step>)
    requires |s| == 13
    ensures var w := Next(Next(Next(Next(Next(Next(Next(w0, s[0]), s[1]), s[2]), s[3]), s[4]), s[5]), s[6]);
            Run(w0, s) == Next(Next(Next(Next(Next(Next(w, s[7]), s[8]), s[9]), s[10]), s[11]), s[12])
  {
    hide Next, Run;
    DoorbellTraces.RunsNothing(w0);
    assert s[..0] == [] && s[..13] == s;
    DoorbellTraces.RunsThree(w0, s, 0);
    DoorbellTraces.RunsThree(w0, s, 3);
    DoorbellTraces.RunsThree(w0, s, 6);
    DoorbellTraces.RunsThree(w0, s, 9);
    DoorbellTraces.RunsOn(w0, s, 12);
  }
}

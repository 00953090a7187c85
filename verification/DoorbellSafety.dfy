/**
 What every run of the two-house doorbell keeps. The invariant has three parts:
 `Local`, one house's path against its phase and its events; `Protocol`, what
 the two stages say about the frames still between the houses; and the size of
 the queues, which follows from `Protocol`.
 */
module DoorbellSafety {
  import opened Common
  import opened Addresses
  import opened Doorbell
  import Path

  // ----- one house: path, phase, events -----

  predicate IsSwitch(event: Event) {
    event.Upgraded? || event.Recovered? || event.FellBack?
  }

  /** The events that report a path switch, in order. */
  function Switches(events: seq<Event>): seq<Event> {
    if events == [] then []
    else
      var rest := Switches(events[..|events| - 1]);
      if IsSwitch(events[|events| - 1]) then rest + [events[|events| - 1]] else rest
  }

  /** Up, down, up again, down again: the first up is `Upgraded` and every later one `Recovered`. */
  function SwitchAt(k: nat): Event {
    if k == 0 then Upgraded else if k % 2 == 1 then FellBack else Recovered
  }

  predicate Alternates(switches: seq<Event>) {
    forall k :: 0 <= k < |switches| ==> switches[k] == SwitchAt(k)
  }

  predicate WatchesLive(h: House) {
    h.stage.Running? && h.stage.phase == Watching(Live)
  }

  /** The events tell the path's story: one switch event per epoch, the last one naming where traffic is. */
  predicate Told(events: seq<Event>, path: Path.State, fellBack: bool) {
    var switches := Switches(events);
    && Alternates(switches)
    && path.epoch == |switches|
    && (path.kind.Direct? <==> |switches| % 2 == 1)
    && (fellBack <==> |switches| >= 2)
  }

  predicate Local(h: House) {
    && Told(h.events, h.path, h.fellBack)
    && DirectIffWatched(h)
  }

  lemma SwitchesOfOneMore(events: seq<Event>, event: Event)
    ensures Switches(events + [event]) == if IsSwitch(event) then Switches(events) + [event] else Switches(events)
  {
    assert (events + [event])[..|events|] == events;
  }

  // ----- between the houses -----

  /** A path this attempt has left, or will never take: nothing makes it direct again in this attempt. */
  predicate Settled(phase: Phase) {
    phase.Relayed? || phase == Watching(Stale)
  }

  /** What a house in this phase of attempt `a` may still have unread on its stream, after its `Candidates`. */
  predicate Tail(phase: Phase, a: AttemptId, s: seq<Frame>) {
    || s == []
    || (s == [PathUp(a)] && (phase == Watching(Live) || Settled(phase)))
    || ((s == [PathDown(a)] || s == [PathUp(a), PathDown(a)]) && Settled(phase))
  }

  /** A goodbye is the last frame of a house that has left. */
  function SansGoodbye(h: House, s: seq<Frame>): seq<Frame> {
    if !h.live && s != [] && s[|s| - 1] == Goodbye then s[..|s| - 1] else s
  }

  predicate Streams(h: House, s: seq<Frame>) {
    h.stage.Running? && Tail(h.stage.phase, h.stage.attempt, SansGoodbye(h, s))
  }

  /** The initiator's `Candidates` has not been read yet. */
  predicate Pending(i: House, r: House, inR: seq<Frame>, inI: seq<Frame>)
    requires i.stage.Exchanging?
  {
    && inR != []
    && inR[|inR| - 1] == Candidates(i.stage.attempt, i.stage.half, i.noPunch)
    && var before := inR[..|inR| - 1];
       || (r.stage.Awaiting? && before == [] && inI == [])
       || (&& r.stage.Running?
           && r.stage.attempt != i.stage.attempt
           && Tail(Relayed(Live), r.stage.attempt, before)
           && (r.live ==> Settled(r.stage.phase) || PathDown(r.stage.attempt) in before)
           && Streams(r, inI))
  }

  predicate IsPathFrame(frame: Frame) {
    frame.PathUp? || frame.PathDown?
  }

  /** The responder's answer is frame `k` of what the initiator has yet to read. */
  predicate AnsweredAt(i: House, r: House, inI: seq<Frame>, k: nat)
    requires i.stage.Exchanging?
  {
    && k <= 2 && k < |inI|
    && (forall j :: 0 <= j < k ==> IsPathFrame(inI[j]))
    && r.stage.Running?
    && r.stage.attempt == i.stage.attempt
    && r.stage.halfInitiator == i.stage.half
    && r.stage.skip == (i.noPunch || r.noPunch)
    && inI[k] == Candidates(i.stage.attempt, r.stage.halfResponder, r.noPunch)
    && Streams(r, inI[k + 1..])
  }

  ghost predicate Answered(i: House, r: House, inR: seq<Frame>, inI: seq<Frame>)
    requires i.stage.Exchanging?
  {
    inR == [] && exists k: nat :: AnsweredAt(i, r, inI, k)
  }

  /** Both houses are in one attempt, with the same halves and the same decision to probe. */
  predicate Together(i: House, r: House, inR: seq<Frame>, inI: seq<Frame>)
    requires i.stage.Running?
  {
    && r.stage.Running?
    && r.stage.(phase := i.stage.phase) == i.stage
    && Streams(i, inR)
    && Streams(r, inI)
    && (i.stage.phase == Watching(Stale) && r.live ==> Settled(r.stage.phase) || PathDown(i.stage.attempt) in inR)
  }

  ghost predicate Protocol(i: House, r: House, inR: seq<Frame>, inI: seq<Frame>, drawn: set<AttemptId>) {
    && i.role == Initiator && r.role == Responder
    && (r.stage.Running? ==> r.stage.attempt in drawn)
    && match i.stage
       case Opening => r.stage.Awaiting? && inR == [] && inI == []
       case Awaiting => false
       case Exchanging(a, _) => a in drawn && (Pending(i, r, inR, inI) || Answered(i, r, inR, inI))
       case Running(a, _, _, _, _) => a in drawn && Together(i, r, inR, inI)
  }

  function ToReadByR(w: World): seq<Frame> {
    w.r.queue + w.toR
  }

  function ToReadByI(w: World): seq<Frame> {
    w.i.queue + w.toI
  }

  ghost predicate Between(w: World) {
    Protocol(w.i, w.r, ToReadByR(w), ToReadByI(w), w.drawn)
  }

  ghost predicate Inv(w: World) {
    && Local(w.i) && Local(w.r)
    && Between(w)
    && w.dropped == 0
  }

  /** A handful of frames per attempt: never more than six unread either way. */
  lemma FewUnread(i: House, r: House, inR: seq<Frame>, inI: seq<Frame>, drawn: set<AttemptId>)
    requires Protocol(i, r, inR, inI, drawn)
    ensures |inR| <= 3 && |inI| <= 6
  {
  }

  // ----- one turn keeps the local part -----

  /** A house that adopts a rerun must not still be direct. */
  predicate JoinsOnRelay(h: House, frame: Frame) {
    h.stage.Running? && frame.Candidates? && frame.attempt != h.stage.attempt ==> !WatchesLive(h)
  }

  lemma QuietEvent(events: seq<Event>, event: Event, path: Path.State, fellBack: bool)
    requires Told(events, path, fellBack) && !IsSwitch(event)
    ensures Told(events + [event], path, fellBack)
  {
    SwitchesOfOneMore(events, event);
  }

  lemma UpEvent(events: seq<Event>, path: Path.State, fellBack: bool, addr: SocketAddr, rtt: nat)
    requires Told(events, path, fellBack) && path.kind.Relay?
    ensures Told(events + [if fellBack then Recovered else Upgraded], Path.Sampled(Path.Upgraded(path, addr), rtt), fellBack)
  {
    SwitchesOfOneMore(events, if fellBack then Recovered else Upgraded);
  }

  lemma DownEvent(events: seq<Event>, path: Path.State, fellBack: bool)
    requires Told(events, path, fellBack) && path.kind.Direct?
    ensures Told(events + [FellBack], Path.FellBack(path), true)
  {
    SwitchesOfOneMore(events, FellBack);
  }

  lemma LeaveIsTold(h: House)
    requires Told(h.events, h.path, h.fellBack)
    ensures var left := LeaveDirect(h); Told(left.events, left.path, left.fellBack)
  {
    if h.path.kind.Direct? {
      DownEvent(h.events, h.path, h.fellBack);
    }
  }

  lemma SupersededIsTold(h: House)
    requires Told(h.events, h.path, h.fellBack) && h.stage.Running?
    ensures var s := NoteSuperseded(h); Told(s.events, s.path, s.fellBack)
  {
    QuietEvent(h.events, PathDead, h.path, h.fellBack);
  }

  lemma {:induction false} TakeIsTold(h: House, frame: Frame, draw: Draw)
    requires Told(h.events, h.path, h.fellBack) && h.stage.Running?
    ensures var after := HandleRunning(h, frame, draw).house; Told(after.events, after.path, after.fellBack)
  {
    hide Told;
    match frame {
      case Goodbye => QuietEvent(h.events, PeerSaidGoodbye, h.path, h.fellBack);
      case PathUp(_) =>
      case Candidates(_, _, _) => SupersededIsTold(h);
      case PathDown(_) =>
        LeaveIsTold(h);
        SupersededIsTold(LeaveDirect(h));
    }
  }

  lemma ActIsTold(h: House, action: Action)
    requires Local(h) && Enabled(h, action)
    ensures var after := Act(h, action).house; Told(after.events, after.path, after.fellBack)
  {
    match action {
      case Takes(draw) =>
        if h.stage.Running? {
          TakeIsTold(h.(queue := h.queue[1..]), h.queue[0], draw);
        }
      case Wins(addr, rtt) => UpEvent(h.events, h.path, h.fellBack, addr, rtt);
      case DirectStale =>
        QuietEvent(h.events, PathStale, h.path, h.fellBack);
        DownEvent(h.events + [PathStale], h.path, h.fellBack);
      case DirectDead(_) => QuietEvent(h.events, PathDead, h.path, h.fellBack);
      case RelayStale => QuietEvent(h.events, PathStale, h.path, h.fellBack);
      case RelayDead => QuietEvent(h.events, PathDead, h.path, h.fellBack);
      case RelayBack => QuietEvent(h.events, RelayAnswersAgain, h.path, h.fellBack);
      case Stops => QuietEvent(h.events, SaidGoodbye, h.path, h.fellBack);
      case _ =>
    }
  }

  predicate DirectIffWatched(h: House) {
    h.live ==> (h.path.kind.Direct? <==> WatchesLive(h))
  }

  lemma ActKeepsDirect(h: House, action: Action)
    requires DirectIffWatched(h) && Enabled(h, action)
    requires action.Takes? ==> JoinsOnRelay(h, h.queue[0])
    ensures DirectIffWatched(Act(h, action).house)
  {
  }

  // ----- the initiator's turns -----

  lemma ExchangingTakes(i: House, r: House, inR: seq<Frame>, inI: seq<Frame>, drawn: set<AttemptId>, draw: Draw)
    requires Protocol(i, r, inR, inI, drawn) && i.live && inI != [] && i.stage.Exchanging?
    ensures var turn := Handle(i, inI[0], draw);
            turn.wrote == [] && turn.drew == {} && Protocol(turn.house, r, inR, inI[1..], drawn)
  {
    var turn := Handle(i, inI[0], draw);
    if Pending(i, r, inR, inI) {
      assert Pending(turn.house, r, inR, inI[1..]);
    } else {
      var k: nat :| AnsweredAt(i, r, inI, k);
      if k == 0 {
        assert Together(turn.house, r, inR, inI[1..]);
      } else {
        assert inI[1..][k..] == inI[k + 1..];
        assert AnsweredAt(turn.house, r, inI[1..], k - 1);
      }
    }
  }

  /** The initiator never reads `Candidates` while an attempt runs, so it never adopts one. */
  lemma FirstIsPathFrame(r: House, inI: seq<Frame>)
    requires Streams(r, inI) && inI != []
    ensures inI[0] == Goodbye || inI[0] == PathUp(r.stage.attempt) || (inI[0] == PathDown(r.stage.attempt) && Settled(r.stage.phase))
    ensures Streams(r, inI[1..])
  {
    var s := SansGoodbye(r, inI);
    assert s == [] ==> inI == [Goodbye];
    assert s != [] ==> inI[0] == s[0] && SansGoodbye(r, inI[1..]) == s[1..];
  }

  /** A rerun is named only once the responder has left the old path for good. */
  lemma OpensPending(i: House, r: House, inR: seq<Frame>, inI: seq<Frame>, draw: Draw)
    requires i.stage.Running? && i.live && Together(i, r, inR, inI) && draw.attempt != i.stage.attempt
    requires r.live ==> Settled(r.stage.phase) || PathDown(i.stage.attempt) in inR
    requires Settled(i.stage.phase) || Settled(r.stage.phase)
    requires Tail(Relayed(Live), i.stage.attempt, inR)
    ensures var turn := Open(i, draw); Pending(turn.house, r, inR + turn.wrote, inI)
  {
    var turn := Open(i, draw);
    assert (inR + turn.wrote)[..|inR|] == inR;
    hide Tail;
  }

  /** Read by a house back on the relay, any tail of the stream is one it may have. */
  lemma TailOnRelay(h: House, s: seq<Frame>)
    requires Streams(h, s) && h.live
    ensures Tail(Relayed(Live), h.stage.attempt, s)
  {
  }

  lemma RunningTakes(i: House, r: House, inR: seq<Frame>, inI: seq<Frame>, drawn: set<AttemptId>, draw: Draw)
    requires Protocol(i, r, inR, inI, drawn) && i.live && inI != [] && i.stage.Running?
    requires Handle(i, inI[0], draw).drew !! drawn
    ensures !inI[0].Candidates?
    ensures var turn := Handle(i, inI[0], draw);
            Protocol(turn.house, r, inR + turn.wrote, inI[1..], drawn + turn.drew)
  {
    hide Tail, Together, Streams, Pending, HandleRunning;
    TogetherStreams(i, r, inR, inI);
    FirstIsPathFrame(r, inI);
    TailOnRelay(i, inR);
    PathFrameTaken(i, inI[0], draw);
    assert inR + [] == inR && drawn + {} == drawn;
    if HandleRunning(i, inI[0], draw).wrote != [] {
      RunningReopens(i, r, inR, inI, draw);
    } else {
      RunningStays(i, r, inR, inI, draw);
    }
  }

  lemma TogetherStreams(i: House, r: House, inR: seq<Frame>, inI: seq<Frame>)
    requires i.stage.Running? && Together(i, r, inR, inI)
    ensures Streams(i, inR) && Streams(r, inI) && r.stage.Running? && r.stage.attempt == i.stage.attempt
  {
  }

  /** The initiator names an attempt when its peer left the path of a held visit, and otherwise stays in its own. */
  lemma PathFrameTaken(i: House, frame: Frame, draw: Draw)
    requires i.stage.Running? && i.role == Initiator
    requires frame == Goodbye || frame == PathUp(i.stage.attempt) || frame == PathDown(i.stage.attempt)
    ensures var turn := HandleRunning(i, frame, draw);
            && turn.house.role == Initiator
            && (if frame.PathDown? && i.held then
                  && turn.wrote == [Candidates(draw.attempt, draw.half, i.noPunch)] && turn.drew == {draw.attempt}
                  && turn.house.stage == Exchanging(draw.attempt, draw.half) && turn.house.noPunch == i.noPunch
                else
                  && turn.wrote == [] && turn.drew == {}
                  && turn.house.stage.Running? && turn.house.stage.attempt == i.stage.attempt)
  {
  }

  lemma RunningReopens(i: House, r: House, inR: seq<Frame>, inI: seq<Frame>, draw: Draw)
    requires i.stage.Running? && i.live && i.role == Initiator && Together(i, r, inR, inI) && inI != []
    requires inI[0] == PathDown(i.stage.attempt) && Settled(r.stage.phase) && i.held
    requires draw.attempt != i.stage.attempt && Tail(Relayed(Live), i.stage.attempt, inR) && Streams(r, inI[1..])
    ensures var turn := HandleRunning(i, inI[0], draw);
            && turn.wrote == [Candidates(draw.attempt, draw.half, i.noPunch)] && turn.drew == {draw.attempt}
            && turn.house.stage == Exchanging(draw.attempt, draw.half) && turn.house.role == Initiator
            && Pending(turn.house, r, inR + turn.wrote, inI[1..])
  {
    hide Tail, Streams, HandleRunning;
    PathFrameTaken(i, inI[0], draw);
    var turn := HandleRunning(i, inI[0], draw);
    assert (inR + turn.wrote)[..|inR|] == inR;
  }

  lemma RunningStays(i: House, r: House, inR: seq<Frame>, inI: seq<Frame>, draw: Draw)
    requires i.stage.Running? && i.live && i.role == Initiator && Together(i, r, inR, inI) && inI != []
    requires inI[0] == Goodbye || inI[0] == PathUp(i.stage.attempt) || (inI[0] == PathDown(i.stage.attempt) && Settled(r.stage.phase))
    requires Tail(Relayed(Live), i.stage.attempt, inR) && Streams(r, inI[1..])
    requires HandleRunning(i, inI[0], draw).wrote == []
    ensures var turn := HandleRunning(i, inI[0], draw);
            && turn.drew == {} && turn.house.role == Initiator && turn.house.stage.Running?
            && turn.house.stage.attempt == i.stage.attempt && Together(turn.house, r, inR, inI[1..])
  {
    var turn := HandleRunning(i, inI[0], draw);
    assert i.live ==> SansGoodbye(i, inR) == inR;
    assert inI[0].PathDown? ==> turn.house.stage.phase == Relayed(Live) || !turn.house.live;
    LeavingKeepsStream(i, turn.house, inR);
    hide Tail, Streams;
  }

  /** Leaving the house, or the path, takes no frame back. */
  lemma LeavingKeepsStream(before: House, after: House, s: seq<Frame>)
    requires Streams(before, s) && before.live && after.stage.Running? && after.stage.attempt == before.stage.attempt
    requires after.stage.phase == before.stage.phase || after.stage.phase == Relayed(Live)
    ensures Streams(after, s)
  {
    assert s == [] || s[|s| - 1] != Goodbye;
  }

  lemma {:induction false} InitiatorActs(i: House, r: House, inR: seq<Frame>, inI: seq<Frame>, drawn: set<AttemptId>, action: Action)
    requires Protocol(i, r, inR, inI, drawn) && Enabled(i, action) && !action.Takes?
    requires Act(i, action).drew !! drawn
    ensures var turn := Act(i, action);
            Protocol(turn.house, r, inR + turn.wrote, inI, drawn + turn.drew)
  {
    match i.stage {
      case Opening => OpeningActs(i, r, inR, inI, drawn, action);
      case Exchanging(_, _) => ExchangingActs(i, r, inR, inI, drawn, action);
      case Running(_, _, _, _, _) =>
        if action.DirectDead? && Act(i, action).wrote != [] {
          InitiatorReruns(i, r, inR, inI, drawn, action);
        } else {
          InitiatorGoesOn(i, r, inR, inI, drawn, action);
        }
    }
  }

  lemma OpeningActs(i: House, r: House, inR: seq<Frame>, inI: seq<Frame>, drawn: set<AttemptId>, action: Action)
    requires Protocol(i, r, inR, inI, drawn) && Enabled(i, action) && !action.Takes? && i.stage.Opening?
    ensures var turn := Act(i, action);
            Protocol(turn.house, r, inR + turn.wrote, inI, drawn + turn.drew)
  {
    assert inR + [] == inR;
    assert forall f: Frame :: [f][..0] == [];
  }

  lemma ExchangingActs(i: House, r: House, inR: seq<Frame>, inI: seq<Frame>, drawn: set<AttemptId>, action: Action)
    requires Protocol(i, r, inR, inI, drawn) && Enabled(i, action) && !action.Takes? && i.stage.Exchanging?
    ensures var turn := Act(i, action);
            Protocol(turn.house, r, inR + turn.wrote, inI, drawn + turn.drew)
  {
    var turn := Act(i, action);
    assert action.Fails? && turn == Quiet(Exit(i));
    assert inR + [] == inR && drawn + {} == drawn;
    hide Streams, Tail;
    if Answered(i, r, inR, inI) {
      var k: nat :| AnsweredAt(i, r, inI, k);
      assert AnsweredAt(turn.house, r, inI, k);
    }
  }

  lemma InitiatorReruns(i: House, r: House, inR: seq<Frame>, inI: seq<Frame>, drawn: set<AttemptId>, action: Action)
    requires Protocol(i, r, inR, inI, drawn) && Enabled(i, action) && i.stage.Running?
    requires action.DirectDead? && Act(i, action).wrote != [] && Act(i, action).drew !! drawn
    ensures var turn := Act(i, action);
            Protocol(turn.house, r, inR + turn.wrote, inI, drawn + turn.drew)
  {
    var turn := Act(i, action);
    TailOnRelay(i, inR);
    OpensPending(i, r, inR, inI, action.draw);
    hide Tail, Streams;
    assert Pending(turn.house, r, inR + turn.wrote, inI);
    hide Pending;
  }

  lemma InitiatorGoesOn(i: House, r: House, inR: seq<Frame>, inI: seq<Frame>, drawn: set<AttemptId>, action: Action)
    requires Protocol(i, r, inR, inI, drawn) && Enabled(i, action) && !action.Takes? && i.stage.Running?
    requires !(action.DirectDead? && Act(i, action).wrote != [])
    ensures var turn := Act(i, action);
            Protocol(turn.house, r, inR + turn.wrote, inI, drawn + turn.drew)
  {
    var turn := Act(i, action);
    assert inR + [] == inR && drawn + {} == drawn;
    GoesOnStreams(i, action, inR);
    hide Tail, Streams;
    assert action.DirectStale? ==> PathDown(i.stage.attempt) in inR + turn.wrote;
    assert Together(turn.house, r, inR + turn.wrote, inI);
  }

  /** What may follow in a phase may follow in one reached from it without writing, or once nobody writes any more. */
  lemma QuietTail(h: House, after: House, s: seq<Frame>)
    requires Streams(h, s) && h.live && after.stage.Running? && after.stage.attempt == h.stage.attempt
    requires || after.stage.phase == h.stage.phase || Settled(after.stage.phase)
             || (h.stage.phase.Starting? && after.stage.phase.Probing?)
    ensures Streams(after, s)
  {
    assert s == [] || s[|s| - 1] != Goodbye;
  }

  lemma TailWithOneMore(h: House, after: House, s: seq<Frame>, wrote: Frame)
    requires Streams(h, s) && h.live && after.stage.Running? && after.stage.attempt == h.stage.attempt
    requires || (wrote == Goodbye && !after.live && after.stage.phase == h.stage.phase)
             || (wrote == PathUp(h.stage.attempt) && h.stage.phase.Probing? && after.stage.phase == Watching(Live))
             || (wrote == PathDown(h.stage.attempt) && h.stage.phase == Watching(Live) && after.stage.phase == Watching(Stale))
    ensures Streams(after, s + [wrote])
  {
    assert (s + [wrote])[..|s|] == s && (s + [wrote])[|s|] == wrote;
    assert s == [] || s[|s| - 1] != Goodbye;
  }

  /** What a running house adds to its own stream is what its next phase may have on it. */
  lemma GoesOnStreams(h: House, action: Action, s: seq<Frame>)
    requires Enabled(h, action) && !action.Takes? && h.stage.Running? && Streams(h, s)
    requires !(action.DirectDead? && Act(h, action).wrote != [])
    ensures var turn := Act(h, action);
            && turn.drew == {} && turn.house.stage.Running?
            && turn.house.stage == h.stage.(phase := turn.house.stage.phase)
            && Streams(turn.house, s + turn.wrote)
  {
    hide Streams, Tail;
    var turn := Act(h, action);
    assert s + [] == s;
    match action {
      case Wins(_, _) => TailWithOneMore(h, turn.house, s, PathUp(h.stage.attempt));
      case DirectStale => TailWithOneMore(h, turn.house, s, PathDown(h.stage.attempt));
      case Stops => TailWithOneMore(h, turn.house, s, Goodbye);
      case _ => QuietTail(h, turn.house, s);
    }
  }

  // ----- the responder's turns -----

  lemma TogetherTakes(i: House, r: House, inR: seq<Frame>, inI: seq<Frame>, draw: Draw)
    requires i.role == Initiator && r.role == Responder && i.stage.Running? && Together(i, r, inR, inI)
    requires r.live && inR != []
    ensures JoinsOnRelay(r, inR[0])
    ensures var turn := Handle(r, inR[0], draw);
            turn.wrote == [] && turn.drew == {} && Together(i, turn.house, inR[1..], inI)
  {
    var s := SansGoodbye(i, inR);
    assert s == [] ==> inR == [Goodbye];
    assert s != [] ==> inR[0] == s[0] && SansGoodbye(i, inR[1..]) == s[1..];
  }

  /** Frames of the attempt being left come before the rerun's `Candidates`. */
  lemma PendingTakesEarlier(i: House, r: House, inR: seq<Frame>, inI: seq<Frame>, draw: Draw)
    requires i.role == Initiator && r.role == Responder && i.stage.Exchanging? && Pending(i, r, inR, inI)
    requires r.live && |inR| > 1
    ensures JoinsOnRelay(r, inR[0])
    ensures var turn := Handle(r, inR[0], draw);
            turn.wrote == [] && turn.drew == {} && Pending(i, turn.house, inR[1..], inI)
  {
    assert inR[1..][..|inR| - 2] == inR[..|inR| - 1][1..];
  }

  /** The rerun's `Candidates` itself finds the responder settled: the initiator's `PathDown` came first. */
  lemma PendingTakesCandidates(i: House, r: House, inR: seq<Frame>, inI: seq<Frame>, draw: Draw)
    requires i.role == Initiator && r.role == Responder && i.stage.Exchanging? && Pending(i, r, inR, inI)
    requires r.live && |inR| == 1
    ensures JoinsOnRelay(r, inR[0])
    ensures var turn := Handle(r, inR[0], draw);
            turn.drew == {} && AnsweredAt(i, turn.house, inI + turn.wrote, |inI|)
  {
    var turn := Handle(r, inR[0], draw);
    assert inI == [] || Streams(r, inI);
    assert (inI + turn.wrote)[|inI| + 1..] == [];
  }

  lemma ResponderTakes(i: House, r: House, inR: seq<Frame>, inI: seq<Frame>, drawn: set<AttemptId>, draw: Draw)
    requires Protocol(i, r, inR, inI, drawn) && r.live && inR != []
    ensures JoinsOnRelay(r, inR[0])
    ensures var turn := Handle(r, inR[0], draw);
            turn.drew == {} && Protocol(i, turn.house, inR[1..], inI + turn.wrote, drawn)
  {
    assert inI + [] == inI;
    if i.stage.Running? {
      TogetherTakes(i, r, inR, inI, draw);
    } else if |inR| > 1 {
      PendingTakesEarlier(i, r, inR, inI, draw);
    } else {
      PendingTakesCandidates(i, r, inR, inI, draw);
    }
  }

  lemma StreamsGrow(r: House, s: seq<Frame>, action: Action)
    requires Streams(r, s) && Enabled(r, action) && !action.Takes? && r.role == Responder
    ensures var turn := Act(r, action);
            && turn.drew == {} && turn.house.stage.Running?
            && turn.house.stage.(phase := r.stage.phase) == r.stage
            && (Settled(r.stage.phase) ==> Settled(turn.house.stage.phase))
            && turn.house.noPunch == r.noPunch
            && Streams(turn.house, s + turn.wrote)
  {
    GoesOnStreams(r, action, s);
    hide Streams;
  }

  lemma ResponderActsTogether(i: House, r: House, inR: seq<Frame>, inI: seq<Frame>, action: Action)
    requires i.stage.Running? && Together(i, r, inR, inI) && r.role == Responder && Enabled(r, action) && !action.Takes?
    ensures Together(i, Act(r, action).house, inR, inI + Act(r, action).wrote)
  {
    StreamsGrow(r, inI, action);
    hide Streams, Act;
  }

  lemma ResponderActsPending(i: House, r: House, inR: seq<Frame>, inI: seq<Frame>, action: Action)
    requires i.stage.Exchanging? && Pending(i, r, inR, inI) && r.role == Responder && Enabled(r, action) && !action.Takes?
    ensures Act(r, action).drew == {} && Pending(i, Act(r, action).house, inR, inI + Act(r, action).wrote)
  {
    if r.stage.Running? {
      StreamsGrow(r, inI, action);
      assert Act(r, action).house.live ==> r.live;
      hide Streams, Act, Tail;
    } else {
      assert inI + [] == inI;
    }
  }

  lemma ResponderActsAnswered(i: House, r: House, inI: seq<Frame>, k: nat, action: Action)
    requires i.stage.Exchanging? && AnsweredAt(i, r, inI, k) && r.role == Responder && Enabled(r, action) && !action.Takes?
    ensures AnsweredAt(i, Act(r, action).house, inI + Act(r, action).wrote, k)
  {
    hide Streams, Act, AnsweredAt;
    AnsweredStreams(i, r, inI, k);
    StreamsGrow(r, inI[k + 1..], action);
    AnswerStays(i, r, Act(r, action).house, inI, Act(r, action).wrote, k);
  }

  lemma AnsweredStreams(i: House, r: House, inI: seq<Frame>, k: nat)
    requires i.stage.Exchanging? && AnsweredAt(i, r, inI, k)
    ensures k < |inI| && Streams(r, inI[k + 1..])
  {
  }

  lemma AnswerStays(i: House, r: House, after: House, inI: seq<Frame>, wrote: seq<Frame>, k: nat)
    requires i.stage.Exchanging? && AnsweredAt(i, r, inI, k) && after.noPunch == r.noPunch
    requires after.stage.Running? && after.stage.(phase := r.stage.phase) == r.stage && Streams(after, inI[k + 1..] + wrote)
    ensures AnsweredAt(i, after, inI + wrote, k)
  {
    hide Streams;
    assert (inI + wrote)[k + 1..] == inI[k + 1..] + wrote;
  }

  /** A responder that has answered keeps its attempt, whatever it does but read. */
  lemma ResponderKeepsAttempt(r: House, action: Action)
    requires r.role == Responder && Enabled(r, action) && !action.Takes? && !r.stage.Opening?
    ensures var turn := Act(r, action);
            && turn.drew == {} && turn.house.role == Responder && (turn.house.stage.Awaiting? <==> r.stage.Awaiting?)
            && (r.stage.Running? <==> turn.house.stage.Running?)
            && (r.stage.Running? ==> turn.house.stage.attempt == r.stage.attempt)
            && (!r.stage.Running? ==> turn.wrote == [])
  {
  }

  lemma ResponderActs(i: House, r: House, inR: seq<Frame>, inI: seq<Frame>, drawn: set<AttemptId>, action: Action)
    requires Protocol(i, r, inR, inI, drawn) && Enabled(r, action) && !action.Takes?
    ensures var turn := Act(r, action);
            turn.drew == {} && Protocol(i, turn.house, inR, inI + turn.wrote, drawn)
  {
    assert !r.stage.Opening?;
    ResponderKeepsAttempt(r, action);
    hide Act, Pending, AnsweredAt, Together;
    assert inI + [] == inI;
    if i.stage.Running? {
      ResponderActsTogether(i, r, inR, inI, action);
    } else if i.stage.Exchanging? {
      if Pending(i, r, inR, inI) {
        ResponderActsPending(i, r, inR, inI, action);
      } else {
        var k: nat :| AnsweredAt(i, r, inI, k);
        ResponderActsAnswered(i, r, inI, k, action);
      }
    }
  }

  // ----- every step, every run -----

  /** The invariant between the houses looks at the frames, not at which side of a reader they are. */
  lemma QueuesDoNotMatter(i: House, r: House, q: seq<Frame>, p: seq<Frame>,
                          inR: seq<Frame>, inI: seq<Frame>, drawn: set<AttemptId>)
    requires Protocol(i, r, inR, inI, drawn)
    ensures Protocol(i.(queue := q), r.(queue := p), inR, inI, drawn)
  {
    if i.stage.Exchanging? && !Pending(i, r, inR, inI) {
      var k: nat :| AnsweredAt(i, r, inI, k);
      assert AnsweredAt(i.(queue := q), r.(queue := p), inI, k);
    }
  }

  lemma DeliverKeeps(w: World, step: Step)
    requires Inv(w) && (step.DeliverToI? || step.DeliverToR?)
    ensures Inv(Next(w, step))
  {
    hide Protocol, Told;
    FewUnread(w.i, w.r, ToReadByR(w), ToReadByI(w), w.drawn);
    var after := Next(w, step);
    assert ToReadByI(after) == ToReadByI(w);
    assert ToReadByR(after) == ToReadByR(w);
    QueuesDoNotMatter(w.i, w.r, after.i.queue, after.r.queue, ToReadByR(w), ToReadByI(w), w.drawn);
    assert after.i == w.i.(queue := after.i.queue) && after.r == w.r.(queue := after.r.queue);
    assert Local(after.i) && Local(after.r);
  }

  lemma InitiatorReads(w: World, draw: Draw)
    requires Between(w) && Reads(w.i) && Act(w.i, Takes(draw)).drew !! w.drawn
    ensures Between(Next(w, ByI(Takes(draw)))) && JoinsOnRelay(w.i, w.i.queue[0])
  {
    hide Protocol, HandleRunning, Begin;
    var inR, inI, turn := ToReadByR(w), ToReadByI(w), Act(w.i, Takes(draw));
    var after := Next(w, ByI(Takes(draw)));
    var i := w.i.(queue := w.i.queue[1..]);
    QueuesDoNotMatter(w.i, w.r, i.queue, w.r.queue, inR, inI, w.drawn);
    assert w.r.(queue := w.r.queue) == w.r;
    assert w.i.queue[0] == inI[0];
    if i.stage.Running? {
      RunningTakes(i, w.r, inR, inI, w.drawn, draw);
    } else {
      ExchangingTakes(i, w.r, inR, inI, w.drawn, draw);
      assert inR + [] == inR && w.drawn + {} == w.drawn;
    }
    assert ToReadByR(after) == inR + turn.wrote;
    HandleLeavesQueue(i, inI[0], draw);
    assert ToReadByI(after) == inI[1..];
  }

  lemma RunningLeavesQueue(h: House, frame: Frame, draw: Draw)
    requires h.stage.Running?
    ensures HandleRunning(h, frame, draw).house.queue == h.queue
  {
    hide Path.FellBack;
    match frame {
      case PathDown(_) => assert LeaveDirect(h).queue == h.queue;
      case _ =>
    }
  }

  lemma HandleLeavesQueue(h: House, frame: Frame, draw: Draw)
    ensures Handle(h, frame, draw).house.queue == h.queue
  {
    if h.stage.Running? {
      RunningLeavesQueue(h, frame, draw);
    }
    hide HandleRunning;
  }

  lemma ActLeavesQueue(h: House, action: Action)
    requires Enabled(h, action) && !action.Takes?
    ensures Act(h, action).house.queue == h.queue
  {
  }

  lemma InitiatorStepKeeps(w: World, action: Action)
    requires Inv(w) && Enabled(w.i, action) && Act(w.i, action).drew !! w.drawn
    ensures Inv(Next(w, ByI(action)))
  {
    hide Protocol;
    var after := Next(w, ByI(action));
    assert Between(after) by {
      if action.Takes? {
        InitiatorReads(w, action.draw);
      } else {
        InitiatorActs(w.i, w.r, ToReadByR(w), ToReadByI(w), w.drawn, action);
        ActLeavesQueue(w.i, action);
        assert ToReadByR(after) == ToReadByR(w) + Act(w.i, action).wrote;
      }
    }
    assert Local(after.i) by {
      if action.Takes? {
        InitiatorReads(w, action.draw);
      }
      ActIsTold(w.i, action);
      ActKeepsDirect(w.i, action);
    }
  }

  lemma ResponderReads(w: World, draw: Draw)
    requires Between(w) && Reads(w.r)
    ensures Between(Next(w, ByR(Takes(draw)))) && JoinsOnRelay(w.r, w.r.queue[0])
  {
    hide Protocol, HandleRunning, Begin;
    var inR, inI, turn := ToReadByR(w), ToReadByI(w), Act(w.r, Takes(draw));
    var after := Next(w, ByR(Takes(draw)));
    var r := w.r.(queue := w.r.queue[1..]);
    QueuesDoNotMatter(w.i, w.r, w.i.queue, r.queue, inR, inI, w.drawn);
    assert w.i.(queue := w.i.queue) == w.i && w.drawn + {} == w.drawn;
    assert w.r.queue[0] == inR[0];
    ResponderTakes(w.i, r, inR, inI, w.drawn, draw);
    assert ToReadByI(after) == inI + turn.wrote;
    HandleLeavesQueue(r, inR[0], draw);
    assert ToReadByR(after) == inR[1..];
  }

  lemma ResponderStepKeeps(w: World, action: Action)
    requires Inv(w) && Enabled(w.r, action)
    ensures Inv(Next(w, ByR(action)))
  {
    hide Protocol;
    var after := Next(w, ByR(action));
    assert Between(after) by {
      if action.Takes? {
        ResponderReads(w, action.draw);
      } else {
        ResponderActs(w.i, w.r, ToReadByR(w), ToReadByI(w), w.drawn, action);
        ActLeavesQueue(w.r, action);
        assert w.drawn + {} == w.drawn;
        assert ToReadByI(after) == ToReadByI(w) + Act(w.r, action).wrote;
      }
    }
    assert Local(after.r) by {
      if action.Takes? {
        ResponderReads(w, action.draw);
      }
      ActIsTold(w.r, action);
      ActKeepsDirect(w.r, action);
    }
  }

  lemma NextKeeps(w: World, step: Step)
    requires Inv(w)
    ensures Inv(Next(w, step))
  {
    match step {
      case ByI(action) =>
        if Enabled(w.i, action) && Act(w.i, action).drew !! w.drawn {
          InitiatorStepKeeps(w, action);
        }
      case ByR(action) =>
        if Enabled(w.r, action) {
          ResponderStepKeeps(w, action);
        }
      case _ => DeliverKeeps(w, step);
    }
  }

  /** Any run of any visit, whatever each side was asked to do. */
  lemma {:induction false} RunKeeps(start: World, steps: seq<Step>)
    requires Inv(start)
    ensures Inv(Run(start, steps))
  {
    if steps != [] {
      RunKeeps(start, steps[..|steps| - 1]);
      NextKeeps(Run(start, steps[..|steps| - 1]), steps[|steps| - 1]);
    }
  }

  ghost predicate Reachable(w: World) {
    exists heldI, noPunchI, heldR, noPunchR, steps :: w == Run(Start(heldI, noPunchI, heldR, noPunchR), steps)
  }

  lemma ReachableKeeps(w: World)
    requires Reachable(w)
    ensures Inv(w)
  {
    var heldI, noPunchI, heldR, noPunchR, steps :| w == Run(Start(heldI, noPunchI, heldR, noPunchR), steps);
    RunKeeps(Start(heldI, noPunchI, heldR, noPunchR), steps);
  }

  // ----- what a reader of the design is promised -----

  function KeyOf<Key>(hash: (AttemptId, Half, Half) -> Key, stage: Stage): Key
    requires stage.Running?
  {
    hash(stage.attempt, stage.halfInitiator, stage.halfResponder)
  }

  /**
   Once the initiator is past the exchange of an attempt, the responder is in
   that same attempt, under the same probe key whatever the hash is, and either
   both of them probe or neither does.
   */
  lemma HousesAgree<Key>(w: World, hash: (AttemptId, Half, Half) -> Key)
    requires Reachable(w) && w.i.stage.Running?
    ensures w.r.stage.Running? && w.r.stage.attempt == w.i.stage.attempt
    ensures KeyOf(hash, w.i.stage) == KeyOf(hash, w.r.stage)
    ensures w.i.stage.skip == w.r.stage.skip
  {
    ReachableKeeps(w);
  }

  lemma OneOfATail(h: House, s: seq<Frame>)
    requires Streams(h, s)
    ensures forall k :: 0 <= k < |s| ==> !s[k].Candidates?
  {
    assert SansGoodbye(h, s) == s || s == SansGoodbye(h, s) + [Goodbye];
  }

  predicate AtMostOneNamed(s: seq<Frame>) {
    forall j, k :: 0 <= j < k < |s| ==> !(s[j].Candidates? && s[k].Candidates?)
  }

  lemma OnePending(i: House, r: House, inR: seq<Frame>, inI: seq<Frame>)
    requires i.stage.Exchanging? && Pending(i, r, inR, inI)
    ensures AtMostOneNamed(inR + inI)
  {
    if inI != [] {
      OneOfATail(r, inI);
    }
    assert forall k :: 0 <= k < |inR| - 1 ==> inR[k] == inR[..|inR| - 1][k];
  }

  lemma OneAnswered(i: House, r: House, inI: seq<Frame>, a: nat)
    requires i.stage.Exchanging? && AnsweredAt(i, r, inI, a)
    ensures AtMostOneNamed(inI)
  {
    OneOfATail(r, inI[a + 1..]);
    assert forall x :: a < x < |inI| ==> inI[x] == inI[a + 1..][x - a - 1];
  }

  /** At most one `Candidates` is ever waiting to be read, counting both directions. */
  lemma OneUnanswered(w: World)
    requires Reachable(w)
    ensures AtMostOneNamed(ToReadByR(w) + ToReadByI(w))
  {
    hide Local, Streams, Pending, AnsweredAt;
    ReachableKeeps(w);
    var inR, inI := ToReadByR(w), ToReadByI(w);
    if w.i.stage.Running? {
      OneOfATail(w.i, inR);
      OneOfATail(w.r, inI);
    } else if w.i.stage.Exchanging? {
      if Pending(w.i, w.r, inR, inI) {
        OnePending(w.i, w.r, inR, inI);
      } else {
        var a: nat :| AnsweredAt(w.i, w.r, inI, a);
        OneAnswered(w.i, w.r, inI, a);
        assert inR + inI == inI;
      }
    }
  }

  /** The 16 frame queue never fills, so the reader never drops a frame. */
  lemma NoFrameIsDropped(w: World)
    requires Reachable(w)
    ensures w.dropped == 0 && |w.i.queue| <= 6 && |w.r.queue| <= 3
  {
    ReachableKeeps(w);
    FewUnread(w.i, w.r, ToReadByR(w), ToReadByI(w), w.drawn);
  }

  /** A house still running is direct exactly while it watches a live direct path. */
  lemma DirectOnlyWhileWatched(w: World)
    requires Reachable(w)
    ensures w.i.live ==> (w.i.path.kind.Direct? <==> WatchesLive(w.i))
    ensures w.r.live ==> (w.r.path.kind.Direct? <==> WatchesLive(w.r))
  {
    ReachableKeeps(w);
  }

  /** Each path switch bumps the epoch once and is told once; `Upgraded` is the first and only of its kind. */
  lemma SwitchesAreTold(w: World, h: House)
    requires Reachable(w) && (h == w.i || h == w.r)
    ensures h.path.epoch == |Switches(h.events)|
    ensures Alternates(Switches(h.events))
    ensures forall k :: 0 <= k < |Switches(h.events)| && Switches(h.events)[k] == Upgraded ==> k == 0
  {
    ReachableKeeps(w);
  }

  /** Only the responder ever joins an attempt it did not name. */
  lemma InitiatorNeverAdopts(w: World)
    requires Reachable(w) && w.i.stage.Running? && w.i.live && w.i.queue != []
    ensures !w.i.queue[0].Candidates?
  {
    ReachableKeeps(w);
    assert ToReadByI(w)[0] == w.i.queue[0];
  }

  /** A rerun finds the responder off the direct path already, though nothing in its own code checks. */
  lemma RerunFindsRelay(w: World)
    requires Reachable(w) && w.r.stage.Running? && w.r.live && w.r.queue != []
    requires w.r.queue[0].Candidates? && w.r.queue[0].attempt != w.r.stage.attempt
    ensures w.r.path.kind.Relay?
  {
    ReachableKeeps(w);
    assert ToReadByR(w)[0] == w.r.queue[0];
    ResponderTakes(w.i, w.r, ToReadByR(w), ToReadByI(w), w.drawn, Draw(0, 0));
  }
}

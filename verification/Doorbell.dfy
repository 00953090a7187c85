/**
 The two houses of one visit, as `run_doorbell` runs them
 (crates/mosschat-net/src/punch.rs:1861-2844): an initiator and a responder
 exchange `Candidates`, probe, upgrade, fall back and rerun, over one porch
 stream each way and a 16 frame queue at each end. Every step below is one
 atomic turn of one house or of its reader task, and a run is any sequence of
 steps, so a theorem about runs is about every interleaving.

 Time is left to the environment: whether a probe wins, a path goes stale or a
 start signal arrives is a step the environment may choose. Random draws are
 arguments of the steps; a drawn attempt id is fresh.
 */
module Doorbell {
  import opened Common
  import opened Addresses
  import Path

  /** A 16 byte attempt id and a 32 byte key half, each read as a number. */
  type AttemptId = nat
  type Half = nat

  /** `PORCH_FRAME_QUEUE`: what the reader holds for the house before it drops the newest. */
  const FRAME_QUEUE := 16

  datatype Frame =
    | Candidates(attempt: AttemptId, half: Half, noUpgrade: bool)
    | PathUp(attempt: AttemptId)
    | PathDown(attempt: AttemptId)
    | Goodbye

  datatype Role = Initiator | Responder

  datatype Liveness = Live | Stale | Dead

  /** `Starting` is the wait for the gate's start signal, during which no frame is read. */
  datatype Phase =
    | Starting
    | Probing
    | Watching(direct: Liveness)
    | Relayed(relay: Liveness)

  /** `RelayAnswersAgain` is the `Recovered` of a relay that was dead: the path is not switched. */
  datatype Event =
    | Upgraded | Recovered | FellBack
    | PathStale | PathDead | RelayAnswersAgain | SaidGoodbye | PeerSaidGoodbye

  datatype Stage =
    | Opening                                        // initiator: no attempt named yet
    | Awaiting                                       // responder: no attempt heard of yet
    | Exchanging(attempt: AttemptId, half: Half)     // initiator: `Candidates` written, none read
    | Running(attempt: AttemptId, halfInitiator: Half, halfResponder: Half, skip: bool, phase: Phase)

  /** One side of the visit. A house that has returned, for whatever reason, is not `live`. */
  datatype House = House(
    role: Role,
    held: bool,
    noPunch: bool,
    live: bool,
    stage: Stage,
    path: Path.State,
    fellBack: bool,
    events: seq<Event>,
    queue: seq<Frame>)

  /** What one turn did: the house after it, the frames it wrote and the ids it drew. */
  datatype Turn = Turn(house: House, wrote: seq<Frame>, drew: set<AttemptId>)

  datatype Draw = Draw(attempt: AttemptId, half: Half)

  function Quiet(h: House): Turn {
    Turn(h, [], {})
  }

  function Exit(h: House): House {
    h.(live := false)
  }

  function Note(h: House, event: Event): House {
    h.(events := h.events + [event])
  }

  function InPhase(h: House, phase: Phase): House
    requires h.stage.Running?
  {
    h.(stage := h.stage.(phase := phase))
  }

  /** The initiator names an attempt and writes its `Candidates` (punch.rs:3053-3057). */
  function Open(h: House, draw: Draw): Turn {
    Turn(h.(stage := Exchanging(draw.attempt, draw.half)),
         [Candidates(draw.attempt, draw.half, h.noPunch)],
         {draw.attempt})
  }

  /** Past the exchange: the halves in the initiator's order, and the phase they lead to (punch.rs:2067-2144). */
  function Begin(h: House, attempt: AttemptId, own: Half, peer: Half, peerNoUpgrade: bool): House {
    var skip := h.noPunch || peerNoUpgrade;
    var phase := if skip then Relayed(Live) else Starting;
    h.(stage := if h.role.Initiator? then Running(attempt, own, peer, skip, phase)
                                     else Running(attempt, peer, own, skip, phase))
  }

  /** A rerun supersedes a path this visit had already left (punch.rs:2861-2877). */
  function NoteSuperseded(h: House): House
    requires h.stage.Running?
  {
    if h.stage.phase.Watching? && h.path.kind.Relay? then Note(h, PathDead) else h
  }

  /** Answers the peer's `Candidates` with this side's own half (punch.rs:2002-2012, 3063-3066). */
  function Join(h: House, frame: Frame, half: Half): Turn
    requires frame.Candidates?
  {
    Turn(Begin(h, frame.attempt, half, frame.half, frame.noUpgrade),
         [Candidates(frame.attempt, half, h.noPunch)],
         {})
  }

  /** Traffic back on the relay, if it was direct (punch.rs:2750-2776). */
  function LeaveDirect(h: House): House {
    if h.path.kind.Relay? then h
    else Note(h.(path := Path.FellBack(h.path), fellBack := true), FellBack)
  }

  /** One frame taken by the inner loop (punch.rs:2687-2818). */
  function HandleRunning(h: House, frame: Frame, draw: Draw): Turn
    requires h.stage.Running?
  {
    match frame
    case Goodbye => Quiet(Exit(Note(h, PeerSaidGoodbye)))
    case PathUp(_) => Quiet(h)
    case Candidates(attempt, _, _) =>
      if attempt == h.stage.attempt then Quiet(h)
      else Join(NoteSuperseded(h), frame, draw.half)
    case PathDown(attempt) =>
      if attempt != h.stage.attempt then Quiet(h)
      else
        var left := LeaveDirect(h);
        if !h.held then Quiet(Exit(left))
        else if h.role.Initiator? then Open(NoteSuperseded(left), draw)
        else Quiet(InPhase(left, Relayed(Live)))
  }

  /** One frame taken out of the queue, in whatever stage the house is (punch.rs:3044-3069, 3117-3156). */
  function Handle(h: House, frame: Frame, draw: Draw): Turn {
    match h.stage
    case Opening => Quiet(h)
    case Awaiting =>
      if frame.Candidates? then Join(h, frame, draw.half) else Quiet(Exit(h))
    case Exchanging(attempt, half) =>
      if frame.Candidates? && frame.attempt == attempt
      then Quiet(Begin(h, attempt, half, frame.half, frame.noUpgrade))
      else Quiet(Exit(h))
    case Running(_, _, _, _, _) => HandleRunning(h, frame, draw)
  }

  /** Whether this house is at a point where it reads frames: never while it awaits the start signal. */
  predicate Reads(h: House) {
    h.live && h.queue != [] && !h.stage.Opening? && !(h.stage.Running? && h.stage.phase.Starting?)
  }

  /** Step 6: a candidate proved itself (punch.rs:2608-2686). */
  function Win(h: House, addr: SocketAddr, rtt: nat): Turn
    requires h.stage.Running?
  {
    var moved := h.(path := Path.Sampled(Path.Upgraded(h.path, addr), rtt));
    Turn(InPhase(Note(moved, if h.fellBack then Recovered else Upgraded), Watching(Live)),
         [PathUp(h.stage.attempt)],
         {})
  }

  /** Three probes unanswered on the direct path (punch.rs:2330-2391). */
  function GoStale(h: House): Turn
    requires h.stage.Running?
  {
    var stale := Note(h, PathStale).(path := Path.FellBack(h.path), fellBack := true);
    var left := InPhase(Note(stale, FellBack), Watching(Stale));
    Turn(if h.held then left else Exit(left), [PathDown(h.stage.attempt)], {})
  }

  /** The stale grace ran out: the initiator of a held visit reruns (punch.rs:2392-2420). */
  function GoDead(h: House, draw: Draw): Turn
    requires h.stage.Running?
  {
    var dead := Note(h, PathDead);
    if h.held && h.role.Initiator? then Open(dead, draw) else Quiet(InPhase(dead, Relayed(Live)))
  }

  /** What the environment may do to one house. */
  datatype Action =
    | Begins(draw: Draw)                    // the initiator writes its first `Candidates`
    | Takes(draw: Draw)                     // the next queued frame is handled
    | StartArrives
    | StartFails
    | Wins(addr: SocketAddr, rtt: nat)
    | GivesUp
    | Answers(sample: nat)                  // a pong on the watched direct path
    | DirectStale
    | DirectDead(draw: Draw)
    | RelayStale
    | RelayDead
    | RelayBack
    | Stops                                 // the hold ran out or the house is stopping
    | Fails                                 // a timeout, a stream error, a closed connection

  predicate InThis(h: House, phase: Phase) {
    h.live && h.stage.Running? && h.stage.phase == phase
  }

  predicate Enabled(h: House, action: Action) {
    match action
    case Begins(_) => h.live && h.stage.Opening?
    case Takes(_) => Reads(h)
    case StartArrives => InThis(h, Starting)
    case StartFails => InThis(h, Starting)
    case Wins(_, _) => InThis(h, Probing)
    case GivesUp => InThis(h, Probing)
    case Answers(_) => InThis(h, Watching(Live)) || InThis(h, Watching(Stale))
    case DirectStale => InThis(h, Watching(Live))
    case DirectDead(_) => InThis(h, Watching(Stale))
    case RelayStale => InThis(h, Relayed(Live))
    case RelayDead => InThis(h, Relayed(Stale))
    case RelayBack => InThis(h, Relayed(Dead))
    case Stops => h.live && h.stage.Running? && !h.stage.phase.Starting?
    case Fails => h.live
  }

  function Act(h: House, action: Action): Turn
    requires Enabled(h, action)
  {
    match action
    case Begins(draw) => Open(h, draw)
    case Takes(draw) => Handle(h.(queue := h.queue[1..]), h.queue[0], draw)
    case StartArrives => Quiet(InPhase(h, Probing))
    case StartFails => Quiet(if h.held then InPhase(h, Relayed(Live)) else Exit(h))
    case Wins(addr, rtt) => Win(h, addr, rtt)
    case GivesUp => Quiet(if h.held then InPhase(h, Relayed(Live)) else Exit(h))
    case Answers(sample) => Quiet(h.(path := Path.Sampled(h.path, sample)))
    case DirectStale => GoStale(h)
    case DirectDead(draw) => GoDead(h, draw)
    case RelayStale => Quiet(Note(InPhase(h, Relayed(Stale)), PathStale))
    case RelayDead =>
      var dead := Note(InPhase(h, Relayed(Dead)), PathDead);
      Quiet(if h.held then dead else Exit(dead))
    case RelayBack => Quiet(Note(InPhase(h, Relayed(Live)), RelayAnswersAgain))
    case Stops => Turn(Exit(Note(h, SaidGoodbye)), [Goodbye], {})
    case Fails => Quiet(Exit(h))
  }

  /** Both houses, the two streams between them, and what has been drawn and dropped so far. */
  datatype World = World(
    i: House,
    r: House,
    toR: seq<Frame>,
    toI: seq<Frame>,
    drawn: set<AttemptId>,
    dropped: nat)

  datatype Step = DeliverToI | DeliverToR | ByI(action: Action) | ByR(action: Action)

  /** The reader task: a frame goes into the queue, or is dropped when the queue is full (punch.rs:1808-1831). */
  function Queued(h: House, frame: Frame): House {
    if |h.queue| < FRAME_QUEUE then h.(queue := h.queue + [frame]) else h
  }

  function Lost(h: House): nat {
    if |h.queue| < FRAME_QUEUE then 0 else 1
  }

  /** One step; a step that is not enabled, or that draws an id already drawn, changes nothing. */
  function Next(w: World, step: Step): World {
    match step
    case DeliverToI =>
      if !w.i.live || w.toI == [] then w
      else w.(i := Queued(w.i, w.toI[0]), toI := w.toI[1..], dropped := w.dropped + Lost(w.i))
    case DeliverToR =>
      if !w.r.live || w.toR == [] then w
      else w.(r := Queued(w.r, w.toR[0]), toR := w.toR[1..], dropped := w.dropped + Lost(w.r))
    case ByI(action) =>
      if !Enabled(w.i, action) then w else
      var turn := Act(w.i, action);
      if turn.drew !! w.drawn then w.(i := turn.house, toR := w.toR + turn.wrote, drawn := w.drawn + turn.drew) else w
    case ByR(action) =>
      if !Enabled(w.r, action) then w else
      var turn := Act(w.r, action);
      if turn.drew !! w.drawn then w.(r := turn.house, toI := w.toI + turn.wrote, drawn := w.drawn + turn.drew) else w
  }

  function Run(w: World, steps: seq<Step>): World {
    if steps == [] then w else Next(Run(w, steps[..|steps| - 1]), steps[|steps| - 1])
  }

  function Fresh(role: Role, held: bool, noPunch: bool): House {
    House(role, held, noPunch, true, if role.Initiator? then Opening else Awaiting, Path.FRESH, false, [], [])
  }

  /** Both houses as `run_doorbell` finds them: on the relay, nothing exchanged. */
  function Start(heldI: bool, noPunchI: bool, heldR: bool, noPunchR: bool): World {
    World(Fresh(Initiator, heldI, noPunchI), Fresh(Responder, heldR, noPunchR), [], [], {}, 0)
  }
}

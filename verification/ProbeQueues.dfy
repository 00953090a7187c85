/**
 The per-attempt queues of authenticated probes
 (crates/mosschat-net/src/sock.rs:214-233, 638-648, 861-869, 952-1009).
 */
module ProbeQueues {
  import opened Common
  import opened Addresses
  import opened ProbePacket

  type Attempt = Bytes

  const QUEUE_CAP := 1024

  datatype Entry = Entry(source: SocketAddr, probe: Probe)

  datatype State = State(
    keys: map<Attempt, Key>,
    queues: map<Attempt, seq<Entry>>,
    unauthenticated: nat,
    dropped: nat)

  function Queue(s: State, a: Attempt): seq<Entry> {
    if a in s.queues then s.queues[a] else []
  }

  /** Under which armed attempt a segment verifies: the one it names, if that one's key signed it. */
  function Authenticated(mac: Mac, keys: map<Attempt, Key>, segment: Bytes): (r: Option<Probe>)
    ensures r.Some? ==> r.value.attempt in keys && Decode(mac, segment, keys[r.value.attempt]) == r
  {
    if |segment| == 81 && AttemptField(segment) in keys then Decode(mac, segment, keys[AttemptField(segment)])
    else None
  }

  function QueueOne(mac: Mac, s: State, source: SocketAddr, segment: Bytes): State {
    var probe := Authenticated(mac, s.keys, segment);
    if probe.None? then s.(unauthenticated := s.unauthenticated + 1)
    else
      var a := probe.value.attempt;
      if |Queue(s, a)| >= QUEUE_CAP then s.(dropped := s.dropped + 1)
      else s.(queues := s.queues[a := Queue(s, a) + [Entry(source, probe.value)]])
  }

  function QueueAll(mac: Mac, s: State, source: SocketAddr, segments: seq<Bytes>): State {
    if segments == [] then s
    else QueueOne(mac, QueueAll(mac, s, source, segments[..|segments| - 1]), source, segments[|segments| - 1])
  }

  function Receive(s: State, a: Attempt): (State, Option<Entry>) {
    if a !in s.queues || s.queues[a] == [] then (s.(queues := s.queues - {a}), None)
    else if |s.queues[a]| == 1 then (s.(queues := s.queues - {a}), Some(s.queues[a][0]))
    else (s.(queues := s.queues[a := s.queues[a][1..]]), Some(s.queues[a][0]))
  }

  function Arm(s: State, a: Attempt, key: Key): State {
    s.(keys := s.keys[a := key])
  }

  function Disarm(s: State, a: Attempt): State {
    s.(keys := s.keys - {a}, queues := s.queues - {a})
  }

  // ----- as the source writes it -----

  class Book {
    var keys: map<Attempt, Key>
    var queues: map<Attempt, seq<Entry>>
    var unauthenticated: nat
    var dropped: nat

    ghost function Value(): State
      reads this
    {
      State(keys, queues, unauthenticated, dropped)
    }

    constructor ()
      ensures Value() == State(map[], map[], 0, 0)
    {
      keys, queues, unauthenticated, dropped := map[], map[], 0, 0;
    }

    method ArmKey(a: Attempt, key: Key)
      modifies this`keys
      ensures Value() == Arm(old(Value()), a, key)
    {
      keys := keys[a := key];
    }

    method DisarmKey(a: Attempt)
      modifies this`keys, this`queues
      ensures Value() == Disarm(old(Value()), a)
    {
      keys := keys - {a};
      queues := queues - {a};
    }

    method TryReceive(a: Attempt) returns (next: Option<Entry>)
      modifies this`queues
      ensures (Value(), next) == Receive(old(Value()), a)
    {
      if a !in queues {
        assert queues - {a} == queues;
        return None;
      }
      var queue := queues[a];
      if queue == [] {
        next := None;
      } else {
        next := Some(queue[0]);
        queue := queue[1..];
      }
      queues := if queue == [] then queues - {a} else queues[a := queue];
    }

    /**
     Tries every armed key in turn, in whatever order the map gives them, and
     takes the first that both verifies and is the attempt the segment names.
     */
    method Search(mac: Mac, segment: Bytes) returns (found: Option<Probe>)
      ensures found == Authenticated(mac, keys, segment)
    {
      var left := keys.Keys;
      while left != {}
        invariant left <= keys.Keys
        invariant forall a :: a in keys && a !in left ==>
                    !(Decode(mac, segment, keys[a]).Some? && Decode(mac, segment, keys[a]).value.attempt == a)
        decreases |left|
      {
        var a :| a in left;
        var probe := Decode(mac, segment, keys[a]);
        if probe.Some? && probe.value.attempt == a {
          return probe;
        }
        left := left - {a};
      }
      return None;
    }

    method QueueProbes(mac: Mac, source: SocketAddr, segments: seq<Bytes>)
      modifies this`queues, this`unauthenticated, this`dropped
      ensures Value() == QueueAll(mac, old(Value()), source, segments)
    {
      if keys == map[] {
        NoKeysQueueNothing(mac, Value(), source, segments);
        unauthenticated := unauthenticated + |segments|;
        return;
      }
      for k := 0 to |segments|
        invariant Value() == QueueAll(mac, old(Value()), source, segments[..k])
        invariant keys == old(keys)
      {
        assert segments[..k + 1][..k] == segments[..k];
        var probe := Search(mac, segments[k]);
        if probe.None? {
          unauthenticated := unauthenticated + 1;
        } else {
          var a := probe.value.attempt;
          var queue := if a in queues then queues[a] else [];
          if |queue| >= QUEUE_CAP {
            dropped := dropped + 1;
          } else {
            queues := queues[a := queue + [Entry(source, probe.value)]];
          }
        }
      }
      assert segments[..|segments|] == segments;
    }
  }

  lemma {:induction false} NoKeysQueueNothing(mac: Mac, s: State, source: SocketAddr, segments: seq<Bytes>)
    requires s.keys == map[]
    ensures QueueAll(mac, s, source, segments) == s.(unauthenticated := s.unauthenticated + |segments|)
  {
    if segments != [] {
      NoKeysQueueNothing(mac, s, source, segments[..|segments| - 1]);
    }
  }

  // ----- runs -----

  datatype Op =
    | ArmIt(attempt: Attempt, key: Key)
    | DisarmIt(attempt: Attempt)
    | Arrive(source: SocketAddr, segments: seq<Bytes>)
    | Take(attempt: Attempt)

  /** Where a queued probe came from: the segment, and the key that verified it. */
  datatype Origin = Origin(segment: Bytes, key: Key)

  /** The queues; beside each queue where its entries came from; and every key an attempt has been armed with since it last was not. */
  datatype Log = Log(s: State, origins: map<Attempt, seq<Origin>>, armed: map<Attempt, set<Key>>, arrived: nat, queued: nat)

  function OriginsOf(l: Log, a: Attempt): seq<Origin> {
    if a in l.origins then l.origins[a] else []
  }

  function ArmedWith(l: Log, a: Attempt): set<Key> {
    if a in l.armed then l.armed[a] else {}
  }

  function ArriveOne(mac: Mac, l: Log, source: SocketAddr, segment: Bytes): Log {
    var probe := Authenticated(mac, l.s.keys, segment);
    var s := QueueOne(mac, l.s, source, segment);
    if probe.Some? && |Queue(l.s, probe.value.attempt)| < QUEUE_CAP then
      var a := probe.value.attempt;
      l.(s := s, origins := l.origins[a := OriginsOf(l, a) + [Origin(segment, l.s.keys[a])]],
         arrived := l.arrived + 1, queued := l.queued + 1)
    else l.(s := s, arrived := l.arrived + 1)
  }

  function ArriveAll(mac: Mac, l: Log, source: SocketAddr, segments: seq<Bytes>): Log {
    if segments == [] then l
    else ArriveOne(mac, ArriveAll(mac, l, source, segments[..|segments| - 1]), source, segments[|segments| - 1])
  }

  function Step(mac: Mac, l: Log, op: Op): Log {
    match op
    case ArmIt(a, key) => l.(s := Arm(l.s, a, key), armed := l.armed[a := ArmedWith(l, a) + {key}])
    case DisarmIt(a) => l.(s := Disarm(l.s, a), origins := l.origins - {a}, armed := l.armed - {a})
    case Arrive(source, segments) => ArriveAll(mac, l, source, segments)
    case Take(a) =>
      var origins := OriginsOf(l, a);
      l.(s := Receive(l.s, a).0,
         origins := if |origins| <= 1 then l.origins - {a} else l.origins[a := origins[1..]])
  }

  function Run(mac: Mac, l: Log, ops: seq<Op>): Log {
    if ops == [] then l else Step(mac, Run(mac, l, ops[..|ops| - 1]), ops[|ops| - 1])
  }

  function Empty(): Log {
    Log(State(map[], map[], 0, 0), map[], map[], 0, 0)
  }

  /** Entry by entry: the probe names this attempt and is what its segment says under a key armed for it. */
  predicate Vouched(mac: Mac, a: Attempt, armed: set<Key>, queue: seq<Entry>, origins: seq<Origin>) {
    && |queue| == |origins| <= QUEUE_CAP
    && forall k :: 0 <= k < |queue| ==>
         && queue[k].probe.attempt == a
         && Decode(mac, origins[k].segment, origins[k].key) == Some(queue[k].probe)
         && origins[k].key in armed
  }

  ghost predicate Keeps(mac: Mac, l: Log) {
    && (forall a :: Vouched(mac, a, ArmedWith(l, a), Queue(l.s, a), OriginsOf(l, a)))
    && (forall a :: a in l.s.queues ==> a in l.s.keys && l.s.queues[a] != [])
    && (forall a :: a in l.s.keys <==> a in l.armed)
    && (forall a :: a in l.s.keys ==> l.s.keys[a] in l.armed[a])
    && l.arrived == l.queued + l.s.dropped + l.s.unauthenticated
  }

  lemma ArriveOneKeeps(mac: Mac, l: Log, source: SocketAddr, segment: Bytes)
    requires Keeps(mac, l)
    ensures Keeps(mac, ArriveOne(mac, l, source, segment))
    ensures ArriveOne(mac, l, source, segment).s == QueueOne(mac, l.s, source, segment)
  {
    hide Decode;
    var after := ArriveOne(mac, l, source, segment);
    forall a
      ensures Vouched(mac, a, ArmedWith(after, a), Queue(after.s, a), OriginsOf(after, a))
    {
      assert Vouched(mac, a, ArmedWith(l, a), Queue(l.s, a), OriginsOf(l, a));
    }
  }

  lemma {:induction false} ArriveAllKeeps(mac: Mac, l: Log, source: SocketAddr, segments: seq<Bytes>)
    requires Keeps(mac, l)
    ensures Keeps(mac, ArriveAll(mac, l, source, segments))
    ensures ArriveAll(mac, l, source, segments).s == QueueAll(mac, l.s, source, segments)
    ensures ArriveAll(mac, l, source, segments).armed == l.armed
  {
    if segments != [] {
      ArriveAllKeeps(mac, l, source, segments[..|segments| - 1]);
      var before := ArriveAll(mac, l, source, segments[..|segments| - 1]);
      assert ArriveOne(mac, before, source, segments[|segments| - 1]).armed == before.armed;
      hide Keeps, ArriveOne, QueueOne;
      ArriveOneKeeps(mac, before, source, segments[|segments| - 1]);
    }
  }

  lemma TakeKeeps(mac: Mac, l: Log, b: Attempt)
    requires Keeps(mac, l)
    ensures Keeps(mac, Step(mac, l, Take(b)))
  {
    hide Decode;
    var after := Step(mac, l, Take(b));
    assert Vouched(mac, b, ArmedWith(l, b), Queue(l.s, b), OriginsOf(l, b));
    forall a
      ensures Vouched(mac, a, ArmedWith(after, a), Queue(after.s, a), OriginsOf(after, a))
    {
      assert Vouched(mac, a, ArmedWith(l, a), Queue(l.s, a), OriginsOf(l, a));
    }
  }

  lemma ArmKeeps(mac: Mac, l: Log, op: Op)
    requires Keeps(mac, l) && (op.ArmIt? || op.DisarmIt?)
    ensures Keeps(mac, Step(mac, l, op))
  {
    hide Decode;
    var after := Step(mac, l, op);
    forall a
      ensures Vouched(mac, a, ArmedWith(after, a), Queue(after.s, a), OriginsOf(after, a))
    {
      assert Vouched(mac, a, ArmedWith(l, a), Queue(l.s, a), OriginsOf(l, a));
    }
  }

  lemma StepKeeps(mac: Mac, l: Log, op: Op)
    requires Keeps(mac, l)
    ensures Keeps(mac, Step(mac, l, op))
  {
    hide Keeps;
    match op {
      case ArmIt(_, _) => ArmKeeps(mac, l, op);
      case DisarmIt(_) => ArmKeeps(mac, l, op);
      case Arrive(source, segments) => ArriveAllKeeps(mac, l, source, segments);
      case Take(a) => TakeKeeps(mac, l, a);
    }
  }

  /**
   In every run of a new book, a queue holds only probes that name its attempt and
   verified under a key armed for that attempt since it was last disarmed, in arrival
   order, never more than the cap; only armed attempts have queues; and every segment
   is queued, dropped or refused.
   */
  lemma {:induction false} RunKeeps(mac: Mac, ops: seq<Op>)
    ensures Keeps(mac, Run(mac, Empty(), ops))
  {
    if ops != [] {
      RunKeeps(mac, ops[..|ops| - 1]);
      hide Keeps, Step;
      StepKeeps(mac, Run(mac, Empty(), ops[..|ops| - 1]), ops[|ops| - 1]);
    }
  }

  /** A run that never arms an attempt that is armed already; fresh attempt ids see to that. */
  predicate NeverRearms(mac: Mac, ops: seq<Op>)
    decreases |ops|
  {
    ops != [] ==>
      var so := ops[..|ops| - 1];
      NeverRearms(mac, so) && (ops[|ops| - 1].ArmIt? ==> ops[|ops| - 1].attempt !in Run(mac, Empty(), so).s.keys)
  }

  ghost predicate OneKey(l: Log) {
    && (forall a :: a in l.s.keys <==> a in l.armed)
    && (forall a :: a in l.s.keys ==> l.armed[a] == {l.s.keys[a]})
  }

  lemma OneKeyStep(mac: Mac, l: Log, op: Op)
    requires OneKey(l) && Keeps(mac, l) && (op.ArmIt? ==> op.attempt !in l.s.keys)
    ensures OneKey(Step(mac, l, op))
  {
    hide Keeps, QueueAll, ArriveAll;
    if op.Arrive? {
      ArriveAllKeeps(mac, l, op.source, op.segments);
      KeysStay(mac, l.s, op.source, op.segments);
    }
  }

  lemma {:induction false} OneKeyEach(mac: Mac, ops: seq<Op>)
    requires NeverRearms(mac, ops)
    ensures OneKey(Run(mac, Empty(), ops))
    decreases |ops|
  {
    if ops != [] {
      var so := ops[..|ops| - 1];
      OneKeyEach(mac, so);
      RunKeeps(mac, so);
      hide Keeps, OneKey, Step;
      OneKeyStep(mac, Run(mac, Empty(), so), ops[|ops| - 1]);
    }
  }

  lemma {:induction false} KeysStay(mac: Mac, s: State, source: SocketAddr, segments: seq<Bytes>)
    ensures QueueAll(mac, s, source, segments).keys == s.keys
  {
    if segments != [] {
      KeysStay(mac, s, source, segments[..|segments| - 1]);
    }
  }

  /** Then every queued probe verified under the very key its attempt is armed with now. */
  lemma QueuedUnderItsOwnKey(mac: Mac, ops: seq<Op>, a: Attempt, k: nat)
    requires NeverRearms(mac, ops) && k < |Queue(Run(mac, Empty(), ops).s, a)|
    ensures var l := Run(mac, Empty(), ops);
            && a in l.s.keys && k < |OriginsOf(l, a)|
            && Decode(mac, OriginsOf(l, a)[k].segment, l.s.keys[a]) == Some(Queue(l.s, a)[k].probe)
            && Queue(l.s, a)[k].probe.attempt == a
  {
    RunKeeps(mac, ops);
    OneKeyEach(mac, ops);
    hide Run, NeverRearms, Decode;
    var l := Run(mac, Empty(), ops);
    assert Vouched(mac, a, ArmedWith(l, a), Queue(l.s, a), OriginsOf(l, a));
  }

  // ----- isolation -----

  /** What a batch holds for one attempt: the segments that verify as probes of it, in order. */
  function Mine(mac: Mac, keys: map<Attempt, Key>, a: Attempt, source: SocketAddr, segments: seq<Bytes>): seq<Entry> {
    if segments == [] then []
    else
      Mine(mac, keys, a, source, segments[..|segments| - 1]) + MineOne(mac, keys, a, source, segments[|segments| - 1])
  }

  /** A batch adds to a queue exactly what verifies as probes of its attempt, until it is full. */
  lemma {:induction false} ArriveIsExact(mac: Mac, s: State, source: SocketAddr, segments: seq<Bytes>, a: Attempt)
    requires |Queue(s, a)| <= QUEUE_CAP
    ensures var grown := Queue(s, a) + Mine(mac, s.keys, a, source, segments);
            Queue(QueueAll(mac, s, source, segments), a) == grown[..Min(|grown|, QUEUE_CAP)]
  {
    if segments == [] {
      assert Queue(s, a) + [] == Queue(s, a);
    } else {
      var so := segments[..|segments| - 1];
      ArriveIsExact(mac, s, source, so, a);
      KeysStay(mac, s, source, so);
      var before, segment := QueueAll(mac, s, source, so), segments[|segments| - 1];
      QueueOneIsExact(mac, before, source, segment, a);
      hide QueueOne, Queue, Authenticated;
      var had, mine := Queue(s, a) + Mine(mac, s.keys, a, source, so), MineOne(mac, s.keys, a, source, segment);
      assert Queue(s, a) + Mine(mac, s.keys, a, source, segments) == had + mine;
    }
  }

  function MineOne(mac: Mac, keys: map<Attempt, Key>, a: Attempt, source: SocketAddr, segment: Bytes): seq<Entry> {
    var probe := Authenticated(mac, keys, segment);
    if probe.Some? && probe.value.attempt == a then [Entry(source, probe.value)] else []
  }

  lemma QueueOneIsExact(mac: Mac, s: State, source: SocketAddr, segment: Bytes, a: Attempt)
    requires |Queue(s, a)| <= QUEUE_CAP
    ensures var grown := Queue(s, a) + MineOne(mac, s.keys, a, source, segment);
            Queue(QueueOne(mac, s, source, segment), a) == grown[..Min(|grown|, QUEUE_CAP)]
  {
    hide Authenticated;
  }

  /**
   Work that is not on this attempt: its own key and queue untouched, and no arriving
   segment that verifies as a probe of it. Segments that name it under any other key
   are somebody else's.
   */
  predicate Elsewhere(mac: Mac, keys: map<Attempt, Key>, a: Attempt, op: Op) {
    match op
    case ArmIt(b, _) => b != a
    case DisarmIt(b) => b != a
    case Take(b) => b != a
    case Arrive(_, segments) =>
      forall k :: 0 <= k < |segments| ==>
        var probe := Authenticated(mac, keys, segments[k]); probe.None? || probe.value.attempt != a
  }

  lemma {:induction false} ArriveElsewhere(mac: Mac, l: Log, source: SocketAddr, segments: seq<Bytes>, a: Attempt)
    requires Elsewhere(mac, l.s.keys, a, Arrive(source, segments))
    ensures var after := ArriveAll(mac, l, source, segments).s;
            Queue(after, a) == Queue(l.s, a) && after.keys == l.s.keys
  {
    if segments != [] {
      hide Authenticated;
      ArriveElsewhere(mac, l, source, segments[..|segments| - 1], a);
    }
  }

  /** One visit's probes are out of reach of every other visit's work, and of anybody without its key. */
  lemma {:induction false} QueuesAreIsolated(mac: Mac, l: Log, op: Op, a: Attempt)
    requires Elsewhere(mac, l.s.keys, a, op)
    ensures Queue(Step(mac, l, op).s, a) == Queue(l.s, a)
    ensures a in l.s.keys <==> a in Step(mac, l, op).s.keys
    ensures a in l.s.keys ==> Step(mac, l, op).s.keys[a] == l.s.keys[a]
  {
    match op {
      case Arrive(source, segments) => ArriveElsewhere(mac, l, source, segments, a);
      case _ =>
    }
  }

  /** A segment that claims the attempt but was not made with its key is elsewhere, whatever key it was made with. */
  lemma ClaimsAreNotEnough(mac: Mac, keys: map<Attempt, Key>, a: Attempt, source: SocketAddr, segment: Bytes)
    requires |segment| == 81 && AttemptField(segment) == a
    ensures Elsewhere(mac, keys, a, Arrive(source, [segment])) <==> a !in keys || Decode(mac, segment, keys[a]).None?
  {
    hide Decode;
    var segments := [segment];
    assert segments[0] == segment;
  }
}

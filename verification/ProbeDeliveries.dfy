/**
 What a doorbell is handed, over whole runs of the probe queues
 (crates/mosschat-net/src/sock.rs:861-869, 952-1009). A ledger beside the run writes
 down every probe that was let in and every one that was handed out, and looks at no
 queue: what was handed out, followed by what is queued, is what was let in.
 */
module ProbeDeliveries {
  import opened Common
  import opened Addresses
  import opened ProbePacket
  import opened ProbeQueues

  /** For each attempt, since it was last disarmed: the probes let in and those handed out. */
  datatype Ledger = Ledger(s: State, put: map<Attempt, seq<Entry>>, taken: map<Attempt, seq<Entry>>, refused: nat, overflowed: nat)

  function In(m: map<Attempt, seq<Entry>>, a: Attempt): seq<Entry> {
    if a in m then m[a] else []
  }

  /** How many probes of this attempt wait for its doorbell. */
  function Waiting(g: Ledger, a: Attempt): int {
    |In(g.put, a)| - |In(g.taken, a)|
  }

  function LetIn(mac: Mac, g: Ledger, source: SocketAddr, segment: Bytes): Ledger {
    match Authenticated(mac, g.s.keys, segment)
    case None => g.(refused := g.refused + 1)
    case Some(probe) =>
      if Waiting(g, probe.attempt) >= QUEUE_CAP then g.(overflowed := g.overflowed + 1)
      else g.(put := g.put[probe.attempt := In(g.put, probe.attempt) + [Entry(source, probe)]])
  }

  function ArriveOneBy(mac: Mac, g: Ledger, source: SocketAddr, segment: Bytes): Ledger {
    LetIn(mac, g, source, segment).(s := QueueOne(mac, g.s, source, segment))
  }

  function ArriveBy(mac: Mac, g: Ledger, source: SocketAddr, segments: seq<Bytes>): Ledger {
    if segments == [] then g
    else ArriveOneBy(mac, ArriveBy(mac, g, source, segments[..|segments| - 1]), source, segments[|segments| - 1])
  }

  function Go(mac: Mac, g: Ledger, op: Op): Ledger {
    match op
    case ArmIt(a, key) => g.(s := Arm(g.s, a, key))
    case DisarmIt(a) => g.(s := Disarm(g.s, a), put := g.put - {a}, taken := g.taken - {a})
    case Arrive(source, segments) => ArriveBy(mac, g, source, segments)
    case Take(a) =>
      var (s, next) := Receive(g.s, a);
      g.(s := s, taken := if next.Some? then g.taken[a := In(g.taken, a) + [next.value]] else g.taken)
  }

  function GoOn(mac: Mac, g: Ledger, ops: seq<Op>): Ledger {
    if ops == [] then g else Go(mac, GoOn(mac, g, ops[..|ops| - 1]), ops[|ops| - 1])
  }

  function Opened(): Ledger {
    Ledger(Empty().s, map[], map[], 0, 0)
  }

  lemma {:induction false} ArriveIsARun(mac: Mac, g: Ledger, l: Log, source: SocketAddr, segments: seq<Bytes>)
    requires g.s == l.s
    ensures ArriveBy(mac, g, source, segments).s == ArriveAll(mac, l, source, segments).s
  {
    if segments != [] {
      ArriveIsARun(mac, g, l, source, segments[..|segments| - 1]);
      hide QueueOne, Authenticated;
    }
  }

  /** The ledger changes nothing of the run it is kept beside. */
  lemma {:induction false} LedgerIsARun(mac: Mac, ops: seq<Op>)
    ensures GoOn(mac, Opened(), ops).s == Run(mac, Empty(), ops).s
  {
    if ops != [] {
      var so := ops[..|ops| - 1];
      LedgerIsARun(mac, so);
      if ops[|ops| - 1].Arrive? {
        ArriveIsARun(mac, GoOn(mac, Opened(), so), Run(mac, Empty(), so), ops[|ops| - 1].source, ops[|ops| - 1].segments);
      }
      hide ArriveBy, ArriveAll, Receive;
    }
  }

  ghost predicate Balances(g: Ledger) {
    && (forall a :: In(g.taken, a) + Queue(g.s, a) == In(g.put, a))
    && g.s.unauthenticated == g.refused && g.s.dropped == g.overflowed
  }

  lemma ArriveOneBalances(mac: Mac, g: Ledger, source: SocketAddr, segment: Bytes)
    requires Balances(g)
    ensures Balances(ArriveOneBy(mac, g, source, segment))
  {
    hide Authenticated;
    var probe := Authenticated(mac, g.s.keys, segment);
    if probe.Some? {
      var b, e := probe.value.attempt, Entry(source, probe.value);
      assert In(g.taken, b) + Queue(g.s, b) == In(g.put, b);
      assert Waiting(g, b) == |Queue(g.s, b)|;
      assert In(g.taken, b) + (Queue(g.s, b) + [e]) == In(g.put, b) + [e];
    }
    var after := ArriveOneBy(mac, g, source, segment);
    forall a
      ensures In(after.taken, a) + Queue(after.s, a) == In(after.put, a)
    {
      assert In(g.taken, a) + Queue(g.s, a) == In(g.put, a);
    }
  }

  lemma {:induction false} ArriveBalances(mac: Mac, g: Ledger, source: SocketAddr, segments: seq<Bytes>)
    requires Balances(g)
    ensures Balances(ArriveBy(mac, g, source, segments))
  {
    if segments != [] {
      ArriveBalances(mac, g, source, segments[..|segments| - 1]);
      hide Balances, ArriveOneBy;
      ArriveOneBalances(mac, ArriveBy(mac, g, source, segments[..|segments| - 1]), source, segments[|segments| - 1]);
    }
  }

  lemma TakeBalances(mac: Mac, g: Ledger, b: Attempt)
    requires Balances(g)
    ensures Balances(Go(mac, g, Take(b)))
    ensures Receive(g.s, b).1 == None <==> Queue(g.s, b) == []
  {
    var after := Go(mac, g, Take(b));
    forall a
      ensures In(after.taken, a) + Queue(after.s, a) == In(after.put, a)
    {
      assert In(g.taken, a) + Queue(g.s, a) == In(g.put, a);
      if a == b && Queue(g.s, b) != [] {
        assert In(g.taken, b) + Queue(g.s, b) == In(g.taken, b) + [Queue(g.s, b)[0]] + Queue(g.s, b)[1..];
      }
    }
  }

  lemma ArmBalances(mac: Mac, g: Ledger, op: Op)
    requires Balances(g) && (op.ArmIt? || op.DisarmIt?)
    ensures Balances(Go(mac, g, op))
  {
    var after := Go(mac, g, op);
    forall a
      ensures In(after.taken, a) + Queue(after.s, a) == In(after.put, a)
    {
      assert In(g.taken, a) + Queue(g.s, a) == In(g.put, a);
    }
  }

  lemma {:induction false} GoOnBalances(mac: Mac, ops: seq<Op>)
    ensures Balances(GoOn(mac, Opened(), ops))
  {
    if ops != [] {
      var so, op := ops[..|ops| - 1], ops[|ops| - 1];
      GoOnBalances(mac, so);
      hide Balances, Receive;
      match op {
        case Arrive(source, segments) => ArriveBalances(mac, GoOn(mac, Opened(), so), source, segments);
        case Take(a) => TakeBalances(mac, GoOn(mac, Opened(), so), a);
        case _ => ArmBalances(mac, GoOn(mac, Opened(), so), op);
      }
    }
  }

  /**
   In every run, for every attempt: the probes handed to its doorbell since it was last
   disarmed, followed by those still queued, are exactly those let in for it, in order;
   the doorbell is told there is nothing if and only if nothing waits; and each counter is
   the number of segments of its kind.
   */
  lemma NothingIsLostOrRepeated(mac: Mac, ops: seq<Op>, a: Attempt)
    ensures var g := GoOn(mac, Opened(), ops);
            && g.s == Run(mac, Empty(), ops).s
            && In(g.taken, a) + Queue(g.s, a) == In(g.put, a)
            && (Receive(g.s, a).1 == None <==> Waiting(g, a) == 0)
            && g.s.unauthenticated == g.refused && g.s.dropped == g.overflowed
  {
    LedgerIsARun(mac, ops);
    GoOnBalances(mac, ops);
    hide GoOn, Run;
    TakeBalances(mac, GoOn(mac, Opened(), ops), a);
    hide Receive;
    assert In(GoOn(mac, Opened(), ops).taken, a) + Queue(GoOn(mac, Opened(), ops).s, a) == In(GoOn(mac, Opened(), ops).put, a);
  }
}

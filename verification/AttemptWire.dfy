/**
 What an attempt hands the socket (crates/mosschat-net/src/punch.rs:1008-1059): in every
 run the pings that leave are the ones the table records, each to its own candidate's
 address under the tx id recorded as outstanding for it, so the budgets are budgets of
 packets on the wire.
 */
module AttemptWire {
  import opened Common
  import opened Addresses
  import opened Attempt
  import opened AttemptRuns
  import opened AttemptSafety

  // ----- one round -----

  /** The candidates due among the first n, in table order. */
  function Dues(candidates: seq<Candidate>, n: nat, now: nat, elapsed: nat): (r: seq<nat>)
    requires n <= |candidates|
    ensures forall j :: 0 <= j < |r| ==> r[j] < n
  {
    if n == 0 then []
    else Dues(candidates, n - 1, now, elapsed) + if Due(candidates[n - 1], now, elapsed) then [n - 1] else []
  }

  lemma {:induction false} DuesAreDue(candidates: seq<Candidate>, n: nat, now: nat, elapsed: nat)
    requires n <= |candidates|
    ensures var r := Dues(candidates, n, now, elapsed);
            && (forall i, j :: 0 <= i < j < |r| ==> r[i] < r[j])
            && (forall k :: 0 <= k < n ==> (k in r <==> Due(candidates[k], now, elapsed)))
  {
    if n > 0 {
      DuesAreDue(candidates, n - 1, now, elapsed);
      hide Due;
      var so, r := Dues(candidates, n - 1, now, elapsed), Dues(candidates, n, now, elapsed);
      assert forall k :: 0 <= k < n - 1 ==> (k in r <==> k in so);
      assert Due(candidates[n - 1], now, elapsed) ==> r[|so|] == n - 1;
    }
  }

  /** The j-th ping of a round goes to this candidate, under a tx id of its own. */
  predicate PingedTo(candidate: Candidate, after: Candidate, ping: Ping, tx: Tx, now: nat) {
    ping == Ping(candidate.addr, tx) && after.outstanding == map[tx := now]
  }

  lemma {:induction false} DuePinged(c: Candidate, tx: Tx, now: nat)
    ensures PingedTo(c, Pinged(c, tx, now), Ping(c.addr, tx), tx, now)
  {
  }

  /**
   One ping a due candidate, in table order, to that candidate's own address, with the
   tx id drawn for it and recorded as outstanding for it, and nothing else.
   */
  lemma {:induction false} RoundSends(candidates: seq<Candidate>, n: nat, now: nat, elapsed: nat, draw: nat -> Tx)
    requires n <= |candidates|
    ensures var (after, out) := PingFirst(candidates, n, now, elapsed, draw);
            var dues := Dues(candidates, n, now, elapsed);
            && |out| == |dues|
            && (forall j :: 0 <= j < |out| ==> PingedTo(candidates[dues[j]], after[dues[j]], out[j], draw(j), now))
  {
    if n > 0 {
      RoundSends(candidates, n - 1, now, elapsed, draw);
      hide Due, Pinged, PingedTo;
      var so, dues := Dues(candidates, n - 1, now, elapsed), Dues(candidates, n, now, elapsed);
      assert forall j :: 0 <= j < |so| ==> so[j] != n - 1 && dues[j] == so[j];
      DuePinged(candidates[n - 1], draw(|so|), now);
    }
  }

  // ----- whole runs -----

  /** One packet handed to the socket. */
  datatype Packet = Packet(to: SocketAddr, tx: Tx, at: nat)

  datatype Wire = Wire(l: Log, sent: seq<Packet>)

  function At(out: seq<Ping>, now: nat): (r: seq<Packet>)
    ensures |r| == |out| && forall j :: 0 <= j < |r| ==> r[j] == Packet(out[j].to, out[j].tx, now)
  {
    if out == [] then [] else At(out[..|out| - 1], now) + [Packet(out[|out| - 1].to, out[|out| - 1].tx, now)]
  }

  function HandedOver(s: State, op: Op): seq<Packet> {
    match op
    case Probe(now, draw) => At(DueProbes(s, now, draw).1, now)
    case _ => []
  }

  function Go(w: Wire, op: Op): (r: Wire)
    requires Shaped(w.l)
    ensures Shaped(r.l)
  {
    Wire(Step(w.l, op), w.sent + HandedOver(w.l.s, op))
  }

  function GoOn(w: Wire, ops: seq<Op>): (r: Wire)
    requires Shaped(w.l)
    ensures Shaped(r.l)
  {
    if ops == [] then w else Go(GoOn(w, ops[..|ops| - 1]), ops[|ops| - 1])
  }

  lemma {:induction false} WireIsARun(w: Wire, ops: seq<Op>)
    requires Shaped(w.l)
    ensures GoOn(w, ops).l == Run(w.l, ops)
  {
    if ops != [] {
      WireIsARun(w, ops[..|ops| - 1]);
      hide Step, HandedOver;
    }
  }

  /** The packets to one address, in order. */
  function To(sent: seq<Packet>, addr: SocketAddr): seq<Packet> {
    if sent == [] then []
    else
      var last := sent[|sent| - 1];
      To(sent[..|sent| - 1], addr) + if last.to == addr then [last] else []
  }

  lemma {:induction false} ToOfSum(a: seq<Packet>, b: seq<Packet>, addr: SocketAddr)
    ensures To(a + b, addr) == To(a, addr) + To(b, addr)
  {
    if b == [] {
      assert a + b == a;
    } else {
      ToOfSum(a, b[..|b| - 1], addr);
      assert (a + b)[..|a + b| - 1] == a + b[..|b| - 1];
    }
  }

  lemma {:induction false} NoneTo(sent: seq<Packet>, addr: SocketAddr)
    requires forall j :: 0 <= j < |sent| ==> sent[j].to != addr
    ensures To(sent, addr) == []
  {
    if sent != [] {
      NoneTo(sent[..|sent| - 1], addr);
    }
  }

  lemma {:induction false} OneTo(sent: seq<Packet>, addr: SocketAddr, j: nat)
    requires j < |sent| && forall i :: 0 <= i < |sent| ==> (sent[i].to == addr <==> i == j)
    ensures To(sent, addr) == [sent[j]]
  {
    if j == |sent| - 1 {
      NoneTo(sent[..j], addr);
    } else {
      OneTo(sent[..|sent| - 1], addr, j);
    }
  }

  /** One candidate's record against the packets to its address. */
  predicate Agrees(c: Candidate, h: seq<Sent>, packets: seq<Packet>) {
    && |h| == |packets|
    && (forall i :: 0 <= i < |h| ==> h[i].at == packets[i].at)
    && (c.outstanding == map[] || (packets != [] && c.outstanding == map[packets[|packets| - 1].tx := packets[|packets| - 1].at]))
  }

  ghost predicate Matches(w: Wire) {
    && Shaped(w.l)
    && (forall k :: 0 <= k < |w.l.history| ==> Agrees(w.l.s.candidates[k], w.l.history[k], To(w.sent, w.l.s.candidates[k].addr)))
    && (forall j :: 0 <= j < |w.sent| ==> Names(w.l.s.candidates, w.sent[j].to))
    && |w.sent| == Total(w.l.history)
  }

  predicate Apart(candidates: seq<Candidate>) {
    forall j, k :: 0 <= j < k < |candidates| ==> candidates[j].addr != candidates[k].addr
  }

  /** A round over `dues`, seen from outside: what it did to the table and what it handed over. */
  predicate Round(candidates: seq<Candidate>, after: seq<Candidate>, out: seq<Ping>, dues: seq<nat>, now: nat) {
    && |after| == |candidates| && |out| == |dues|
    && (forall k :: 0 <= k < |after| ==> after[k].addr == candidates[k].addr)
    && (forall k :: 0 <= k < |after| && k !in dues ==> after[k] == candidates[k])
    && (forall j :: 0 <= j < |dues| ==> dues[j] < |after|)
    && (forall j :: 0 <= j < |dues| ==>
          out[j].to == candidates[dues[j]].addr && after[dues[j]].outstanding == map[out[j].tx := now])
    && (forall i, j :: 0 <= i < j < |dues| ==> dues[i] < dues[j])
  }

  lemma {:induction false} PingsAreARound(candidates: seq<Candidate>, now: nat, elapsed: nat, draw: nat -> Tx)
    ensures var (after, out) := PingFirst(candidates, |candidates|, now, elapsed, draw);
            Round(candidates, after, out, Dues(candidates, |candidates|, now, elapsed), now)
  {
    RoundSends(candidates, |candidates|, now, elapsed, draw);
    RoundIsExact(candidates, |candidates|, now, elapsed, draw);
    DuesAreDue(candidates, |candidates|, now, elapsed);
    var (after, out) := PingFirst(candidates, |candidates|, now, elapsed, draw);
    var dues := Dues(candidates, |candidates|, now, elapsed);
    hide PingFirst, Dues;
    forall k | 0 <= k < |after|
      ensures after[k].addr == candidates[k].addr && (k !in dues ==> after[k] == candidates[k])
    {
      PingedAddr(candidates[k], after[k], now, Due(candidates[k], now, elapsed));
    }
  }

  /** What one round adds to the packets to one candidate. */
  lemma {:induction false} RoundTo(candidates: seq<Candidate>, after: seq<Candidate>, out: seq<Ping>, dues: seq<nat>, now: nat, k: nat)
    requires Round(candidates, after, out, dues, now) && k < |candidates| && Apart(candidates)
    ensures var packets := To(At(out, now), candidates[k].addr);
            if k in dues then |packets| == 1 && packets[0].at == now && after[k].outstanding == map[packets[0].tx := now]
            else packets == []
  {
    var packets := At(out, now);
    hide At, To, Apart;
    forall i | 0 <= i < |packets|
      ensures packets[i].to == candidates[k].addr <==> dues[i] == k
    {
      ApartMeans(candidates, dues[i], k);
    }
    if k in dues {
      var j :| 0 <= j < |dues| && dues[j] == k;
      assert forall i :: 0 <= i < |dues| ==> (dues[i] == k <==> i == j);
      OneTo(packets, candidates[k].addr, j);
    } else {
      NoneTo(packets, candidates[k].addr);
    }
  }

  lemma {:induction false} ApartMeans(candidates: seq<Candidate>, j: nat, k: nat)
    requires j < |candidates| && k < |candidates| && Apart(candidates)
    ensures candidates[j].addr == candidates[k].addr <==> j == k
  {
  }

  /** As many packets as the histories grow by. */
  lemma {:induction false} RoundTotals(history: seq<seq<Sent>>, candidates: seq<Candidate>, now: nat, elapsed: nat)
    requires |history| == |candidates|
    ensures Total(SentNow(history, candidates, now, elapsed)) == Total(history) + |Dues(candidates, |candidates|, now, elapsed)|
  {
    if history != [] {
      var n := |history| - 1;
      RoundTotals(history[..n], candidates[..n], now, elapsed);
      DuesOfFirst(candidates, n, now, elapsed);
      var after := SentNow(history, candidates, now, elapsed);
      assert after[..n] == SentNow(history[..n], candidates[..n], now, elapsed);
      hide Due, SentNow;
    }
  }

  lemma {:induction false} DuesOfFirst(candidates: seq<Candidate>, n: nat, now: nat, elapsed: nat)
    requires n <= |candidates|
    ensures Dues(candidates[..n], n, now, elapsed) == Dues(candidates, n, now, elapsed)
    decreases n
  {
    if n > 0 {
      DuesOfFirst(candidates, n - 1, now, elapsed);
      DuesOfFirst(candidates[..n], n - 1, now, elapsed);
      assert candidates[..n][..n - 1] == candidates[..n - 1];
      hide Due;
    }
  }

  /** One candidate's record after a round, against the packets to its address after it. */
  lemma {:induction false} RoundAgrees(c: Candidate, after: Candidate, h: seq<Sent>, packets: seq<Packet>, more: seq<Packet>, now: nat, due: bool)
    requires Agrees(c, h, packets)
    requires if due then |more| == 1 && more[0].at == now && after.outstanding == map[more[0].tx := now]
             else more == [] && after == c
    ensures Agrees(after, if due then h + [Sent(now, None)] else h, packets + more)
  {
    assert !due ==> packets + more == packets;
    assert due ==> (packets + more)[|packets|] == more[0];
  }

  /** A round's pings are written at the ends of the histories of the candidates due. */
  predicate Written(before: seq<seq<Sent>>, history: seq<seq<Sent>>, dues: seq<nat>, now: nat) {
    && |history| == |before|
    && forall k :: 0 <= k < |history| ==> history[k] == if k in dues then before[k] + [Sent(now, None)] else before[k]
  }

  lemma {:induction false} SentIsWritten(history: seq<seq<Sent>>, candidates: seq<Candidate>, now: nat, elapsed: nat)
    requires |history| == |candidates|
    ensures Written(history, SentNow(history, candidates, now, elapsed), Dues(candidates, |candidates|, now, elapsed), now)
  {
    hide Due, SentNow, Dues;
    DuesAreDue(candidates, |candidates|, now, elapsed);
  }

  lemma {:induction false} AllAgree(w: Wire, after: seq<Candidate>, out: seq<Ping>, dues: seq<nat>, now: nat, history: seq<seq<Sent>>)
    requires Matches(w) && Round(w.l.s.candidates, after, out, dues, now) && Apart(w.l.s.candidates)
    requires Written(w.l.history, history, dues, now)
    ensures forall k :: 0 <= k < |after| ==> Agrees(after[k], history[k], To(w.sent + At(out, now), after[k].addr))
  {
    var candidates, more := w.l.s.candidates, At(out, now);
    hide Apart, Agrees, To, At;
    forall k | 0 <= k < |after|
      ensures Agrees(after[k], history[k], To(w.sent + more, after[k].addr))
    {
      var addr := candidates[k].addr;
      ToOfSum(w.sent, more, addr);
      RoundTo(candidates, after, out, dues, now, k);
      assert Agrees(candidates[k], w.l.history[k], To(w.sent, addr));
      RoundAgrees(candidates[k], after[k], w.l.history[k], To(w.sent, addr), To(more, addr), now, k in dues);
    }
  }

  lemma {:induction false} AllAreNamed(candidates: seq<Candidate>, after: seq<Candidate>, out: seq<Ping>, dues: seq<nat>, now: nat, sent: seq<Packet>)
    requires Round(candidates, after, out, dues, now)
    requires forall j :: 0 <= j < |sent| ==> Names(candidates, sent[j].to)
    ensures forall j :: 0 <= j < |sent + At(out, now)| ==> Names(after, (sent + At(out, now))[j].to)
  {
    var more := At(out, now);
    hide At;
    forall j | 0 <= j < |sent + more|
      ensures Names(after, (sent + more)[j].to)
    {
      if j < |sent| {
        var k :| 0 <= k < |candidates| && candidates[k].addr == sent[j].to;
        assert after[k].addr == sent[j].to;
      } else {
        assert after[dues[j - |sent|]].addr == more[j - |sent|].to;
      }
    }
  }

  /** What one round adds to the table and the packets, and to the histories. */
  predicate Hands(w: Wire, next: Wire, out: seq<Ping>, dues: seq<nat>, now: nat) {
    Round(w.l.s.candidates, next.l.s.candidates, out, dues, now) && next.sent == w.sent + At(out, now)
  }

  predicate Writes(w: Wire, next: Wire, dues: seq<nat>, now: nat) {
    Written(w.l.history, next.l.history, dues, now) && Total(next.l.history) == Total(w.l.history) + |dues|
  }

  lemma {:induction false} FiresMeans(l: Log, now: nat)
    requires Shaped(l) && Fires(l.s, now)
    ensures l.s.fireAt.Some? && now >= l.s.fireAt.value && |l.history| == |l.s.candidates|
  {
  }

  lemma {:induction false} MatchesIsShaped(w: Wire)
    requires Matches(w)
    ensures Shaped(w.l)
  {
  }

  lemma {:induction false} GoSteps(w: Wire, op: Op)
    requires Shaped(w.l)
    ensures Go(w, op).l == Step(w.l, op) && Go(w, op).sent == w.sent + HandedOver(w.l.s, op)
  {
    hide Step, HandedOver;
  }

  /** A probing turn that fires is one such round over the candidates due. */
  lemma {:induction false} FiringIsARound(s: State, now: nat, draw: nat -> Tx)
    requires Fires(s, now)
    ensures var (after, out) := DueProbes(s, now, draw);
            Round(s.candidates, after.candidates, out, Dues(s.candidates, |s.candidates|, now, now - s.fireAt.value), now)
  {
    hide PingFirst, Dues, Due, Round;
    PingsAreARound(s.candidates, now, now - s.fireAt.value, draw);
  }

  lemma {:induction false} ProbeIsDueProbes(w: Wire, now: nat, draw: nat -> Tx)
    requires Shaped(w.l)
    ensures var (after, out) := DueProbes(w.l.s, now, draw);
            Step(w.l, Probe(now, draw)).s == after && HandedOver(w.l.s, Probe(now, draw)) == At(out, now)
  {
    hide DueProbes, SentNow, At;
  }

  lemma {:induction false} HandsOf(w: Wire, next: Wire, after: seq<Candidate>, out: seq<Ping>, dues: seq<nat>, now: nat)
    requires next.l.s.candidates == after && next.sent == w.sent + At(out, now) && Round(w.l.s.candidates, after, out, dues, now)
    ensures Hands(w, next, out, dues, now)
  {
    hide Round, At;
  }

  lemma {:induction false} FiringHands(w: Wire, now: nat, draw: nat -> Tx) returns (out: seq<Ping>)
    requires Shaped(w.l) && Fires(w.l.s, now)
    ensures Hands(w, Go(w, Probe(now, draw)), out, Dues(w.l.s.candidates, |w.l.s.candidates|, now, now - w.l.s.fireAt.value), now)
  {
    hide *;
    FiresMeans(w.l, now);
    var candidates, elapsed := w.l.s.candidates, now - w.l.s.fireAt.value;
    var done, next := DueProbes(w.l.s, now, draw), Go(w, Probe(now, draw));
    out := done.1;
    GoSteps(w, Probe(now, draw));
    ProbeIsDueProbes(w, now, draw);
    FiringIsARound(w.l.s, now, draw);
    HandsOf(w, next, done.0.candidates, out, Dues(candidates, |candidates|, now, elapsed), now);
  }

  lemma {:induction false} FiringHistory(l: Log, now: nat, draw: nat -> Tx)
    requires Shaped(l) && Fires(l.s, now)
    ensures Step(l, Probe(now, draw)).history == SentNow(l.history, l.s.candidates, now, now - l.s.fireAt.value)
  {
    hide *;
    FiresMeans(l, now);
    FiringSends(l, now, draw);
  }

  lemma {:induction false} WritesOf(w: Wire, next: Wire, after: seq<seq<Sent>>, dues: seq<nat>, now: nat)
    requires next.l.history == after && Written(w.l.history, after, dues, now) && Total(after) == Total(w.l.history) + |dues|
    ensures Writes(w, next, dues, now)
  {
    hide Written, Total;
  }

  lemma {:induction false} FiringWrites(w: Wire, now: nat, draw: nat -> Tx)
    requires Shaped(w.l) && Fires(w.l.s, now)
    ensures Writes(w, Go(w, Probe(now, draw)), Dues(w.l.s.candidates, |w.l.s.candidates|, now, now - w.l.s.fireAt.value), now)
  {
    hide *;
    FiresMeans(w.l, now);
    var after, candidates, elapsed := Step(w.l, Probe(now, draw)).history, w.l.s.candidates, now - w.l.s.fireAt.value;
    GoSteps(w, Probe(now, draw));
    FiringHistory(w.l, now, draw);
    HistoryWrites(w.l.history, after, candidates, now, elapsed);
    WritesOf(w, Go(w, Probe(now, draw)), after, Dues(candidates, |candidates|, now, elapsed), now);
  }

  lemma {:induction false} HistoryWrites(history: seq<seq<Sent>>, after: seq<seq<Sent>>, candidates: seq<Candidate>, now: nat, elapsed: nat)
    requires |history| == |candidates| && after == SentNow(history, candidates, now, elapsed)
    ensures Written(history, after, Dues(candidates, |candidates|, now, elapsed), now)
    ensures Total(after) == Total(history) + |Dues(candidates, |candidates|, now, elapsed)|
  {
    hide *;
    SentIsWritten(history, candidates, now, elapsed);
    RoundTotals(history, candidates, now, elapsed);
  }

  lemma {:induction false} AddsMatches(w: Wire, next: Wire, out: seq<Ping>, dues: seq<nat>, now: nat)
    requires Matches(w) && Apart(w.l.s.candidates) && Shaped(next.l)
    requires Hands(w, next, out, dues, now) && Writes(w, next, dues, now)
    ensures Matches(next)
  {
    assert |out| == |dues|;
    hide Apart, Agrees, Names, To, Total, At, Round, Written;
    AllAgree(w, next.l.s.candidates, out, dues, now, next.l.history);
    AllAreNamed(w.l.s.candidates, next.l.s.candidates, out, dues, now, w.sent);
  }

  lemma {:induction false} RoundMatches(w: Wire, now: nat, draw: nat -> Tx)
    requires Matches(w) && Apart(w.l.s.candidates) && Fires(w.l.s, now)
    ensures Matches(Go(w, Probe(now, draw)))
  {
    hide *;
    MatchesIsShaped(w);
    FiresMeans(w.l, now);
    var out := FiringHands(w, now, draw);
    FiringWrites(w, now, draw);
    var dues := Dues(w.l.s.candidates, |w.l.s.candidates|, now, now - w.l.s.fireAt.value);
    AddsMatches(w, Go(w, Probe(now, draw)), out, dues, now);
  }

  lemma {:induction false} PingedAddr(c: Candidate, after: Candidate, now: nat, due: bool)
    requires if due then exists tx :: WasPinged(c, after, tx, now) else after == c
    ensures after.addr == c.addr
  {
  }

  /** Any call that sends nothing and keeps each record's times, addresses and what is in flight, or takes it back. */
  lemma {:induction false} QuietMatches(w: Wire, after: Log)
    requires Matches(w) && Shaped(after) && |after.history| == |w.l.history| && Total(after.history) == Total(w.l.history)
    requires forall k :: 0 <= k < |after.history| ==>
               OnlyAnswered(w.l.s.candidates[k], after.s.candidates[k], w.l.history[k], after.history[k])
    ensures Matches(Wire(after, w.sent))
  {
    forall k | 0 <= k < |after.history|
      ensures Agrees(after.s.candidates[k], after.history[k], To(w.sent, after.s.candidates[k].addr))
    {
      assert Agrees(w.l.s.candidates[k], w.l.history[k], To(w.sent, w.l.s.candidates[k].addr));
    }
    forall j | 0 <= j < |w.sent|
      ensures Names(after.s.candidates, w.sent[j].to)
    {
      var k :| 0 <= k < |w.l.s.candidates| && w.l.s.candidates[k].addr == w.sent[j].to;
      assert after.s.candidates[k].addr == w.sent[j].to;
    }
  }

  lemma {:induction false} SameTotals(a: seq<seq<Sent>>, b: seq<seq<Sent>>)
    requires |a| == |b| && forall k :: 0 <= k < |a| ==> |a[k]| == |b[k]|
    ensures Total(a) == Total(b)
  {
    if a != [] {
      SameTotals(a[..|a| - 1], b[..|b| - 1]);
    }
  }

  lemma {:induction false} TotalsOfMore(a: seq<seq<Sent>>, b: seq<seq<Sent>>)
    requires a <= b && forall k :: |a| <= k < |b| ==> b[k] == []
    ensures Total(b) == Total(a)
    decreases |b|
  {
    if |a| < |b| {
      TotalsOfMore(a, b[..|b| - 1]);
    } else {
      assert a == b;
    }
  }

  /** A new candidate's address has never been sent anything. */
  lemma {:induction false} GrowMatches(w: Wire, s: State)
    requires Matches(w) && Extends(w.l.s, s) && Apart(s.candidates)
    ensures Matches(Wire(Grow(w.l, s), w.sent))
  {
    var after, n := Grow(w.l, s), |w.l.history|;
    assert forall k :: 0 <= k < n ==> s.candidates[k] == s.candidates[..n][k];
    assert after.history[..n] == w.l.history;
    TotalsOfMore(w.l.history, after.history);
    forall j | 0 <= j < |w.sent|
      ensures Names(s.candidates, w.sent[j].to) && forall k :: n <= k < |s.candidates| ==> w.sent[j].to != s.candidates[k].addr
    {
      var i :| 0 <= i < n && w.l.s.candidates[i].addr == w.sent[j].to;
      assert s.candidates[i].addr == w.sent[j].to;
    }
    forall k | 0 <= k < |after.history|
      ensures Agrees(s.candidates[k], after.history[k], To(w.sent, s.candidates[k].addr))
    {
      if k < n {
        assert Agrees(w.l.s.candidates[k], w.l.history[k], To(w.sent, w.l.s.candidates[k].addr));
      } else {
        NoneTo(w.sent, s.candidates[k].addr);
      }
    }
  }

  /** What a pong leaves of one candidate and its record. */
  predicate OnlyAnswered(c: Candidate, after: Candidate, h: seq<Sent>, marked: seq<Sent>) {
    && after.addr == c.addr && |marked| == |h|
    && (forall i :: 0 <= i < |h| ==> marked[i].at == h[i].at)
    && (after.outstanding == map[] || after.outstanding == c.outstanding)
  }

  lemma {:induction false} AnsweringOnlyAnswers(c: Candidate, h: seq<Sent>, packets: seq<Packet>, tx: Tx, now: nat)
    requires Agrees(c, h, packets) && tx in c.outstanding
    ensures OnlyAnswered(c, Answered(c, tx, now), h, Marked(h, now))
  {
    assert c.outstanding - {tx} == map[];
  }

  lemma {:induction false} HearMatches(w: Wire, from: SocketAddr, pong: Pong, now: nat)
    requires Matches(w)
    ensures Matches(Go(w, Hear(from, pong, now)))
  {
    var after := Step(w.l, Hear(from, pong, now));
    assert w.sent + [] == w.sent;
    forall k | 0 <= k < |after.history|
      ensures OnlyAnswered(w.l.s.candidates[k], after.s.candidates[k], w.l.history[k], after.history[k])
    {
      var c, packets := w.l.s.candidates[k], To(w.sent, w.l.s.candidates[k].addr);
      assert Agrees(c, w.l.history[k], packets);
      hide Agrees, Answered, Marked, OnlyAnswered;
      if Answers(c, from, pong.tx) {
        AnsweringOnlyAnswers(c, w.l.history[k], packets, pong.tx, now);
      }
      NothingOnlyAnswers(c, w.l.history[k]);
    }
    hide Step, Matches;
    SameTotals(after.history, w.l.history);
    QuietMatches(w, after);
  }

  lemma {:induction false} NothingOnlyAnswers(c: Candidate, h: seq<Sent>)
    ensures OnlyAnswered(c, c, h, h)
  {
  }

  lemma {:induction false} OthersMatch(w: Wire, op: Op)
    requires Matches(w) && !op.Hear? && !op.Discover? && !op.PeerList? && (op.Probe? ==> !Fires(w.l.s, op.now))
    ensures Matches(Go(w, op))
  {
    var after := Step(w.l, op);
    assert HandedOver(w.l.s, op) == [];
    assert w.sent + [] == w.sent;
    hide Agrees, Names;
    QuietMatches(w, after);
  }

  lemma {:induction false} DiscoverMatches(w: Wire, addr: SocketAddr)
    requires Matches(w) && Apart(Step(w.l, Discover(addr)).s.candidates)
    ensures Matches(Go(w, Discover(addr)))
  {
    assert w.sent + [] == w.sent;
    hide Matches, Apart, AddDiscovered;
    DiscoverExtends(w.l.s, addr);
    GrowMatches(w, AddDiscovered(w.l.s, addr).0);
    HeardIsNotSent(Grow(w.l, AddDiscovered(w.l.s, addr).0), w.sent, w.l.heard + {Unmap(addr)});
  }

  lemma {:induction false} PeerListMatches(w: Wire, addrs: seq<SocketAddr>)
    requires Matches(w) && Apart(Step(w.l, PeerList(addrs)).s.candidates)
    ensures Matches(Go(w, PeerList(addrs)))
  {
    assert w.sent + [] == w.sent;
    hide Matches, Apart, AddPeers;
    PeersExtend(w.l.s, addrs);
    GrowMatches(w, AddPeers(w.l.s, addrs).0);
  }

  lemma {:induction false} GoMatches(w: Wire, op: Op)
    requires Matches(w) && AttemptSafety.Keeps(w.l) && AttemptSafety.Keeps(Step(w.l, op))
    ensures Matches(Go(w, op))
  {
    assert Apart(w.l.s.candidates) && Apart(Step(w.l, op).s.candidates);
    hide AttemptSafety.Keeps, Matches, Apart, Go, Step;
    match op {
      case Discover(addr) => DiscoverMatches(w, addr);
      case PeerList(addrs) => PeerListMatches(w, addrs);
      case Hear(from, pong, now) => HearMatches(w, from, pong, now);
      case Probe(now, draw) =>
        if Fires(w.l.s, now) {
          RoundMatches(w, now, draw);
        } else {
          OthersMatch(w, op);
        }
      case _ => OthersMatch(w, op);
    }
  }

  lemma {:induction false} HeardIsNotSent(l: Log, sent: seq<Packet>, heard: set<SocketAddr>)
    requires Matches(Wire(l, sent))
    ensures Matches(Wire(l.(heard := heard), sent))
  {
  }

  lemma {:induction false} GoOnMatches(id: Id, gateReflected: Option<SocketAddr>, ops: seq<Op>)
    ensures Matches(GoOn(Wire(Start(id, gateReflected), []), ops))
    decreases |ops|
  {
    if ops != [] {
      var so, w := ops[..|ops| - 1], GoOn(Wire(Start(id, gateReflected), []), ops[..|ops| - 1]);
      GoOnMatches(id, gateReflected, so);
      WireIsARun(Wire(Start(id, gateReflected), []), so);
      AttemptSafety.RunKeeps(id, gateReflected, so);
      hide Matches, AttemptSafety.Keeps, Step, Start;
      StepKeeps(w.l, ops[|ops| - 1]);
      GoMatches(w, ops[|ops| - 1]);
    }
  }

  /**
   The packets a candidate's address is sent are, one for one and at the same readings,
   the pings in its history; the last of them is the one in flight, under its own tx id;
   no packet goes anywhere else; and so no address is ever sent more than 37 and an
   attempt sends at most 592.
   */
  lemma {:induction false} PacketsAreThePings(id: Id, gateReflected: Option<SocketAddr>, ops: seq<Op>)
    ensures var w := GoOn(Wire(Start(id, gateReflected), []), ops);
            && w.l == Run(Start(id, gateReflected), ops)
            && (forall k :: 0 <= k < |w.l.history| ==> Agrees(w.l.s.candidates[k], w.l.history[k], To(w.sent, w.l.s.candidates[k].addr)))
            && (forall j :: 0 <= j < |w.sent| ==> Names(w.l.s.candidates, w.sent[j].to))
            && (forall addr :: |To(w.sent, addr)| <= 37)
            && |w.sent| <= 592
  {
    var w := GoOn(Wire(Start(id, gateReflected), []), ops);
    WireIsARun(Wire(Start(id, gateReflected), []), ops);
    GoOnMatches(id, gateReflected, ops);
    ProbesAreBudgeted(id, gateReflected, ops);
    hide Run, GoOn, Start;
    forall addr
      ensures |To(w.sent, addr)| <= 37
    {
      if k :| 0 <= k < |w.l.s.candidates| && w.l.s.candidates[k].addr == addr {
        assert Agrees(w.l.s.candidates[k], w.l.history[k], To(w.sent, addr));
      } else {
        NoneTo(w.sent, addr);
      }
    }
  }
}

/**
 How many visits a house holds, over its accept loop and the visit tasks it spawns
 (crates/mosschat-net/src/house.rs:48-70, 307-345, 379-442). A step is what runs under
 one lock, so the loop and the tasks interleave between any two of them.
 */
module VisitSlots {
  import opened Common

  type Key = nat
  type VisitId = nat

  const MAX_LIVE_VISITS := 8
  const MAX_VISITS_PER_PEER := 2

  /** Where a visit's task has got to. */
  datatype Phase =
    | Opening                           // accepted, no key proven
    | Charged(key: Key)                 // its slot taken, not yet written down
    | Counted(key: Key)                 // its slot written down
    | Refused                           // too many from this peer: nothing taken
    | Leaving(counted: Option<Key>)     // its control removed, its slot not given back
    | Gone

  datatype State = State(
    accepting: bool,
    nextVisit: VisitId,
    controls: set<VisitId>,
    peers: map<Key, nat>,
    visits: map<VisitId, Phase>)

  datatype Op =
    | SeeRoom                           // the loop counts the controls
    | Admit                             // and inserts one more
    | Prove(id: VisitId, key: Key)      // the task charges its peer's slot
    | WriteDown(id: VisitId)
    | End(id: VisitId)                  // however it ends, its control goes first
    | GiveBack(id: VisitId)

  function Held(peers: map<Key, nat>, key: Key): nat {
    if key in peers then peers[key] else 0
  }

  /** A step that is not the task's next does not happen. */
  function Step(s: State, op: Op): State {
    match op
    case SeeRoom => s.(accepting := |s.controls| < MAX_LIVE_VISITS)
    case Admit =>
      if !s.accepting then s
      else s.(accepting := false, nextVisit := s.nextVisit + 1, controls := s.controls + {s.nextVisit},
              visits := s.visits[s.nextVisit := Opening])
    case Prove(id, key) =>
      if id !in s.visits || !s.visits[id].Opening? then s
      else if Held(s.peers, key) >= MAX_VISITS_PER_PEER then s.(visits := s.visits[id := Refused])
      else s.(peers := s.peers[key := Held(s.peers, key) + 1], visits := s.visits[id := Charged(key)])
    case WriteDown(id) =>
      if id !in s.visits || !s.visits[id].Charged? then s
      else s.(visits := s.visits[id := Counted(s.visits[id].key)])
    case End(id) =>
      if id !in s.visits || s.visits[id].Charged? || s.visits[id].Leaving? || s.visits[id].Gone? then s
      else s.(controls := s.controls - {id},
              visits := s.visits[id := Leaving(if s.visits[id].Counted? then Some(s.visits[id].key) else None)])
    case GiveBack(id) =>
      if id !in s.visits || !s.visits[id].Leaving? then s
      else s.(peers := Returned(s.peers, s.visits[id].counted), visits := s.visits[id := Gone])
  }

  /** One slot less, and no entry left at zero. */
  function Returned(peers: map<Key, nat>, counted: Option<Key>): map<Key, nat> {
    if counted.None? || counted.value !in peers then peers
    else if peers[counted.value] <= 1 then peers - {counted.value}
    else peers[counted.value := peers[counted.value] - 1]
  }

  const EMPTY := State(false, 0, {}, map[], map[])

  function Run(s: State, ops: seq<Op>): State
    decreases |ops|
  {
    if ops == [] then s else Step(Run(s, ops[..|ops| - 1]), ops[|ops| - 1])
  }

  // ----- what the tables mean -----

  predicate IsLive(p: Phase) {
    !p.Leaving? && !p.Gone?
  }

  predicate Holds(p: Phase, key: Key) {
    p == Charged(key) || p == Counted(key) || p == Leaving(Some(key))
  }

  function Live(visits: map<VisitId, Phase>): set<VisitId> {
    set id | id in visits && IsLive(visits[id])
  }

  /** The visits that took one of this peer's slots and have not given it back. */
  function Holders(visits: map<VisitId, Phase>, key: Key): set<VisitId> {
    set id | id in visits && Holds(visits[id], key)
  }

  predicate RoomKept(s: State) {
    && s.controls == Live(s.visits) && |s.controls| <= MAX_LIVE_VISITS
    && (s.accepting ==> |s.controls| < MAX_LIVE_VISITS)
    && (forall id :: id in s.visits ==> id < s.nextVisit)
  }

  ghost predicate ChargesKept(s: State) {
    && (forall key :: Held(s.peers, key) == |Holders(s.visits, key)| <= MAX_VISITS_PER_PEER)
    && (forall key :: key in s.peers ==> s.peers[key] > 0)
  }

  ghost predicate Keeps(s: State) {
    RoomKept(s) && ChargesKept(s)
  }

  function Share(visits: map<VisitId, Phase>, id: VisitId, key: Key): nat {
    if id in visits && Holds(visits[id], key) then 1 else 0
  }

  /** Moving one visit on changes a peer's count by that visit's own share of it. */
  lemma HoldersMove(visits: map<VisitId, Phase>, id: VisitId, p: Phase, key: Key)
    ensures |Holders(visits[id := p], key)| == |Holders(visits, key)| - Share(visits, id, key) + Share(map[id := p], id, key)
  {
    var rest := Holders(visits, key) - {id};
    assert Holders(visits, key) == if Share(visits, id, key) == 1 then rest + {id} else rest;
    assert Holders(visits[id := p], key) == if Holds(p, key) then rest + {id} else rest;
  }

  lemma LiveMove(visits: map<VisitId, Phase>, id: VisitId, p: Phase)
    ensures Live(visits[id := p]) == if IsLive(p) then Live(visits) + {id} else Live(visits) - {id}
    ensures id in Live(visits) <==> id in visits && IsLive(visits[id])
  {
  }

  lemma RoomIsKept(s: State, op: Op)
    requires RoomKept(s)
    ensures RoomKept(Step(s, op))
  {
    var after := Step(s, op);
    if op.Admit? && s.accepting {
      LiveMove(s.visits, s.nextVisit, Opening);
    } else if !op.SeeRoom? && after != s {
      LiveMove(s.visits, op.id, after.visits[op.id]);
      hide Live, Held, Returned;
      assert after.controls == if op.End? then s.controls - {op.id} else s.controls;
    }
  }

  lemma ChargesAreKept(s: State, op: Op)
    requires ChargesKept(s) && (op.Admit? ==> s.nextVisit !in s.visits)
    ensures ChargesKept(Step(s, op))
  {
    var after := Step(s, op);
    if after != s && !op.SeeRoom? {
      var id := if op.Admit? then s.nextVisit else op.id;
      forall key
        ensures Held(after.peers, key) == |Holders(after.visits, key)| <= MAX_VISITS_PER_PEER
      {
        OneCountMoves(s, op, id, key);
      }
      hide Holders, Holds;
      assert forall key :: key in after.peers ==> after.peers[key] > 0;
    }
  }

  lemma OneCountMoves(s: State, op: Op, id: VisitId, key: Key)
    requires ChargesKept(s) && (op.Admit? ==> s.nextVisit !in s.visits)
    requires Step(s, op) != s && !op.SeeRoom? && id == if op.Admit? then s.nextVisit else op.id
    ensures Held(Step(s, op).peers, key) == |Holders(Step(s, op).visits, key)| <= MAX_VISITS_PER_PEER
  {
    var after := Step(s, op);
    assert Held(s.peers, key) == |Holders(s.visits, key)|;
    HoldersMove(s.visits, id, after.visits[id], key);
    assert after.visits == s.visits[id := after.visits[id]];
    hide Holders, ChargesKept;
    if op.GiveBack? {
      ReturnedIsOneLess(s.peers, s.visits[id].counted, key);
      if s.visits[id] == Leaving(Some(key)) {
        assert Held(s.peers, key) > 0 by { HolderCounts(s.visits, id, key); }
      }
    }
  }

  lemma HolderCounts(visits: map<VisitId, Phase>, id: VisitId, key: Key)
    requires id in visits && Holds(visits[id], key)
    ensures |Holders(visits, key)| > 0
  {
    assert id in Holders(visits, key);
  }

  lemma ReturnedIsOneLess(peers: map<Key, nat>, counted: Option<Key>, key: Key)
    ensures Held(Returned(peers, counted), key)
              == if counted == Some(key) && Held(peers, key) > 0 then Held(peers, key) - 1 else Held(peers, key)
  {
  }

  lemma StepKeeps(s: State, op: Op)
    requires Keeps(s)
    ensures Keeps(Step(s, op))
  {
    hide ChargesKept, Step;
    RoomIsKept(s, op);
    ChargesAreKept(s, op);
  }

  lemma {:induction false} RunKeeps(ops: seq<Op>)
    ensures Keeps(Run(EMPTY, ops))
    decreases |ops|
  {
    if ops == [] {
      forall key
        ensures Holders(EMPTY.visits, key) == {}
      {
      }
    } else {
      RunKeeps(ops[..|ops| - 1]);
      hide Keeps, Step;
      StepKeeps(Run(EMPTY, ops[..|ops| - 1]), ops[|ops| - 1]);
    }
  }

  /**
   Over every interleaving: the controls are exactly the live visits, never more than
   8; each peer's count is exactly the visits that hold one of its slots, never more
   than 2; and a peer has an entry only while some visit does.
   */
  lemma {:induction false} SlotsAreTrue(ops: seq<Op>, key: Key)
    ensures var s := Run(EMPTY, ops);
            && s.controls == Live(s.visits) && |Live(s.visits)| <= 8
            && Held(s.peers, key) == |Holders(s.visits, key)| <= 2
            && (key in s.peers <==> exists id :: id in s.visits && Holds(s.visits[id], key))
  {
    RunKeeps(ops);
    var s := Run(EMPTY, ops);
    hide Run;
    assert Held(s.peers, key) == |Holders(s.visits, key)|;
    if key in s.peers {
      assert Holders(s.visits, key) != {};
      var id :| id in Holders(s.visits, key);
    }
    if id :| id in s.visits && Holds(s.visits[id], key) {
      assert id in Holders(s.visits, key);
    }
  }

  /** A house whose visits are all over keeps nothing about anybody. */
  lemma IdleKeepsNothing(ops: seq<Op>)
    requires forall id :: id in Run(EMPTY, ops).visits ==> Run(EMPTY, ops).visits[id].Gone?
    ensures Run(EMPTY, ops).controls == {} && Run(EMPTY, ops).peers == map[]
  {
    var s := Run(EMPTY, ops);
    RunKeeps(ops);
    hide Run;
    forall key
      ensures key !in s.peers
    {
      assert Holders(s.visits, key) == {};
      assert Held(s.peers, key) == |Holders(s.visits, key)|;
    }
  }

  /** Giving back never finds the entry missing or at zero, so nothing saturates. */
  lemma GivingBackIsExact(ops: seq<Op>, id: VisitId)
    requires var s := Run(EMPTY, ops); id in s.visits && s.visits[id].Leaving? && s.visits[id].counted.Some?
    ensures var s := Run(EMPTY, ops);
            var key := s.visits[id].counted.value;
            && key in s.peers && s.peers[key] >= 1
            && Held(Step(s, GiveBack(id)).peers, key) == s.peers[key] - 1
            && forall other :: other != key ==> Held(Step(s, GiveBack(id)).peers, other) == Held(s.peers, other)
  {
    RunKeeps(ops);
    var s := Run(EMPTY, ops);
    hide Run;
    var key := s.visits[id].counted.value;
    assert id in Holders(s.visits, key);
    assert Held(s.peers, key) == |Holders(s.visits, key)|;
  }

  /** A proven key is refused exactly when two other visits hold its slots, whoever else is there. */
  lemma RefusedIffTwoHold(ops: seq<Op>, id: VisitId, key: Key)
    requires var s := Run(EMPTY, ops); id in s.visits && s.visits[id].Opening?
    ensures var s := Run(EMPTY, ops);
            && id !in Holders(s.visits, key)
            && (Step(s, Prove(id, key)).visits[id].Refused? <==> |Holders(s.visits, key)| == 2)
            && (Step(s, Prove(id, key)).visits[id].Refused? ==> Step(s, Prove(id, key)).peers == s.peers)
  {
    RunKeeps(ops);
    var s := Run(EMPTY, ops);
    hide Run;
    assert Held(s.peers, key) == |Holders(s.visits, key)|;
  }

  /** A visit is admitted exactly when fewer than 8 are live, as the newest, and changes nobody else's. */
  lemma AdmittedIffRoom(ops: seq<Op>)
    ensures var s := Run(EMPTY, ops);
            var after := Step(Step(s, SeeRoom), Admit);
            && s.nextVisit !in s.visits
            && after.visits == (if |Live(s.visits)| < 8 then s.visits[s.nextVisit := Opening] else s.visits)
            && after.peers == s.peers
  {
    RunKeeps(ops);
    var s := Run(EMPTY, ops);
    hide Run, Holders;
    assert s.controls == Live(s.visits);
  }

  // ----- as the source writes it -----

  class House {
    var accepting: bool
    var nextVisit: VisitId
    var controls: set<VisitId>
    var peers: map<Key, nat>
    var visits: map<VisitId, Phase>

    ghost function Value(): State
      reads this
    {
      State(accepting, nextVisit, controls, peers, visits)
    }

    constructor ()
      ensures Value() == EMPTY
    {
      accepting, nextVisit, controls, peers, visits := false, 0, {}, map[], map[];
    }

    /** The accept loop, up to the lock it lets go of. */
    method CountControls() returns (live: nat)
      modifies this`accepting
      ensures live == |controls|
      ensures Value() == Step(old(Value()), SeeRoom)
    {
      live := |controls|;
      accepting := live < MAX_LIVE_VISITS;
    }

    method AdmitVisit() returns (id: VisitId)
      requires accepting
      modifies this
      ensures id == old(nextVisit) && Value() == Step(old(Value()), Admit)
    {
      id := nextVisit;
      nextVisit := nextVisit + 1;
      controls := controls + {id};
      visits := visits[id := Opening];
      accepting := false;
    }

    method ProveKey(id: VisitId, key: Key) returns (charged: bool)
      requires id in visits && visits[id].Opening?
      modifies this`peers, this`visits
      ensures charged <==> Held(old(peers), key) < MAX_VISITS_PER_PEER
      ensures Value() == Step(old(Value()), Prove(id, key))
    {
      var held := if key in peers then peers[key] else 0;
      if held >= MAX_VISITS_PER_PEER {
        visits := visits[id := Refused];
        return false;
      }
      peers := peers[key := held + 1];
      visits := visits[id := Charged(key)];
      return true;
    }

    method WriteDownCounted(id: VisitId)
      requires id in visits && visits[id].Charged?
      modifies this`visits
      ensures Value() == Step(old(Value()), WriteDown(id))
    {
      visits := visits[id := Counted(visits[id].key)];
    }

    method RemoveControl(id: VisitId)
      requires id in visits && (visits[id].Opening? || visits[id].Counted? || visits[id].Refused?)
      modifies this`controls, this`visits
      ensures Value() == Step(old(Value()), End(id))
    {
      controls := controls - {id};
      visits := visits[id := Leaving(match visits[id] case Counted(key) => Some(key) case _ => None)];
    }

    method GiveSlotBack(id: VisitId)
      requires id in visits && visits[id].Leaving?
      modifies this`peers, this`visits
      ensures Value() == Step(old(Value()), GiveBack(id))
    {
      var counted := visits[id].counted;
      if counted.Some? {
        var key := counted.value;
        if key in peers {
          var held := if peers[key] > 0 then peers[key] - 1 else 0;
          peers := peers[key := held];
          if held == 0 {
            peers := peers - {key};
          }
          assert peers == Returned(old(peers), counted);
        }
      }
      visits := visits[id := Gone];
    }
  }
}

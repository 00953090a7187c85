/**
 What a house answers to the datagrams it hears, over whole runs
 (crates/mosschat-net/src/discovery.rs:664-808): whose word an address rests on, where it
 may point, who is replied to, and that every counter counts what its name says.
 */
module DiscoveryAnswers {
  import opened Common
  import opened Addresses
  import opened Admission
  import opened Announces
  import opened Discovery
  import opened DiscoveryRuns
  import AddressCache

  // ----- one datagram -----

  /** Every check before the source's. */
  predicate ComesToTheSource(env: Env, s: State, d: Datagram) {
    && Rolled(s.window, d.now).used < PACKETS_PER_SECOND
    && var reading := Reading(env, d);
    && reading.Ok?
    && reading.announce.key != env.config.ownKey
    && Signed(d.bytes, reading.announce.key, env.verify)
    && (reading.announce.key in s.gaps.lastFrom ==> Since(d.now, s.gaps.lastFrom[reading.announce.key]) >= PER_KEY_GAP)
    && Skew(Unix(env, d.now), reading.announce.sentUnix) <= REPLAY_WINDOW
    && TripleOf(reading.announce) !in s.memory.seen
  }

  /** The kernel's address with the announced port, in its one spelling. */
  function SpokenFrom(env: Env, d: Datagram): SocketAddr
    requires Reading(env, d).Ok?
  {
    Unmap(SocketAddr(d.from.ip, Reading(env, d).announce.port))
  }

  /**
   A datagram that passes every earlier check is refused for its source if and only if
   that is not local, and one that is discovered or refused for its source has passed
   them all.
   */
  lemma SourceDecides(env: Env, s: State, d: Datagram)
    ensures var heard := Hears(env, s, d).1;
            if ComesToTheSource(env, s, d) then
              var addr := SpokenFrom(env, d);
              && (heard == Dropped(SourceNotLocal) <==> !IsLocalSource(addr.ip, false))
              && (heard.Discovered? <==> IsLocalSource(addr.ip, false))
            else heard.Dropped? && heard != Dropped(SourceNotLocal)
  {
    hide Signed, IsLocalSource, Rolled, Unmap, EvictedKeys, Remembered, AddressCache.Remembered;
  }

  /** Read, not this house's own, and signed by its key: only now is anything spent on its behalf. */
  predicate Believed(env: Env, d: Datagram) {
    var reading := Reading(env, d);
    reading.Ok? && reading.announce.key != env.config.ownKey && Signed(d.bytes, reading.announce.key, env.verify)
  }

  /** Its key was let through less than ten seconds ago. */
  predicate TooSoon(env: Env, s: State, d: Datagram)
    requires Reading(env, d).Ok?
  {
    var key := Reading(env, d).announce.key;
    key in s.gaps.lastFrom && Since(d.now, s.gaps.lastFrom[key]) < 10_000_000_000
  }

  /** Each refusal names the first check that failed, whichever of the ten it is. */
  lemma RefusalsMean(env: Env, s: State, d: Datagram)
    ensures var heard, room, reading := Hears(env, s, d).1, Rolled(s.window, d.now).used < 50, Reading(env, d);
            && (reading.Err? ==> (heard == Dropped(reading.error) <==> room || reading.error == RateLimited))
            && (heard == Dropped(Malformed) <==> room && reading == Err(Malformed))
            && (heard == Dropped(OtherCommunity) <==> room && reading == Err(OtherCommunity))
            && (heard == Dropped(NotAFriend) <==> room && reading == Err(NotAFriend))
            && (heard == Dropped(Ourselves) <==> room && reading.Ok? && reading.announce.key == env.config.ownKey)
            && (heard == Dropped(BadSignature) <==>
                  room && reading.Ok? && reading.announce.key != env.config.ownKey && !Signed(d.bytes, reading.announce.key, env.verify))
            && (heard == Dropped(RateLimited) <==> !room || (Believed(env, d) && TooSoon(env, s, d)))
  {
    hide IsLocalSource, Rolled, Unmap, EvictedKeys, Remembered, AddressCache.Remembered, Signed;
  }

  lemma GuardRefusalsMean(env: Env, s: State, d: Datagram)
    ensures var heard, room := Hears(env, s, d).1, Rolled(s.window, d.now).used < 50;
            var spent := room && Believed(env, d) && !TooSoon(env, s, d);
            && (heard == Dropped(OutsideWindow) <==> spent && Skew(Unix(env, d.now), Reading(env, d).announce.sentUnix) > 60)
            && (heard == Dropped(Replayed) <==>
                  && spent && Skew(Unix(env, d.now), Reading(env, d).announce.sentUnix) <= 60
                  && TripleOf(Reading(env, d).announce) in s.memory.seen)
  {
    hide IsLocalSource, Rolled, Unmap, EvictedKeys, Remembered, AddressCache.Remembered, Signed;
  }

  /** What is discovered is the announcer's key at its own address, remembered under it, and one reply to a stranger. */
  lemma DiscoveredFacts(env: Env, s: State, d: Datagram)
    requires Hears(env, s, d).1.Discovered?
    ensures var (after, heard) := Hears(env, s, d);
            && Reading(env, d).Ok? && heard.key == Reading(env, d).announce.key
            && heard.addr == SpokenFrom(env, d) && IsLocalSource(heard.addr.ip, false)
            && heard.reply == (if Held(s.cache, heard.key) == [] then Some(d.from) else None)
            && after.cache == AddressCache.Step(s.cache, AddressCache.RememberIt(heard.key, heard.addr, CandidateSource.Discovery, d.now))
  {
    hide Signed, IsLocalSource, Rolled, Unmap, Parse, AdmitKey, AdmitTriple, AddressCache.Remembered, TripleOf;
  }

  lemma DroppedFacts(env: Env, s: State, d: Datagram)
    requires Hears(env, s, d).1.Dropped?
    ensures Hears(env, s, d).0.cache == s.cache
  {
    hide Signed, IsLocalSource, Rolled, Unmap, Parse, AdmitKey, AdmitTriple, AddressCache.Remembered, TripleOf;
  }

  // ----- the answers of a run -----

  /** One answer, and the datagram it answers. */
  datatype Answer = Answer(d: Datagram, heard: Heard)

  datatype Record = Record(l: Log, answers: seq<Answer>)

  function Go(env: Env, r: Record, d: Datagram): Record {
    if d.now < r.l.clock then r
    else Record(Hear(env, r.l, d), r.answers + [Answer(d, Hears(env, r.l.s, d).1)])
  }

  function GoOn(env: Env, r: Record, datagrams: seq<Datagram>): Record {
    if datagrams == [] then r else Go(env, GoOn(env, r, datagrams[..|datagrams| - 1]), datagrams[|datagrams| - 1])
  }

  lemma {:induction false} RecordIsARun(env: Env, r: Record, datagrams: seq<Datagram>)
    ensures GoOn(env, r, datagrams).l == Run(env, r.l, datagrams)
  {
    if datagrams != [] {
      RecordIsARun(env, r, datagrams[..|datagrams| - 1]);
      hide Hears;
    }
  }

  /** The key was discovered by one of these. */
  ghost predicate Met(answers: seq<Answer>, key: Key) {
    exists k :: 0 <= k < |answers| && answers[k].heard.Discovered? && answers[k].heard.key == key
  }

  ghost predicate MetAt(answers: seq<Answer>, key: Key, addr: SocketAddr) {
    exists k :: 0 <= k < |answers| && answers[k].heard.Discovered? && answers[k].heard.key == key && answers[k].heard.addr == addr
  }

  /** An answer that discovers names the announcer's own address, and replies to it when it is new. */
  ghost predicate True(env: Env, answers: seq<Answer>, k: nat)
    requires k < |answers|
  {
    var Answer(d, heard) := answers[k];
    heard.Discovered? ==>
      && Reading(env, d).Ok? && heard.key == Reading(env, d).announce.key
      && heard.addr == SpokenFrom(env, d) && IsLocalSource(heard.addr.ip, false)
      && heard.reply == (if Met(answers[..k], heard.key) then None else Some(d.from))
  }

  function Times(answers: seq<Answer>, error: Error): nat {
    if answers == [] then 0
    else Times(answers[..|answers| - 1], error) + if answers[|answers| - 1].heard == Dropped(error) then 1 else 0
  }

  function TimesDiscovered(answers: seq<Answer>): nat {
    if answers == [] then 0
    else TimesDiscovered(answers[..|answers| - 1]) + if answers[|answers| - 1].heard.Discovered? then 1 else 0
  }

  predicate Counts(c: Counters, answers: seq<Answer>) {
    && c.accepted == TimesDiscovered(answers)
    && c.malformed == Times(answers, Malformed) && c.otherCommunity == Times(answers, OtherCommunity)
    && c.notAFriend == Times(answers, NotAFriend) && c.badSignature == Times(answers, BadSignature)
    && c.rateLimited == Times(answers, RateLimited) && c.ourselves == Times(answers, Ourselves)
    && c.outsideWindow == Times(answers, OutsideWindow) && c.replayed == Times(answers, Replayed)
    && c.sourceNotLocal == Times(answers, SourceNotLocal)
  }

  /** A cached address is one that some answer named, for that key. */
  ghost predicate CacheIsMet(cache: map<Key, seq<AddressCache.Entry>>, answers: seq<Answer>) {
    && (forall key :: key in cache ==> forall e :: e in cache[key] ==> MetAt(answers, key, e.addr))
    && (forall key :: Met(answers, key) <==> key in cache)
  }

  ghost predicate Says(env: Env, r: Record) {
    && (forall k :: 0 <= k < |r.answers| ==> True(env, r.answers, k))
    && AddressCache.AllKept(r.l.s.cache)
    && CacheIsMet(r.l.s.cache, r.answers)
    && Counts(r.l.s.counters, r.answers)
  }

  lemma CountsOneMore(c: Counters, answers: seq<Answer>, a: Answer)
    requires Counts(c, answers)
    ensures a.heard.Dropped? ==> Counts(CountDrop(c, a.heard.error), answers + [a])
    ensures a.heard.Discovered? ==> Counts(c.(accepted := c.accepted + 1), answers + [a])
  {
    assert (answers + [a])[..|answers|] == answers;
  }

  lemma CounterMoves(env: Env, s: State, d: Datagram)
    ensures var (after, heard) := Hears(env, s, d);
            after.counters == if heard.Dropped? then CountDrop(s.counters, heard.error)
                              else s.counters.(accepted := s.counters.accepted + 1)
  {
    hide Signed, IsLocalSource, Rolled, Unmap, Parse, AdmitKey, AdmitTriple, AddressCache.Remembered, TripleOf, CountDrop;
  }

  lemma TruthsStay(env: Env, answers: seq<Answer>, a: Answer)
    requires forall k :: 0 <= k < |answers| ==> True(env, answers, k)
    ensures forall k :: 0 <= k < |answers| ==> True(env, answers + [a], k)
  {
    forall k | 0 <= k < |answers|
      ensures True(env, answers + [a], k)
    {
      assert True(env, answers, k);
      assert (answers + [a])[..k] == answers[..k];
      hide Met, IsLocalSource, Unmap, Reading;
    }
  }

  lemma MetGrows(answers: seq<Answer>, a: Answer)
    ensures forall key :: Met(answers + [a], key) <==> Met(answers, key) || (a.heard.Discovered? && a.heard.key == key)
    ensures forall key, addr :: MetAt(answers, key, addr) ==> MetAt(answers + [a], key, addr)
    ensures a.heard.Discovered? ==> MetAt(answers + [a], a.heard.key, a.heard.addr)
  {
    var after := answers + [a];
    assert after[|answers|] == a;
    assert forall k :: 0 <= k < |answers| ==> after[k] == answers[k];
    forall key | Met(answers, key)
      ensures Met(after, key)
    {
      var k :| 0 <= k < |answers| && answers[k].heard.Discovered? && answers[k].heard.key == key;
      assert after[k] == answers[k];
    }
    forall key, addr | MetAt(answers, key, addr)
      ensures MetAt(after, key, addr)
    {
      var k :| 0 <= k < |answers| && answers[k].heard.Discovered? && answers[k].heard.key == key && answers[k].heard.addr == addr;
      assert after[k] == answers[k];
    }
  }

  /** Remembering what an answer discovered keeps every cached address one that some answer named. */
  lemma RememberedIsMet(cache: map<Key, seq<AddressCache.Entry>>, answers: seq<Answer>, a: Answer, now: nat)
    requires CacheIsMet(cache, answers) && AddressCache.AllKept(cache) && a.heard.Discovered? && Unmap(a.heard.addr) == a.heard.addr
    ensures CacheIsMet(AddressCache.Step(cache, AddressCache.RememberIt(a.heard.key, a.heard.addr, CandidateSource.Discovery, now)),
                       answers + [a])
  {
    MetGrows(answers, a);
    var held := AddressCache.HeldIn(cache, a.heard.key);
    assert AddressCache.Kept(held);
    AddressCache.RememberKeeps(held, a.heard.addr, CandidateSource.Discovery, now);
    hide Met, MetAt, AddressCache.Remembered, AddressCache.AllKept, AddressCache.Kept, Unmap;
  }

  lemma NothingRememberedIsMet(cache: map<Key, seq<AddressCache.Entry>>, answers: seq<Answer>, a: Answer)
    requires CacheIsMet(cache, answers) && a.heard.Dropped?
    ensures CacheIsMet(cache, answers + [a])
  {
    MetGrows(answers, a);
    hide Met, MetAt;
  }

  lemma CacheStaysMet(env: Env, s: State, d: Datagram, answers: seq<Answer>)
    requires CacheIsMet(s.cache, answers) && AddressCache.AllKept(s.cache)
    ensures var (after, heard) := Hears(env, s, d);
            CacheIsMet(after.cache, answers + [Answer(d, heard)]) && AddressCache.AllKept(after.cache)
  {
    var (after, heard) := Hears(env, s, d);
    if heard.Discovered? {
      DiscoveredFacts(env, s, d);
      hide Hears, CacheIsMet, AddressCache.AllKept, AddressCache.Step, Reading, IsLocalSource;
      AddressCache.StepKeeps(s.cache, AddressCache.RememberIt(heard.key, heard.addr, CandidateSource.Discovery, d.now));
      RememberedIsMet(s.cache, answers, Answer(d, heard), d.now);
    } else {
      DroppedFacts(env, s, d);
      hide Hears, CacheIsMet, AddressCache.AllKept;
      NothingRememberedIsMet(s.cache, answers, Answer(d, heard));
    }
  }

  lemma NewestIsTrue(env: Env, s: State, d: Datagram, answers: seq<Answer>)
    requires CacheIsMet(s.cache, answers) && AddressCache.AllKept(s.cache)
    ensures True(env, answers + [Answer(d, Hears(env, s, d).1)], |answers|)
  {
    var heard := Hears(env, s, d).1;
    var after := answers + [Answer(d, heard)];
    assert after[..|answers|] == answers;
    if heard.Discovered? {
      DiscoveredFacts(env, s, d);
      hide Hears, Met, Reading, IsLocalSource, Unmap, AddressCache.Kept;
      assert Met(answers, heard.key) <==> heard.key in s.cache;
    }
  }

  lemma GoSays(env: Env, r: Record, d: Datagram)
    requires Says(env, r)
    ensures Says(env, Go(env, r, d))
  {
    if d.now >= r.l.clock {
      var (after, heard) := Hears(env, r.l.s, d);
      var a, n := Answer(d, heard), |r.answers|;
      assert Go(env, r, d) == Record(Hear(env, r.l, d), r.answers + [a]);
      assert Hear(env, r.l, d).s == after by { hide Hears, Says, Rolled, Number, Reading; }
      CounterMoves(env, r.l.s, d);
      CountsOneMore(r.l.s.counters, r.answers, a);
      TruthsStay(env, r.answers, a);
      CacheStaysMet(env, r.l.s, d, r.answers);
      NewestIsTrue(env, r.l.s, d, r.answers);
      hide Hears, Hear, Go, Counts, CacheIsMet, True, AddressCache.AllKept, CountDrop;
    }
  }

  lemma {:induction false} GoOnSays(env: Env, start: nat, datagrams: seq<Datagram>)
    ensures Says(env, GoOn(env, Record(Start(start), []), datagrams))
    decreases |datagrams|
  {
    if datagrams != [] {
      GoOnSays(env, start, datagrams[..|datagrams| - 1]);
      hide Says, Go;
      GoSays(env, GoOn(env, Record(Start(start), []), datagrams[..|datagrams| - 1]), datagrams[|datagrams| - 1]);
    }
  }

  /**
   In every run an address is discovered only as the announcer's own: the kernel's source
   address, local, with the announced port, in one spelling; the announcer is replied to,
   at the address it spoke from, exactly when its key is discovered for the first time;
   and every cached address is one that was so discovered, for that key.
   */
  lemma AddressesAreTheAnnouncers(env: Env, start: nat, datagrams: seq<Datagram>)
    ensures var r := GoOn(env, Record(Start(start), []), datagrams);
            && r.l == Run(env, Start(start), datagrams)
            && (forall k :: 0 <= k < |r.answers| ==> True(env, r.answers, k))
            && (forall key :: key in r.l.s.cache ==> forall e :: e in r.l.s.cache[key] ==>
                  MetAt(r.answers, key, e.addr) && IsLocalSource(e.addr.ip, false))
  {
    RecordIsARun(env, Record(Start(start), []), datagrams);
    GoOnSays(env, start, datagrams);
    var r := GoOn(env, Record(Start(start), []), datagrams);
    hide GoOn, Run, Counts, AddressCache.AllKept, IsLocalSource;
    forall key, e | key in r.l.s.cache && e in r.l.s.cache[key]
      ensures MetAt(r.answers, key, e.addr) && IsLocalSource(e.addr.ip, false)
    {
      var k :| 0 <= k < |r.answers| && r.answers[k].heard.Discovered? && r.answers[k].heard.key == key && r.answers[k].heard.addr == e.addr;
      assert True(env, r.answers, k);
    }
  }

  /** In every run each counter is the number of answers of its kind. */
  lemma CountersCountAnswers(env: Env, start: nat, datagrams: seq<Datagram>)
    ensures var r := GoOn(env, Record(Start(start), []), datagrams);
            Counts(Run(env, Start(start), datagrams).s.counters, r.answers)
  {
    RecordIsARun(env, Record(Start(start), []), datagrams);
    GoOnSays(env, start, datagrams);
    hide GoOn, Run, Counts;
  }
}

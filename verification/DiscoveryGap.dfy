/**
 The per-key gap over whole runs of `on_datagram`
 (crates/mosschat-net/src/discovery.rs:470-486, 664-740). A key is forgotten in the
 order keys were first met, however recently it was let through, so the ten second gap
 holds in every run of at most 512 announcing keys. The packet ceiling does not save
 it beyond that: 513 keys can be heard in time.
 */
module DiscoveryGap {
  import opened Common
  import opened Addresses
  import opened Admission
  import opened Announces
  import opened Discovery
  import opened DiscoveryRuns
  import opened DiscoveryFlood

  /** An announce that reaches the per-key gap, ceiling permitting: known, not this house's own, and signed. */
  predicate Speaks(env: Env, d: Datagram) {
    var read := Reading(env, d);
    read.Ok? && read.announce.key != env.config.ownKey && Signed(d.bytes, read.announce.key, env.verify)
  }

  /** Whoever announces at all is one of these. */
  predicate Among(env: Env, datagrams: seq<Datagram>, keys: set<Key>) {
    forall k :: 0 <= k < |datagrams| && Speaks(env, datagrams[k]) ==> Reading(env, datagrams[k]).announce.key in keys
  }

  predicate Located(l: Log) {
    |l.packet| == |l.admitted| && forall k :: 0 <= k < |l.packet| ==> l.packet[k] < |l.passes|
  }

  /** When the k-th admission happened. */
  function When(l: Log, k: nat): nat
    requires Located(l) && k < |l.admitted|
  {
    l.passes[l.packet[k]].at
  }

  /** Any two admissions of one key are ten seconds apart. */
  predicate Gapped(l: Log) {
    && Located(l)
    && forall i, j :: 0 <= i < j < |l.admitted| && l.admitted[i].key == l.admitted[j].key
                      ==> When(l, j) >= When(l, i) + PER_KEY_GAP
  }

  // ----- at most 512 keys -----

  predicate Distinct(order: seq<Key>) {
    forall i, j :: 0 <= i < j < |order| ==> order[i] != order[j]
  }

  lemma {:induction false} DistinctFits(order: seq<Key>, keys: set<Key>)
    requires Distinct(order) && forall k :: k in order ==> k in keys
    ensures |order| <= |keys|
  {
    if order != [] {
      DistinctFits(order[..|order| - 1], keys - {order[|order| - 1]});
    }
  }

  /** Nobody has been forgotten: what was let through is remembered, no older than it was. */
  ghost predicate Remembers(g: Gaps, keys: set<Key>) {
    && Distinct(g.order)
    && (forall key :: key in g.order <==> key in g.lastFrom)
    && (forall key :: key in g.order ==> key in keys)
  }

  ghost predicate GapKeeps(l: Log, keys: set<Key>) {
    && Remembers(l.s.gaps, keys)
    && Gapped(l)
    && forall k :: 0 <= k < |l.admitted| ==>
         l.admitted[k].key in l.s.gaps.lastFrom && When(l, k) <= l.s.gaps.lastFrom[l.admitted[k].key]
  }

  lemma NewKeyJoins(g: Gaps, key: Key, now: nat)
    requires key !in g.lastFrom && |g.order| < KEYS_REMEMBERED
    ensures AdmitKey(g, key, now) == (Gaps(g.lastFrom[key := now], g.order + [key]), true)
  {
  }

  lemma NewKeyEvicts(g: Gaps, key: Key, now: nat)
    requires key !in g.lastFrom && |g.order| == KEYS_REMEMBERED
    ensures AdmitKey(g, key, now) == (Gaps(g.lastFrom[key := now] - {g.order[0]}, g.order[1..] + [key]), true)
  {
    var grown := Gaps(g.lastFrom[key := now], g.order + [key]);
    assert grown.order[1..] == g.order[1..] + [key];
    assert EvictedKeys(grown) == Gaps(grown.lastFrom - {grown.order[0]}, grown.order[1..]);
  }

  /** Among few enough keys one more never pushes another out. */
  lemma NobodyIsForgotten(g: Gaps, key: Key, now: nat, keys: set<Key>)
    requires Remembers(g, keys) && key in keys && |keys| <= KEYS_REMEMBERED
    ensures var (after, quiet) := AdmitKey(g, key, now);
            && Remembers(after, keys)
            && after.lastFrom == (if quiet then g.lastFrom[key := now] else g.lastFrom)
            && (quiet && key in g.lastFrom ==> now >= g.lastFrom[key] + PER_KEY_GAP)
  {
    if key !in g.lastFrom {
      assert Distinct(g.order + [key]);
      DistinctFits(g.order + [key], keys);
      NewKeyJoins(g, key, now);
    }
    hide EvictedKeys;
  }

  /** What a datagram does to the gaps: it spends its key's only if it passes the ceiling and speaks. */
  lemma GapFacts(env: Env, s: State, d: Datagram)
    ensures var (after, heard) := Hears(env, s, d);
            var spends := Rolled(s.window, d.now).used < PACKETS_PER_SECOND && Speaks(env, d);
            && after.gaps == (if spends then AdmitKey(s.gaps, Reading(env, d).announce.key, d.now).0 else s.gaps)
            && (Admits(heard) ==> spends && AdmitKey(s.gaps, Reading(env, d).announce.key, d.now).1)
  {
    hide Signed, AdmitKey, AdmitTriple, IsLocalSource, Rolled;
  }

  /** One more admission of a key last let through ten seconds ago or more. */
  lemma AdmissionKeeps(l: Log, after: Log, triple: Triple, now: nat, keys: set<Key>)
    requires GapKeeps(l, keys) && Remembers(after.s.gaps, keys)
    requires after.s.gaps.lastFrom == l.s.gaps.lastFrom[triple.key := now]
    requires triple.key in l.s.gaps.lastFrom ==> now >= l.s.gaps.lastFrom[triple.key] + PER_KEY_GAP
    requires exists number :: after.passes == l.passes + [Pass(now, number)]
    requires || (after.admitted == l.admitted && after.packet == l.packet)
             || (after.admitted == l.admitted + [triple] && after.packet == l.packet + [|l.passes|])
    ensures GapKeeps(after, keys)
  {
    hide Remembers, Distinct;
    assert Located(after);
    forall k | 0 <= k < |l.admitted|
      ensures When(after, k) == When(l, k) && after.admitted[k] == l.admitted[k]
    {
    }
  }

  lemma NothingSpentKeeps(l: Log, after: Log, keys: set<Key>)
    requires GapKeeps(l, keys) && after.s.gaps.lastFrom == l.s.gaps.lastFrom && Remembers(after.s.gaps, keys)
    requires l.passes <= after.passes && after.admitted == l.admitted && after.packet == l.packet
    ensures GapKeeps(after, keys)
  {
    hide Remembers, Distinct;
    assert Located(after);
    forall k | 0 <= k < |l.admitted|
      ensures When(after, k) == When(l, k)
    {
    }
  }

  lemma HearKeepsGap(env: Env, l: Log, d: Datagram, keys: set<Key>)
    requires GapKeeps(l, keys) && |keys| <= KEYS_REMEMBERED
    requires Speaks(env, d) ==> Reading(env, d).announce.key in keys
    ensures GapKeeps(Hear(env, l, d), keys)
  {
    if d.now >= l.clock {
      GapFacts(env, l.s, d);
      hide GapKeeps, Remembers, Speaks, Hears, Reading, AdmitKey, Rolled;
      var after := Hear(env, l, d);
      assert Remembers(l.s.gaps, keys) by { GapKeepsRemembers(l, keys); }
      if Rolled(l.s.window, d.now).used < PACKETS_PER_SECOND && Speaks(env, d) {
        SpeakingReads(env, d);
        var triple := TripleOf(Reading(env, d).announce);
        NobodyIsForgotten(l.s.gaps, triple.key, d.now, keys);
        assert after.passes == l.passes + [Pass(d.now, Number(l.s.window, l.number, d.now))];
        if AdmitKey(l.s.gaps, triple.key, d.now).1 {
          AdmissionKeeps(l, after, triple, d.now, keys);
        } else {
          NothingSpentKeeps(l, after, keys);
        }
      } else {
        NothingSpentKeeps(l, after, keys);
      }
    }
  }

  lemma GapKeepsRemembers(l: Log, keys: set<Key>)
    requires GapKeeps(l, keys)
    ensures Remembers(l.s.gaps, keys)
  {
  }

  lemma SpeakingReads(env: Env, d: Datagram)
    requires Speaks(env, d)
    ensures Reading(env, d).Ok?
  {
  }

  lemma {:induction false} FewKeysAreGapped(env: Env, start: nat, datagrams: seq<Datagram>, keys: set<Key>)
    requires Among(env, datagrams, keys) && |keys| <= KEYS_REMEMBERED
    ensures GapKeeps(Run(env, Start(start), datagrams), keys)
  {
    if datagrams != [] {
      var n := |datagrams| - 1;
      assert Among(env, datagrams[..n], keys);
      assert Speaks(env, datagrams[n]) ==> Reading(env, datagrams[n]).announce.key in keys;
      hide Hear, GapKeeps, Among;
      FewKeysAreGapped(env, start, datagrams[..n], keys);
      HearKeepsGap(env, Run(env, Start(start), datagrams[..n]), datagrams[n], keys);
    }
  }

  // ----- 513 keys -----

  function FriendsTo(n: nat): (r: seq<Key>)
    requires n <= HOUSEHOLD
    ensures |r| == n && forall k :: 0 <= k < n ==> r[k] == FriendKey(k)
  {
    if n == 0 then [] else FriendsTo(n - 1) + [FriendKey(n - 1)]
  }

  predicate GreetersKnown(g: Gaps, n: nat)
    requires n <= KEYS_REMEMBERED
  {
    g.order == FriendsTo(n) && (n > 0 ==> FriendKey(0) in g.lastFrom && g.lastFrom[FriendKey(0)] == SECOND)
  }

  /** After n greetings, 50 a window, the limiter remembers exactly the n greeters in order. */
  lemma {:induction false} GreetersAreRemembered(n: nat)
    requires n <= KEYS_REMEMBERED
    ensures GreetersKnown(After(0, n).s.gaps, n)
  {
    if n == 0 {
      FloodStarts(0);
      NobodyGreetedYet();
      hide GreetersKnown, After;
    } else {
      GreetersAreRemembered(n - 1);
      FloodKeeps(0, n - 1);
      AfterOneMore(0, n - 1);
      FriendGetsThrough(0, n - 1, After(0, n - 1));
      GreeterJoins(After(0, n - 1).s.gaps, n);
      hide AdmitKey, FriendKey, After, Hear, Keeps, Flooded, GreetersKnown;
    }
  }

  lemma GreeterJoins(g: Gaps, n: nat)
    requires 1 <= n <= KEYS_REMEMBERED && GreetersKnown(g, n - 1) && FriendKey(n - 1) !in g.lastFrom
    ensures GreetersKnown(AdmitKey(g, FriendKey(n - 1), TimeOf(n - 1)).0, n)
  {
    NewKeyJoins(g, FriendKey(n - 1), TimeOf(n - 1));
    FirstFriendsTime();
    hide AdmitKey, FriendKey, TimeOf;
  }

  lemma NobodyGreetedYet()
    ensures GreetersKnown(Start(1).s.gaps, 0)
  {
  }

  /** Ten seconds after the first greeting, which is still in the eleventh window. */
  const LATER := 11 * SECOND

  /** The first friend announcing again, with a nonce of its own. */
  function Again(i: nat, nonce: Byte): (a: Announce)
    requires i < HOUSEHOLD
    ensures a.Valid()
  {
    Announce(Community(), FriendKey(i), 1000, 11, [nonce, 0, 0, 0])
  }

  function Late(i: nat, nonce: Byte): Datagram
    requires i < HOUSEHOLD
  {
    Datagram(Encode(Again(i, nonce), NoSignature()), LAN, LATER)
  }

  /** The greetings, the first friend again, a newcomer, and the first friend at once once more. */
  function Crowd(): (r: seq<Datagram>)
    ensures |r| == KEYS_REMEMBERED + 3
  {
    Flood(0, KEYS_REMEMBERED) + [Late(0, 1), Late(KEYS_REMEMBERED, 1), Late(0, 2)]
  }

  /** The eleventh window as the greetings leave it: three more packets fit. */
  lemma WindowIsOpen(used: nat)
    requires used < PACKETS_PER_SECOND
    ensures WindowAfter(KEYS_REMEMBERED) == Window(10 * SECOND + 1, 12)
    ensures Rolled(Window(10 * SECOND + 1, used), LATER) == Window(10 * SECOND + 1, used)
  {
  }

  lemma LaterOnTheClock()
    ensures Unix(Trusting(), LATER) == 11
  {
  }

  predicate OneMore(before: Log, after: Log, triple: Triple) {
    && after.admitted == before.admitted + [triple] && after.packet == before.packet + [|before.passes|]
    && |after.passes| == |before.passes| + 1 && after.passes[..|before.passes|] == before.passes
    && after.passes[|before.passes|].at == LATER
  }

  /** A late announce not yet remembered, of a key the gap lets through, is admitted. */
  lemma LateGetsThrough(l: Log, i: nat, nonce: Byte, used: nat)
    requires i <= KEYS_REMEMBERED && l.clock <= LATER && used < PACKETS_PER_SECOND
    requires l.s.window == Window(10 * SECOND + 1, used) && AdmitKey(l.s.gaps, FriendKey(i), LATER).1
    requires Keeps(Trusting(), l) && TripleOf(Again(i, nonce)) !in l.admitted
    ensures var after := Hear(Trusting(), l, Late(i, nonce));
            && Keeps(Trusting(), after) && after.clock == LATER && after.s.window == Window(10 * SECOND + 1, used + 1)
            && after.s.gaps == AdmitKey(l.s.gaps, FriendKey(i), LATER).0
            && OneMore(l, after, TripleOf(Again(i, nonce)))
  {
    hide Keeps, Hear, Rolled, FriendKey, Fill, Encode, AdmitKey;
    WindowIsOpen(used);
    LaterOnTheClock();
    FriendsDiffer(i, i);
    NotRemembered(l, TripleOf(Again(i, nonce)));
    HearKeeps(Trusting(), l, Late(i, nonce));
    HeardThrough(l, Again(i, nonce), LATER);
  }

  /** Being let through again does not move a key to the back; the newcomer pushes it out; it is let through. */
  lemma NewcomerPushesFirstOut(g: Gaps)
    requires g.order == FriendsTo(KEYS_REMEMBERED)
    requires FriendKey(0) in g.lastFrom && g.lastFrom[FriendKey(0)] == SECOND
    requires FriendKey(KEYS_REMEMBERED) !in g.lastFrom
    ensures var (g1, first) := AdmitKey(g, FriendKey(0), LATER);
            var (g2, newcomer) := AdmitKey(g1, FriendKey(KEYS_REMEMBERED), LATER);
            first && newcomer && AdmitKey(g2, FriendKey(0), LATER).1
  {
    var g1 := AdmitKey(g, FriendKey(0), LATER).0;
    FriendsDiffer(0, KEYS_REMEMBERED);
    hide FriendKey;
    assert g1 == g.(lastFrom := g.lastFrom[FriendKey(0) := LATER]);
    assert g1.order[0] == FriendKey(0) && |g1.order| == KEYS_REMEMBERED;
    NewKeyEvicts(g1, FriendKey(KEYS_REMEMBERED), LATER);
    hide EvictedKeys;
  }

  lemma RunOfThree(env: Env, l: Log, s: seq<Datagram>, a: Datagram, b: Datagram, c: Datagram)
    ensures Run(env, l, s + [a, b, c]) == Hear(env, Hear(env, Hear(env, Run(env, l, s), a), b), c)
  {
    RunOneMore(env, l, s, a);
    RunOneMore(env, l, s + [a], b);
    RunOneMore(env, l, s + [a] + [b], c);
    assert s + [a, b, c] == s + [a] + [b] + [c];
    hide Run, Hear;
  }

  lemma RunOneMore(env: Env, l: Log, s: seq<Datagram>, d: Datagram)
    ensures Run(env, l, s + [d]) == Hear(env, Run(env, l, s), d)
  {
    hide Hear;
    assert (s + [d])[..|s|] == s;
  }

  /** Nobody has announced with the late timestamp yet. */
  lemma LateIsNew(l: Log, i: nat, nonce: Byte)
    requires i <= KEYS_REMEMBERED && Flooded(0, KEYS_REMEMBERED, l)
    ensures TripleOf(Again(i, nonce)) !in l.admitted
  {
    hide FriendKey, Fill;
    forall k | 0 <= k < KEYS_REMEMBERED
      ensures l.admitted[k] != TripleOf(Again(i, nonce))
    {
      assert l.admitted[k] == TripleOf(AnnounceOf(0, k));
      assert AnnounceOf(0, k).sentUnix <= 10 && AnnounceOf(0, k).nonce != [1, 0, 0, 0];
    }
  }

  lemma CrowdBreaksTheGap()
    ensures !Gapped(Run(Trusting(), Start(1), Crowd()))
  {
    hide Keeps, Flooded, Hear, FriendKey, After, Run, AdmitKey, Again, Late, Gapped, Crowd, OneMore, GreetersKnown;
    var l0 := After(0, KEYS_REMEMBERED);
    FloodKeeps(0, KEYS_REMEMBERED);
    GreetersAreRemembered(KEYS_REMEMBERED);
    CrowdRuns();
    LateOnesAreAdmitted(l0);
  }

  lemma LateOnesAreAdmitted(l0: Log)
    requires Flooded(0, KEYS_REMEMBERED, l0) && Keeps(Trusting(), l0) && GreetersKnown(l0.s.gaps, KEYS_REMEMBERED)
    ensures !Gapped(Hear(Trusting(), Hear(Trusting(), Hear(Trusting(), l0, Late(0, 1)), Late(KEYS_REMEMBERED, 1)), Late(0, 2)))
  {
    var n := KEYS_REMEMBERED;
    FloodedFacts(l0);
    LateIsNew(l0, 0, 1);
    LateIsNew(l0, n, 1);
    LateIsNew(l0, 0, 2);
    NewcomerPushesFirstOut(l0.s.gaps);
    hide Keeps, Flooded, Hear, FriendKey, AdmitKey, Again, Late, Gapped, GreetersKnown, TripleOf, WindowAfter, OneMore;
    var first, newcomer, again := TripleOf(Again(0, 1)), TripleOf(Again(n, 1)), TripleOf(Again(0, 2));
    WindowIsOpen(12);
    LateAnnouncesDiffer();
    LateGetsThrough(l0, 0, 1, 12);
    var l1 := Hear(Trusting(), l0, Late(0, 1));
    StillNew(l0, l1, first, newcomer);
    StillNew(l0, l1, first, again);
    LateGetsThrough(l1, n, 1, 13);
    var l2 := Hear(Trusting(), l1, Late(n, 1));
    StillNew(l1, l2, newcomer, again);
    LateGetsThrough(l2, 0, 2, 14);
    CrowdEnds(l0, l1, l2, Hear(Trusting(), l2, Late(0, 2)));
  }

  lemma StillNew(before: Log, after: Log, added: Triple, triple: Triple)
    requires OneMore(before, after, added) && triple !in before.admitted && triple != added
    ensures triple !in after.admitted
  {
  }

  lemma FloodedFacts(l: Log)
    requires Flooded(0, KEYS_REMEMBERED, l)
    ensures l.clock <= LATER && l.s.window == WindowAfter(KEYS_REMEMBERED)
    ensures |l.admitted| == |l.passes| == |l.packet| == KEYS_REMEMBERED
    ensures FriendKey(KEYS_REMEMBERED) !in l.s.gaps.lastFrom
  {
    StrangerIsQuiet(0, KEYS_REMEMBERED, l);
    hide FriendKey;
  }

  lemma LateAnnouncesDiffer()
    ensures TripleOf(Again(KEYS_REMEMBERED, 1)) != TripleOf(Again(0, 1))
    ensures TripleOf(Again(0, 2)) != TripleOf(Again(0, 1)) && TripleOf(Again(0, 2)) != TripleOf(Again(KEYS_REMEMBERED, 1))
    ensures TripleOf(Again(0, 1)).key == TripleOf(Again(0, 2)).key
  {
    FriendsDiffer(0, KEYS_REMEMBERED);
    hide FriendKey;
    assert Again(0, 1).nonce[0] != Again(0, 2).nonce[0];
    assert TripleOf(Again(0, 1)).nonce[0] == 1 && TripleOf(Again(0, 2)).nonce[0] == 2;
  }

  lemma CrowdRuns()
    ensures Run(Trusting(), Start(1), Crowd())
            == Hear(Trusting(), Hear(Trusting(), Hear(Trusting(), After(0, KEYS_REMEMBERED), Late(0, 1)), Late(KEYS_REMEMBERED, 1)), Late(0, 2))
  {
    hide Run, Hear, Late, Flood;
    RunOfThree(Trusting(), Start(1), Flood(0, KEYS_REMEMBERED), Late(0, 1), Late(KEYS_REMEMBERED, 1), Late(0, 2));
  }

  lemma CrowdEnds(l0: Log, l1: Log, l2: Log, l3: Log)
    requires |l0.admitted| == |l0.passes| == |l0.packet| == KEYS_REMEMBERED
    requires OneMore(l0, l1, TripleOf(Again(0, 1))) && OneMore(l1, l2, TripleOf(Again(KEYS_REMEMBERED, 1)))
    requires OneMore(l2, l3, TripleOf(Again(0, 2)))
    ensures !Gapped(l3)
  {
    hide FriendKey, Fill;
    var n := KEYS_REMEMBERED;
    assert l3.admitted[n] == TripleOf(Again(0, 1)) && l3.admitted[n + 2] == TripleOf(Again(0, 2));
    assert l3.packet[n] == n && l3.packet[n + 2] == n + 2;
    assert l3.passes[n] == l3.passes[..n + 2][n] == l2.passes[n] == l2.passes[..n + 1][n] == l1.passes[n];
    assert Located(l3) ==> When(l3, n + 2) == When(l3, n) == LATER;
  }

  function Elements(s: seq<Key>): set<Key> {
    set k | k in s
  }

  lemma {:induction false} AtMost(s: seq<Key>)
    ensures |Elements(s)| <= |s|
  {
    if s != [] {
      var init := s[..|s| - 1];
      AtMost(init);
      assert Elements(s) == Elements(init) + {s[|s| - 1]};
    }
  }

  lemma {:induction false} FloodIs(ahead: nat, n: nat)
    requires n <= HOUSEHOLD && ahead <= 60
    ensures forall k :: 0 <= k < n ==> Flood(ahead, n)[k] == DatagramOf(ahead, k)
  {
    hide DatagramOf;
    if n > 0 {
      FloodIs(ahead, n - 1);
    }
  }

  /** What reads back from a friend's datagram is that friend's announce. */
  lemma FriendReads(a: Announce, now: nat)
    requires a.Valid() && a.community == Community()
    ensures Reading(Trusting(), Datagram(Encode(a, NoSignature()), LAN, now)) == Ok(a)
  {
    ParseOfEncode(a, NoSignature(), Community(), Known(Trusting().config, Trusting().isFriend));
  }

  lemma CrowdIs513Keys()
    ensures Among(Trusting(), Crowd(), Elements(FriendsTo(KEYS_REMEMBERED + 1)))
    ensures |Elements(FriendsTo(KEYS_REMEMBERED + 1))| <= KEYS_REMEMBERED + 1
  {
    var n, crowd := KEYS_REMEMBERED, Crowd();
    AtMost(FriendsTo(n + 1));
    FloodIs(0, n);
    hide FriendKey, Fill, Encode, Reading, Speaks, Flood;
    forall k | 0 <= k < |crowd|
      ensures Reading(Trusting(), crowd[k]).Ok? && Reading(Trusting(), crowd[k]).announce.key in FriendsTo(n + 1)
    {
      if k < n {
        assert crowd[k] == DatagramOf(0, k);
        FriendReads(AnnounceOf(0, k), TimeOf(k));
        assert FriendsTo(n + 1)[k] == FriendKey(k);
      } else {
        var i, nonce := if k == n + 1 then n else 0, if k == n + 2 then 2 else 1;
        assert crowd[k] == Late(i, nonce);
        FriendReads(Again(i, nonce), LATER);
        assert FriendsTo(n + 1)[i] == FriendKey(i);
      }
    }
  }

  /** In every run of every house with at most n announcing keys the gap is kept, exactly when n is at most 512. */
  lemma GapHoldsIffFewKeys(n: nat)
    ensures (forall env: Env, start, datagrams, keys :: Among(env, datagrams, keys) && |keys| <= n
                                                      ==> Gapped(Run(env, Start(start), datagrams)))
            <==> n <= KEYS_REMEMBERED
  {
    if n <= KEYS_REMEMBERED {
      forall env: Env, start, datagrams, keys | Among(env, datagrams, keys) && |keys| <= n
        ensures Gapped(Run(env, Start(start), datagrams))
      {
        FewKeysAreGapped(env, start, datagrams, keys);
      }
    } else {
      CrowdIs513Keys();
      CrowdBreaksTheGap();
      hide Among, Gapped, Crowd, Run;
    }
  }
}

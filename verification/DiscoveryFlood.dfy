/**
 The run in which an announce stamped 20 to 60 seconds ahead is admitted twice:
 4099 friends announce once each, 50 a window, which is just enough to push the
 first of them out of the replay guard before its timestamp leaves the window.
 */
module DiscoveryFlood {
  import opened Common
  import opened Addresses
  import opened Admission
  import opened Announces
  import opened Discovery
  import opened DiscoveryRuns
  import AddressCache

  function Fill(n: nat, b: Byte): (r: Bytes)
    ensures |r| == n && forall k :: 0 <= k < n ==> r[k] == b
  {
    if n == 0 then [] else Fill(n - 1, b) + [b]
  }

  function OwnKey(): Key { Fill(32, 255) }

  function Community(): Bytes { Fill(32, 7) }

  const LAN := SocketAddr(V4(192, 168, 0, 1), 49911)
  const HOUSEHOLD := 4099

  /** Everyone is a friend and every signature verifies. */
  function Trusting(): Env {
    Env(Config(Community(), OwnKey()), 0, (key: Key) => true, (k: Key, m: Bytes, s: Bytes) => true)
  }

  /** Friend number i; the household is counted round and round. */
  function FriendKey(i: nat): (k: Key)
    requires i < HOUSEHOLD
    ensures |k| == 32
  {
    [i / 256, i % 256] + Fill(30, 0)
  }

  lemma FriendsDiffer(i: nat, j: nat)
    requires i < HOUSEHOLD && j < HOUSEHOLD
    ensures FriendKey(i) == FriendKey(j) ==> i == j
    ensures FriendKey(i) != OwnKey()
  {
    assert FriendKey(i)[0] == i / 256 && FriendKey(i)[1] == i % 256 && FriendKey(i)[31] == 0;
    assert FriendKey(j)[0] == j / 256 && FriendKey(j)[1] == j % 256;
    assert OwnKey()[31] == 255;
  }

  /** Window zero opens a nanosecond after the epoch, and the first 50 arrive in its last nanosecond but one. */
  function TimeOf(i: nat): nat {
    if i < 50 then SECOND else (i / 50) * SECOND + 1
  }

  function Which(i: nat): (k: nat)
    ensures k < HOUSEHOLD
  {
    if i < HOUSEHOLD then i else 0
  }

  /** The first friend's clock runs ahead; everyone else's is right. */
  function AnnounceOf(ahead: nat, i: nat): (a: Announce)
    requires i <= HOUSEHOLD && ahead <= 60
    ensures a.Valid()
  {
    Announce(Community(), FriendKey(Which(i)), 1000,
             if Which(i) == 0 then 1 + ahead else i / 50 + (if i < 50 then 1 else 0), [0, 0, 0, 0])
  }

  function NoSignature(): Bytes -> Bytes {
    message => Fill(64, 0)
  }

  function DatagramOf(ahead: nat, i: nat): Datagram
    requires i <= HOUSEHOLD && ahead <= 60
  {
    Datagram(Encode(AnnounceOf(ahead, i), NoSignature()), LAN, TimeOf(i))
  }

  function Flood(ahead: nat, n: nat): (d: seq<Datagram>)
    requires n <= HOUSEHOLD + 1 && ahead <= 60
    ensures |d| == n
  {
    if n == 0 then [] else Flood(ahead, n - 1) + [DatagramOf(ahead, n - 1)]
  }

  function After(ahead: nat, n: nat): Log
    requires n <= HOUSEHOLD + 1 && ahead <= 60
  {
    Run(Trusting(), Start(1), Flood(ahead, n))
  }

  lemma AfterOneMore(ahead: nat, n: nat)
    requires n <= HOUSEHOLD && ahead <= 60
    ensures After(ahead, n + 1) == Hear(Trusting(), After(ahead, n), DatagramOf(ahead, n))
  {
    assert Flood(ahead, n + 1)[..n] == Flood(ahead, n);
  }

  function WindowAfter(n: nat): Window {
    if n == 0 then Window(1, 0)
    else Window(if n <= 50 then 1 else TimeOf(n - 1), (n - 1) % 50 + 1)
  }

  /** The gap knows nobody but the first n friends, and the first of them from its first greeting. */
  ghost predicate OnlyFriends(n: nat, g: Gaps)
    requires n <= HOUSEHOLD
  {
    && (forall key :: key in g.lastFrom ==> exists k :: 0 <= k < n && key == FriendKey(k))
    && (FriendKey(0) in g.lastFrom ==> g.lastFrom[FriendKey(0)] == SECOND)
  }

  /** After n datagrams all n have been admitted, and only those friends are known to the per-key gap. */
  ghost predicate Flooded(ahead: nat, n: nat, l: Log)
    requires n <= HOUSEHOLD && ahead <= 60
  {
    && l.clock <= TimeOf(n)
    && l.s.window == WindowAfter(n)
    && |l.admitted| == n == |l.passes| == |l.packet|
    && (forall k :: 0 <= k < n ==> l.admitted[k] == TripleOf(AnnounceOf(ahead, k)))
    && (n > 0 ==> l.packet[0] == 0 && l.passes[0].at == SECOND)
    && OnlyFriends(n, l.s.gaps)
  }

  lemma WindowRolls(n: nat)
    ensures var w := Rolled(WindowAfter(n), TimeOf(n));
            w.used < PACKETS_PER_SECOND && Counted(w) == WindowAfter(n + 1)
    ensures TimeOf(n) <= TimeOf(n + 1)
  {
    if n >= 50 {
      if n % 50 == 0 {
        assert n / 50 >= 1 && (n - 1) / 50 == n / 50 - 1;
        assert (n / 50) * SECOND == (n / 50 - 1) * SECOND + SECOND;
      } else {
        assert (n - 1) / 50 == n / 50;
      }
    }
    assert (n + 1) / 50 >= n / 50;
    assert ((n + 1) / 50) * SECOND >= (n / 50) * SECOND;
  }

  /** A valid announce of this community from a friend, inside the ceiling, gets as far as the per-key gap. */
  lemma ReachesTheGap(s: State, a: Announce, now: nat)
    requires a.Valid() && a.community == Community() && a.key != OwnKey()
    requires Rolled(s.window, now).used < PACKETS_PER_SECOND
    ensures var d := Datagram(Encode(a, NoSignature()), LAN, now);
            && Reading(Trusting(), d) == Ok(a)
            && Hears(Trusting(), s, d) ==
               Spend(s.(window := Counted(Rolled(s.window, now))), a, LAN, now, Unix(Trusting(), now))
  {
    ParseOfEncode(a, NoSignature(), Community(), Known(Trusting().config, Trusting().isFriend));
  }

  lemma {:induction false} EvictionForgets(g: Gaps)
    ensures var e := EvictedKeys(g);
            (forall key :: key in e.lastFrom ==> key in g.lastFrom && e.lastFrom[key] == g.lastFrom[key])
    decreases |g.order|
  {
    if |g.order| > KEYS_REMEMBERED {
      var fewer := g.lastFrom - {g.order[0]};
      EvictionForgets(Gaps(fewer, g.order[1..]));
      assert forall key :: key in fewer ==> key in g.lastFrom && fewer[key] == g.lastFrom[key];
    }
  }

  /** From there, a quiet key and an unseen triple are all it takes on this network. */
  lemma GetsThrough(s: State, a: Announce, now: nat, nowUnix: nat)
    requires AdmitKey(s.gaps, a.key, now).1
    requires AdmitTriple(s.memory, TripleOf(a), nowUnix).1.Fresh?
    ensures var (after, heard) := Spend(s, a, LAN, now, nowUnix);
            heard.Discovered? && after.gaps == AdmitKey(s.gaps, a.key, now).0 && after.window == s.window
  {
    hide AdmitKey, AdmitTriple, AddressCache.Remembered;
  }

  /** What a discovery does to the log, whatever it does to the machine. */
  lemma DiscoveryIsLogged(env: Env, l: Log, d: Datagram)
    requires l.clock <= d.now && Rolled(l.s.window, d.now).used < PACKETS_PER_SECOND
    requires Hears(env, l.s, d).1.Discovered? && Reading(env, d).Ok?
    ensures var after := Hear(env, l, d);
            && after.clock == d.now && after.s == Hears(env, l.s, d).0
            && after.admitted == l.admitted + [TripleOf(Reading(env, d).announce)]
            && after.packet == l.packet + [|l.passes|]
            && |after.passes| == |l.passes| + 1 && after.passes[..|l.passes|] == l.passes
            && after.passes[|l.passes|].at == d.now
  {
    hide Hears, Reading, Rolled, TripleOf, Number;
  }

  /** What hearing one more announce that passes every check does to the log. */
  lemma HeardThrough(l: Log, a: Announce, now: nat)
    requires a.Valid() && a.community == Community() && a.key != OwnKey()
    requires l.clock <= now && Rolled(l.s.window, now).used < PACKETS_PER_SECOND
    requires AdmitKey(l.s.gaps, a.key, now).1
    requires AdmitTriple(l.s.memory, TripleOf(a), Unix(Trusting(), now)).1.Fresh?
    ensures var after := Hear(Trusting(), l, Datagram(Encode(a, NoSignature()), LAN, now));
            && after.clock == now
            && after.s.window == Counted(Rolled(l.s.window, now))
            && after.s.gaps == AdmitKey(l.s.gaps, a.key, now).0
            && after.admitted == l.admitted + [TripleOf(a)]
            && after.packet == l.packet + [|l.passes|]
            && |after.passes| == |l.passes| + 1 && after.passes[..|l.passes|] == l.passes
            && after.passes[|l.passes|].at == now
  {
    hide Hear, Hears, Reading, Spend, AdmitKey, AdmitTriple, Rolled, Encode, TripleOf, Trusting, Unix;
    ReachesTheGap(l.s, a, now);
    GetsThrough(l.s.(window := Counted(Rolled(l.s.window, now))), a, now, Unix(Trusting(), now));
    DiscoveryIsLogged(Trusting(), l, Datagram(Encode(a, NoSignature()), LAN, now));
  }

  lemma StrangerIsQuiet(ahead: nat, n: nat, l: Log)
    requires n < HOUSEHOLD && ahead <= 60 && Flooded(ahead, n, l)
    ensures FriendKey(n) !in l.s.gaps.lastFrom
    ensures forall k :: 0 <= k < n ==> FriendKey(k) != FriendKey(n)
  {
    forall k | 0 <= k < n
      ensures FriendKey(k) != FriendKey(n)
    {
      FriendsDiffer(k, n);
    }
  }

  /** The next friend's first announce passes every check. */
  lemma FriendGetsThrough(ahead: nat, n: nat, l: Log)
    requires n < HOUSEHOLD && ahead <= 60 && Flooded(ahead, n, l) && Keeps(Trusting(), l)
    ensures var after := Hear(Trusting(), l, DatagramOf(ahead, n));
            && after.clock == TimeOf(n) <= TimeOf(n + 1)
            && after.s.window == WindowAfter(n + 1)
            && FriendKey(n) !in l.s.gaps.lastFrom
            && after.s.gaps == AdmitKey(l.s.gaps, FriendKey(n), TimeOf(n)).0
            && after.admitted == l.admitted + [TripleOf(AnnounceOf(ahead, n))]
            && after.packet == l.packet + [|l.passes|]
            && |after.passes| == |l.passes| + 1 && after.passes[..|l.passes|] == l.passes
            && after.passes[|l.passes|].at == TimeOf(n)
  {
    hide Keeps, Hear, Rolled, WindowAfter, FriendKey, Fill, Encode;
    var a := AnnounceOf(ahead, n);
    WindowRolls(n);
    FriendsDiffer(n, n);
    StrangerIsQuiet(ahead, n, l);
    assert TripleOf(a) !in l.admitted;
    NotRemembered(l, TripleOf(a));
    HeardThrough(l, a, TimeOf(n));
  }

  lemma OneMoreFriend(ahead: nat, n: nat, l: Log)
    requires n < HOUSEHOLD && ahead <= 60 && Flooded(ahead, n, l) && Keeps(Trusting(), l)
    ensures Flooded(ahead, n + 1, Hear(Trusting(), l, DatagramOf(ahead, n)))
  {
    FriendGetsThrough(ahead, n, l);
    OneMoreKnown(n, l.s.gaps);
    FirstFriendsTime();
    hide Keeps, Hear, WindowAfter, OnlyFriends, AdmitKey, Trusting, DatagramOf, Flooded;
  }

  lemma OneMoreKnown(n: nat, g: Gaps)
    requires n < HOUSEHOLD && OnlyFriends(n, g) && FriendKey(n) !in g.lastFrom
    ensures OnlyFriends(n + 1, AdmitKey(g, FriendKey(n), TimeOf(n)).0)
  {
    var now := TimeOf(n);
    FirstFriendsTime();
    FriendsDiffer(0, n);
    hide FriendKey, TimeOf;
    var grown := Gaps(g.lastFrom[FriendKey(n) := now], g.order + [FriendKey(n)]);
    EvictionForgets(grown);
    var after := EvictedKeys(grown);
    hide EvictedKeys;
    forall key | key in after.lastFrom
      ensures exists k :: 0 <= k < n + 1 && key == FriendKey(k)
    {
      if key != FriendKey(n) {
        assert key in grown.lastFrom && key in g.lastFrom;
      }
    }
    if FriendKey(0) in after.lastFrom {
      assert after.lastFrom[FriendKey(0)] == grown.lastFrom[FriendKey(0)];
    }
  }

  lemma FirstFriendsTime()
    ensures TimeOf(0) == SECOND
  {
  }

  lemma NotRemembered(l: Log, triple: Triple)
    requires Keeps(Trusting(), l) && triple !in Last(l.admitted, SEEN_REMEMBERED)
    ensures triple !in l.s.memory.seen
  {
  }

  lemma FloodStarts(ahead: nat)
    requires ahead <= 60
    ensures After(ahead, 0) == Start(1) && Flooded(ahead, 0, Start(1))
  {
    hide Hear, FriendKey;
  }

  lemma {:induction false} FloodKeeps(ahead: nat, n: nat)
    requires n <= HOUSEHOLD && ahead <= 60
    ensures Flooded(ahead, n, After(ahead, n)) && Keeps(Trusting(), After(ahead, n))
  {
    hide Keeps, Run, Flooded, Flood, Hear, Start;
    StartKeeps(Trusting(), 1);
    RunKeeps(Trusting(), Start(1), Flood(ahead, n));
    if n == 0 {
      FloodStarts(ahead);
    } else {
      FloodKeeps(ahead, n - 1);
      AfterOneMore(ahead, n - 1);
      OneMoreFriend(ahead, n - 1, After(ahead, n - 1));
    }
  }

  /** By the 4099th friend the first one's announce has been forgotten, and its timestamp has not yet gone stale. */
  lemma FirstIsForgotten(ahead: nat, l: Log)
    requires ahead <= 60 && Flooded(ahead, HOUSEHOLD, l) && Keeps(Trusting(), l)
    ensures TripleOf(AnnounceOf(ahead, HOUSEHOLD)) == l.admitted[0]
    ensures TripleOf(AnnounceOf(ahead, HOUSEHOLD)) !in l.s.memory.seen
  {
    hide Keeps, FriendKey;
    var last := Last(l.admitted, SEEN_REMEMBERED);
    forall k | 0 <= k < |last|
      ensures last[k] != l.admitted[0]
    {
      FriendsDiffer(k + 3, 0);
    }
    NotRemembered(l, l.admitted[0]);
  }

  /** The first friend's own announce, replayed at the end of the flood, is admitted a second time. */
  lemma FirstComesBack(ahead: nat, l: Log)
    requires 20 <= ahead <= 60 && Flooded(ahead, HOUSEHOLD, l) && Keeps(Trusting(), l)
    ensures Repeats(Trusting(), Hear(Trusting(), l, DatagramOf(ahead, HOUSEHOLD)), ahead)
  {
    hide Keeps, Hear, Rolled, WindowAfter, FriendKey, Fill, Encode;
    WindowRolls(HOUSEHOLD);
    FriendsDiffer(0, 0);
    FirstIsForgotten(ahead, l);
    HeardThrough(l, AnnounceOf(ahead, HOUSEHOLD), TimeOf(HOUSEHOLD));
    var after := Hear(Trusting(), l, DatagramOf(ahead, HOUSEHOLD));
    assert after.passes[0] == after.passes[..|l.passes|][0];
    hide Flooded;
    FirstAndLastRepeat(after, ahead);
  }

  lemma FirstAndLastRepeat(l: Log, ahead: nat)
    requires |l.admitted| == HOUSEHOLD + 1 && l.packet != [] && l.packet[0] == 0 && l.passes != []
    requires l.passes[0].at == SECOND && l.admitted[0] == l.admitted[HOUSEHOLD] && l.admitted[0].sentUnix == 1 + ahead
    ensures Repeats(Trusting(), l, ahead)
  {
    hide Fill;
    assert AdmittedAt(Trusting(), l, 0) == 1;
  }

  lemma FloodRepeats(ahead: nat)
    requires 20 <= ahead <= 60
    ensures Repeats(Trusting(), Run(Trusting(), Start(1), Flood(ahead, HOUSEHOLD + 1)), ahead)
  {
    FloodKeeps(ahead, HOUSEHOLD);
    AfterOneMore(ahead, HOUSEHOLD);
    FirstComesBack(ahead, After(ahead, HOUSEHOLD));
    hide Keeps, Hear, Flooded, Repeats, Run, Flood;
  }

  /** At most once, exactly: how far ahead of the receiver's clock an announce may be stamped. */
  lemma AtMostOnceIffNotFarAhead(ahead: int)
    ensures (exists start, datagrams :: Repeats(Trusting(), Run(Trusting(), Start(start), datagrams), ahead))
            <==> 20 <= ahead <= 60
  {
    if exists start, datagrams :: Repeats(Trusting(), Run(Trusting(), Start(start), datagrams), ahead) {
      var start, datagrams :| Repeats(Trusting(), Run(Trusting(), Start(start), datagrams), ahead);
      OnlyFarAheadRepeats(Trusting(), start, datagrams, ahead);
    }
    if 20 <= ahead <= 60 {
      FloodRepeats(ahead);
    }
  }
}

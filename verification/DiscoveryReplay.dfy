/**
 How large a neighbourhood it takes to replay an announce
 (crates/mosschat-net/src/discovery.rs:79-112, 363-380, 457-486). To be admitted twice an
 announce must be pushed out of the 4096 remembered ones while its timestamp is still in
 the window, within 121 seconds. The per-key gap lets one key in 12 times in 120 seconds
 and the packet ceiling at most 100 keys in the second before, so 333 announcing keys can
 never do it, and 334 can.
 */
module DiscoveryReplay {
  import opened Common
  import opened Addresses
  import opened Admission
  import opened Announces
  import opened Discovery
  import opened DiscoveryRuns
  import opened DiscoveryFlood
  import opened DiscoveryGap

  const SAFE_KEYS := 333

  // ----- at most 333 keys -----

  /** Admissions in time order, each a packet of its own. */
  ghost predicate Orderly(l: Log) {
    && Located(l)
    && (forall a, b :: 0 <= a < b < |l.packet| ==> l.packet[a] < l.packet[b])
    && (forall a, b :: 0 <= a < b < |l.passes| ==> l.passes[a].at <= l.passes[b].at)
  }

  lemma KeptIsOrderly(env: Env, l: Log)
    requires Keeps(env, l)
    ensures Orderly(l) && Spread(l.passes, 2 * PACKETS_PER_SECOND)
  {
    TwoWindowsSpread(l.s.window, l.number, l.clock, l.passes, PACKETS_PER_SECOND, 2 * PACKETS_PER_SECOND);
    hide Recalls, RepeatsAreFar, Total;
  }

  /** The first admission from `from` on that is not before `limit`, or `to`. */
  function FirstLate(l: Log, from: nat, to: nat, limit: nat): (q: nat)
    requires Located(l) && from <= to <= |l.admitted|
    ensures from <= q <= to
    ensures forall k :: from <= k < q ==> When(l, k) < limit
    ensures q < to ==> When(l, q) >= limit
    decreases if from <= to then to - from else 0
  {
    if from == to || When(l, from) >= limit then from else FirstLate(l, from + 1, to, limit)
  }

  lemma InOrder(l: Log, a: nat, b: nat)
    requires Orderly(l) && a <= b < |l.admitted|
    ensures When(l, a) <= When(l, b)
  {
  }

  /** The ceiling: fewer than one second apart, at most 100 admissions. */
  lemma FirstSecondHolds(env: Env, l: Log, from: nat, to: nat)
    requires Keeps(env, l) && Orderly(l) && from < to <= |l.admitted| && When(l, to - 1) < When(l, from) + SECOND
    ensures to - from <= 2 * PACKETS_PER_SECOND
  {
    KeptIsOrderly(env, l);
    PacketsApart(env, l, from, to - 1);
    hide Keeps;
  }

  function KeysOf(admitted: seq<Triple>): (r: seq<Key>)
    ensures |r| == |admitted| && forall k :: 0 <= k < |r| ==> r[k] == admitted[k].key
  {
    if admitted == [] then [] else KeysOf(admitted[..|admitted| - 1]) + [admitted[|admitted| - 1].key]
  }

  predicate AllFrom(l: Log, keys: set<Key>) {
    forall k :: 0 <= k < |l.admitted| ==> l.admitted[k].key in keys
  }

  /** The gap: fewer than ten seconds apart, at most one admission a key. */
  lemma SlotHolds(l: Log, from: nat, to: nat, keys: set<Key>)
    requires Orderly(l) && Gapped(l) && AllFrom(l, keys)
    requires from < to <= |l.admitted| && When(l, to - 1) < When(l, from) + PER_KEY_GAP
    ensures to - from <= |keys|
  {
    var slot := KeysOf(l.admitted[from..to]);
    forall a, b | 0 <= a < b < |slot|
      ensures slot[a] != slot[b]
    {
      InOrder(l, from, from + a);
      InOrder(l, from + b, to - 1);
      assert slot[a] == l.admitted[from + a].key && slot[b] == l.admitted[from + b].key;
    }
    DistinctFits(slot, keys);
  }

  /** Slot after slot. */
  lemma {:induction false} SlotsHold(l: Log, from: nat, to: nat, slots: nat, keys: set<Key>)
    requires Orderly(l) && Gapped(l) && AllFrom(l, keys)
    requires from < to <= |l.admitted| && When(l, to - 1) < When(l, from) + slots * PER_KEY_GAP
    ensures to - from <= slots * |keys|
    decreases slots
  {
    InOrder(l, from, to - 1);
    var q := FirstLate(l, from, to, When(l, from) + PER_KEY_GAP);
    assert q > from && slots > 0;
    assert slots * |keys| == (slots - 1) * |keys| + |keys| && slots * PER_KEY_GAP == (slots - 1) * PER_KEY_GAP + PER_KEY_GAP;
    SlotHolds(l, from, q, keys);
    if q < to {
      SlotsHold(l, q, to, slots - 1, keys);
    } else {
      assert (slots - 1) * |keys| >= 0;
    }
  }

  /** Both times an announce is admitted its timestamp is at most 60 whole seconds off. */
  lemma RepeatsAreClose(env: Env, l: Log, i: nat, j: nat)
    requires Keeps(env, l) && Orderly(l) && i < j < |l.admitted| && l.admitted[i] == l.admitted[j]
    ensures When(l, j) < When(l, i) + 121 * SECOND && j - i > SEEN_REMEMBERED
  {
    assert Stamped(env, l) && RepeatsAreFar(l.admitted, SEEN_REMEMBERED);
    hide Keeps, Orderly;
    assert Skew(AdmittedAt(env, l, i), l.admitted[i].sentUnix) <= REPLAY_WINDOW;
    assert Skew(AdmittedAt(env, l, j), l.admitted[j].sentUnix) <= REPLAY_WINDOW;
    SecondsApart(When(l, i), When(l, j));
  }

  lemma SecondsApart(a: nat, b: nat)
    requires b / SECOND <= a / SECOND + 120
    ensures b < a + 121 * SECOND
  {
  }

  /** In no run of any house in which at most 333 keys announce is anything admitted twice. */
  lemma FewKeysNeverRepeat(env: Env, start: nat, datagrams: seq<Datagram>, keys: set<Key>, ahead: int)
    requires Among(env, datagrams, keys) && |keys| <= SAFE_KEYS
    ensures !Repeats(env, Run(env, Start(start), datagrams), ahead)
  {
    var l := Run(env, Start(start), datagrams);
    hide Run, Keeps, Among, Gapped, AllFrom, Orderly, GapKeeps, Spread, Repeats, Start;
    StartKeeps(env, start);
    RunKeeps(env, Start(start), datagrams);
    FewKeysAreGapped(env, start, datagrams, keys);
    KeptIsOrderly(env, l);
    GapKeepsAllFrom(l, keys);
    NothingRepeats(env, l, keys, ahead);
  }

  lemma NothingRepeats(env: Env, l: Log, keys: set<Key>, ahead: int)
    requires Keeps(env, l) && Orderly(l) && Gapped(l) && AllFrom(l, keys) && |keys| <= SAFE_KEYS
    ensures !Repeats(env, l, ahead)
  {
    hide Keeps, Gapped, AllFrom, Orderly;
    if Repeats(env, l, ahead) {
      var i: nat, j: nat :| i < j < |l.admitted| && i < |l.packet| && l.packet[i] < |l.passes|
                            && l.admitted[i] == l.admitted[j]
                            && l.admitted[i].sentUnix == AdmittedAt(env, l, i) + ahead;
      TooFewToRepeat(env, l, i, j, keys);
    }
  }

  lemma GapKeepsAllFrom(l: Log, keys: set<Key>)
    requires GapKeeps(l, keys)
    ensures Gapped(l) && AllFrom(l, keys)
  {
    hide Gapped;
  }

  lemma TooFewToRepeat(env: Env, l: Log, i: nat, j: nat, keys: set<Key>)
    requires Keeps(env, l) && Orderly(l) && Gapped(l) && AllFrom(l, keys)
    requires i < j < |l.admitted| && l.admitted[i] == l.admitted[j]
    ensures |keys| > SAFE_KEYS
  {
    assert Located(l);
    hide Keeps, Orderly, Gapped, AllFrom;
    RepeatsAreClose(env, l, i, j);
    var p := FirstLate(l, i, j + 1, When(l, i) + SECOND);
    assert p > i;
    FirstSecondHolds(env, l, i, p);
    if p <= j {
      SlotsHold(l, p, j + 1, 12, keys);
    }
  }

  // ----- 334 keys -----

  const CROWD := 334
  /** The last datagram: the first announce again, 120.5 seconds after it was admitted. */
  const LAST := 12 * CROWD + 97
  const HALF := SECOND / 2

  /** When key k announces in round r, half seconds after the round begins. Rounds are ten seconds apart. */
  function Halves(r: nat, k: nat): (h: nat)
    ensures h <= 19
  {
    if k == 0 then (if r == 0 then 0 else 1)
    else if k <= 48 then 0
    else if k <= 97 then 1
    else if k <= 297 then 4 + 2 * ((k - 98) / 50)
    else if k <= 332 then 12
    else 19
  }

  function TimeAt(r: nat, k: nat): nat {
    SECOND + 20 * r * HALF + Halves(r, k) * HALF
  }

  /** The order of a round: by number, but from the second round on the first key comes last of the first 98. */
  function KeyIn(r: nat, q: nat): (k: nat)
    requires q < CROWD
    ensures k < CROWD
  {
    if r == 0 || q > 97 then q else if q == 97 then 0 else q + 1
  }

  function PlaceIn(r: nat, k: nat): (q: nat)
    requires k < CROWD
    ensures q < CROWD && KeyIn(r, q) == k
  {
    if r == 0 || k > 97 then k else if k == 0 then 97 else k - 1
  }

  lemma OnePlaceEach(r: nat, q: nat)
    requires q < CROWD
    ensures PlaceIn(r, KeyIn(r, q)) == q
  {
  }

  function KeyAt(m: nat): (k: nat)
    ensures k < CROWD
  {
    KeyIn(m / CROWD, m % CROWD)
  }

  function Moment(m: nat): nat {
    TimeAt(m / CROWD, KeyAt(m))
  }

  /** Place by place, and round by round. */
  lemma NextPlace(m: nat)
    ensures if m % CROWD < CROWD - 1 then (m + 1) / CROWD == m / CROWD && (m + 1) % CROWD == m % CROWD + 1
            else (m + 1) / CROWD == m / CROWD + 1 && (m + 1) % CROWD == 0
  {
  }

  lemma MomentsGrow(m: nat)
    ensures Moment(m) <= Moment(m + 1)
  {
    NextPlace(m);
    var r, q := m / CROWD, m % CROWD;
    if q < CROWD - 1 {
      HalvesGrow(r, q);
      TimesGrow(r, KeyIn(r, q), KeyIn(r, q + 1));
    } else {
      RoundsFollow(r, KeyIn(r, q), KeyIn(r + 1, 0));
    }
    hide TimeAt, KeyIn;
  }

  lemma TimesGrow(r: nat, j: nat, k: nat)
    requires Halves(r, j) <= Halves(r, k)
    ensures TimeAt(r, j) <= TimeAt(r, k)
  {
    hide Halves;
  }

  lemma RoundsFollow(r: nat, j: nat, k: nat)
    ensures TimeAt(r, j) <= TimeAt(r + 1, k)
  {
    hide Halves;
  }

  lemma HalvesGrow(r: nat, q: nat)
    requires q < CROWD - 1
    ensures Halves(r, KeyIn(r, q)) <= Halves(r, KeyIn(r, q + 1))
  {
  }

  /** When key k is next to announce, once m datagrams have been sent. */
  function NextTime(m: nat, k: nat): nat
    requires k < CROWD
  {
    var r := m / CROWD;
    if m % CROWD <= PlaceIn(r, k) then TimeAt(r, k) else TimeAt(r + 1, k)
  }

  lemma NextIsNow(m: nat)
    ensures NextTime(m, KeyAt(m)) == Moment(m)
  {
    OnePlaceEach(m / CROWD, m % CROWD);
    hide Halves, TimeAt;
  }

  /** Sending one key's announce puts that key off by ten seconds or more and no other. */
  lemma NextTimeMoves(m: nat, k: nat)
    requires k < CROWD
    ensures if k == KeyAt(m) then NextTime(m + 1, k) >= Moment(m) + PER_KEY_GAP else NextTime(m + 1, k) == NextTime(m, k)
  {
    var r, q := m / CROWD, m % CROWD;
    NextPlace(m);
    OnePlaceEach(r, q);
    TenSecondsOn(r, k);
    hide Halves, TimeAt, KeyIn, PlaceIn;
    if k != KeyAt(m) {
      assert PlaceIn(r, k) != q;
    }
  }

  lemma TenSecondsOn(r: nat, k: nat)
    requires k < CROWD
    ensures TimeAt(r + 1, k) >= TimeAt(r, k) + PER_KEY_GAP
  {
  }

  // ----- the announces -----

  function Numbered(m: nat): (r: Bytes)
    requires m <= LAST
    ensures |r| == 4
  {
    [m / 256, m % 256, 0, 0]
  }

  /** The last is the first again, stamped 60 seconds ahead of the clock when it was first admitted. */
  function Which(m: nat): nat {
    if m == LAST then 0 else m
  }

  function Stamp(m: nat): nat {
    if Which(m) == 0 then 61 else Moment(m) / SECOND
  }

  lemma StampFits(m: nat)
    requires m <= LAST
    ensures Stamp(m) < 1000
  {
    assert m / CROWD <= 12;
    TimesFit(m / CROWD, KeyAt(m));
    hide TimeAt, KeyAt;
  }

  lemma TimesFit(r: nat, k: nat)
    requires r <= 12
    ensures TimeAt(r, k) / SECOND < 1000
  {
    hide Halves;
  }

  function SpokenAt(m: nat): (a: Announce)
    requires m <= LAST
    ensures a.Valid()
  {
    StampFits(m);
    Announce(Community(), FriendKey(KeyAt(m)), 1000, Stamp(m), Numbered(Which(m)))
  }

  function SentAt(m: nat): Datagram
    requires m <= LAST
  {
    Datagram(Encode(SpokenAt(m), NoSignature()), LAN, Moment(m))
  }

  function March(n: nat): (d: seq<Datagram>)
    requires n <= LAST + 1
    ensures |d| == n && forall k :: 0 <= k < n ==> d[k] == SentAt(k)
  {
    if n == 0 then [] else March(n - 1) + [SentAt(n - 1)]
  }

  lemma SpokenDiffer(m: nat, n: nat)
    requires m < n <= LAST && (m > 0 || n < LAST)
    ensures TripleOf(SpokenAt(m)) != TripleOf(SpokenAt(n))
  {
    hide FriendKey, Fill, KeyAt, Stamp;
    var a, b := Which(m), Which(n);
    assert a != b;
    assert SpokenAt(m).nonce == Numbered(a) && SpokenAt(n).nonce == Numbered(b);
    assert Numbered(a)[0] == a / 256 && Numbered(a)[1] == a % 256;
    assert Numbered(b)[0] == b / 256 && Numbered(b)[1] == b % 256;
  }

  lemma LastIsFirst()
    ensures TripleOf(SpokenAt(LAST)) == TripleOf(SpokenAt(0))
    ensures Moment(0) == SECOND && Moment(LAST) == 121 * SECOND + HALF
  {
    assert LAST / CROWD == 12 && LAST % CROWD == 97;
  }

  // ----- the packet windows -----

  /** The window as the packet at place q of round r leaves it. */
  function WindowIn(r: nat, q: nat): Window {
    var round := SECOND + 20 * r * HALF;
    if r == 0 && q <= 48 then Window(HALF, q + 1)
    else if r == 0 && q <= 97 then Window(round + HALF, q - 48)
    else if q <= 47 then Window(round - HALF, q + 2)
    else if q <= 97 then Window(round + HALF, q - 47)
    else if q <= 297 then Window(round + (4 + 2 * ((q - 98) / 50)) * HALF, (q - 98) % 50 + 1)
    else if q <= 332 then Window(round + 12 * HALF, q - 297)
    else Window(round + 19 * HALF, 1)
  }

  /** Before the m-th packet. */
  function WindowBefore(m: nat): Window {
    if m == 0 then Window(HALF, 0) else WindowIn((m - 1) / CROWD, (m - 1) % CROWD)
  }

  lemma RoomInRound(r: nat, q: nat)
    requires q < CROWD - 1
    ensures var w := Rolled(WindowIn(r, q), TimeAt(r, KeyIn(r, q + 1)));
            w.used < PACKETS_PER_SECOND && Counted(w) == WindowIn(r, q + 1)
  {
    if q < 97 {
      RoomAmongFirst(r, q);
    } else if q < 297 {
      RoomAmongFifties(r, q);
    } else {
      RoomAmongLast(r, q);
    }
    hide WindowIn, TimeAt, KeyIn, Rolled;
  }

  /** Two bursts half a second apart, in two windows. */
  lemma RoomAmongFirst(r: nat, q: nat)
    requires q < 97
    ensures var w := Rolled(WindowIn(r, q), TimeAt(r, KeyIn(r, q + 1)));
            w.used < PACKETS_PER_SECOND && Counted(w) == WindowIn(r, q + 1)
  {
  }

  /** Fifty a window. */
  lemma RoomAmongFifties(r: nat, q: nat)
    requires 97 <= q < 297
    ensures var w := Rolled(WindowIn(r, q), TimeAt(r, KeyIn(r, q + 1)));
            w.used < PACKETS_PER_SECOND && Counted(w) == WindowIn(r, q + 1)
  {
    var g, h := (q - 97) / 50, (q - 97) % 50;
    assert Halves(r, q + 1) == 4 + 2 * g && KeyIn(r, q + 1) == q + 1;
    if h > 0 {
      assert (q - 98) / 50 == g && (q - 98) % 50 == h - 1;
    } else if g > 0 {
      assert (q - 98) / 50 == g - 1 && (q - 98) % 50 == 49;
    }
    hide Halves;
  }

  lemma RoomAmongLast(r: nat, q: nat)
    requires 297 <= q < CROWD - 1
    ensures var w := Rolled(WindowIn(r, q), TimeAt(r, KeyIn(r, q + 1)));
            w.used < PACKETS_PER_SECOND && Counted(w) == WindowIn(r, q + 1)
  {
  }

  lemma RoomInNextRound(r: nat)
    ensures var w := Rolled(WindowIn(r, CROWD - 1), TimeAt(r + 1, KeyIn(r + 1, 0)));
            w.used < PACKETS_PER_SECOND && Counted(w) == WindowIn(r + 1, 0)
  {
  }

  lemma RoomAtFirst()
    ensures var w := Rolled(Window(HALF, 0), Moment(0)); w.used < PACKETS_PER_SECOND && Counted(w) == WindowIn(0, 0)
  {
  }

  lemma ThereIsRoom(m: nat)
    ensures var w := Rolled(WindowBefore(m), Moment(m)); w.used < PACKETS_PER_SECOND && Counted(w) == WindowBefore(m + 1)
  {
    if m == 0 {
      RoomAtFirst();
    } else {
      NextPlace(m - 1);
      var r, q := (m - 1) / CROWD, (m - 1) % CROWD;
      if q < CROWD - 1 {
        RoomInRound(r, q);
      } else {
        RoomInNextRound(r);
      }
    }
    hide WindowIn, TimeAt, Rolled, KeyIn;
  }

  // ----- the run -----

  function Household(): set<Key> {
    Elements(FriendsTo(CROWD))
  }

  lemma HouseholdIs334()
    ensures |Household()| <= CROWD && forall k :: 0 <= k < CROWD ==> FriendKey(k) in Household()
  {
    AtMost(FriendsTo(CROWD));
    hide FriendKey;
    forall k | 0 <= k < CROWD
      ensures FriendKey(k) in Household()
    {
      assert FriendsTo(CROWD)[k] == FriendKey(k);
    }
  }

  /** Nobody is due before its gap is over. */
  ghost predicate OnSchedule(m: nat, g: Gaps) {
    && Remembers(g, Household())
    && forall k :: 0 <= k < CROWD && FriendKey(k) in g.lastFrom ==> g.lastFrom[FriendKey(k)] + PER_KEY_GAP <= NextTime(m, k)
  }

  lemma ScheduleGoesOn(m: nat, g: Gaps)
    requires OnSchedule(m, g)
    ensures var (after, quiet) := AdmitKey(g, FriendKey(KeyAt(m)), Moment(m)); quiet && OnSchedule(m + 1, after)
  {
    var k, now := KeyAt(m), Moment(m);
    HouseholdIs334();
    NextIsNow(m);
    assert Remembers(g, Household()) && (FriendKey(k) in g.lastFrom ==> g.lastFrom[FriendKey(k)] + PER_KEY_GAP <= now);
    hide FriendKey, NextTime, Moment, Household, KeyAt, Remembers, OnSchedule;
    QuietIsLetThrough(g, FriendKey(k), now);
    NobodyIsForgotten(g, FriendKey(k), now, Household());
    hide AdmitKey;
    ScheduleMoves(m, g, AdmitKey(g, FriendKey(k), now).0);
  }

  lemma QuietIsLetThrough(g: Gaps, key: Key, now: nat)
    requires key in g.lastFrom ==> g.lastFrom[key] + PER_KEY_GAP <= now
    ensures AdmitKey(g, key, now).1
  {
  }

  lemma ScheduleMoves(m: nat, g: Gaps, after: Gaps)
    requires OnSchedule(m, g) && Remembers(after, Household())
    requires after.lastFrom == g.lastFrom[FriendKey(KeyAt(m)) := Moment(m)]
    ensures OnSchedule(m + 1, after)
  {
    hide Remembers, FriendKey, NextTime, Moment, Household, KeyAt;
    forall k | 0 <= k < CROWD && FriendKey(k) in after.lastFrom
      ensures after.lastFrom[FriendKey(k)] + PER_KEY_GAP <= NextTime(m + 1, k)
    {
      NextTimeMoves(m, k);
      FriendsDiffer(k, KeyAt(m));
    }
  }

  /** All m datagrams so far have been admitted, in order. */
  ghost predicate Marched(m: nat, l: Log)
    requires m <= LAST + 1
  {
    && l.clock <= Moment(m) && l.s.window == WindowBefore(m)
    && |l.admitted| == |l.passes| == |l.packet| == m
    && (forall k :: 0 <= k < m ==> l.admitted[k] == TripleOf(SpokenAt(k)))
    && (m > 0 ==> l.packet[0] == 0 && l.passes[0].at == SECOND)
    && OnSchedule(m, l.s.gaps)
  }

  lemma OneMoreLogged(m: nat, l: Log, after: Log)
    requires m <= LAST && Marched(m, l) && after.clock == Moment(m) && after.s.window == WindowBefore(m + 1)
    requires OnSchedule(m + 1, after.s.gaps)
    requires after.admitted == l.admitted + [TripleOf(SpokenAt(m))] && after.packet == l.packet + [|l.passes|]
    requires |after.passes| == |l.passes| + 1 && after.passes[..|l.passes|] == l.passes && after.passes[|l.passes|].at == Moment(m)
    ensures Marched(m + 1, after)
  {
    MomentsGrow(m);
    LastIsFirst();
    hide WindowBefore, OnSchedule, Moment, SpokenAt, TripleOf;
    if m > 0 {
      assert after.passes[0] == after.passes[..|l.passes|][0];
    }
  }

  /** An announce nobody has heard before, or the first one once 4096 others have been. */
  lemma IsUnseen(m: nat, l: Log)
    requires m <= LAST && Marched(m, l) && Keeps(Trusting(), l)
    ensures TripleOf(SpokenAt(m)) !in l.s.memory.seen
  {
    hide Keeps, SpokenAt, TripleOf, OnSchedule, WindowBefore, Moment;
    var last := Last(l.admitted, SEEN_REMEMBERED);
    forall k | 0 <= k < |last|
      ensures last[k] != TripleOf(SpokenAt(m))
    {
      SpokenDiffer(m - |last| + k, m);
    }
    NotRemembered(l, TripleOf(SpokenAt(m)));
  }

  /** Every announce is stamped within the window of the receiver's clock. */
  lemma StampIsClose(m: nat)
    requires m <= LAST
    ensures Skew(Unix(Trusting(), Moment(m)), Stamp(m)) <= REPLAY_WINDOW
  {
    LastIsFirst();
    hide Moment;
  }

  lemma IsFreshlyAdmitted(m: nat, l: Log)
    requires m <= LAST && Marched(m, l) && Keeps(Trusting(), l)
    ensures AdmitTriple(l.s.memory, TripleOf(SpokenAt(m)), Unix(Trusting(), Moment(m))).1.Fresh?
  {
    IsUnseen(m, l);
    StampIsClose(m);
    hide Remembered, Moment, Stamp, Keeps, Marched, FriendKey, KeyAt, Trusting;
  }

  lemma OneMoreMarches(m: nat, l: Log)
    requires m <= LAST && Marched(m, l) && Keeps(Trusting(), l)
    ensures Marched(m + 1, Hear(Trusting(), l, SentAt(m)))
  {
    assert SpokenAt(m).key == FriendKey(KeyAt(m)) && SpokenAt(m).community == Community();
    assert SentAt(m) == Datagram(Encode(SpokenAt(m), NoSignature()), LAN, Moment(m));
    assert OnSchedule(m, l.s.gaps) && l.clock <= Moment(m) && l.s.window == WindowBefore(m);
    hide Keeps, Hear, Rolled, WindowBefore, FriendKey, Fill, Encode, SpokenAt, SentAt, Moment, KeyAt, OnSchedule, AdmitKey,
         AdmitTriple, TripleOf, Marched, Trusting, Community, OwnKey;
    ThereIsRoom(m);
    ScheduleGoesOn(m, l.s.gaps);
    FriendsDiffer(KeyAt(m), KeyAt(m));
    IsFreshlyAdmitted(m, l);
    HeardThrough(l, SpokenAt(m), Moment(m));
    OneMoreLogged(m, l, Hear(Trusting(), l, SentAt(m)));
  }

  function After334(m: nat): Log
    requires m <= LAST + 1
  {
    Run(Trusting(), Start(HALF), March(m))
  }

  lemma MarchStarts()
    ensures After334(0) == Start(HALF) && Marched(0, Start(HALF))
  {
    hide Hear, FriendKey;
  }

  lemma OneMoreOfMarch(m: nat)
    requires m <= LAST
    ensures After334(m + 1) == Hear(Trusting(), After334(m), SentAt(m))
  {
    assert March(m + 1)[..m] == March(m);
    hide SentAt, Hear;
  }

  lemma {:induction false} MarchKeeps(m: nat)
    requires m <= LAST + 1
    ensures Marched(m, After334(m)) && Keeps(Trusting(), After334(m))
  {
    hide Keeps, Run, Marched, March, Hear, Start, After334, SentAt, Trusting;
    AllOfMarchKeeps(m);
    if m == 0 {
      MarchStarts();
    } else {
      MarchKeeps(m - 1);
      OneMoreOfMarch(m - 1);
      OneMoreMarches(m - 1, After334(m - 1));
    }
  }

  lemma AllOfMarchKeeps(m: nat)
    requires m <= LAST + 1
    ensures Keeps(Trusting(), After334(m))
  {
    hide Keeps, Run, March, Start, Trusting;
    StartKeeps(Trusting(), HALF);
    RunKeeps(Trusting(), Start(HALF), March(m));
  }

  /** The run of 4106 datagrams of 334 keys, every one admitted, the last of them the first again. */
  lemma MarchRepeats()
    ensures Repeats(Trusting(), Run(Trusting(), Start(HALF), March(LAST + 1)), 60)
  {
    MarchKeeps(LAST + 1);
    LastIsFirst();
    MarchedRepeats(After334(LAST + 1));
    hide Run, March, Repeats, Marched, Keeps;
  }

  lemma MarchedRepeats(l: Log)
    requires Marched(LAST + 1, l) && TripleOf(SpokenAt(LAST)) == TripleOf(SpokenAt(0))
    ensures Repeats(Trusting(), l, 60)
  {
    hide FriendKey, Fill, OnSchedule, WindowBefore, Moment, KeyAt;
    assert l.admitted[0] == TripleOf(SpokenAt(0)) && l.admitted[LAST] == TripleOf(SpokenAt(LAST));
    assert l.admitted[0].sentUnix == 61 && AdmittedAt(Trusting(), l, 0) == 1;
  }

  lemma MarchIs334Keys()
    ensures Among(Trusting(), March(LAST + 1), Household())
  {
    HouseholdIs334();
    hide FriendKey, Fill, Encode, Reading, Speaks, Household, March;
    var march := March(LAST + 1);
    forall k | 0 <= k < |march|
      ensures Reading(Trusting(), march[k]).Ok? && Reading(Trusting(), march[k]).announce.key in Household()
    {
      FriendReads(SpokenAt(k), Moment(k));
    }
  }

  /** Nothing is ever admitted twice, in any run of any house in which at most n keys announce, exactly when n is at most 333. */
  lemma AtMostOnceIffFewKeys(n: nat)
    ensures (forall env: Env, start, datagrams, keys, ahead :: Among(env, datagrams, keys) && |keys| <= n
                                                             ==> !Repeats(env, Run(env, Start(start), datagrams), ahead))
            <==> n <= SAFE_KEYS
  {
    if n <= SAFE_KEYS {
      forall env: Env, start, datagrams, keys, ahead | Among(env, datagrams, keys) && |keys| <= n
        ensures !Repeats(env, Run(env, Start(start), datagrams), ahead)
      {
        FewKeysNeverRepeat(env, start, datagrams, keys, ahead);
      }
    } else {
      HouseholdIs334();
      MarchIs334Keys();
      MarchRepeats();
      hide Among, Repeats, March, Run, Household;
    }
  }
}

/**
 The path table: one shared entry per synthetic address, reached by that address and by
 the peer's key (crates/mosschat-net/src/path.rs:747-846). Entries are objects, so what
 the doorbell does through one index is what the send path sees through the other.
 */
module PathTables {
  import opened Common
  import opened Addresses
  import Path

  type Key = nat

  class PathTable {
    var byPeer: map<Key, Path.Entry>
    var bySynthetic: map<SocketAddr, Path.Entry>
    /** The address each peer was last inserted under. */
    ghost var placed: map<Key, SocketAddr>

    ghost predicate Valid()
      reads this
    {
      && placed.Keys == byPeer.Keys
      && (forall peer :: peer in byPeer ==> placed[peer] in bySynthetic && byPeer[peer] == bySynthetic[placed[peer]])
      && (forall a, b :: a in bySynthetic && b in bySynthetic && a != b ==> bySynthetic[a] != bySynthetic[b])
    }

    constructor ()
      ensures Valid() && byPeer == map[] && bySynthetic == map[]
    {
      byPeer, bySynthetic, placed := map[], map[], map[];
    }

    /** The entry under an address is made once and never replaced. */
    method EnsureBySynthetic(synthetic: SocketAddr) returns (entry: Path.Entry)
      requires Valid()
      modifies this`bySynthetic
      ensures Valid()
      ensures bySynthetic == old(bySynthetic)[synthetic := entry]
      ensures if synthetic in old(bySynthetic) then entry == old(bySynthetic)[synthetic]
              else fresh(entry) && entry.Value() == Path.FRESH
    {
      if synthetic in bySynthetic {
        return bySynthetic[synthetic];
      }
      entry := new Path.Entry();
      bySynthetic := bySynthetic[synthetic := entry];
    }

    /** Names a peer's entry, adopting the one registration made before the key was known. */
    method InsertRelay(peer: Key, synthetic: SocketAddr) returns (entry: Path.Entry)
      requires Valid()
      modifies this
      ensures Valid()
      ensures byPeer == old(byPeer)[peer := entry] && placed == old(placed)[peer := synthetic]
      ensures bySynthetic == old(bySynthetic)[synthetic := entry]
      ensures if synthetic in old(bySynthetic) then entry == old(bySynthetic)[synthetic]
              else fresh(entry) && entry.Value() == Path.FRESH
    {
      entry := EnsureBySynthetic(synthetic);
      byPeer := byPeer[peer := entry];
      placed := placed[peer := synthetic];
    }

    /** A switch made through the peer's key is seen under its address and under no other. */
    method UpgradePeer(peer: Key, addr: SocketAddr) returns (switched: bool)
      requires Valid() && peer in byPeer
      modifies byPeer[peer]
      ensures Valid()
      ensures bySynthetic[placed[peer]].Value() == Path.Upgraded(old(bySynthetic[placed[peer]].Value()), addr)
      ensures bySynthetic[placed[peer]].kind == Path.Direct(addr)
      ensures switched <==> old(bySynthetic[placed[peer]].kind) != Path.Direct(addr)
      ensures forall a :: a in bySynthetic && a != placed[peer] ==> bySynthetic[a].Value() == old(bySynthetic[a].Value())
      ensures forall other :: other in byPeer && placed[other] != placed[peer] ==> byPeer[other].Value() == old(byPeer[other].Value())
    {
      switched := byPeer[peer].UpgradeTo(addr);
    }

    method FallBackPeer(peer: Key) returns (dropped: Option<SocketAddr>)
      requires Valid() && peer in byPeer
      modifies byPeer[peer]
      ensures Valid()
      ensures bySynthetic[placed[peer]].Value() == Path.FellBack(old(bySynthetic[placed[peer]].Value()))
      ensures bySynthetic[placed[peer]].kind == Path.Relay
      ensures dropped == var was := old(bySynthetic[placed[peer]].kind); if was.Direct? then Some(was.addr) else None
      ensures forall a :: a in bySynthetic && a != placed[peer] ==> bySynthetic[a].Value() == old(bySynthetic[a].Value())
    {
      dropped := byPeer[peer].FallBackToRelay();
    }

    /** What a datagram from `direct` is presented as: some peer on that path, if there is any. */
    method SyntheticForDirect(direct: SocketAddr) returns (r: Option<SocketAddr>)
      ensures r.Some? <==> exists a :: a in bySynthetic && bySynthetic[a].kind == Path.Direct(direct)
      ensures r.Some? ==> r.value in bySynthetic && bySynthetic[r.value].kind == Path.Direct(direct)
    {
      if a :| a in bySynthetic && bySynthetic[a].kind == Path.Direct(direct) {
        return Some(a);
      }
      return None;
    }
  }
}

/**
 One peer's path: the kind of path it is on, the congestion epoch and the
 smoothed round trip time (crates/mosschat-net/src/path.rs:74-256).
 */
module Path {
  import opened Common
  import opened Addresses

  datatype Kind = Relay | Direct(addr: SocketAddr)

  /** What every clone of one path entry shares. */
  datatype State = State(kind: Kind, epoch: nat, srtt: Option<nat>)

  const FRESH := State(Relay, 0, None)

  function Upgraded(p: State, addr: SocketAddr): State {
    if p.kind == Direct(addr) then p else State(Direct(addr), p.epoch + 1, None)
  }

  function FellBack(p: State): State {
    if p.kind.Relay? then p else State(Relay, p.epoch + 1, None)
  }

  function Sampled(p: State, sample: nat): State {
    p.(srtt := Some(Smoothed(p.srtt, sample)))
  }

  /** The shared entry. The epoch is unbounded here; the source's is 64 bits wide. */
  class Entry {
    var kind: Kind
    var epoch: nat
    var srtt: Option<nat>

    ghost function Value(): State
      reads this
    {
      State(kind, epoch, srtt)
    }

    constructor ()
      ensures Value() == FRESH
    {
      kind, epoch, srtt := Relay, 0, None;
    }

    method UpgradeTo(addr: SocketAddr) returns (switched: bool)
      modifies this
      ensures Value() == Upgraded(old(Value()), addr) && kind == Direct(addr)
      ensures switched <==> old(kind) != Direct(addr)
      ensures epoch == old(epoch) + (if switched then 1 else 0)
      ensures switched ==> srtt == None
    {
      if kind == Direct(addr) {
        return false;
      }
      kind := Direct(addr);
      srtt := None;
      epoch := epoch + 1;
      return true;
    }

    method FallBackToRelay() returns (dropped: Option<SocketAddr>)
      modifies this
      ensures Value() == FellBack(old(Value()))
      ensures kind == Relay
      ensures dropped == (if old(kind).Direct? then Some(old(kind).addr) else None)
      ensures epoch == old(epoch) + (if dropped.Some? then 1 else 0)
      ensures dropped.Some? ==> srtt == None
    {
      if kind.Relay? {
        return None;
      }
      dropped := Some(kind.addr);
      kind := Relay;
      srtt := None;
      epoch := epoch + 1;
    }

    method RecordRtt(sample: nat)
      modifies this`srtt
      ensures Value() == Sampled(old(Value()), sample)
      ensures old(srtt).None? ==> srtt == Some(sample)
      ensures old(srtt).Some? ==>
                srtt.Some? && Min(old(srtt).value, sample) <= srtt.value <= Max(old(srtt).value, sample)
    {
      if srtt.None? {
        srtt := Some(sample);
      } else {
        srtt := Some((srtt.value * 7 + sample) / 8);
      }
    }
  }
}

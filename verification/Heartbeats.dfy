/** What a host tells the gateway about itself (internal/server/heartbeat.go), and what the gateway may conclude. */
module Heartbeats {
  import opened Wrappers
  import opened Pools
  import opened Tables
  import opened History
  import Routing
  import Registry

  /** The payload: every running sandbox once, their number, and the capacity of the pools. */
  method Payload(reg: Registry.Registry, hostId: string, addr: string, token: string) returns (hb: Routing.Heartbeat)
    ensures hb.hostId == hostId && hb.addr == addr && hb.token == token
    ensures hb.slotsTotal == Slots(reg.pools)
    ensures hb.slotsUsed == |hb.sandboxIds|
    ensures forall id :: id in hb.sandboxIds <==> id in reg.sandboxes && reg.sandboxes[id].status.Running?
    ensures forall i, j | 0 <= i < j < |hb.sandboxIds| :: hb.sandboxIds[i] != hb.sandboxIds[j]
  {
    var ids := [];
    var rows := reg.sandboxes.Keys;
    while rows != {}
      invariant rows <= reg.sandboxes.Keys
      invariant forall id :: id in ids <==> id in reg.sandboxes && id !in rows && reg.sandboxes[id].status.Running?
      invariant forall i, j | 0 <= i < j < |ids| :: ids[i] != ids[j]
      decreases rows
    {
      var id :| id in rows;
      rows := rows - {id};
      if reg.sandboxes[id].status.Running? {
        ids := ids + [id];
      }
    }
    hb := Routing.Heartbeat(hostId, addr, token, Slots(reg.pools), |ids|, ids);
  }

  lemma {:induction false} DistinctCountsSet(ids: seq<Id>)
    requires forall i, j | 0 <= i < j < |ids| :: ids[i] != ids[j]
    ensures |ids| == |set id | id in ids|
  {
    if ids != [] {
      var front, last := ids[..|ids| - 1], ids[|ids| - 1];
      DistinctCountsSet(front);
      assert ids == front + [last];
      assert (set id | id in ids) == (set id | id in front) + {last};
    }
  }

  /** A host advertises exactly its capacity less its sandboxes, never less than nothing; and while it forwards no
      extra ports, a free slot in the gateway's eyes means that the next create on the host gets its row. */
  lemma AdvertisedSlotsAreReal(t: Tables, p: Pools, hb: Routing.Heartbeat, now: int, id: Id, e: Option<int>)
    requires Consistent(t) && InPools(t, p) && IPBoundsOrdered(p)
    requires hb.slotsTotal == Slots(p) && hb.slotsUsed == |hb.sandboxIds|
    requires forall i :: i in hb.sandboxIds <==> i in t.sandboxes
    requires forall i, j | 0 <= i < j < |hb.sandboxIds| :: hb.sandboxIds[i] != hb.sandboxIds[j]
    ensures var h := Routing.Host(hb.addr, hb.token, hb.slotsTotal, hb.slotsUsed, now);
            && Routing.Free(h) == Slots(p) - |t.sandboxes|
            && (t.ports == map[] && id !in t.sandboxes ==> (Routing.Free(h) > 0 <==> Create(t, p, id, RootfsPath(id), e).Ok?))
  {
    hide Slots, Create, InPools, IPBoundsOrdered, Consistent, RootfsPath;
    DistinctCountsSet(hb.sandboxIds);
    assert (set i | i in hb.sandboxIds) == t.sandboxes.Keys;
    assert |t.sandboxes.Keys| == |t.sandboxes|;
    CapacityBound(t, p, id, RootfsPath(id), e);
  }
}

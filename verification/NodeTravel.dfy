/**
 The node's side of travel as it is written: the departure closure, the import closure and the part of a tick that drains pending
 arrivals, each proved to be moves of module Whereabouts.
 */
module NodeTravel {
  import opened Wrappers
  import opened Ids
  import opened Travel
  import opened Whereabouts

  /** What happens to one arrival: whether its row is written, whether the rest of the import succeeds, and whether the report to
      the hub gets there. */
  datatype Fate = Fate(written: bool, emitted: bool, reached: bool)

  /** How an arrival leaves its journey: malformed ones are blocked, the others arrive once written and emitted, and either only if the
      report reaches the hub. */
  function Ended(j: Journey, fate: Fate): Status {
    if !fate.reached then Pending
    else if !j.snap.wellFormed then Blocked
    else if fate.written && fate.emitted then Arrived
    else Pending
  }

  /** Whether an arrival's row is written. */
  predicate Written(j: Journey, fate: Fate) {
    j.snap.wellFormed && fate.written
  }

  /** The first i arrivals' journeys have ended as they should, and no other has changed. */
  ghost predicate JourneysDrained(ids: seq<string>, fate: nat -> Fate, i: nat, was: map<string, Journey>, now: map<string, Journey>)
    requires i <= |ids| && forall k :: 0 <= k < |ids| ==> ids[k] in was
  {
    && now.Keys == was.Keys
    && (forall id :: id in was && (forall k :: 0 <= k < i ==> ids[k] != id) ==> now[id] == was[id])
    && (forall k :: 0 <= k < i ==> now[ids[k]] == was[ids[k]].(status := Ended(was[ids[k]], fate(k))))
  }

  /** The first i arrivals' rows have been written as they should, and no other has changed. */
  ghost predicate RowsDrained(n: NodeId, js: seq<Journey>, fate: nat -> Fate, i: nat, rows: map<string, PlayerRow>, rows': map<string, PlayerRow>)
    requires i <= |js|
  {
    && (forall gid :: (forall k :: 0 <= k < i && Written(js[k], fate(k)) ==> js[k].gid != gid) ==> SameRow(rows, rows', gid))
    && (forall k :: 0 <= k < i && Written(js[k], fate(k)) ==>
          js[k].gid in rows' && rows'[js[k].gid] == PlayerRow(js[k].snap.home, js[k].snap.active || js[k].snap.home == n))
  }

  predicate SameRow(rows: map<string, PlayerRow>, rows': map<string, PlayerRow>, gid: string) {
    (gid in rows' <==> gid in rows) && (gid in rows ==> rows'[gid] == rows[gid])
  }

  lemma NothingDrained(n: NodeId, ids: seq<string>, js: seq<Journey>, fate: nat -> Fate, was: map<string, Journey>, rows: map<string, PlayerRow>)
    requires forall k :: 0 <= k < |ids| ==> ids[k] in was
    ensures JourneysDrained(ids, fate, 0, was, was) && RowsDrained(n, js, fate, 0, rows, rows)
  {
  }

  lemma DrainJourney(ids: seq<string>, fate: nat -> Fate, i: nat, was: map<string, Journey>, now: map<string, Journey>, now': map<string, Journey>)
    requires i < |ids| && (forall k :: 0 <= k < |ids| ==> ids[k] in was) && JourneysDrained(ids, fate, i, was, now)
    requires forall k, l :: 0 <= k < l < |ids| ==> ids[k] != ids[l]
    requires now' == now[ids[i] := was[ids[i]].(status := Ended(was[ids[i]], fate(i)))]
    ensures JourneysDrained(ids, fate, i + 1, was, now')
  {
    hide Ended;
  }

  lemma DrainRow(n: NodeId, js: seq<Journey>, fate: nat -> Fate, i: nat, rows: map<string, PlayerRow>, mid: map<string, PlayerRow>,
                 rows': map<string, PlayerRow>)
    requires i < |js| && RowsDrained(n, js, fate, i, rows, mid)
    requires forall k, l :: 0 <= k < l < |js| ==> js[k].gid != js[l].gid
    requires rows' == if Written(js[i], fate(i)) then mid[js[i].gid := PlayerRow(js[i].snap.home, js[i].snap.active || js[i].snap.home == n)] else mid
    ensures RowsDrained(n, js, fate, i + 1, rows, rows')
  {
    hide Written;
    forall gid | forall k :: 0 <= k < i + 1 && Written(js[k], fate(k)) ==> js[k].gid != gid
      ensures SameRow(rows, rows', gid)
    {
      assert SameRow(rows, mid, gid);
    }
  }

  /** The journeys a tick has pulled. */
  ghost function Pulled(travel: map<string, Journey>, ids: seq<string>): (js: seq<Journey>)
    requires forall k :: 0 <= k < |ids| ==> ids[k] in travel
    ensures |js| == |ids| && forall k :: 0 <= k < |ids| ==> js[k] == travel[ids[k]]
  {
    seq(|ids|, k requires 0 <= k < |ids| => travel[ids[k]])
  }

  /** Pending journeys are of different players. */
  lemma PendingApart(d: Desk, n: NodeId, ids: seq<string>)
    requires TravelInv(d) && IsPendingList(d, n, ids)
    ensures forall k :: 0 <= k < |ids| ==> ids[k] in d.travel
    ensures forall k, l :: 0 <= k < l < |ids| ==> ids[k] != ids[l] && d.travel[ids[k]].gid != d.travel[ids[l]].gid
  {
    hide TravelInv;
    forall k | 0 <= k < |ids| ensures Awaits(d, ids[k], n) {
      assert ids[k] in ids;
    }
    forall k, l | 0 <= k < l < |ids| ensures ids[k] != ids[l] && d.travel[ids[k]].gid != d.travel[ids[l]].gid {
      if d.travel[ids[k]].gid == d.travel[ids[l]].gid {
        OnePending(d, ids[k], ids[l]);
      }
    }
  }

  class PlayerStore {
    const nodeId: NodeId
    var rows: map<string, PlayerRow>

    constructor (nodeId: NodeId)
      ensures this.nodeId == nodeId && rows == map[]
    {
      this.nodeId, rows := nodeId, map[];
    }

    /** This store's part of the road. */
    ghost predicate On(r: Road, arrivals: seq<string>, imported: bool)
      reads this
    {
      nodeId in r.places && r.places[nodeId] == Place(rows, arrivals, imported)
    }

    /** UPDATE players SET status: an unknown player changes nothing. */
    method SetPlayerStatus(gid: string, active: bool)
      modifies this`rows
      ensures rows == SetStatus(Place(old(rows), [], false), gid, active).rows
    {
      if gid in rows {
        rows := rows[gid := rows[gid].(active := active)];
      }
    }

    method ExportPlayer(gid: string, state: string, wellFormed: bool) returns (snap: Option<Snapshot>)
      ensures snap.Some? <==> gid in rows
      ensures snap.Some? ==> snap.value == Snapshot(rows[gid].home, rows[gid].active, wellFormed, state)
    {
      if gid !in rows {
        return None;
      }
      snap := Some(Snapshot(rows[gid].home, rows[gid].active, wellFormed, state));
    }

    /** Export, mark, submit; roll the mark back if the submission fails. */
    method Travel(hub: TravelStore, gid: string, id: string, dest: NodeId, state: string, wellFormed: bool, ending: Ending,
                  ghost r: Road)
      returns (ok: bool, ghost r': Road)
      requires r.desk == hub.View() && nodeId in r.places && r.places[nodeId].rows == rows
      modifies this`rows, hub
      ensures gid !in old(rows) ==> !ok && r' == r
      ensures gid in old(rows) ==> r' == DepartFrom(r, nodeId, gid, id, dest, state, wellFormed, ending)
      ensures r'.desk == hub.View() && nodeId in r'.places && r'.places[nodeId].rows == rows
      ensures ok <==> gid in old(rows) && ending.Answered? && old(Refused(hub.View(), id, gid, nodeId, dest)).None?
      ensures !ok ==> hub.View() == old(hub.View())
      ensures rows == if gid !in old(rows) then old(rows)
                      else old(rows)[gid := PlayerRow(old(rows)[gid].home, !ok && !ending.Stopped?)]
      ensures ok ==>
                var row := old(rows)[gid];
                && id in hub.travel && hub.travel == old(hub.travel)[id := hub.travel[id]]
                && var j := hub.travel[id];
                j.gid == gid && j.from == nodeId && j.dest == dest && j.status == Pending && j.snap == Snapshot(row.home, row.active, wellFormed, state)
                && (row.home != "" ==> j.home == row.home)
    {
      hide Refused, SubmitAt, TravelInv;
      var snap := ExportPlayer(gid, state, wellFormed);
      r' := r;
      if snap.None? {
        return false, r';
      }
      r' := DepartFrom(r, nodeId, gid, id, dest, state, wellFormed, ending);
      SetPlayerStatus(gid, false);
      if ending.Stopped? {
        return false, r';
      }
      var failed := true;
      if ending.Answered? {
        var refusal := hub.SubmitTravel(id, gid, snap.value.home, nodeId, dest, snap.value);
        failed := refusal.Some?;
        RefusedChangesNothing(r.desk, id, gid, snap.value.home, nodeId, dest, snap.value);
      }
      if failed {
        SetPlayerStatus(gid, true);
      }
      ok := !failed;
    }

    /** Writes the row from the snapshot; at home the player is made active. */
    method TravelImport(gid: string, snap: Snapshot)
      modifies this`rows
      ensures rows == old(rows)[gid := RowFrom(snap, nodeId)]
      ensures rows[gid].home == snap.home && rows[gid].active == (snap.active || snap.home == nodeId)
    {
      rows := rows[gid := PlayerRow(snap.home, snap.active)];
      if snap.home == nodeId {
        SetPlayerStatus(gid, true);
      }
    }

    /** One arrival: block what cannot be read, import the rest, and report. */
    method DrainOne(hub: TravelStore, id: string, fate: Fate, ghost r: Road, ghost ids: seq<string>) returns (ghost ms: seq<Move>)
      requires r.desk == hub.View() && ids != [] && ids[0] == id && On(r, ids, false) && Awaits(hub.View(), id, nodeId)
      modifies this`rows, hub
      ensures Moves(r, ms) && After(r, ms).desk == hub.View() && On(After(r, ms), ids[1..], false)
      ensures var j := old(hub.travel)[id];
              && hub.travel == old(hub.travel)[id := j.(status := Ended(j, fate))]
              && rows == if Written(j, fate) then old(rows)[j.gid := PlayerRow(j.snap.home, j.snap.active || j.snap.home == nodeId)]
                         else old(rows)
    {
      hide ArriveAt, BlockAt, SubmitAt, Moves, After, TravelInv;
      ms := [];
      NoMove(r);
      var j := hub.travel[id];
      ghost var cur, m := r, Skip(nodeId);
      if Written(j, fate) {
        TravelImport(j.gid, j.snap);
        OneMove(r, Import(nodeId));
        ms := [Import(nodeId)];
        cur := Go(r, Import(nodeId));
        assert On(cur, ids, true);
        if fate.emitted {
          m := Confirm(nodeId, fate.reached);
          if fate.reached {
            var _ := hub.ArriveTravel(id, nodeId);
          }
        }
      } else if !j.snap.wellFormed {
        m := Reject(nodeId, fate.reached);
        if fate.reached {
          var _ := hub.BlockTravel(id, nodeId);
        }
      }
      MovesOn(r, ms, m);
      ms := ms + [m];
    }

    /** The arrivals loop of a tick. */
    method DrainTravel(hub: TravelStore, ids: seq<string>, fate: nat -> Fate, ghost r: Road) returns (ghost ms: seq<Move>)
      requires r.desk == hub.View() && On(r, [], false) && IsPendingList(hub.View(), nodeId, ids) && RoadInv(r)
      modifies this`rows, hub
      ensures Moves(r, ms) && After(r, ms).desk == hub.View() && On(After(r, ms), [], false)
      ensures (forall k :: 0 <= k < |ids| ==> ids[k] in old(hub.travel))
              && JourneysDrained(ids, fate, |ids|, old(hub.travel), hub.travel)
              && RowsDrained(nodeId, Pulled(old(hub.travel), ids), fate, |ids|, old(rows), rows)
    {
      hide RoadInv, IsPendingList, Possible, Go, Moves, After, JourneysDrained, RowsDrained, Ended, Written, Awaits, TravelInv;
      PullsPending(r, nodeId, ids);
      ms := [Fetch(nodeId, ids)];
      assert ids[0..] == ids;
      ghost var js := Pulled(hub.travel, ids);
      NothingDrained(nodeId, ids, js, fate, hub.travel, rows);
      var i := 0;
      while i < |ids|
        invariant 0 <= i <= |ids|
        invariant Moves(r, ms) && RoadInv(After(r, ms)) && After(r, ms).desk == hub.View() && On(After(r, ms), ids[i..], false)
        invariant JourneysDrained(ids, fate, i, old(hub.travel), hub.travel) && RowsDrained(nodeId, js, fate, i, old(rows), rows)
      {
        ghost var mid, now, cur := rows, hub.travel, After(r, ms);
        FirstAwaits(cur, nodeId);
        NotYet(ids, fate, i, old(hub.travel), now);
        ghost var more := DrainOne(hub, ids[i], fate(i), cur, ids[i..]);
        DrainJourney(ids, fate, i, old(hub.travel), now, hub.travel);
        DrainRow(nodeId, js, fate, i, old(rows), mid, rows);
        MovesJoin(r, ms, more);
        RunKeepsRoad(cur, more);
        assert ids[i..][1..] == ids[i + 1..];
        ms := ms + more;
        i := i + 1;
      }
    }
  }

  lemma PullsPending(r: Road, n: NodeId, ids: seq<string>)
    requires RoadInv(r) && n in r.places && r.places[n].arrivals == [] && IsPendingList(r.desk, n, ids)
    ensures (forall k :: 0 <= k < |ids| ==> ids[k] in r.desk.travel)
            && forall k, l :: 0 <= k < l < |ids| ==> ids[k] != ids[l] && r.desk.travel[ids[k]].gid != r.desk.travel[ids[l]].gid
    ensures Moves(r, [Fetch(n, ids)])
            && var cur := After(r, [Fetch(n, ids)]);
            RoadInv(cur) && cur.desk == r.desk && n in cur.places && cur.places[n] == Place(r.places[n].rows, ids, false)
  {
    assert TravelInv(r.desk);
    hide RoadInv, TravelInv, IsPendingList;
    PendingApart(r.desk, n, ids);
    OneMove(r, Fetch(n, ids));
    MoveKeeps(r, Fetch(n, ids));
  }

  lemma MovesOn(r: Road, ms: seq<Move>, m: Move)
    requires Moves(r, ms) && Possible(After(r, ms), m)
    ensures Moves(r, ms + [m]) && After(r, ms + [m]) == Go(After(r, ms), m)
  {
    hide Possible, Go, Moves, After;
    OneMove(After(r, ms), m);
    MovesJoin(r, ms, [m]);
  }

  lemma NotYet(ids: seq<string>, fate: nat -> Fate, i: nat, was: map<string, Journey>, now: map<string, Journey>)
    requires i < |ids| && (forall k :: 0 <= k < |ids| ==> ids[k] in was) && JourneysDrained(ids, fate, i, was, now)
    requires forall k, l :: 0 <= k < l < |ids| ==> ids[k] != ids[l]
    ensures ids[i] in now && now[ids[i]] == was[ids[i]]
  {
  }

  lemma NoMove(r: Road)
    ensures Moves(r, []) && After(r, []) == r
  {
  }

  lemma {:induction false} MovesJoin(r: Road, ms: seq<Move>, more: seq<Move>)
    requires Moves(r, ms) && Moves(After(r, ms), more)
    ensures Moves(r, ms + more) && After(r, ms + more) == After(After(r, ms), more)
    decreases |ms|
  {
    hide Possible, Go;
    if ms == [] {
      assert ms + more == more;
    } else {
      assert (ms + more)[1..] == ms[1..] + more;
      MovesJoin(Go(r, ms[0]), ms[1..], more);
    }
  }

  lemma OneMove(r: Road, m: Move)
    requires Possible(r, m)
    ensures Moves(r, [m]) && After(r, [m]) == Go(r, m)
  {
    hide Possible, Go;
    assert [m][1..] == [];
    assert Moves(Go(r, m), []);
  }

  lemma FirstAwaits(r: Road, n: NodeId)
    requires RoadInv(r) && n in r.places && r.places[n].arrivals != []
    ensures Processing(r, n) && Awaits(r.desk, First(r, n), n)
  {
    assert ArrivalsOk(r.desk, n, r.places[n]);
  }

  lemma RefusedChangesNothing(d: Desk, id: string, gid: string, home: NodeId, from: NodeId, dest: NodeId, snap: Snapshot)
    ensures Refused(d, id, gid, from, dest).Some? ==> SubmitAt(d, id, gid, home, from, dest, snap) == d
  {
  }
}

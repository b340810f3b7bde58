/**
 Where a player belongs: the node that registered the player, on every row, in every snapshot and on every journey, wherever the
 player goes.
 */
module Homes {
  import opened Ids
  import opened Travel
  import opened Whereabouts

  /** An empty node name is read back at the hub as "not given". */
  ghost predicate BelongsTo(r: Road, gid: string, home: NodeId) {
    && (forall n :: n in r.places && gid in r.places[n].rows ==> r.places[n].rows[gid].home == home)
    && (forall id :: id in r.desk.travel && r.desk.travel[id].gid == gid ==>
          r.desk.travel[id].snap.home == home && (home != "" ==> r.desk.travel[id].home == home))
    && (gid in r.desk.locations && home != "" ==> r.desk.locations[gid].home == home)
  }

  lemma RegisterSettlesHome(r: Road, gid: string, home: NodeId)
    requires RoadInv(r) && Possible(r, Register(home, gid))
    ensures BelongsTo(Go(r, Register(home, gid)), gid, home) && Known(Go(r, Register(home, gid)), gid)
  {
    hide BlocksOk, OnePlace, ArrivalsOk;
    NoJourneys(r.desk, gid);
    var r' := Go(r, Register(home, gid));
    assert home in r'.places && gid in r'.places[home].rows;
  }

  lemma MoveKeepsHome(r: Road, m: Move, gid: string, home: NodeId)
    requires Possible(r, m) && Known(r, gid) && BelongsTo(r, gid, home)
    ensures BelongsTo(Go(r, m), gid, home) && Known(Go(r, m), gid)
  {
    hide IsPendingList;
    var r' := Go(r, m);
    var n :| n in r.places && gid in r.places[n].rows;
    assert n in r'.places && gid in r'.places[n].rows;
    if m.Depart? {
      DepartKeepsHome(r, m, gid, home);
    }
  }

  lemma DepartKeepsHome(r: Road, m: Move, gid: string, home: NodeId)
    requires m.Depart? && Possible(r, m) && BelongsTo(r, gid, home)
    ensures BelongsTo(Go(r, m), gid, home)
  {
    hide SubmitAt, DepartFrom;
    var Depart(n, g, id, dest, state, wellFormed, ending) := m;
    var row := r.places[n].rows[g];
    DepartKeepsRows(r, n, g, id, dest, state, wellFormed, ending);
    SubmitKeepsHome(r.desk, id, g, row.home, n, dest, Snapshot(row.home, row.active, wellFormed, state), gid, home);
  }

  lemma DepartKeepsRows(r: Road, n: NodeId, g: string, id: string, dest: NodeId, state: string, wellFormed: bool, ending: Ending)
    requires n in r.places && g in r.places[n].rows
    ensures var r', row := DepartFrom(r, n, g, id, dest, state, wellFormed, ending), r.places[n].rows[g];
            && (r'.desk == r.desk || r'.desk == SubmitAt(r.desk, id, g, row.home, n, dest, Snapshot(row.home, row.active, wellFormed, state)))
            && r'.places.Keys == r.places.Keys
            && forall k, x :: k in r'.places && x in r'.places[k].rows ==>
                 x in r.places[k].rows && r'.places[k].rows[x].home == r.places[k].rows[x].home
  {
    hide SubmitAt, Refused;
  }

  /** A submission with the player's home, or of another player. */
  lemma SubmitKeepsHome(d: Desk, id: string, g: string, h: NodeId, from: NodeId, dest: NodeId, snap: Snapshot, gid: string, home: NodeId)
    requires g == gid ==> h == home && snap.home == home
    requires forall i :: i in d.travel && d.travel[i].gid == gid ==>
               d.travel[i].snap.home == home && (home != "" ==> d.travel[i].home == home)
    requires gid in d.locations && home != "" ==> d.locations[gid].home == home
    ensures var d' := SubmitAt(d, id, g, h, from, dest, snap);
            && (forall i :: i in d'.travel && d'.travel[i].gid == gid ==>
                  d'.travel[i].snap.home == home && (home != "" ==> d'.travel[i].home == home))
            && (gid in d'.locations && home != "" ==> d'.locations[gid].home == home)
  {
    hide Refused, HomeOf;
  }

  lemma {:induction false} RunKeepsHome(r: Road, ms: seq<Move>, gid: string, home: NodeId)
    requires Moves(r, ms) && Known(r, gid) && BelongsTo(r, gid, home)
    ensures BelongsTo(After(r, ms), gid, home)
    decreases |ms|
  {
    hide BelongsTo, Known, Possible, Go;
    if ms != [] {
      MoveKeepsHome(r, ms[0], gid, home);
      RunKeepsHome(Go(r, ms[0]), ms[1..], gid, home);
    }
  }

  lemma {:induction false} RegisteredBelongs(r: Road, ms: seq<Move>, i: nat, gid: string, home: NodeId)
    requires RoadInv(r) && Moves(r, ms) && i < |ms| && ms[i] == Register(home, gid)
    ensures BelongsTo(After(r, ms), gid, home)
    decreases |ms|
  {
    hide RoadInv, BelongsTo, Known, Possible, Go;
    if i == 0 {
      RegisterSettlesHome(r, gid, home);
      RunKeepsHome(Go(r, ms[0]), ms[1..], gid, home);
    } else {
      MoveKeeps(r, ms[0]);
      RegisteredBelongs(Go(r, ms[0]), ms[1..], i - 1, gid, home);
    }
  }

  /** In every run, whatever the player does after being registered: every row of the player on every node and the snapshot of every
      journey have the registering node as home, and so do the journeys and the location row at the hub. */
  lemma HomeIsWhereRegistered(r: Road, ms: seq<Move>, i: nat, gid: string, home: NodeId)
    requires Dawn(r) && Moves(r, ms) && i < |ms| && ms[i] == Register(home, gid)
    ensures var w := After(r, ms);
            && (forall n :: n in w.places && gid in w.places[n].rows ==> w.places[n].rows[gid].home == home)
            && (forall id :: id in w.desk.travel && w.desk.travel[id].gid == gid ==> w.desk.travel[id].snap.home == home)
            && (home != "" ==> forall id :: id in w.desk.travel && w.desk.travel[id].gid == gid ==> w.desk.travel[id].home == home)
            && (home != "" && gid in w.desk.locations ==> w.desk.locations[gid].home == home)
  {
    hide TravelInv, Possible, Go;
    StartTravel();
    RegisteredBelongs(r, ms, i, gid, home);
  }
}

/**
 Where a character can be played.

 A departure exports the player's row, marks it traveling, submits the journey and, if the hub refuses or cannot be reached,
 marks it active again.  An arriving node pulls its pending journeys, writes the row from the snapshot, and confirms.  Any part
 may fail and be repeated by a later tick.  If a departure is one step, the hub's reply to a submission is not lost, and a report of arrival takes
 effect before the node gives up on it or never, at most one node ever lets the player in.
 */
module Whereabouts {
  import opened Ids
  import opened Travel

  datatype PlayerRow = PlayerRow(home: NodeId, active: bool)

  /** A node's player rows, and the arrivals its current tick has pulled; `imported` says whether the row of the first of
      them has been written. */
  datatype Place = Place(rows: map<string, PlayerRow>, arrivals: seq<string>, imported: bool)

  /** `stopped` is history: players whose node stopped between marking the row and submitting. */
  datatype Road = Road(desk: Desk, places: map<NodeId, Place>, stopped: set<string>)

  /** How a departure ends after the row is marked: the hub answers, the request is lost before the hub sees it, or the
      node stops. */
  datatype Ending = Answered | Unsent | Stopped

  datatype Move =
    | Register(n: NodeId, gid: string)
    | Depart(n: NodeId, gid: string, id: string, dest: NodeId, state: string, wellFormed: bool, ending: Ending)
    | Fetch(n: NodeId, ids: seq<string>)
    | Import(n: NodeId)
    | Confirm(n: NodeId, reached: bool)
    | Reject(n: NodeId, reached: bool)
    | Skip(n: NodeId)
    | Restart(n: NodeId)
    | RetryBlocked(id: string)

  predicate LetsIn(r: Road, n: NodeId, gid: string) {
    n in r.places && gid in r.places[n].rows && r.places[n].rows[gid].active
  }

  predicate OnTheRoad(d: Desk, id: string, gid: string) {
    id in d.travel && d.travel[id].gid == gid && d.travel[id].status.Pending?
  }

  predicate Known(r: Road, gid: string) {
    exists n :: n in r.places && gid in r.places[n].rows
  }

  /** What PendingTravel returns, in some order. */
  ghost predicate IsPendingList(d: Desk, n: NodeId, ids: seq<string>) {
    && (forall id :: id in ids <==> Awaits(d, id, n))
    && (forall i, j :: 0 <= i < j < |ids| ==> ids[i] != ids[j])
  }

  function First(r: Road, n: NodeId): string
    requires n in r.places && r.places[n].arrivals != []
  {
    r.places[n].arrivals[0]
  }

  predicate Processing(r: Road, n: NodeId) {
    n in r.places && r.places[n].arrivals != [] && r.places[n].arrivals[0] in r.desk.travel
  }

  ghost predicate Possible(r: Road, m: Move) {
    match m
    case Register(n, gid) => n in r.places && !Known(r, gid) && gid !in r.desk.locations && gid !in r.stopped
    case Depart(n, gid, _, _, _, _, _) => LetsIn(r, n, gid)
    case Fetch(n, ids) => n in r.places && r.places[n].arrivals == [] && IsPendingList(r.desk, n, ids)
    case Import(n) => Processing(r, n) && r.desk.travel[First(r, n)].snap.wellFormed
    case Confirm(n, _) => Processing(r, n) && r.places[n].imported
    case Reject(n, _) => Processing(r, n) && !r.desk.travel[First(r, n)].snap.wellFormed
    case Skip(n) => Processing(r, n)
    case Restart(n) => n in r.places
    case RetryBlocked(id) => id in r.desk.travel
  }

  function SetPlace(r: Road, n: NodeId, p: Place): Road {
    r.(places := r.places[n := p])
  }

  function SetStatus(p: Place, gid: string, active: bool): Place {
    if gid in p.rows then p.(rows := p.rows[gid := p.rows[gid].(active := active)]) else p
  }

  function DropFirst(p: Place): Place {
    if p.arrivals == [] then p else p.(arrivals := p.arrivals[1..], imported := false)
  }

  /** The row the snapshot brings; at home the player is made active whatever the snapshot says. */
  function RowFrom(snap: Snapshot, n: NodeId): PlayerRow {
    PlayerRow(snap.home, snap.active || snap.home == n)
  }

  function DepartFrom(r: Road, n: NodeId, gid: string, id: string, dest: NodeId, state: string, wellFormed: bool, ending: Ending): Road
    requires n in r.places && gid in r.places[n].rows
  {
    var row := r.places[n].rows[gid];
    var snap := Snapshot(row.home, row.active, wellFormed, state);
    var marked := SetPlace(r, n, SetStatus(r.places[n], gid, false));
    match ending
    case Stopped => marked.(stopped := r.stopped + {gid})
    case Unsent => SetPlace(marked, n, SetStatus(marked.places[n], gid, true))
    case Answered =>
      if Refused(r.desk, id, gid, n, dest).Some? then SetPlace(marked, n, SetStatus(marked.places[n], gid, true))
      else marked.(desk := SubmitAt(r.desk, id, gid, row.home, n, dest, snap))
  }

  ghost function Go(r: Road, m: Move): Road
    requires Possible(r, m)
  {
    match m
    case Register(n, gid) =>
      SetPlace(r, n, r.places[n].(rows := r.places[n].rows[gid := PlayerRow(n, true)]))
    case Depart(n, gid, id, dest, state, wellFormed, ending) => DepartFrom(r, n, gid, id, dest, state, wellFormed, ending)
    case Fetch(n, ids) => SetPlace(r, n, r.places[n].(arrivals := ids, imported := false))
    case Import(n) =>
      var j := r.desk.travel[First(r, n)];
      SetPlace(r, n, r.places[n].(rows := r.places[n].rows[j.gid := RowFrom(j.snap, n)], imported := true))
    case Confirm(n, reached) =>
      var d := if reached then ArriveAt(r.desk, First(r, n), n) else r.desk;
      SetPlace(r.(desk := d), n, DropFirst(r.places[n]))
    case Reject(n, reached) =>
      var d := if reached then BlockAt(r.desk, First(r, n), n) else r.desk;
      SetPlace(r.(desk := d), n, DropFirst(r.places[n]))
    case Skip(n) => SetPlace(r, n, DropFirst(r.places[n]))
    case Restart(n) => SetPlace(r, n, r.places[n].(arrivals := [], imported := false))
    case RetryBlocked(id) => r.(desk := RetryAt(r.desk, id))
  }

  // ---- The invariant ----

  /** Whoever lets the player in is the only one, and is where any pending journey leads. */
  ghost predicate OnePlace(r: Road, gid: string) {
    && (forall m, n :: LetsIn(r, m, gid) && LetsIn(r, n, gid) ==> m == n)
    && (forall n, id :: LetsIn(r, n, gid) && OnTheRoad(r.desk, id, gid) ==> r.desk.travel[id].dest == n)
  }

  /** What a tick has pulled and not dealt with is still pending. */
  ghost predicate ArrivalsOk(d: Desk, n: NodeId, p: Place) {
    && (forall i :: 0 <= i < |p.arrivals| ==> Awaits(d, p.arrivals[i], n))
    && (forall i, j :: 0 <= i < j < |p.arrivals| ==> p.arrivals[i] != p.arrivals[j])
  }

  /** Only malformed journeys are blocked, each the latest of its player; and where a malformed journey has not ended, nobody lets
      the player in. */
  ghost predicate BlockOk(r: Road, id: string)
    requires id in r.desk.travel
  {
    var j := r.desk.travel[id];
    && (j.status.Blocked? ==> !j.snap.wellFormed && j.gid in r.desk.latest && r.desk.latest[j.gid] == id)
    && (!j.status.Arrived? && !j.snap.wellFormed ==> forall n :: !LetsIn(r, n, j.gid))
  }

  ghost predicate BlocksOk(r: Road) {
    forall id :: id in r.desk.travel ==> BlockOk(r, id)
  }

  ghost predicate RoadInv(r: Road) {
    && BlocksOk(r)
    && TravelInv(r.desk)
    && (forall n :: n in r.places ==> ArrivalsOk(r.desk, n, r.places[n]))
    && (forall gid :: OnePlace(r, gid))
  }

  lemma NoJourneys(d: Desk, gid: string)
    requires TravelInv(d) && gid !in d.locations
    ensures forall id :: id in d.travel ==> d.travel[id].gid != gid
  {
    forall id | id in d.travel ensures d.travel[id].gid != gid {
      assert JourneyOk(d, id);
    }
  }

  /** Fewer places that let in and fewer pending journeys. */
  lemma LessKeeps(r: Road, r': Road, gid: string)
    requires OnePlace(r, gid)
    requires forall n :: LetsIn(r', n, gid) ==> LetsIn(r, n, gid)
    requires forall id :: OnTheRoad(r'.desk, id, gid) ==> id in r.desk.travel && r.desk.travel[id] == r'.desk.travel[id]
    ensures OnePlace(r', gid)
  {
  }

  lemma BlockStays(r: Road, r': Road, id: string)
    requires id in r.desk.travel && BlockOk(r, id) && id in r'.desk.travel && r'.desk.travel[id] == r.desk.travel[id]
    requires var gid := r.desk.travel[id].gid;
             && (gid in r.desk.latest ==> gid in r'.desk.latest && r'.desk.latest[gid] == r.desk.latest[gid])
             && forall n :: LetsIn(r', n, gid) ==> LetsIn(r, n, gid)
    ensures BlockOk(r', id)
  {
  }

  lemma RegisterKeeps(r: Road, m: Move)
    requires RoadInv(r) && m.Register? && Possible(r, m)
    ensures RoadInv(Go(r, m))
  {
    hide TravelInv;
    var r' := Go(r, m);
    NoJourneys(r.desk, m.gid);
    forall id | id in r'.desk.travel ensures BlockOk(r', id) {
      assert BlockOk(r, id);
      BlockStays(r, r', id);
    }
    forall gid ensures OnePlace(r', gid) {
      assert OnePlace(r, gid);
      if gid == m.gid {
        NoJourneys(r.desk, gid);
        assert forall n :: LetsIn(r', n, gid) ==> n == m.n;
      } else {
        LessKeeps(r, r', gid);
      }
    }
    forall n | n in r'.places ensures ArrivalsOk(r'.desk, n, r'.places[n]) {
      assert ArrivalsOk(r.desk, n, r.places[n]);
    }
  }

  lemma StatusBack(r: Road, n: NodeId, gid: string)
    requires LetsIn(r, n, gid)
    ensures var marked := SetPlace(r, n, SetStatus(r.places[n], gid, false));
            SetPlace(marked, n, SetStatus(marked.places[n], gid, true)) == r
  {
    var marked := SetPlace(r, n, SetStatus(r.places[n], gid, false));
    assert SetStatus(marked.places[n], gid, true).rows == r.places[n].rows;
    assert SetStatus(marked.places[n], gid, true) == r.places[n];
  }

  lemma DepartKeeps(r: Road, m: Move)
    requires RoadInv(r) && m.Depart? && Possible(r, m)
    ensures RoadInv(Go(r, m))
  {
    hide TravelInv, Refused, OnePlace, ArrivalsOk, SubmitAt;
    var Depart(n, gid, id, dest, state, wellFormed, ending) := m;
    var r' := Go(r, m);
    StatusBack(r, n, gid);
    if ending.Stopped? || (ending.Answered? && Refused(r.desk, id, gid, n, dest).None?) {
      var row := r.places[n].rows[gid];
      var snap := Snapshot(row.home, row.active, wellFormed, state);
      if ending.Answered? {
        SubmitKeeps(r.desk, id, gid, row.home, n, dest, snap);
        assert r'.desk == SubmitAt(r.desk, id, gid, row.home, n, dest, snap);
        SubmitAdds(r.desk, id, gid, row.home, n, dest, snap);
        SubmitQueues(r.desk, id, gid, row.home, n, dest, snap);
      }
      assert forall k :: !LetsIn(r', k, gid) by { LeftBehind(r, n, gid, r'); }
      forall i | i in r'.desk.travel ensures BlockOk(r', i) {
        if i in r.desk.travel {
          assert BlockOk(r, i);
          PlayedSoUnblocked(r, n, gid, i);
          if r.desk.travel[i].gid != gid {
            BlockStays(r, r', i);
          }
        }
      }
      forall g ensures OnePlace(r', g) {
        assert OnePlace(r, g);
        if g == gid {
          NobodyLetsIn(r, n, gid, r');
        } else {
          LessKeeps(r, r', g);
        }
      }
      forall k | k in r'.places ensures ArrivalsOk(r'.desk, k, r'.places[k]) {
        assert ArrivalsOk(r.desk, k, r.places[k]);
        StillAwaited(r.desk, r'.desk, k, r.places[k], r'.places[k]);
      }
    }
  }

  lemma SubmitAdds(d: Desk, id: string, gid: string, home: NodeId, from: NodeId, dest: NodeId, snap: Snapshot)
    requires Refused(d, id, gid, from, dest).None?
    ensures var d' := SubmitAt(d, id, gid, home, from, dest, snap);
            && id !in d.travel && d'.travel.Keys == d.travel.Keys + {id} && d'.travel[id].gid == gid
            && forall i :: i in d.travel ==> d'.travel[i] == d.travel[i]
  {
  }

  lemma NobodyLetsIn(r: Road, n: NodeId, gid: string, r': Road)
    requires OnePlace(r, gid) && LetsIn(r, n, gid) && !LetsIn(r', n, gid)
    requires forall k :: k != n && LetsIn(r', k, gid) ==> LetsIn(r, k, gid)
    ensures OnePlace(r', gid)
  {
  }

  lemma PlayedSoUnblocked(r: Road, n: NodeId, gid: string, i: string)
    requires i in r.desk.travel && BlockOk(r, i) && LetsIn(r, n, gid)
    ensures r.desk.travel[i].gid == gid ==> !r.desk.travel[i].status.Blocked?
  {
  }

  lemma LeftBehind(r: Road, n: NodeId, gid: string, r': Road)
    requires OnePlace(r, gid) && LetsIn(r, n, gid) && !LetsIn(r', n, gid)
    requires forall k :: k != n && LetsIn(r', k, gid) ==> LetsIn(r, k, gid)
    ensures forall k :: !LetsIn(r', k, gid)
  {
  }

  lemma StillAwaited(d: Desk, d': Desk, n: NodeId, p: Place, p': Place)
    requires ArrivalsOk(d, n, p) && p'.arrivals == p.arrivals
    requires forall i :: i in d.travel ==> i in d'.travel && d'.travel[i] == d.travel[i]
    ensures ArrivalsOk(d', n, p')
  {
  }

  lemma FetchKeeps(r: Road, m: Move)
    requires RoadInv(r) && (m.Fetch? || m.Skip? || m.Restart?) && Possible(r, m)
    ensures RoadInv(Go(r, m))
  {
    hide TravelInv, OnePlace;
    var r' := Go(r, m);
    forall i | i in r'.desk.travel ensures BlockOk(r', i) {
      assert BlockOk(r, i);
      BlockStays(r, r', i);
    }
    forall g ensures OnePlace(r', g) {
      assert OnePlace(r, g);
      LessKeeps(r, r', g);
    }
    forall k | k in r'.places ensures ArrivalsOk(r'.desk, k, r'.places[k]) {
      assert ArrivalsOk(r.desk, k, r.places[k]);
      if m.Fetch? && k == m.n {
        forall i | 0 <= i < |m.ids| ensures Awaits(r.desk, m.ids[i], k) {
          assert m.ids[i] in m.ids;
        }
      }
    }
  }

  /** Next to a pending journey a player has no other that has not arrived. */
  lemma OnlyLatestOpen(r: Road, i: string, first: string)
    requires TravelInv(r.desk) && i in r.desk.travel && first in r.desk.travel && BlockOk(r, i)
    requires r.desk.travel[i].gid == r.desk.travel[first].gid && r.desk.travel[first].status.Pending?
    ensures i == first || r.desk.travel[i].status.Arrived?
  {
    FirstIsLatest(r.desk, first);
    if r.desk.travel[i].status.Pending? {
      OnePending(r.desk, i, first);
    }
  }

  lemma ImportKeeps(r: Road, m: Move)
    requires RoadInv(r) && m.Import? && Possible(r, m)
    ensures RoadInv(Go(r, m))
  {
    hide TravelInv;
    var n, r' := m.n, Go(r, m);
    var first := First(r, n);
    assert ArrivalsOk(r.desk, n, r.places[n]);
    var j := r.desk.travel[first];
    forall i | i in r'.desk.travel ensures BlockOk(r', i) {
      assert BlockOk(r, i);
      if r.desk.travel[i].gid == j.gid {
        OnlyLatestOpen(r, i, first);
      } else {
        BlockStays(r, r', i);
      }
    }
    forall g ensures OnePlace(r', g) {
      assert OnePlace(r, g);
      if g == j.gid {
        forall k | LetsIn(r', k, g) ensures k == n {
          assert k != n ==> LetsIn(r, k, g);
        }
        forall id | OnTheRoad(r.desk, id, g)
          ensures r.desk.travel[id].dest == n
        {
          OnePending(r.desk, id, first);
        }
      } else {
        LessKeeps(r, r', g);
      }
    }
    forall k | k in r'.places ensures ArrivalsOk(r'.desk, k, r'.places[k]) {
      assert ArrivalsOk(r.desk, k, r.places[k]);
    }
  }

  lemma SettledBlock(r: Road, r': Road, id: string)
    requires id in r.desk.travel && BlockOk(r, id) && r.desk.travel[id].status.Pending?
    requires r.desk.travel[id].gid in r.desk.latest && r.desk.latest[r.desk.travel[id].gid] == id && r'.desk.latest == r.desk.latest
    requires id in r'.desk.travel && r'.desk.travel[id] == r.desk.travel[id].(status := r'.desk.travel[id].status)
    requires r'.desk.travel[id].status.Blocked? ==> !r.desk.travel[id].snap.wellFormed
    requires forall n, g :: LetsIn(r', n, g) ==> LetsIn(r, n, g)
    ensures BlockOk(r', id)
  {
  }

  lemma SettleKeeps(r: Road, m: Move)
    requires RoadInv(r) && (m.Confirm? || m.Reject?) && Possible(r, m)
    ensures RoadInv(Go(r, m))
  {
    hide TravelInv, OnePlace;
    var n, r' := m.n, Go(r, m);
    var first := First(r, n);
    ArriveKeeps(r.desk, first, n);
    BlockKeeps(r.desk, first, n);
    assert ArrivalsOk(r.desk, n, r.places[n]);
    FirstIsLatest(r.desk, first);
    forall i | i in r'.desk.travel ensures BlockOk(r', i) {
      assert BlockOk(r, i);
      if i == first {
        SettledBlock(r, r', first);
      } else {
        BlockStays(r, r', i);
      }
    }
    forall g ensures OnePlace(r', g) {
      assert OnePlace(r, g);
      LessKeeps(r, r', g);
    }
    forall k | k in r'.places ensures ArrivalsOk(r'.desk, k, r'.places[k]) {
      assert ArrivalsOk(r.desk, k, r.places[k]);
    }
  }

  /** A retry is always timely here: since the block nobody has let the player in, so nothing has been submitted. */
  lemma RetryKeeps(r: Road, m: Move)
    requires RoadInv(r) && m.RetryBlocked? && Possible(r, m)
    ensures RoadInv(Go(r, m))
  {
    hide TravelInv, OnePlace;
    var id, r' := m.id, Go(r, m);
    assert BlockOk(r, id);
    if r.desk.travel[id].status.Blocked? {
      RetryExact(r.desk, id);
      forall n ensures !LetsIn(r', n, r.desk.travel[id].gid) {
        assert LetsIn(r', n, r.desk.travel[id].gid) <==> LetsIn(r, n, r.desk.travel[id].gid);
      }
      forall i | i in r'.desk.travel ensures BlockOk(r', i) {
        assert BlockOk(r, i);
        if i != id {
          BlockStays(r, r', i);
        }
      }
      forall g ensures OnePlace(r', g) {
        assert OnePlace(r, g);
        if g == r.desk.travel[id].gid {
          NowhereIsOnePlace(r', g);
        } else {
          LessKeeps(r, r', g);
        }
      }
      forall k | k in r'.places ensures ArrivalsOk(r'.desk, k, r'.places[k]) {
        assert ArrivalsOk(r.desk, k, r.places[k]);
      }
    }
  }

  lemma NowhereIsOnePlace(r: Road, gid: string)
    requires forall n :: !LetsIn(r, n, gid)
    ensures OnePlace(r, gid)
  {
  }

  lemma MoveKeeps(r: Road, m: Move)
    requires RoadInv(r) && Possible(r, m)
    ensures RoadInv(Go(r, m))
  {
    hide RoadInv, Possible, Go;
    if m.Register? {
      RegisterKeeps(r, m);
    } else if m.Depart? {
      DepartKeeps(r, m);
    } else if m.Import? {
      ImportKeeps(r, m);
    } else if m.Confirm? || m.Reject? {
      SettleKeeps(r, m);
    } else if m.RetryBlocked? {
      RetryKeeps(r, m);
    } else {
      FetchKeeps(r, m);
    }
  }

  // ---- Runs ----

  ghost predicate Moves(r: Road, ms: seq<Move>)
    decreases |ms|
  {
    ms == [] || (Possible(r, ms[0]) && Moves(Go(r, ms[0]), ms[1..]))
  }

  ghost function After(r: Road, ms: seq<Move>): Road
    requires Moves(r, ms)
    decreases |ms|
  {
    if ms == [] then r else After(Go(r, ms[0]), ms[1..])
  }

  /** Nodes without players and a hub without journeys. */
  ghost predicate Dawn(r: Road) {
    r.desk == NOTHING && r.stopped == {} && forall n :: n in r.places ==> r.places[n] == Place(map[], [], false)
  }

  lemma {:induction false} RunKeepsRoad(r: Road, ms: seq<Move>)
    requires RoadInv(r) && Moves(r, ms)
    ensures RoadInv(After(r, ms))
    decreases |ms|
  {
    hide RoadInv, Possible, Go;
    if ms != [] {
      MoveKeeps(r, ms[0]);
      RunKeepsRoad(Go(r, ms[0]), ms[1..]);
    }
  }

  /** In every run, at most one node lets a player in, and while a journey is pending only its destination does. */
  lemma PlayedInOnePlace(r: Road, ms: seq<Move>, gid: string)
    requires Dawn(r) && Moves(r, ms)
    ensures var w := After(r, ms);
            && (forall m, n :: LetsIn(w, m, gid) && LetsIn(w, n, gid) ==> m == n)
            && (forall n, id :: LetsIn(w, n, gid) && OnTheRoad(w.desk, id, gid) ==> w.desk.travel[id].dest == n)
  {
    hide TravelInv, Possible, Go;
    StartTravel();
    RunKeepsRoad(r, ms);
    assert OnePlace(After(r, ms), gid);
  }

  // ---- Nobody is lost ----

  /** A known player is let in somewhere, or on the road, or was blocked at the end of the latest journey, or was left marked by a
      node that stopped. */
  ghost predicate Accounted(r: Road, gid: string) {
    || (exists n :: LetsIn(r, n, gid))
    || (exists id :: OnTheRoad(r.desk, id, gid))
    || (gid in r.desk.latest && r.desk.latest[gid] in r.desk.travel && r.desk.travel[r.desk.latest[gid]].status.Blocked?)
    || gid in r.stopped
  }

  /** A written row lets the player in, unless its node has stopped in a departure since. */
  ghost predicate ImportedOk(r: Road, n: NodeId)
    requires n in r.places
  {
    r.places[n].imported ==>
      Processing(r, n) && var gid := r.desk.travel[First(r, n)].gid; LetsIn(r, n, gid) || gid in r.stopped
  }

  ghost predicate CareInv(r: Road) {
    && (forall id :: id in r.desk.travel ==> r.desk.travel[id].snap.active)
    && (forall n :: n in r.places ==> ImportedOk(r, n))
    && (forall gid :: Known(r, gid) ==> Accounted(r, gid))
  }

  lemma CareStays(r: Road, r': Road, gid: string)
    requires Known(r, gid) ==> Accounted(r, gid)
    requires Known(r', gid) ==> Known(r, gid)
    requires forall n :: LetsIn(r, n, gid) ==> LetsIn(r', n, gid)
    requires r'.desk == r.desk && r.stopped <= r'.stopped
    ensures Known(r', gid) ==> Accounted(r', gid)
  {
    if Known(r', gid) {
      if n :| LetsIn(r, n, gid) {
        assert LetsIn(r', n, gid);
      }
    }
  }

  lemma QuietMovesCare(r: Road, m: Move)
    requires CareInv(r) && Possible(r, m) && (m.Register? || m.Fetch? || m.Skip? || m.Restart? || m.Import?) && RoadInv(r)
    ensures CareInv(Go(r, m))
  {
    hide RoadInv, Accounted, TravelInv;
    var r' := Go(r, m);
    forall gid | Known(r', gid) ensures Accounted(r', gid) {
      if (m.Register? && gid == m.gid) || (m.Import? && gid == r.desk.travel[First(r, m.n)].gid) {
        assert LetsIn(r', m.n, gid);
        SomewhereIsAccounted(r', m.n, gid);
      } else {
        CareStays(r, r', gid);
      }
    }
    forall n | n in r'.places ensures ImportedOk(r', n) {
      assert ImportedOk(r, n);
    }
  }

  lemma SomewhereIsAccounted(r: Road, n: NodeId, gid: string)
    requires LetsIn(r, n, gid)
    ensures Accounted(r, gid)
  {
  }

  lemma DepartCares(r: Road, m: Move)
    requires RoadInv(r) && CareInv(r) && m.Depart? && Possible(r, m)
    ensures CareInv(Go(r, m))
  {
    hide TravelInv, OnePlace, SubmitAt, Refused, Accounted, ImportedOk, ArrivalsOk;
    var Depart(n, gid, id, dest, state, wellFormed, ending) := m;
    var r' := Go(r, m);
    StatusBack(r, n, gid);
    var accepted := ending.Answered? && Refused(r.desk, id, gid, n, dest).None?;
    if ending.Stopped? || accepted {
      var row := r.places[n].rows[gid];
      var snap := Snapshot(row.home, row.active, wellFormed, state);
      if accepted {
        SubmitAdds(r.desk, id, gid, row.home, n, dest, snap);
        SubmitQueues(r.desk, id, gid, row.home, n, dest, snap);
      }
      forall g | Known(r', g) ensures Accounted(r', g) {
        assert Known(r, g);
        if g == gid {
          if accepted {
            assert OnTheRoad(r'.desk, id, gid);
          }
          DepartedIsAccounted(r', gid, id);
        } else {
          OtherStays(r, r', g);
        }
      }
      forall k | k in r'.places ensures ImportedOk(r', k) {
        assert ImportedOk(r, k);
        if accepted {
          assert ArrivalsOk(r.desk, k, r.places[k]);
          ImportedIsOnTheRoad(r, k, gid);
        }
        ImportedStays(r, r', k, gid);
      }
    }
  }

  lemma SubmitQueues(d: Desk, id: string, gid: string, home: NodeId, from: NodeId, dest: NodeId, snap: Snapshot)
    requires Refused(d, id, gid, from, dest).None?
    ensures var d' := SubmitAt(d, id, gid, home, from, dest, snap);
            && OnTheRoad(d', id, gid) && d'.travel[id].snap == snap && d'.travel[id].dest == dest && d'.travel[id].from == from
            && !HasPending(d.travel, gid) && dest != from
            && forall g :: g != gid ==> (g in d'.latest <==> g in d.latest) && (g in d.latest ==> d'.latest[g] == d.latest[g])
  {
    hide HasPending, RefNode;
  }

  lemma DepartedIsAccounted(r: Road, gid: string, id: string)
    requires OnTheRoad(r.desk, id, gid) || gid in r.stopped
    ensures Accounted(r, gid)
  {
  }

  lemma OtherStays(r: Road, r': Road, g: string)
    requires Accounted(r, g) && r.stopped <= r'.stopped
    requires forall n :: LetsIn(r, n, g) ==> LetsIn(r', n, g)
    requires forall i :: i in r.desk.travel ==> i in r'.desk.travel && r'.desk.travel[i] == r.desk.travel[i]
    requires g in r.desk.latest ==> g in r'.desk.latest && r'.desk.latest[g] == r.desk.latest[g]
    ensures Accounted(r', g)
  {
    if n :| LetsIn(r, n, g) {
      assert LetsIn(r', n, g);
    } else if id :| OnTheRoad(r.desk, id, g) {
      assert OnTheRoad(r'.desk, id, g);
    }
  }

  lemma ImportedIsOnTheRoad(r: Road, k: NodeId, gid: string)
    requires k in r.places && ImportedOk(r, k) && ArrivalsOk(r.desk, k, r.places[k]) && !HasPending(r.desk.travel, gid)
    ensures r.places[k].imported ==> Processing(r, k) && r.desk.travel[First(r, k)].gid != gid
  {
  }

  lemma ImportedStays(r: Road, r': Road, k: NodeId, gid: string)
    requires k in r.places && k in r'.places && ImportedOk(r, k)
    requires r'.places[k].arrivals == r.places[k].arrivals && r'.places[k].imported == r.places[k].imported
    requires forall i :: i in r.desk.travel ==> i in r'.desk.travel && r'.desk.travel[i] == r.desk.travel[i]
    requires r.stopped <= r'.stopped && forall g :: g != gid ==> LetsIn(r, k, g) ==> LetsIn(r', k, g)
    requires gid in r'.stopped || (r.places[k].imported ==> Processing(r, k) && r.desk.travel[First(r, k)].gid != gid)
    ensures ImportedOk(r', k)
  {
  }

  lemma SettleCares(r: Road, m: Move)
    requires RoadInv(r) && CareInv(r) && (m.Confirm? || m.Reject?) && Possible(r, m)
    ensures CareInv(Go(r, m))
  {
    hide TravelInv, OnePlace;
    var n, r' := m.n, Go(r, m);
    var first := First(r, n);
    assert ArrivalsOk(r.desk, n, r.places[n]) && ImportedOk(r, n);
    hide RoadInv;
    var gid := r.desk.travel[first].gid;
    assert gid in r.desk.latest && r.desk.latest[gid] == first by { FirstIsLatest(r.desk, first); }
    forall g | Known(r', g) ensures Accounted(r', g) {
      assert Known(r, g);
      if g != gid {
        OtherSettles(r, r', g, first);
      } else if m.Confirm? {
        assert LetsIn(r, n, gid) ==> LetsIn(r', n, gid);
      } else if !m.reached {
        assert OnTheRoad(r'.desk, first, gid);
      }
    }
    forall k | k in r'.places ensures ImportedOk(r', k) {
      assert ImportedOk(r, k);
    }
  }

  lemma FirstIsLatest(d: Desk, id: string)
    requires TravelInv(d) && id in d.travel && d.travel[id].status.Pending?
    ensures d.travel[id].gid in d.latest && d.latest[d.travel[id].gid] == id
  {
    assert JourneyOk(d, id);
  }

  lemma OtherSettles(r: Road, r': Road, g: string, first: string)
    requires Accounted(r, g) && r.stopped == r'.stopped && r'.desk.latest == r.desk.latest
    requires first in r.desk.travel && r.desk.travel[first].gid != g && r.desk.travel[first].status.Pending?
    requires forall n :: LetsIn(r, n, g) ==> LetsIn(r', n, g)
    requires forall i :: i in r.desk.travel && i != first ==> i in r'.desk.travel && r'.desk.travel[i] == r.desk.travel[i]
    ensures Accounted(r', g)
  {
    if n :| LetsIn(r, n, g) {
      assert LetsIn(r', n, g);
    } else if id :| OnTheRoad(r.desk, id, g) {
      assert OnTheRoad(r'.desk, id, g);
    }
  }

  lemma RetryCares(r: Road, m: Move)
    requires RoadInv(r) && CareInv(r) && m.RetryBlocked? && Possible(r, m)
    ensures CareInv(Go(r, m))
  {
    hide TravelInv, OnePlace;
    var id, r' := m.id, Go(r, m);
    if r.desk.travel[id].status.Blocked? {
      forall g | Known(r', g) ensures Accounted(r', g) {
        assert Known(r, g);
        if g == r.desk.travel[id].gid {
          assert OnTheRoad(r'.desk, id, g);
        } else {
          LatestIsOwn(r.desk, g);
          OthersRetried(r, r', g, id);
        }
      }
      forall k | k in r'.places ensures ImportedOk(r', k) {
        assert ImportedOk(r, k);
      }
    }
  }

  lemma LatestIsOwn(d: Desk, g: string)
    requires TravelInv(d)
    ensures g in d.latest ==> d.latest[g] in d.travel && d.travel[d.latest[g]].gid == g
  {
    if g in d.latest {
      assert LocationOk(d, g);
    }
  }

  lemma OthersRetried(r: Road, r': Road, g: string, id: string)
    requires Accounted(r, g) && r.stopped == r'.stopped && r'.desk.latest == r.desk.latest && r'.places == r.places
    requires id in r.desk.travel && r.desk.travel[id].gid != g
    requires forall i :: i in r.desk.travel && i != id ==> i in r'.desk.travel && r'.desk.travel[i] == r.desk.travel[i]
    requires g in r.desk.latest ==> r.desk.latest[g] != id
    ensures Accounted(r', g)
  {
    if n :| LetsIn(r, n, g) {
      assert LetsIn(r', n, g);
    } else if i :| OnTheRoad(r.desk, i, g) {
      assert OnTheRoad(r'.desk, i, g);
    }
  }

  lemma {:induction false} RunKeepsCare(r: Road, ms: seq<Move>)
    requires RoadInv(r) && CareInv(r) && Moves(r, ms)
    ensures CareInv(After(r, ms))
    decreases |ms|
  {
    hide RoadInv, CareInv, Possible, Go;
    if ms != [] {
      var m := ms[0];
      MoveKeeps(r, m);
      if m.Depart? {
        DepartCares(r, m);
      } else if m.Confirm? || m.Reject? {
        SettleCares(r, m);
      } else if m.RetryBlocked? {
        RetryCares(r, m);
      } else {
        QuietMovesCare(r, m);
      }
      RunKeepsCare(Go(r, m), ms[1..]);
    }
  }

  /** In every run, a registered player who is let in nowhere is on a pending journey, or was blocked at the end of the
      latest one, or was left marked by a node that stopped in the middle of a departure. */
  lemma NobodyIsLost(r: Road, ms: seq<Move>, gid: string)
    requires Dawn(r) && Moves(r, ms) && Known(After(r, ms), gid)
    ensures Accounted(After(r, ms), gid)
  {
    hide TravelInv, Possible, Go, Accounted;
    StartTravel();
    RunKeepsCare(r, ms);
  }

  // ---- What the conditions are for ----

  /** The hub queues the journey, the reply is lost, and the node marks the row active again. */
  function LostReply(r: Road, n: NodeId, gid: string, id: string, dest: NodeId, state: string): Road
    requires n in r.places && gid in r.places[n].rows
  {
    var row := r.places[n].rows[gid];
    r.(desk := SubmitAt(r.desk, id, gid, row.home, n, dest, Snapshot(row.home, row.active, true, state)))
  }

  /** A lost reply always ends with two nodes that let the player in: origin and, once it imports, destination. */
  lemma LostReplyDoubles(r: Road, n: NodeId, gid: string, id: string, dest: NodeId, state: string)
    requires RoadInv(r) && LetsIn(r, n, gid) && Refused(r.desk, id, gid, n, dest).None?
    requires dest in r.places && r.places[dest].arrivals == []
    ensures var r1 := LostReply(r, n, gid, id, dest, state);
            forall ids :: IsPendingList(r1.desk, dest, [id] + ids) ==>
              && Moves(r1, [Fetch(dest, [id] + ids), Import(dest)])
              && var r2 := After(r1, [Fetch(dest, [id] + ids), Import(dest)]);
              n != dest && LetsIn(r2, n, gid) && LetsIn(r2, dest, gid)
  {
    hide TravelInv, Refused, SubmitAt, OnePlace, ArrivalsOk;
    var row := r.places[n].rows[gid];
    var r1 := LostReply(r, n, gid, id, dest, state);
    SubmitQueues(r.desk, id, gid, row.home, n, dest, Snapshot(row.home, row.active, true, state));
    forall ids | IsPendingList(r1.desk, dest, [id] + ids)
      ensures Moves(r1, [Fetch(dest, [id] + ids), Import(dest)])
      ensures var r2 := After(r1, [Fetch(dest, [id] + ids), Import(dest)]);
              n != dest && LetsIn(r2, n, gid) && LetsIn(r2, dest, gid)
    {
      var ms := [Fetch(dest, [id] + ids), Import(dest)];
      var fetched := Go(r1, ms[0]);
      assert First(fetched, dest) == id;
      assert Possible(fetched, Import(dest));
      assert ms[1..] == [Import(dest)] && ms[1..][1..] == [];
      assert Moves(fetched, ms[1..]);
      assert After(fetched, ms[1..]) == Go(fetched, Import(dest));
    }
  }

  /** A second departure, from a session still open on the row the first one marked, is refused, and its roll-back
      lets the player in at the origin while the journey is pending elsewhere. */
  lemma SecondSession(r: Road, m: Move, id: string, dest: NodeId, state: string, wellFormed: bool)
    requires RoadInv(r) && m.Depart? && Possible(r, m) && m.ending.Answered?
    requires Refused(r.desk, m.id, m.gid, m.n, m.dest).None?
    ensures var r1 := Go(r, m);
            && !LetsIn(r1, m.n, m.gid) && m.gid in r1.places[m.n].rows
            && var r2 := DepartFrom(r1, m.n, m.gid, id, dest, state, wellFormed, Answered);
            LetsIn(r2, m.n, m.gid) && OnTheRoad(r2.desk, m.id, m.gid) && r2.desk.travel[m.id].dest != m.n
  {
    hide TravelInv, SubmitAt, OnePlace, ArrivalsOk;
    var row := r.places[m.n].rows[m.gid];
    SubmitQueues(r.desk, m.id, m.gid, row.home, m.n, m.dest, Snapshot(row.home, row.active, m.wellFormed, m.state));
    var r1 := Go(r, m);
    assert OnTheRoad(r1.desk, m.id, m.gid);
    assert HasPending(r1.desk.travel, m.gid);
  }

  /** A departure is not one step against its own node's ticks: between marking the row and submitting, a tick can repeat
      the import that brought the player and confirm it; the submission is then accepted with the row active. */
  lemma ImportDuringDeparture(r: Road, n: NodeId, id: string, dest: NodeId, snap: Snapshot)
    requires RoadInv(r) && Processing(r, n)
    requires var j := r.desk.travel[First(r, n)]; j.snap.wellFormed && j.snap.active && j.gid != "" && n != ""
    requires dest != "" && dest != n && id !in r.desk.travel
    ensures var gid, first := r.desk.travel[First(r, n)].gid, First(r, n);
            var marked := SetPlace(r, n, SetStatus(r.places[n], gid, false));
            && Possible(marked, Import(n))
            && var written := Go(marked, Import(n));
            var confirmed := written.(desk := ArriveAt(written.desk, first, n));
            Refused(confirmed.desk, id, gid, n, dest).None?
            && var gone := confirmed.(desk := SubmitAt(confirmed.desk, id, gid, "", n, dest, snap));
            LetsIn(gone, n, gid) && OnTheRoad(gone.desk, id, gid) && gone.desk.travel[id].dest != n
  {
    hide TravelInv, OnePlace, RefNode;
    var first := First(r, n);
    assert ArrivalsOk(r.desk, n, r.places[n]);
    var gid, d := r.desk.travel[first].gid, ArriveAt(r.desk, first, n);
    forall i | i in d.travel && d.travel[i].gid == gid ensures !d.travel[i].status.Pending? {
      if i != first && r.desk.travel[i].status.Pending? {
        OnePending(r.desk, i, first);
      }
    }
  }

  /** Nor may a report of arrival take effect after the node has given up on it.  If one lands while the next tick still holds the journey
      on its list, the player can leave, and the tick writes the row from the old snapshot again. */
  lemma LateConfirmation(r: Road, n: NodeId, id: string, dest: NodeId, state: string, wellFormed: bool)
    requires RoadInv(r) && Processing(r, n) && n != "" && dest != "" && dest != n && id !in r.desk.travel
    requires var j := r.desk.travel[First(r, n)]; j.snap.wellFormed && j.snap.active && j.gid != "" && LetsIn(r, n, j.gid)
    ensures var gid, first := r.desk.travel[First(r, n)].gid, First(r, n);
            var late := r.(desk := ArriveAt(r.desk, first, n));
            && Possible(late, Depart(n, gid, id, dest, state, wellFormed, Answered))
            && var gone := Go(late, Depart(n, gid, id, dest, state, wellFormed, Answered));
            Possible(gone, Import(n))
            && var again := Go(gone, Import(n));
            LetsIn(again, n, gid) && OnTheRoad(again.desk, id, gid) && again.desk.travel[id].dest != n
  {
    hide TravelInv, OnePlace, RefNode, BlocksOk;
    var first := First(r, n);
    assert ArrivalsOk(r.desk, n, r.places[n]);
    var gid, d := r.desk.travel[first].gid, ArriveAt(r.desk, first, n);
    forall i | i in d.travel && d.travel[i].gid == gid ensures !d.travel[i].status.Pending? {
      if i != first && r.desk.travel[i].status.Pending? {
        OnePending(r.desk, i, first);
      }
    }
    assert Refused(d, id, gid, n, dest).None?;
  }
}

/**
 The hub's travel queue and player locations.

 The two tables are updated together, one transaction an operation.  `arrivals` and `latest` are history: the
 journeys of each player in the order they arrived, and the last one submitted.  No operation reads them.
 */
module Travel {
  import opened Wrappers
  import opened Ids

  datatype Status = Pending | Arrived | Blocked

  datatype Snapshot = Snapshot(home: NodeId, active: bool, wellFormed: bool, state: string)

  datatype Journey = Journey(gid: string, home: NodeId, from: NodeId, dest: NodeId, snap: Snapshot, status: Status)

  datatype Location = Location(current: NodeId, home: NodeId, traveling: bool, travelId: Option<string>)

  datatype Desk = Desk(
    travel: map<string, Journey>,
    locations: map<string, Location>,
    arrivals: map<string, seq<string>>,
    latest: map<string, string>)

  datatype Refusal = BadRequest | TravelActive | LocationMismatch | IdTaken | NotFound

  // ---- Reading ----

  predicate HasPending(travel: map<string, Journey>, gid: string) {
    exists id :: id in travel && travel[id].gid == gid && travel[id].status.Pending?
  }

  /** Where the hub takes a player to be; before any journey, where the player's id says. */
  function CurrentNode(locations: map<string, Location>, gid: string): NodeId {
    if gid in locations && locations[gid].current != "" then locations[gid].current else RefNode(gid)
  }

  function HomeOf(locations: map<string, Location>, gid: string): NodeId {
    if gid in locations && locations[gid].current != "" then locations[gid].home else RefNode(gid)
  }

  function Past(d: Desk, gid: string): seq<string> {
    if gid in d.arrivals then d.arrivals[gid] else []
  }

  // ---- The operations ----

  /** Why a submission is refused, if it is. */
  function Refused(d: Desk, id: string, gid: string, from: NodeId, dest: NodeId): Option<Refusal> {
    if gid == "" || dest == "" then Some(BadRequest)
    else if HasPending(d.travel, gid) then Some(TravelActive)
    else if CurrentNode(d.locations, gid) != from || dest == from then Some(LocationMismatch)
    else if id in d.travel then Some(IdTaken)
    else None
  }

  function SubmitAt(d: Desk, id: string, gid: string, home: NodeId, from: NodeId, dest: NodeId, snap: Snapshot): Desk {
    if Refused(d, id, gid, from, dest).Some? then d
    else
      var h := if home == "" then HomeOf(d.locations, gid) else home;
      d.(travel := d.travel[id := Journey(gid, h, from, dest, snap, Pending)],
         locations := d.locations[gid := Location(from, h, true, Some(id))],
         latest := d.latest[gid := id])
  }

  predicate Awaits(d: Desk, id: string, dest: NodeId) {
    id in d.travel && d.travel[id].dest == dest && d.travel[id].status.Pending?
  }

  function ArriveAt(d: Desk, id: string, dest: NodeId): Desk {
    if !Awaits(d, id, dest) then d
    else
      var j := d.travel[id];
      d.(travel := d.travel[id := j.(status := Arrived)],
         locations := d.locations[j.gid := Location(dest, j.home, false, None)],
         arrivals := d.arrivals[j.gid := Past(d, j.gid) + [id]])
  }

  function BlockAt(d: Desk, id: string, dest: NodeId): Desk {
    if !Awaits(d, id, dest) then d else d.(travel := d.travel[id := d.travel[id].(status := Blocked)])
  }

  /** The operator's retry looks at the row's own status and at nothing else. */
  function RetryAt(d: Desk, id: string): Desk {
    if id in d.travel && d.travel[id].status.Blocked? then d.(travel := d.travel[id := d.travel[id].(status := Pending)]) else d
  }

  /** What each refusal means; the first that applies is given. */
  lemma RefusalMeaning(d: Desk, id: string, gid: string, from: NodeId, dest: NodeId)
    ensures var at := if gid in d.locations && d.locations[gid].current != "" then d.locations[gid].current else RefNode(gid);
            var busy := exists j :: j in d.travel && d.travel[j].gid == gid && d.travel[j].status == Pending;
            var why := Refused(d, id, gid, from, dest);
            && (why == Some(BadRequest) <==> gid == "" || dest == "")
            && (why == Some(TravelActive) <==> gid != "" && dest != "" && busy)
            && (why == Some(LocationMismatch) <==> gid != "" && dest != "" && !busy && (at != from || dest == from))
            && (why == Some(IdTaken) <==> gid != "" && dest != "" && !busy && at == from && dest != from && id in d.travel)
            && (why == None <==> gid != "" && dest != "" && !busy && at == from && dest != from && id !in d.travel)
  {
    hide RefNode;
    assert HasPending(d.travel, gid) <==> exists j :: j in d.travel && d.travel[j].gid == gid && d.travel[j].status == Pending;
  }

  // ---- The invariant ----

  /** The journey that has the location row's attention. */
  ghost predicate LocationOk(d: Desk, gid: string)
    requires gid in d.locations
  {
    var loc := d.locations[gid];
    && gid in d.latest && d.latest[gid] in d.travel && d.travel[d.latest[gid]].gid == gid
    && var j := d.travel[d.latest[gid]];
    if j.status.Arrived? then loc.travelId == None && !loc.traveling && loc.current == j.dest
    else loc.travelId == Some(d.latest[gid]) && loc.traveling && loc.current == j.from
  }

  function EndOf(d: Desk, gid: string, path: seq<string>): NodeId {
    if path == [] then RefNode(gid)
    else if path[|path| - 1] in d.travel then d.travel[path[|path| - 1]].dest else ""
  }

  /** Each journey of the list starts where the one before it ended, the first at the player's home prefix. */
  ghost predicate Chain(d: Desk, gid: string, path: seq<string>) {
    path == [] ||
    var init, last := path[..|path| - 1], path[|path| - 1];
    && Chain(d, gid, init)
    && last in d.travel && d.travel[last].gid == gid && d.travel[last].status.Arrived?
    && d.travel[last].from == EndOf(d, gid, init)
  }

  ghost predicate PathOk(d: Desk, gid: string) {
    var path := Past(d, gid);
    && Chain(d, gid, path)
    && (forall k, l :: 0 <= k < l < |path| ==> path[k] != path[l])
    && CurrentNode(d.locations, gid) == EndOf(d, gid, path)
  }

  ghost predicate JourneyOk(d: Desk, id: string)
    requires id in d.travel
  {
    var j := d.travel[id];
    && j.dest != "" && j.dest != j.from
    && (j.from == "" ==> RefNode(j.gid) == "")
    && j.gid in d.locations && j.gid in d.latest
    && (j.status.Arrived? ==> id in Past(d, j.gid))
    && (j.status.Pending? ==> d.latest[j.gid] == id)
  }

  ghost predicate TravelInv(d: Desk) {
    && d.latest.Keys == d.locations.Keys
    && (forall gid :: gid in d.locations ==> LocationOk(d, gid))
    && (forall gid :: PathOk(d, gid))
    && (forall id :: id in d.travel ==> JourneyOk(d, id))
  }

  // ---- The operations keep it ----

  lemma OnePending(d: Desk, a: string, b: string)
    requires TravelInv(d) && a in d.travel && b in d.travel && d.travel[a].gid == d.travel[b].gid
    requires d.travel[a].status.Pending? && d.travel[b].status.Pending?
    ensures a == b
  {
    assert JourneyOk(d, a) && JourneyOk(d, b);
  }

  lemma SubmitKeeps(d: Desk, id: string, gid: string, home: NodeId, from: NodeId, dest: NodeId, snap: Snapshot)
    requires TravelInv(d)
    ensures TravelInv(SubmitAt(d, id, gid, home, from, dest, snap))
  {
    hide Chain, RefNode, PathOk, LocationOk, JourneyOk;
    var d' := SubmitAt(d, id, gid, home, from, dest, snap);
    if Refused(d, id, gid, from, dest).None? {
      forall g ensures PathOk(d', g) {
        assert PathOk(d, g);
        SubmitPath(d, id, gid, home, from, dest, snap, g);
      }
      forall g | g in d'.locations ensures LocationOk(d', g) {
        assert g != gid ==> LocationOk(d, g);
        SubmitLocation(d, d', id, gid, from, g);
      }
      forall i | i in d'.travel ensures JourneyOk(d', i) {
        SubmitJourney(d, id, gid, home, from, dest, snap, i);
      }
    }
  }

  lemma SubmitPath(d: Desk, id: string, gid: string, home: NodeId, from: NodeId, dest: NodeId, snap: Snapshot, g: string)
    requires TravelInv(d) && Refused(d, id, gid, from, dest).None?
    ensures PathOk(SubmitAt(d, id, gid, home, from, dest, snap), g)
  {
    hide Chain, RefNode, LocationOk, JourneyOk, HasPending;
    assert PathOk(d, g);
    SamePath(d, SubmitAt(d, id, gid, home, from, dest, snap), g, Past(d, g));
    EmptyEnd(d, g);
  }

  lemma SubmitLocation(d: Desk, d': Desk, id: string, gid: string, from: NodeId, g: string)
    requires id !in d.travel && id in d'.travel && gid in d'.locations && g in d'.locations && d'.latest == d.latest[gid := id]
    requires d'.travel == d.travel[id := d'.travel[id]] && d'.locations == d.locations[gid := d'.locations[gid]]
    requires d'.travel[id].gid == gid && d'.travel[id].from == from && d'.travel[id].status.Pending?
    requires d'.locations[gid].travelId == Some(id) && d'.locations[gid].traveling && d'.locations[gid].current == from
    requires g != gid ==> g in d.locations && LocationOk(d, g)
    ensures LocationOk(d', g)
  {
  }

  lemma SubmitJourney(d: Desk, id: string, gid: string, home: NodeId, from: NodeId, dest: NodeId, snap: Snapshot, i: string)
    requires TravelInv(d) && Refused(d, id, gid, from, dest).None?
    requires i == id || i in d.travel
    ensures JourneyOk(SubmitAt(d, id, gid, home, from, dest, snap), i)
  {
    hide Chain, RefNode, LocationOk, PathOk;
    if i != id {
      assert JourneyOk(d, i);
      assert d.travel[i].status.Pending? ==> HasPending(d.travel, d.travel[i].gid);
    }
  }

  /** Rows of a path stay as they are when no arrived row changes. */
  lemma {:induction false} SamePath(d: Desk, d': Desk, gid: string, path: seq<string>)
    requires Chain(d, gid, path)
    requires forall id :: id in d.travel && d.travel[id].status.Arrived? ==> id in d'.travel && d'.travel[id] == d.travel[id]
    ensures Chain(d', gid, path) && EndOf(d', gid, path) == EndOf(d, gid, path)
  {
    if path != [] {
      SamePath(d, d', gid, path[..|path| - 1]);
    }
  }

  lemma {:induction false} ChainMembers(d: Desk, gid: string, path: seq<string>, k: nat)
    requires Chain(d, gid, path) && k < |path|
    ensures path[k] in d.travel && d.travel[path[k]].gid == gid && d.travel[path[k]].status.Arrived?
    ensures d.travel[path[k]].from == EndOf(d, gid, path[..k])
  {
    if k < |path| - 1 {
      ChainMembers(d, gid, path[..|path| - 1], k);
      assert path[..|path| - 1][..k] == path[..k];
    }
  }

  /** The end of a path is empty only for a player whose id has no prefix and who never arrived anywhere. */
  lemma EmptyEnd(d: Desk, gid: string)
    requires TravelInv(d)
    ensures EndOf(d, gid, Past(d, gid)) == "" ==> RefNode(gid) == ""
  {
    var path := Past(d, gid);
    assert PathOk(d, gid);
    if path != [] {
      ChainMembers(d, gid, path, |path| - 1);
      assert JourneyOk(d, path[|path| - 1]);
    }
  }

  lemma ArriveKeeps(d: Desk, id: string, dest: NodeId)
    requires TravelInv(d)
    ensures TravelInv(ArriveAt(d, id, dest))
  {
    hide RefNode, Chain, PathOk, LocationOk, JourneyOk;
    if Awaits(d, id, dest) {
      var d' := ArriveAt(d, id, dest);
      assert JourneyOk(d, id);
      assert d.travel[id].gid in d.latest && d.latest[d.travel[id].gid] == id by { PendingIsLatest(d, id); }
      forall g ensures PathOk(d', g) {
        ArrivePath(d, id, dest, g);
      }
      forall g | g in d'.locations ensures LocationOk(d', g) {
        assert g != d.travel[id].gid ==> LocationOk(d, g);
        ArriveLocation(d, id, dest, g);
      }
      forall i | i in d'.travel ensures JourneyOk(d', i) {
        assert JourneyOk(d, i);
        ArriveJourney(d, id, dest, i);
      }
    }
  }

  lemma PendingIsLatest(d: Desk, id: string)
    requires id in d.travel && JourneyOk(d, id) && d.travel[id].status.Pending?
    ensures d.travel[id].gid in d.latest && d.latest[d.travel[id].gid] == id && d.travel[id].gid in d.locations
  {
  }

  lemma ArrivePath(d: Desk, id: string, dest: NodeId, g: string)
    requires TravelInv(d) && Awaits(d, id, dest)
    ensures PathOk(ArriveAt(d, id, dest), g)
  {
    hide TravelInv, PathOk, ArriveAt;
    PathHolds(d, g);
    if g == d.travel[id].gid {
      LeavesFromEnd(d, id);
      DestNamed(d, id);
      ArriveOwnPath(d, id, dest);
    } else {
      ArriveOtherPath(d, id, dest, g);
    }
  }

  lemma ArriveOtherPath(d: Desk, id: string, dest: NodeId, g: string)
    requires PathOk(d, g) && Awaits(d, id, dest) && g != d.travel[id].gid
    ensures PathOk(ArriveAt(d, id, dest), g)
  {
    hide RefNode, Chain;
    SamePath(d, ArriveAt(d, id, dest), g, Past(d, g));
  }

  lemma ArriveOwnPath(d: Desk, id: string, dest: NodeId)
    requires Awaits(d, id, dest) && PathOk(d, d.travel[id].gid) && dest != ""
    requires d.travel[id].from == EndOf(d, d.travel[id].gid, Past(d, d.travel[id].gid))
    ensures PathOk(ArriveAt(d, id, dest), d.travel[id].gid)
  {
    hide RefNode, Chain, EndOf, PathOk;
    var g, d' := d.travel[id].gid, ArriveAt(d, id, dest);
    var past := Past(d, g);
    PathParts(d, g);
    SamePath(d, d', g, past);
    Extends(d', g, past, id);
    forall k | 0 <= k < |past| ensures past[k] != id {
      ChainMembers(d, g, past, k);
    }
    DistinctMore(past, id);
    assert EndOf(d', g, past + [id]) == dest by { EndsThere(d', g, past, id); }
    PathFrom(d', g);
  }

  lemma PathParts(d: Desk, gid: string)
    requires PathOk(d, gid)
    ensures Chain(d, gid, Past(d, gid)) && NoRepeats(Past(d, gid))
  {
    hide Chain, EndOf, CurrentNode;
  }

  lemma PathFrom(d: Desk, gid: string)
    requires Chain(d, gid, Past(d, gid)) && NoRepeats(Past(d, gid)) && CurrentNode(d.locations, gid) == EndOf(d, gid, Past(d, gid))
    ensures PathOk(d, gid)
  {
    hide Chain, EndOf, CurrentNode;
  }

  ghost predicate NoRepeats(path: seq<string>) {
    forall k, l :: 0 <= k < l < |path| ==> path[k] != path[l]
  }

  lemma DistinctMore(path: seq<string>, id: string)
    requires NoRepeats(path) && forall k :: 0 <= k < |path| ==> path[k] != id
    ensures NoRepeats(path + [id])
  {
  }

  lemma EndsThere(d: Desk, gid: string, path: seq<string>, id: string)
    requires id in d.travel
    ensures EndOf(d, gid, path + [id]) == d.travel[id].dest
  {
    assert (path + [id])[|path + [id]| - 1] == id;
  }

  lemma PathHolds(d: Desk, g: string)
    requires TravelInv(d)
    ensures PathOk(d, g)
  {
    hide PathOk, LocationOk, JourneyOk;
  }

  lemma DestNamed(d: Desk, id: string)
    requires TravelInv(d) && id in d.travel
    ensures d.travel[id].dest != ""
  {
    hide PathOk, LocationOk, RefNode;
    assert JourneyOk(d, id);
  }

  /** A pending journey starts where the player's arrived journeys end. */
  lemma LeavesFromEnd(d: Desk, id: string)
    requires TravelInv(d) && id in d.travel && d.travel[id].status.Pending?
    ensures d.travel[id].from == EndOf(d, d.travel[id].gid, Past(d, d.travel[id].gid))
  {
    hide RefNode, Chain;
    var g := d.travel[id].gid;
    assert JourneyOk(d, id);
    assert LocationOk(d, g);
    assert PathOk(d, g);
    EmptyEnd(d, g);
  }

  lemma Extends(d: Desk, gid: string, path: seq<string>, id: string)
    requires Chain(d, gid, path) && id in d.travel && d.travel[id].gid == gid && d.travel[id].status.Arrived?
    requires d.travel[id].from == EndOf(d, gid, path)
    ensures Chain(d, gid, path + [id])
  {
    assert (path + [id])[..|path|] == path;
  }

  lemma ArriveLocation(d: Desk, id: string, dest: NodeId, g: string)
    requires Awaits(d, id, dest) && d.travel[id].gid in d.latest && d.latest[d.travel[id].gid] == id
    requires g == d.travel[id].gid || (g in d.locations && LocationOk(d, g))
    ensures LocationOk(ArriveAt(d, id, dest), g)
  {
  }

  lemma ArriveJourney(d: Desk, id: string, dest: NodeId, i: string)
    requires Awaits(d, id, dest) && i in d.travel && JourneyOk(d, i) && JourneyOk(d, id)
    ensures JourneyOk(ArriveAt(d, id, dest), i)
  {
    hide RefNode;
  }

  lemma BlockKeeps(d: Desk, id: string, dest: NodeId)
    requires TravelInv(d)
    ensures TravelInv(BlockAt(d, id, dest))
  {
    if Awaits(d, id, dest) {
      Requeue(d, id, Blocked);
    }
  }

  /** Changing the status of a journey that has not arrived, and that may only become pending as the player's latest. */
  lemma Requeue(d: Desk, id: string, status: Status)
    requires TravelInv(d) && id in d.travel && !d.travel[id].status.Arrived? && !status.Arrived?
    requires status.Pending? ==> d.travel[id].gid in d.latest && d.latest[d.travel[id].gid] == id
    ensures TravelInv(d.(travel := d.travel[id := d.travel[id].(status := status)]))
  {
    hide PathOk, LocationOk, JourneyOk;
    var d' := d.(travel := d.travel[id := d.travel[id].(status := status)]);
    forall g ensures PathOk(d', g) {
      RequeuePath(d, id, status, g);
    }
    forall g | g in d'.locations ensures LocationOk(d', g) {
      RequeueLocation(d, id, status, g);
    }
    forall i | i in d'.travel ensures JourneyOk(d', i) {
      RequeueJourney(d, id, status, i);
    }
  }

  lemma RequeuePath(d: Desk, id: string, status: Status, g: string)
    requires PathOk(d, g) && id in d.travel && !d.travel[id].status.Arrived?
    ensures PathOk(d.(travel := d.travel[id := d.travel[id].(status := status)]), g)
  {
    hide Chain, RefNode, CurrentNode;
    SamePath(d, d.(travel := d.travel[id := d.travel[id].(status := status)]), g, Past(d, g));
  }

  lemma RequeueLocation(d: Desk, id: string, status: Status, g: string)
    requires g in d.locations && LocationOk(d, g) && id in d.travel && !d.travel[id].status.Arrived? && !status.Arrived?
    ensures LocationOk(d.(travel := d.travel[id := d.travel[id].(status := status)]), g)
  {
  }

  lemma RequeueJourney(d: Desk, id: string, status: Status, i: string)
    requires i in d.travel && JourneyOk(d, i) && id in d.travel && !d.travel[id].status.Arrived? && !status.Arrived?
    requires status.Pending? ==> d.travel[id].gid in d.latest && d.latest[d.travel[id].gid] == id
    ensures JourneyOk(d.(travel := d.travel[id := d.travel[id].(status := status)]), i)
  {
    hide RefNode;
  }

  /** A retry of a blocked journey keeps the invariant exactly when the player has submitted nothing since, which is when
      the location row still names that journey. */
  lemma RetryExact(d: Desk, id: string)
    requires TravelInv(d) && id in d.travel && d.travel[id].status.Blocked?
    ensures var gid := d.travel[id].gid;
            && gid in d.locations && gid in d.latest
            && (TravelInv(RetryAt(d, id)) <==> d.locations[gid].travelId == Some(id))
            && (d.locations[gid].travelId == Some(id) <==> d.latest[gid] == id)
  {
    hide Chain, RefNode;
    var gid := d.travel[id].gid;
    assert JourneyOk(d, id);
    assert LocationOk(d, gid);
    if d.latest[gid] == id {
      Requeue(d, id, Pending);
    } else {
      var d' := RetryAt(d, id);
      assert TravelInv(d') ==> JourneyOk(d', id);
    }
  }

  // ---- Runs ----

  datatype Op =
    | Submit(id: string, gid: string, home: NodeId, from: NodeId, dest: NodeId, snap: Snapshot)
    | Arrive(id: string, dest: NodeId)
    | Block(id: string, dest: NodeId)
    | Retry(id: string)

  function Apply(d: Desk, op: Op): Desk {
    match op
    case Submit(id, gid, home, from, dest, snap) => SubmitAt(d, id, gid, home, from, dest, snap)
    case Arrive(id, dest) => ArriveAt(d, id, dest)
    case Block(id, dest) => BlockAt(d, id, dest)
    case Retry(id) => RetryAt(d, id)
  }

  const NOTHING: Desk := Desk(map[], map[], map[], map[])

  function ApplyAll(d: Desk, ops: seq<Op>): Desk
    decreases |ops|
  {
    if ops == [] then d else ApplyAll(Apply(d, ops[0]), ops[1..])
  }

  /** A retry brings back a blocked journey only while the location row still names it. */
  predicate Timely(d: Desk, op: Op) {
    op.Retry? && op.id in d.travel && d.travel[op.id].status.Blocked? ==>
      d.travel[op.id].gid in d.locations && d.locations[d.travel[op.id].gid].travelId == Some(op.id)
  }

  predicate TimelyRun(d: Desk, ops: seq<Op>)
    decreases |ops|
  {
    ops == [] || (Timely(d, ops[0]) && TimelyRun(Apply(d, ops[0]), ops[1..]))
  }

  lemma ApplyKeeps(d: Desk, op: Op)
    requires TravelInv(d) && Timely(d, op)
    ensures TravelInv(Apply(d, op))
  {
    hide TravelInv, SubmitAt, ArriveAt, BlockAt;
    match op
    case Submit(id, gid, home, from, dest, snap) => SubmitKeeps(d, id, gid, home, from, dest, snap);
    case Arrive(id, dest) => ArriveKeeps(d, id, dest);
    case Block(id, dest) => BlockKeeps(d, id, dest);
    case Retry(id) =>
      if id in d.travel && d.travel[id].status.Blocked? {
        RetryExact(d, id);
      }
  }

  lemma {:induction false} RunKeepsTravel(d: Desk, ops: seq<Op>)
    requires TravelInv(d) && TimelyRun(d, ops)
    ensures TravelInv(ApplyAll(d, ops))
    decreases |ops|
  {
    hide TravelInv, Apply, Timely;
    if ops != [] {
      ApplyKeeps(d, ops[0]);
      RunKeepsTravel(Apply(d, ops[0]), ops[1..]);
    }
  }

  /** After any run of submissions, arrivals, blocks and timely retries: a player has at most one pending journey, the
      location row has its origin and id, and the player's arrived journeys are exactly those of a chain that leads,
      end to end and without repeats, from the node in the player's id to the node the hub has the player at. */
  lemma Itinerary(ops: seq<Op>, gid: string)
    requires TimelyRun(NOTHING, ops)
    ensures var d := ApplyAll(NOTHING, ops);
            var path := Past(d, gid);
            && (forall a, b ::
                  (a in d.travel && b in d.travel && d.travel[a].gid == gid && d.travel[b].gid == gid
                   && d.travel[a].status.Pending? && d.travel[b].status.Pending?) ==> a == b)
            && (forall a :: a in d.travel && d.travel[a].gid == gid && d.travel[a].status.Pending? ==>
                  gid in d.locations && d.locations[gid].current == d.travel[a].from && d.locations[gid].travelId == Some(a))
            && (forall a :: a in path <==> a in d.travel && d.travel[a].gid == gid && d.travel[a].status.Arrived?)
            && (forall k, l :: 0 <= k < l < |path| ==> path[k] != path[l])
            && (forall k :: 0 <= k < |path| ==> d.travel[path[k]].from == EndOf(d, gid, path[..k]))
            && CurrentNode(d.locations, gid) == EndOf(d, gid, path)
  {
    hide Chain, RefNode, CurrentNode;
    assert TravelInv(NOTHING) by { StartTravel(); }
    RunKeepsTravel(NOTHING, ops);
    var d := ApplyAll(NOTHING, ops);
    var path := Past(d, gid);
    forall a, b | a in d.travel && b in d.travel && d.travel[a].gid == gid && d.travel[b].gid == gid
                  && d.travel[a].status.Pending? && d.travel[b].status.Pending?
      ensures a == b
    {
      OnePending(d, a, b);
    }
    forall a | a in d.travel && d.travel[a].gid == gid && d.travel[a].status.Pending?
      ensures gid in d.locations && d.locations[gid].current == d.travel[a].from && d.locations[gid].travelId == Some(a)
    {
      assert JourneyOk(d, a);
      assert LocationOk(d, gid);
    }
    assert PathOk(d, gid);
    forall k | 0 <= k < |path|
      ensures path[k] in d.travel && d.travel[path[k]].gid == gid && d.travel[path[k]].status.Arrived?
              && d.travel[path[k]].from == EndOf(d, gid, path[..k])
    {
      ChainMembers(d, gid, path, k);
    }
    forall a | a in d.travel && d.travel[a].gid == gid && d.travel[a].status.Arrived? ensures a in path {
      assert JourneyOk(d, a);
    }
  }

  lemma StartTravel()
    ensures TravelInv(NOTHING)
  {
  }

  lemma Then(d: Desk, op: Op, d': Desk, rest: seq<Op>)
    requires Apply(d, op) == d'
    ensures ApplyAll(d, [op] + rest) == ApplyAll(d', rest)
  {
    hide Apply;
    assert ([op] + rest)[1..] == rest;
  }

  const SNAP: Snapshot := Snapshot("a", true, true, "")

  function Leg(dest: NodeId, status: Status): Journey {
    Journey("a:p", "a", "a", dest, SNAP, status)
  }

  function Scene(travel: map<string, Journey>, loc: Location, past: seq<string>, last: string): Desk {
    Desk(travel, map["a:p" := loc], if past == [] then map[] else map["a:p" := past], map["a:p" := last])
  }

  /** An untimely retry breaks it: the first journey is blocked, the player sets out again and arrives, and then the first
      journey is retried and arrives as well; the second leg of the player's path does not start where the first ended. */
  lemma UntimelyRetry()
    ensures var ops := [Submit("t1", "a:p", "a", "a", "b", SNAP)] + ([Block("t1", "b")]
                       + ([Submit("t2", "a:p", "a", "a", "c", SNAP)] + ([Arrive("t2", "c")] + ([Retry("t1")] + ([Arrive("t1", "b")] + [])))));
            var d := ApplyAll(NOTHING, ops);
            && Past(d, "a:p") == ["t2", "t1"] && "t1" in d.travel && "t2" in d.travel && "a:p" in d.locations
            && d.travel["t2"].dest == "c" && d.travel["t1"].from == "a" && d.locations["a:p"].current == "b"
  {
    hide Apply;
    var d2 := Setback();
    var d4 := SecondTry(d2);
    var d6 := LateRetry(d4);
    var d5 := Apply(d4, Retry("t1"));
    Then(d5, Arrive("t1", "b"), d6, []);
    Then(d4, Retry("t1"), d5, [Arrive("t1", "b")] + []);
    var d3 := Apply(d2, Submit("t2", "a:p", "a", "a", "c", SNAP));
    var tail := [Retry("t1")] + ([Arrive("t1", "b")] + []);
    Then(d3, Arrive("t2", "c"), d4, tail);
    Then(d2, Submit("t2", "a:p", "a", "a", "c", SNAP), d3, [Arrive("t2", "c")] + tail);
    var d1 := Apply(NOTHING, Submit("t1", "a:p", "a", "a", "b", SNAP));
    Then(d1, Block("t1", "b"), d2, [Submit("t2", "a:p", "a", "a", "c", SNAP)] + ([Arrive("t2", "c")] + tail));
    Then(NOTHING, Submit("t1", "a:p", "a", "a", "b", SNAP), d1,
         [Block("t1", "b")] + ([Submit("t2", "a:p", "a", "a", "c", SNAP)] + ([Arrive("t2", "c")] + tail)));
  }

  lemma LateRetry(d4: Desk) returns (d6: Desk)
    requires d4 == Scene(map["t1" := Leg("b", Blocked), "t2" := Leg("c", Arrived)], Location("c", "a", false, None), ["t2"], "t2")
    ensures d6 == Apply(Apply(d4, Retry("t1")), Arrive("t1", "b"))
    ensures d6 == Scene(map["t1" := Leg("b", Arrived), "t2" := Leg("c", Arrived)], Location("b", "a", false, None), ["t2", "t1"], "t2")
  {
    var d5 := Scene(map["t1" := Leg("b", Pending), "t2" := Leg("c", Arrived)], d4.locations["a:p"], ["t2"], "t2");
    assert Apply(d4, Retry("t1")) == d5;
    d6 := LateArrival(d5);
  }

  lemma LateArrival(d5: Desk) returns (d6: Desk)
    requires d5 == Scene(map["t1" := Leg("b", Pending), "t2" := Leg("c", Arrived)], Location("c", "a", false, None), ["t2"], "t2")
    ensures d6 == Apply(d5, Arrive("t1", "b"))
    ensures d6 == Scene(map["t1" := Leg("b", Arrived), "t2" := Leg("c", Arrived)], Location("b", "a", false, None), ["t2", "t1"], "t2")
  {
    assert ["t2"] + ["t1"] == ["t2", "t1"];
    d6 := Apply(d5, Arrive("t1", "b"));
    assert d6.travel == map["t1" := Leg("b", Arrived), "t2" := Leg("c", Arrived)];
  }

  lemma HomeOfP()
    ensures RefNode("a:p") == "a"
  {
    assert "a:p" == "a" + ":" + "p";
    RefNodeOfPlayer("a", "p");
  }

  lemma Setback() returns (d2: Desk)
    ensures d2 == Scene(map["t1" := Leg("b", Blocked)], Location("a", "a", true, Some("t1")), [], "t1")
    ensures Apply(Apply(NOTHING, Submit("t1", "a:p", "a", "a", "b", SNAP)), Block("t1", "b")) == d2
  {
    hide RefNode;
    HomeOfP();
    d2 := Scene(map["t1" := Leg("b", Blocked)], Location("a", "a", true, Some("t1")), [], "t1");
    var d1 := Scene(map["t1" := Leg("b", Pending)], Location("a", "a", true, Some("t1")), [], "t1");
    assert Apply(NOTHING, Submit("t1", "a:p", "a", "a", "b", SNAP)) == d1;
  }

  lemma SecondTry(d2: Desk) returns (d4: Desk)
    requires d2 == Scene(map["t1" := Leg("b", Blocked)], Location("a", "a", true, Some("t1")), [], "t1")
    ensures d4 == Scene(map["t1" := Leg("b", Blocked), "t2" := Leg("c", Arrived)], Location("c", "a", false, None), ["t2"], "t2")
    ensures Apply(Apply(d2, Submit("t2", "a:p", "a", "a", "c", SNAP)), Arrive("t2", "c")) == d4
  {
    hide RefNode;
    var t := map["t1" := Leg("b", Blocked), "t2" := Leg("c", Pending)];
    var d3 := Scene(t, Location("a", "a", true, Some("t2")), [], "t2");
    assert Apply(d2, Submit("t2", "a:p", "a", "a", "c", SNAP)) == d3;
    d4 := SecondArrival(d3);
  }

  lemma SecondArrival(d3: Desk) returns (d4: Desk)
    requires d3 == Scene(map["t1" := Leg("b", Blocked), "t2" := Leg("c", Pending)], Location("a", "a", true, Some("t2")), [], "t2")
    ensures d4 == Scene(map["t1" := Leg("b", Blocked), "t2" := Leg("c", Arrived)], Location("c", "a", false, None), ["t2"], "t2")
    ensures d4 == Apply(d3, Arrive("t2", "c"))
  {
    assert [] + ["t2"] == ["t2"];
    d4 := Apply(d3, Arrive("t2", "c"));
    assert d4.travel == map["t1" := Leg("b", Blocked), "t2" := Leg("c", Arrived)];
  }

  // ---- The store ----

  class TravelStore {
    var travel: map<string, Journey>
    var locations: map<string, Location>
    ghost var arrivals: map<string, seq<string>>
    ghost var latest: map<string, string>

    constructor ()
      ensures View() == NOTHING
    {
      travel, locations, arrivals, latest := map[], map[], map[], map[];
    }

    ghost function View(): Desk
      reads this
    {
      Desk(travel, locations, arrivals, latest)
    }

    /** Queues a journey and moves the location row to `traveling`, or refuses and changes nothing. */
    method SubmitTravel(id: string, gid: string, home: NodeId, from: NodeId, dest: NodeId, snap: Snapshot)
      returns (r: Option<Refusal>)
      modifies this
      ensures r == old(Refused(View(), id, gid, from, dest))
      ensures View() == old(SubmitAt(View(), id, gid, home, from, dest, snap))
      ensures old(TravelInv(View())) ==> TravelInv(View())
      ensures r.Some? ==> View() == old(View())
      ensures r.None? ==>
                var was := old(locations);
                var h := if home != "" then home else if gid in was && was[gid].current != "" then was[gid].home else RefNode(gid);
                && travel == old(travel)[id := Journey(gid, h, from, dest, snap, Pending)]
                && locations == was[gid := Location(from, h, true, Some(id))]
    {
      SubmitKeepsIf(View(), id, gid, home, from, dest, snap);
      hide TravelInv;
      if gid == "" || dest == "" {
        return Some(BadRequest);
      }
      if HasPending(travel, gid) {
        return Some(TravelActive);
      }
      var currentNode, homeNode := "", "";
      if gid in locations {
        currentNode, homeNode := locations[gid].current, locations[gid].home;
      }
      if currentNode == "" {
        currentNode := RefNode(gid);
        homeNode := currentNode;
      }
      var h := if home == "" then homeNode else home;
      if currentNode != from || dest == from {
        return Some(LocationMismatch);
      }
      if id in travel {
        return Some(IdTaken);
      }
      travel := travel[id := Journey(gid, h, from, dest, snap, Pending)];
      locations := locations[gid := Location(from, h, true, Some(id))];
      latest := latest[gid := id];
      r := None;
    }

    method ArriveTravel(id: string, dest: NodeId) returns (r: Option<Refusal>)
      modifies this
      ensures r == if old(Awaits(View(), id, dest)) then None else Some(NotFound)
      ensures View() == old(ArriveAt(View(), id, dest))
      ensures old(TravelInv(View())) ==> TravelInv(View())
      ensures r.None? <==> id in old(travel) && old(travel)[id].dest == dest && old(travel)[id].status == Pending
      ensures r.Some? ==> View() == old(View())
      ensures r.None? ==>
                var j := old(travel)[id];
                && travel == old(travel)[id := Journey(j.gid, j.home, j.from, dest, j.snap, Arrived)]
                && locations == old(locations)[j.gid := Location(dest, j.home, false, None)]
    {
      ArriveKeepsIf(View(), id, dest);
      hide TravelInv;
      if id !in travel || travel[id].dest != dest || !travel[id].status.Pending? {
        return Some(NotFound);
      }
      var j := travel[id];
      travel := travel[id := j.(status := Arrived)];
      locations := locations[j.gid := Location(dest, j.home, false, None)];
      arrivals := arrivals[j.gid := (if j.gid in arrivals then arrivals[j.gid] else []) + [id]];
      r := None;
    }

    method BlockTravel(id: string, dest: NodeId) returns (r: Option<Refusal>)
      modifies this`travel
      ensures r == if old(Awaits(View(), id, dest)) then None else Some(NotFound)
      ensures View() == old(BlockAt(View(), id, dest))
      ensures r.None? <==> id in old(travel) && old(travel)[id].dest == dest && old(travel)[id].status == Pending
      ensures travel == if r.Some? then old(travel)
                        else var j := old(travel)[id]; old(travel)[id := Journey(j.gid, j.home, j.from, dest, j.snap, Blocked)]
    {
      if id !in travel || travel[id].dest != dest || !travel[id].status.Pending? {
        return Some(NotFound);
      }
      travel := travel[id := travel[id].(status := Blocked)];
      r := None;
    }

    method QueueRetry(id: string) returns (ok: bool)
      modifies this`travel
      ensures ok == old(id in travel && travel[id].status.Blocked?)
      ensures View() == old(RetryAt(View(), id))
      ensures travel == if !ok then old(travel)
                        else var j := old(travel)[id]; old(travel)[id := Journey(j.gid, j.home, j.from, j.dest, j.snap, Pending)]
    {
      if id !in travel || !travel[id].status.Blocked? {
        return false;
      }
      travel := travel[id := travel[id].(status := Pending)];
      ok := true;
    }
  }

  lemma SubmitKeepsIf(d: Desk, id: string, gid: string, home: NodeId, from: NodeId, dest: NodeId, snap: Snapshot)
    ensures TravelInv(d) ==> TravelInv(SubmitAt(d, id, gid, home, from, dest, snap))
  {
    hide TravelInv, SubmitAt;
    if TravelInv(d) {
      SubmitKeeps(d, id, gid, home, from, dest, snap);
    }
  }

  lemma ArriveKeepsIf(d: Desk, id: string, dest: NodeId)
    ensures TravelInv(d) ==> TravelInv(ArriveAt(d, id, dest))
  {
    hide TravelInv, ArriveAt;
    if TravelInv(d) {
      ArriveKeeps(d, id, dest);
    }
  }
}

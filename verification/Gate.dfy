/**
 What the hub lets in.

 A node speaks only for itself, events have the fields their type promises, and nothing ties together nodes of different games: not the
 parties of a debt, not attacker and victim, not the two ends of a journey.  A batch is taken whole or not at all.
 */
module Gate {
  import opened Wrappers
  import opened Ids
  import opened Travel
  import opened Loot

  // ---- What arrives ----

  datatype Json = Null | Truth(b: bool) | Number | Text(s: string) | Composite

  /** A request body's payload: missing, not an object (or `null`), or an object. */
  datatype Payload = Missing | NotAnObject | Object(fields: map<string, Json>)

  datatype WireEvent = WireEvent(id: string, source: NodeId, num: int, typ: string, ts: int, payload: Payload)

  datatype Member = Member(game: string, active: bool)

  type Members = map<NodeId, Member>

  /** A queued attack; `sender` is the node that queued it. */
  datatype Attack = Attack(sender: NodeId, attacker: string, victim: string, victimNode: NodeId)

  datatype HubState = HubState(members: Members, feed: seq<WireEvent>, attacks: map<string, Attack>, desk: Desk)

  datatype Reply = Fine | Forbidden | BadRequestReply | UnknownNode | Incompatible | Inactive | Unsaved

  // ---- Schemas ----

  /** Unmarshalling null into a string leaves it empty, which is refused. */
  predicate IsText(fields: map<string, Json>, name: string) {
    name in fields && fields[name].Text? && fields[name].s != ""
  }

  /** Unmarshalling null into a number succeeds. */
  predicate IsNumber(fields: map<string, Json>, name: string) {
    name in fields && (fields[name].Number? || fields[name].Null?)
  }

  function TextFields(typ: string): seq<string> {
    if typ == "player.created" then ["global_id", "name", "home_node"]
    else if typ == "player.died" then ["global_id"]
    else if typ == "player.traveled" then ["global_id", "src_node", "dest_node", "snapshot_hash"]
    else if typ == "debt.created" then ["obligation_id", "creditor_ref", "debtor_ref", "kind", "terms"]
    else if typ == "debt.adjusted" then ["obligation_id", "reason"]
    else if typ == "debt.resolved" then ["obligation_id", "resolution"]
    else if typ == "pvp.resolved" then ["request_id", "attacker_global_id", "victim_global_id", "winner_global_id", "result_text"]
    else []
  }

  function NumberFields(typ: string): seq<string> {
    if typ == "player.created" then ["created_at"]
    else if typ == "player.died" || typ == "player.traveled" then ["timestamp"]
    else if typ == "debt.created" then ["weight"]
    else if typ == "debt.adjusted" then ["old_weight", "new_weight", "delta"]
    else if typ == "debt.resolved" || typ == "pvp.resolved" then ["resolved_at"]
    else []
  }

  predicate AllText(fields: map<string, Json>, names: seq<string>) {
    forall i :: 0 <= i < |names| ==> IsText(fields, names[i])
  }

  predicate AllNumbers(fields: map<string, Json>, names: seq<string>) {
    forall i :: 0 <= i < |names| ==> IsNumber(fields, names[i])
  }

  predicate SchemaOk(e: WireEvent) {
    && e.id != "" && e.source != "" && e.typ != "" && e.num >= 1 && e.ts >= 1
    && e.payload.Object?
    && AllText(e.payload.fields, TextFields(e.typ))
    && (e.typ == "player.died" ==> "cause" in e.payload.fields)
    && AllNumbers(e.payload.fields, NumberFields(e.typ))
  }

  // ---- Games ----

  function TextOf(fields: map<string, Json>, name: string): string {
    if name in fields && fields[name].Text? then fields[name].s else ""
  }

  /** The players an event ties together. */
  function Refs(e: WireEvent): seq<string> {
    if !e.payload.Object? then []
    else if e.typ == "debt.created" then [TextOf(e.payload.fields, "creditor_ref"), TextOf(e.payload.fields, "debtor_ref")]
    else if e.typ == "pvp.resolved" then
      [TextOf(e.payload.fields, "attacker_global_id"), TextOf(e.payload.fields, "victim_global_id")]
    else []
  }

  /** The reference names nobody's node, the world's own characters, or a member of the game. */
  predicate RefOk(ms: Members, game: string, ref: string) {
    var n := RefNode(ref);
    n == "" || n == "npc" || (n in ms && ms[n].game == game)
  }

  function RefReply(ms: Members, game: string, ref: string): Reply {
    var n := RefNode(ref);
    if n == "" || n == "npc" then Fine else if n !in ms then UnknownNode else if ms[n].game != game then Incompatible else Fine
  }

  /** The first reference that is not in order decides. */
  function RefsReply(ms: Members, game: string, refs: seq<string>): Reply {
    if refs == [] then Fine
    else if RefReply(ms, game, refs[0]) != Fine then RefReply(ms, game, refs[0])
    else RefsReply(ms, game, refs[1..])
  }

  predicate RefsOk(ms: Members, game: string, refs: seq<string>) {
    forall i :: 0 <= i < |refs| ==> RefOk(ms, game, refs[i])
  }

  function GamesReply(ms: Members, game: string, es: seq<WireEvent>): Reply {
    if es == [] then Fine
    else if RefsReply(ms, game, Refs(es[0])) != Fine then RefsReply(ms, game, Refs(es[0]))
    else GamesReply(ms, game, es[1..])
  }

  /** An event node n of a game may push. */
  predicate Admissible(ms: Members, n: NodeId, e: WireEvent)
    requires n in ms
  {
    e.source == n && SchemaOk(e) && RefsOk(ms, ms[n].game, Refs(e))
  }

  lemma {:induction false} RefsReplyIs(ms: Members, game: string, refs: seq<string>)
    ensures RefsReply(ms, game, refs) == Fine <==> RefsOk(ms, game, refs)
  {
    if refs != [] {
      RefsReplyIs(ms, game, refs[1..]);
      assert RefsOk(ms, game, refs) <==> RefOk(ms, game, refs[0]) && RefsOk(ms, game, refs[1..]) by {
        assert forall i :: 1 <= i < |refs| ==> refs[i] == refs[1..][i - 1];
      }
    }
  }

  lemma {:induction false} GamesReplyIs(ms: Members, game: string, es: seq<WireEvent>)
    ensures GamesReply(ms, game, es) == Fine <==> forall i :: 0 <= i < |es| ==> RefsOk(ms, game, Refs(es[i]))
  {
    hide RefsOk, Refs, RefsReply;
    if es != [] {
      GamesReplyIs(ms, game, es[1..]);
      RefsReplyIs(ms, game, Refs(es[0]));
      assert forall i :: 1 <= i < |es| ==> es[i] == es[1..][i - 1];
    }
  }

  // ---- The operations ----

  predicate Has(feed: seq<WireEvent>, id: string) {
    exists i :: 0 <= i < |feed| && feed[i].id == id
  }

  function AppendWire(feed: seq<WireEvent>, es: seq<WireEvent>): seq<WireEvent> {
    if es == [] then feed
    else
      var f := AppendWire(feed, es[..|es| - 1]);
      if Has(f, es[|es| - 1].id) then f else f + [es[|es| - 1]]
  }

  /** What a push is answered: whose events they are, then their schemas, then their games. */
  function PushReply(ms: Members, n: NodeId, es: seq<WireEvent>): Reply
    requires n in ms
  {
    if exists i :: 0 <= i < |es| && es[i].source != n then Forbidden
    else if exists i :: 0 <= i < |es| && !SchemaOk(es[i]) then BadRequestReply
    else GamesReply(ms, ms[n].game, es)
  }

  function AttackReply(h: HubState, n: NodeId, id: string, attacker: string, victim: string, payloadOk: bool): Reply
    requires n in h.members
  {
    var v := RefNode(victim);
    if attacker == "" || victim == "" || !payloadOk then BadRequestReply
    else if !StartsWith(attacker, n + ":") then Forbidden
    else if v == "" then BadRequestReply
    else if v !in h.members then UnknownNode
    else if h.members[v].game != h.members[n].game then Incompatible
    else if !h.members[v].active then Inactive
    else if id in h.attacks then Unsaved
    else Fine
  }

  function JourneyReply(h: HubState, n: NodeId, id: string, gid: string, dest: NodeId, payloadOk: bool): Reply
    requires n in h.members
  {
    if gid == "" || dest == "" || !payloadOk then BadRequestReply
    else if dest !in h.members then UnknownNode
    else if h.members[dest].game != h.members[n].game then Incompatible
    else if !h.members[dest].active then Inactive
    else if Refused(h.desk, id, gid, n, dest).Some? then Unsaved
    else Fine
  }

  datatype Request =
    | Register(n: NodeId, game: string)
    | Push(n: NodeId, es: seq<WireEvent>)
    | QueueAttack(n: NodeId, id: string, attacker: string, victim: string, payloadOk: bool)
    | SubmitJourney(n: NodeId, id: string, gid: string, home: NodeId, dest: NodeId, snap: Snapshot, payloadOk: bool)
    | Arrive(n: NodeId, id: string)
    | Block(n: NodeId, id: string)

  /** A request is served only to an authenticated member. */
  function Serve(h: HubState, r: Request): HubState {
    match r
    case Register(n, game) => if n in h.members then h else h.(members := h.members[n := Member(game, true)])
    case Push(n, es) =>
      if n in h.members && PushReply(h.members, n, es) == Fine then h.(feed := AppendWire(h.feed, es)) else h
    case QueueAttack(n, id, attacker, victim, payloadOk) =>
      if n in h.members && AttackReply(h, n, id, attacker, victim, payloadOk) == Fine
      then h.(attacks := h.attacks[id := Attack(n, attacker, victim, RefNode(victim))]) else h
    case SubmitJourney(n, id, gid, home, dest, snap, payloadOk) =>
      if n in h.members && JourneyReply(h, n, id, gid, dest, payloadOk) == Fine
      then h.(desk := SubmitAt(h.desk, id, gid, home, n, dest, snap)) else h
    case Arrive(n, id) => if n in h.members then h.(desk := ArriveAt(h.desk, id, n)) else h
    case Block(n, id) => if n in h.members then h.(desk := BlockAt(h.desk, id, n)) else h
  }

  // ---- The invariant ----

  ghost predicate EventOk(ms: Members, e: WireEvent) {
    e.source in ms && Admissible(ms, e.source, e)
  }

  ghost predicate AttackOk(ms: Members, a: Attack) {
    && a.sender in ms && StartsWith(a.attacker, a.sender + ":")
    && a.victimNode == RefNode(a.victim) && a.victimNode in ms && ms[a.victimNode].game == ms[a.sender].game
  }

  ghost predicate JourneyJoins(ms: Members, j: Journey) {
    j.from in ms && j.dest in ms && ms[j.dest].game == ms[j.from].game
  }

  ghost predicate GateInv(h: HubState) {
    && (forall i :: 0 <= i < |h.feed| ==> EventOk(h.members, h.feed[i]))
    && (forall id :: id in h.attacks ==> AttackOk(h.members, h.attacks[id]))
    && (forall id :: id in h.desk.travel ==> JourneyJoins(h.members, h.desk.travel[id]))
  }

  /** A push is accepted exactly when every event of it is admissible. */
  lemma PushAcceptedIff(ms: Members, n: NodeId, es: seq<WireEvent>)
    requires n in ms
    ensures PushReply(ms, n, es) == Fine <==> forall i :: 0 <= i < |es| ==> Admissible(ms, n, es[i])
  {
    hide SchemaOk, RefsOk, Refs;
    GamesReplyIs(ms, ms[n].game, es);
  }

  lemma {:induction false} AppendWireFrom(feed: seq<WireEvent>, es: seq<WireEvent>, k: nat)
    requires k < |AppendWire(feed, es)|
    ensures AppendWire(feed, es)[k] in feed || AppendWire(feed, es)[k] in es
  {
    if es != [] {
      var f := AppendWire(feed, es[..|es| - 1]);
      if k < |f| {
        AppendWireFrom(feed, es[..|es| - 1], k);
      }
    }
  }

  lemma PushKeepsGate(h: HubState, n: NodeId, es: seq<WireEvent>)
    requires GateInv(h)
    ensures GateInv(Serve(h, Push(n, es)))
  {
    hide Admissible, PushReply, AppendWire, AttackOk, JourneyJoins;
    if n in h.members && PushReply(h.members, n, es) == Fine {
      PushAcceptedIff(h.members, n, es);
      var f := AppendWire(h.feed, es);
      forall k | 0 <= k < |f| ensures EventOk(h.members, f[k]) {
        AppendWireFrom(h.feed, es, k);
        if f[k] in es {
          assert Admissible(h.members, n, f[k]);
          AdmissibleSource(h.members, n, f[k]);
        }
      }
    }
  }

  lemma AdmissibleSource(ms: Members, n: NodeId, e: WireEvent)
    requires n in ms && Admissible(ms, n, e)
    ensures e.source == n
  {
  }

  lemma RegisterKeepsGate(h: HubState, n: NodeId, game: string)
    requires GateInv(h)
    ensures GateInv(Serve(h, Register(n, game)))
  {
    hide SchemaOk, Refs, RefNode, StartsWith;
    var h' := Serve(h, Register(n, game));
    forall i | 0 <= i < |h'.feed| ensures EventOk(h'.members, h'.feed[i]) {
      assert EventOk(h.members, h.feed[i]);
    }
    forall id | id in h'.attacks ensures AttackOk(h'.members, h'.attacks[id]) {
      assert AttackOk(h.members, h.attacks[id]);
    }
    forall id | id in h'.desk.travel ensures JourneyJoins(h'.members, h'.desk.travel[id]) {
      assert JourneyJoins(h.members, h.desk.travel[id]);
    }
  }

  lemma QueuesKeepGate(h: HubState, r: Request)
    requires GateInv(h) && !r.Register? && !r.Push?
    ensures GateInv(Serve(h, r))
  {
    hide EventOk, RefNode, StartsWith, Refused;
    var h' := Serve(h, r);
    assert h'.members == h.members && h'.feed == h.feed;
    forall id | id in h'.attacks ensures AttackOk(h'.members, h'.attacks[id]) {
      if id in h.attacks {
        assert AttackOk(h.members, h.attacks[id]);
      }
    }
    forall id | id in h'.desk.travel ensures JourneyJoins(h'.members, h'.desk.travel[id]) {
      if id in h.desk.travel {
        assert JourneyJoins(h.members, h.desk.travel[id]);
      }
    }
  }

  lemma QueueKeepsIf(h: HubState, r: Request)
    requires !r.Register? && !r.Push?
    ensures GateInv(h) ==> GateInv(Serve(h, r))
  {
    hide GateInv, Serve;
    if GateInv(h) {
      QueuesKeepGate(h, r);
    }
  }

  /** An attack is queued exactly when it is by the sender's own player, in good form and with a new id, on a player of a known, active node
      of the same game. */
  lemma AttackMeaning(h: HubState, n: NodeId, id: string, attacker: string, victim: string, payloadOk: bool)
    requires n in h.members
    ensures AttackReply(h, n, id, attacker, victim, payloadOk) == Fine <==>
              && StartsWith(attacker, n + ":") && payloadOk && id !in h.attacks
              && RefNode(victim) != "" && RefNode(victim) in h.members
              && h.members[RefNode(victim)].game == h.members[n].game && h.members[RefNode(victim)].active
  {
    assert victim == "" ==> RefNode(victim) == "";
  }

  /** A journey is queued exactly when it is in good form and with a new id, to another, known, active node of the same game, and the hub has
      the player at the sender with no journey pending; and then it is the player's pending journey. */
  lemma JourneyMeaning(h: HubState, n: NodeId, id: string, gid: string, home: NodeId, dest: NodeId, snap: Snapshot, payloadOk: bool)
    requires n in h.members
    ensures var d, d' := h.desk, Serve(h, SubmitJourney(n, id, gid, home, dest, snap, payloadOk)).desk;
            && (JourneyReply(h, n, id, gid, dest, payloadOk) == Fine <==>
                  && gid != "" && dest != "" && payloadOk && dest in h.members && h.members[dest].game == h.members[n].game && h.members[dest].active
                  && dest != n && id !in d.travel && CurrentNode(d.locations, gid) == n
                  && forall j :: j in d.travel && d.travel[j].gid == gid ==> !d.travel[j].status.Pending?)
            && (JourneyReply(h, n, id, gid, dest, payloadOk) == Fine ==>
                  && id in d'.travel && d'.travel[id].gid == gid && d'.travel[id].from == n && d'.travel[id].dest == dest
                  && d'.travel[id].status.Pending? && d'.travel[id].snap == snap
                  && (home != "" ==> d'.travel[id].home == home)
                  && gid in d'.locations && d'.locations[gid].travelId == Some(id)
                  && forall j :: j in d.travel ==> j in d'.travel && d'.travel[j] == d.travel[j])
  {
    hide CurrentNode, RefNode;
  }

  function ServeAll(h: HubState, rs: seq<Request>): HubState
    decreases |rs|
  {
    if rs == [] then h else ServeAll(Serve(h, rs[0]), rs[1..])
  }

  lemma {:induction false} RunKeepsGate(h: HubState, rs: seq<Request>)
    requires GateInv(h)
    ensures GateInv(ServeAll(h, rs))
    decreases |rs|
  {
    hide GateInv, Serve;
    if rs != [] {
      var r := rs[0];
      if r.Register? {
        RegisterKeepsGate(h, r.n, r.game);
      } else if r.Push? {
        PushKeepsGate(h, r.n, r.es);
      } else {
        QueuesKeepGate(h, r);
      }
      RunKeepsGate(Serve(h, r), rs[1..]);
    }
  }

  const EMPTY_HUB: HubState := HubState(map[], [], map[], NOTHING)

  /** After any requests whatever, nothing stored at the hub joins nodes of different games, and every stored event is of a
      member, in schema, and pushed by its source. */
  lemma OneGame(rs: seq<Request>)
    ensures var h := ServeAll(EMPTY_HUB, rs);
            && (forall i, k :: 0 <= i < |h.feed| && 0 <= k < |Refs(h.feed[i])| ==>
                  h.feed[i].source in h.members && RefOk(h.members, h.members[h.feed[i].source].game, Refs(h.feed[i])[k]))
            && (forall i :: 0 <= i < |h.feed| ==> SchemaOk(h.feed[i]))
            && (forall id :: id in h.attacks ==> AttackOk(h.members, h.attacks[id]))
            && (forall id :: id in h.desk.travel ==> JourneyJoins(h.members, h.desk.travel[id]))
  {
    hide SchemaOk, RefOk, Refs, Serve;
    RunKeepsGate(EMPTY_HUB, rs);
    var h := ServeAll(EMPTY_HUB, rs);
    forall i | 0 <= i < |h.feed|
      ensures h.feed[i].source in h.members && SchemaOk(h.feed[i])
      ensures forall k :: 0 <= k < |Refs(h.feed[i])| ==> RefOk(h.members, h.members[h.feed[i].source].game, Refs(h.feed[i])[k])
    {
      assert EventOk(h.members, h.feed[i]);
    }
  }

  /** One event that is not admissible keeps the whole batch out. */
  lemma BadBatchChangesNothing(h: HubState, n: NodeId, es: seq<WireEvent>, i: nat)
    requires i < |es| && (n in h.members ==> !Admissible(h.members, n, es[i]))
    ensures Serve(h, Push(n, es)) == h
  {
    hide Admissible, PushReply;
    if n in h.members {
      PushAcceptedIff(h.members, n, es);
    }
  }
}

/**
 The hub's request handlers as they are written: checks in loops that stop at the first fault, then the change.
 */
module HubServer {
  import opened Wrappers
  import opened Ids
  import opened Travel
  import opened Loot
  import opened Gate
  import opened GateLaws

  class Server {
    var members: Members
    var feed: seq<WireEvent>
    var attacks: map<string, Attack>
    const travel: TravelStore

    constructor ()
      ensures View() == EMPTY_HUB && fresh(travel)
    {
      members, feed, attacks := map[], [], map[];
      travel := new TravelStore();
    }

    ghost function View(): HubState
      reads this, travel
    {
      HubState(members, feed, attacks, travel.View())
    }

    method RegisterNode(n: NodeId, game: string) returns (ok: bool)
      modifies this`members
      ensures ok == (n !in old(members)) && View() == Serve(old(View()), Register(n, game))
      ensures members == if ok then old(members)[n := Member(game, true)] else old(members)
    {
      ok := n !in members;
      if ok {
        members := members[n := Member(game, true)];
      }
    }

    method RequireStrings(fields: map<string, Json>, names: seq<string>) returns (ok: bool)
      ensures ok == AllText(fields, names)
    {
      for i := 0 to |names|
        invariant forall k :: 0 <= k < i ==> IsText(fields, names[k])
      {
        if !IsText(fields, names[i]) {
          return false;
        }
      }
      ok := true;
    }

    method RequireNumbers(fields: map<string, Json>, names: seq<string>) returns (ok: bool)
      ensures ok == AllNumbers(fields, names)
    {
      for i := 0 to |names|
        invariant forall k :: 0 <= k < i ==> IsNumber(fields, names[k])
      {
        if !IsNumber(fields, names[i]) {
          return false;
        }
      }
      ok := true;
    }

    method ValidateEventSchemas(es: seq<WireEvent>) returns (ok: bool)
      ensures ok <==> forall i :: 0 <= i < |es| ==> SchemaOk(es[i])
    {
      hide TextFields, NumberFields, AllText, AllNumbers;
      for i := 0 to |es|
        invariant forall k :: 0 <= k < i ==> SchemaOk(es[k])
      {
        var e := es[i];
        if e.id == "" || e.source == "" || e.typ == "" || e.num < 1 || e.ts < 1 || !e.payload.Object? {
          return false;
        }
        var texts := RequireStrings(e.payload.fields, TextFields(e.typ));
        if !texts || (e.typ == "player.died" && "cause" !in e.payload.fields) {
          return false;
        }
        var numbers := RequireNumbers(e.payload.fields, NumberFields(e.typ));
        if !numbers {
          return false;
        }
      }
      ok := true;
    }

    method ValidateRefsSameGame(game: string, refs: seq<string>) returns (r: Reply)
      ensures r == RefsReply(members, game, refs)
    {
      hide RefReply;
      assert refs[0..] == refs;
      for i := 0 to |refs|
        invariant RefsReply(members, game, refs[i..]) == RefsReply(members, game, refs)
      {
        assert refs[i..][1..] == refs[i + 1..];
        r := RefReply(members, game, refs[i]);
        if r != Fine {
          return r;
        }
      }
      r := Fine;
    }

    method ValidateEventCompatibility(game: string, es: seq<WireEvent>) returns (r: Reply)
      ensures r == GamesReply(members, game, es)
    {
      hide Refs, RefsReply;
      assert es[0..] == es;
      for i := 0 to |es|
        invariant GamesReply(members, game, es[i..]) == GamesReply(members, game, es)
      {
        assert es[i..][1..] == es[i + 1..];
        r := ValidateRefsSameGame(game, Refs(es[i]));
        if r != Fine {
          return r;
        }
      }
      r := Fine;
    }

    /** Checks everything before it appends anything. */
    method HandleEventsPush(n: NodeId, es: seq<WireEvent>) returns (r: Reply, accepted: nat)
      requires n in members
      modifies this`feed
      ensures r == PushReply(members, n, es) && View() == Serve(old(View()), Push(n, es))
      ensures accepted == |feed| - |old(feed)|
      ensures r == Fine <==> forall i :: 0 <= i < |es| ==> Admissible(members, n, es[i])
      ensures r == Fine ==> forall i, name :: 0 <= i < |es| && NamesParty(es[i].typ, name) ==>
                && es[i].payload.Object? && name in es[i].payload.fields && es[i].payload.fields[name].Text?
                && var party := RefNode(es[i].payload.fields[name].s);
                party == "" || party == "npc" || (party in members && members[party].game == members[n].game)
      ensures r == Forbidden <==> exists i :: 0 <= i < |es| && es[i].source != n
      ensures r != Fine ==> feed == old(feed)
      ensures r == Fine ==> old(feed) <= feed && forall i :: 0 <= i < |es| ==> Has(feed, es[i].id)
    {
      hide Admissible, SchemaOk, GamesReply, Has, RefNode, NamesParty, AppendWire;
      PushAcceptedIff(members, n, es);
      PushAnswers(members, n, es);
      PartiesIf(members, n, es);
      accepted := 0;
      for i := 0 to |es|
        invariant forall k :: 0 <= k < i ==> es[k].source == n
      {
        if es[i].source != n {
          return Forbidden, 0;
        }
      }
      var schemas := ValidateEventSchemas(es);
      if !schemas {
        return BadRequestReply, 0;
      }
      r := ValidateEventCompatibility(members[n].game, es);
      if r != Fine {
        return r, 0;
      }
      accepted := AppendEvents(es);
      AppendTakesAll(old(feed), es);
    }

    method AppendEvents(es: seq<WireEvent>) returns (accepted: nat)
      modifies this`feed
      ensures feed == AppendWire(old(feed), es) && accepted == |feed| - |old(feed)|
    {
      hide Has;
      accepted := 0;
      for i := 0 to |es|
        invariant feed == AppendWire(old(feed), es[..i]) && accepted == |feed| - |old(feed)|
      {
        assert es[..i + 1][..i] == es[..i];
        if !Has(feed, es[i].id) {
          feed := feed + [es[i]];
          accepted := accepted + 1;
        }
      }
      assert es[..|es|] == es;
    }

    /** Queues an attack exactly when it is by the sender's own player, in good form, on a player of a known, active node of the same game; anything
        else leaves the queue as it was. */
    method HandlePvPQueue(n: NodeId, id: string, attacker: string, victim: string, payloadOk: bool) returns (r: Reply)
      requires n in members
      modifies this`attacks
      ensures r == Fine <==>
                && StartsWith(attacker, n + ":") && payloadOk && id !in old(attacks)
                && RefNode(victim) != "" && RefNode(victim) in members
                && members[RefNode(victim)].game == members[n].game && members[RefNode(victim)].active
      ensures attacks == if r == Fine then old(attacks)[id := Attack(n, attacker, victim, RefNode(victim))] else old(attacks)
      ensures r == AttackReply(old(View()), n, id, attacker, victim, payloadOk)
      ensures View() == Serve(old(View()), QueueAttack(n, id, attacker, victim, payloadOk))
      ensures old(GateInv(View())) ==> GateInv(View())
    {
      AttackMeaning(View(), n, id, attacker, victim, payloadOk);
      QueueKeepsIf(View(), QueueAttack(n, id, attacker, victim, payloadOk));
      hide RefNode, StartsWith, GateInv;
      if attacker == "" || victim == "" || !payloadOk {
        return BadRequestReply;
      }
      if !StartsWith(attacker, n + ":") {
        return Forbidden;
      }
      var v := RefNode(victim);
      if v == "" {
        return BadRequestReply;
      }
      if v !in members {
        return UnknownNode;
      }
      if members[v].game != members[n].game {
        return Incompatible;
      }
      if !members[v].active {
        return Inactive;
      }
      if id in attacks {
        return Unsaved;
      }
      attacks := attacks[id := Attack(n, attacker, victim, v)];
      r := Fine;
    }

    /** Queues a journey exactly when it is in good form, to a known, active node of the same game, and the travel tables have the player at
        the sender, not on the road; anything else leaves the tables as they were. */
    method HandleTravelSubmit(n: NodeId, id: string, gid: string, home: NodeId, dest: NodeId, snap: Snapshot, payloadOk: bool)
      returns (r: Reply)
      requires n in members
      modifies travel
      ensures r == Fine <==>
                && gid != "" && dest != "" && payloadOk && dest in members && members[dest].game == members[n].game && members[dest].active
                && dest != n && id !in old(travel.travel)
                && CurrentNode(old(travel.locations), gid) == n
                && forall j :: j in old(travel.travel) && old(travel.travel)[j].gid == gid ==> !old(travel.travel)[j].status.Pending?
      ensures r != Fine ==> View() == old(View())
      ensures r == Fine ==>
                && id in travel.travel && travel.travel[id].gid == gid && travel.travel[id].from == n && travel.travel[id].dest == dest
                && travel.travel[id].status.Pending? && travel.travel[id].snap == snap
                && (home != "" ==> travel.travel[id].home == home)
                && gid in travel.locations && travel.locations[gid].travelId == Some(id)
                && forall j :: j in old(travel.travel) ==> j in travel.travel && travel.travel[j] == old(travel.travel)[j]
      ensures r == JourneyReply(old(View()), n, id, gid, dest, payloadOk)
      ensures View() == Serve(old(View()), SubmitJourney(n, id, gid, home, dest, snap, payloadOk))
      ensures old(GateInv(View())) ==> GateInv(View())
    {
      JourneyMeaning(View(), n, id, gid, home, dest, snap, payloadOk);
      QueueKeepsIf(View(), SubmitJourney(n, id, gid, home, dest, snap, payloadOk));
      hide Refused, TravelInv, GateInv, CurrentNode;
      if gid == "" || dest == "" || !payloadOk {
        return BadRequestReply;
      }
      if dest !in members {
        return UnknownNode;
      }
      if members[dest].game != members[n].game {
        return Incompatible;
      }
      if !members[dest].active {
        return Inactive;
      }
      var refusal := travel.SubmitTravel(id, gid, home, n, dest, snap);
      r := if refusal.Some? then Unsaved else Fine;
    }
  }
}

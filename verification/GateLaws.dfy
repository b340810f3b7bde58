/**
 What the gate's checks say field by field, and what is true of everything the hub has let in.
 */
module GateLaws {
  import opened Ids
  import opened Travel
  import opened Loot
  import opened Gate

  /** The schema by name: which fields an event of each type has to bring, and in what form. */
  lemma SchemaMeaning(e: WireEvent, texts: set<string>, numbers: set<string>)
    requires
      match e.typ
      case "player.created" => texts == {"global_id", "name", "home_node"} && numbers == {"created_at"}
      case "player.died" => texts == {"global_id"} && numbers == {"timestamp"}
      case "player.traveled" => texts == {"global_id", "src_node", "dest_node", "snapshot_hash"} && numbers == {"timestamp"}
      case "debt.created" => texts == {"obligation_id", "creditor_ref", "debtor_ref", "kind", "terms"} && numbers == {"weight"}
      case "debt.adjusted" => texts == {"obligation_id", "reason"} && numbers == {"old_weight", "new_weight", "delta"}
      case "debt.resolved" => texts == {"obligation_id", "resolution"} && numbers == {"resolved_at"}
      case "pvp.resolved" =>
        texts == {"request_id", "attacker_global_id", "victim_global_id", "winner_global_id", "result_text"} && numbers == {"resolved_at"}
      case _ => texts == {} && numbers == {}
    ensures SchemaOk(e) <==>
              && e.id != "" && e.source != "" && e.typ != "" && e.num >= 1 && e.ts >= 1 && e.payload.Object?
              && var f := e.payload.fields;
              && (forall name :: name in texts ==> name in f && f[name].Text? && f[name].s != "")
              && (forall name :: name in numbers ==> name in f && (f[name].Number? || f[name].Null?))
              && (e.typ == "player.died" ==> "cause" in f)
  {
    hide IsText, IsNumber;
    assert forall name :: name in TextFields(e.typ) <==> name in texts;
    assert forall name :: name in NumberFields(e.typ) <==> name in numbers;
    if e.payload.Object? {
      TextsByName(e.payload.fields, TextFields(e.typ), texts);
      NumbersByName(e.payload.fields, NumberFields(e.typ), numbers);
    }
  }

  lemma TextsByName(f: map<string, Json>, names: seq<string>, texts: set<string>)
    requires forall name :: name in names <==> name in texts
    ensures AllText(f, names) <==> forall name :: name in texts ==> name in f && f[name].Text? && f[name].s != ""
  {
    if AllText(f, names) {
      forall name | name in texts ensures IsText(f, name) {
        var i :| 0 <= i < |names| && names[i] == name;
      }
    }
  }

  lemma NumbersByName(f: map<string, Json>, names: seq<string>, numbers: set<string>)
    requires forall name :: name in names <==> name in numbers
    ensures AllNumbers(f, names) <==> forall name :: name in numbers ==> name in f && (f[name].Number? || f[name].Null?)
  {
    if AllNumbers(f, names) {
      forall name | name in numbers ensures IsNumber(f, name) {
        var i :| 0 <= i < |names| && names[i] == name;
      }
    }
  }

  /** The fields that name a party of an event. */
  predicate NamesParty(typ: string, name: string) {
    || (typ == "debt.created" && (name == "creditor_ref" || name == "debtor_ref"))
    || (typ == "pvp.resolved" && (name == "attacker_global_id" || name == "victim_global_id"))
  }

  /** A party of an admissible event is given as a text, and it is nobody's, or the world's own, or of a member in the source's game. */
  lemma PartyOfAdmissible(ms: Members, n: NodeId, e: WireEvent, name: string)
    requires n in ms && Admissible(ms, n, e)
    requires || (e.typ == "debt.created" && (name == "creditor_ref" || name == "debtor_ref"))
             || (e.typ == "pvp.resolved" && (name == "attacker_global_id" || name == "victim_global_id"))
    ensures e.source == n && e.payload.Object? && name in e.payload.fields && e.payload.fields[name].Text? && e.payload.fields[name].s != ""
    ensures var party := RefNode(e.payload.fields[name].s);
            party == "" || party == "npc" || (party in ms && ms[party].game == ms[n].game)
  {
    hide RefNode;
    var f := e.payload.fields;
    var k := if name == "creditor_ref" || name == "attacker_global_id" then 0 else 1;
    assert Refs(e)[k] == TextOf(f, name);
    assert RefOk(ms, ms[n].game, Refs(e)[k]);
    assert TextFields(e.typ)[k + 1] == name;
    assert IsText(f, TextFields(e.typ)[k + 1]);
  }

  /** The same for a batch of which every event is admissible. */
  lemma PartiesOfBatch(ms: Members, n: NodeId, es: seq<WireEvent>)
    requires n in ms && forall i :: 0 <= i < |es| ==> Admissible(ms, n, es[i])
    ensures forall i, name :: 0 <= i < |es| && NamesParty(es[i].typ, name) ==>
              && es[i].payload.Object? && name in es[i].payload.fields && es[i].payload.fields[name].Text?
              && var party := RefNode(es[i].payload.fields[name].s);
              party == "" || party == "npc" || (party in ms && ms[party].game == ms[n].game)
  {
    hide RefNode, Admissible;
    forall i, name | 0 <= i < |es| && NamesParty(es[i].typ, name)
      ensures && es[i].payload.Object? && name in es[i].payload.fields && es[i].payload.fields[name].Text?
              && var party := RefNode(es[i].payload.fields[name].s);
              party == "" || party == "npc" || (party in ms && ms[party].game == ms[n].game)
    {
      PartyOfAdmissible(ms, n, es[i], name);
    }
  }

  lemma PartiesIf(ms: Members, n: NodeId, es: seq<WireEvent>)
    requires n in ms
    ensures PushReply(ms, n, es) == Fine ==> forall i, name :: 0 <= i < |es| && NamesParty(es[i].typ, name) ==>
              && es[i].payload.Object? && name in es[i].payload.fields && es[i].payload.fields[name].Text?
              && var party := RefNode(es[i].payload.fields[name].s);
              party == "" || party == "npc" || (party in ms && ms[party].game == ms[n].game)
  {
    hide RefNode, Admissible, PushReply, NamesParty;
    PushAcceptedIff(ms, n, es);
    if PushReply(ms, n, es) == Fine {
      PartiesOfBatch(ms, n, es);
    }
  }

  /** In every reachable hub, each party of a stored debt or fight is given, and its node is none, the world's own, or a member that plays
      the game of the event's source. */
  lemma StoredParties(rs: seq<Request>, i: nat, name: string)
    requires i < |ServeAll(EMPTY_HUB, rs).feed|
    requires var e := ServeAll(EMPTY_HUB, rs).feed[i];
             || (e.typ == "debt.created" && (name == "creditor_ref" || name == "debtor_ref"))
             || (e.typ == "pvp.resolved" && (name == "attacker_global_id" || name == "victim_global_id"))
    ensures var h := ServeAll(EMPTY_HUB, rs);
            var e := h.feed[i];
            && e.source in h.members
            && e.payload.Object? && name in e.payload.fields && e.payload.fields[name].Text? && e.payload.fields[name].s != ""
            && var party := RefNode(e.payload.fields[name].s);
            party == "" || party == "npc" || (party in h.members && h.members[party].game == h.members[e.source].game)
  {
    hide Admissible, RefNode, Serve, ServeAll;
    RunKeepsGate(EMPTY_HUB, rs);
    var h := ServeAll(EMPTY_HUB, rs);
    assert EventOk(h.members, h.feed[i]);
    PartyOfAdmissible(h.members, h.feed[i].source, h.feed[i], name);
  }

  /** An event of a member is admissible exactly when it is by that member, in schema, and each of the parties it names is nobody's, the world's
      own, or of a member of the same game. */
  lemma AdmissibleMeaning(ms: Members, n: NodeId, e: WireEvent)
    requires n in ms
    ensures Admissible(ms, n, e) <==>
              && e.source == n && SchemaOk(e)
              && forall name :: NamesParty(e.typ, name) ==>
                   && name in e.payload.fields && e.payload.fields[name].Text?
                   && var party := RefNode(e.payload.fields[name].s);
                   party == "" || party == "npc" || (party in ms && ms[party].game == ms[n].game)
  {
    hide RefNode, SchemaOk;
    if Admissible(ms, n, e) {
      forall name | NamesParty(e.typ, name)
        ensures && e.payload.Object? && name in e.payload.fields && e.payload.fields[name].Text?
                && var party := RefNode(e.payload.fields[name].s);
                party == "" || party == "npc" || (party in ms && ms[party].game == ms[n].game)
      {
        PartyOfAdmissible(ms, n, e, name);
      }
    }
    assert NamesParty("debt.created", "creditor_ref") && NamesParty("debt.created", "debtor_ref");
    assert NamesParty("pvp.resolved", "attacker_global_id") && NamesParty("pvp.resolved", "victim_global_id");
  }

  /** The first bad reference decides the answer of a batch that is the sender's own and in schema: an unknown node or another game. */
  lemma {:induction false} FirstBadReference(ms: Members, game: string, es: seq<WireEvent>, i: nat, k: nat)
    requires i < |es| && k < |Refs(es[i])| && !RefOk(ms, game, Refs(es[i])[k])
    requires forall l :: 0 <= l < k ==> RefOk(ms, game, Refs(es[i])[l])
    requires forall j :: 0 <= j < i ==> RefsOk(ms, game, Refs(es[j]))
    ensures GamesReply(ms, game, es) == if RefNode(Refs(es[i])[k]) in ms then Incompatible else UnknownNode
  {
    hide RefNode, Refs, RefsReply, RefOk;
    if i > 0 {
      RefsReplyIs(ms, game, Refs(es[0]));
      FirstBadReference(ms, game, es[1..], i - 1, k);
    } else {
      FirstBadOf(ms, game, Refs(es[0]), k);
    }
  }

  lemma {:induction false} FirstBadOf(ms: Members, game: string, refs: seq<string>, k: nat)
    requires k < |refs| && !RefOk(ms, game, refs[k]) && forall l :: 0 <= l < k ==> RefOk(ms, game, refs[l])
    ensures RefsReply(ms, game, refs) == if RefNode(refs[k]) in ms then Incompatible else UnknownNode
  {
    hide RefNode;
    if k > 0 {
      assert RefOk(ms, game, refs[0]);
      FirstBadOf(ms, game, refs[1..], k - 1);
    }
  }

  /** What each answer to a push means. */
  lemma PushAnswers(ms: Members, n: NodeId, es: seq<WireEvent>)
    requires n in ms
    ensures var r := PushReply(ms, n, es);
            var foreign, malformed := exists i :: 0 <= i < |es| && es[i].source != n, exists i :: 0 <= i < |es| && !SchemaOk(es[i]);
            && (r == Forbidden <==> foreign)
            && (r == BadRequestReply <==> !foreign && malformed)
            && (r == UnknownNode || r == Incompatible <==> !foreign && !malformed && exists i :: 0 <= i < |es| && !Admissible(ms, n, es[i]))
            && (r == Fine <==> forall i :: 0 <= i < |es| ==> Admissible(ms, n, es[i]))
  {
    hide SchemaOk, GamesReply, RefsOk;
    PushAcceptedIff(ms, n, es);
    BadReplyKinds(ms, ms[n].game, es);
    assert forall i :: 0 <= i < |es| ==> (Admissible(ms, n, es[i]) <==> es[i].source == n && SchemaOk(es[i]) && RefsOk(ms, ms[n].game, Refs(es[i])));
  }

  lemma {:induction false} BadReplyKinds(ms: Members, game: string, es: seq<WireEvent>)
    ensures var r := GamesReply(ms, game, es); r == Fine || r == UnknownNode || r == Incompatible
  {
    hide Refs, RefsReply;
    if es != [] {
      RefReplyKinds(ms, game, Refs(es[0]));
      BadReplyKinds(ms, game, es[1..]);
    }
  }

  lemma {:induction false} RefReplyKinds(ms: Members, game: string, refs: seq<string>)
    ensures var r := RefsReply(ms, game, refs); r == Fine || r == UnknownNode || r == Incompatible
  {
    hide RefNode;
    if refs != [] {
      RefReplyKinds(ms, game, refs[1..]);
    }
  }

  /** What each answer to an attack means; the first that applies is given. */
  lemma AttackAnswers(h: HubState, n: NodeId, id: string, attacker: string, victim: string, payloadOk: bool)
    requires n in h.members
    ensures var r, v := AttackReply(h, n, id, attacker, victim, payloadOk), RefNode(victim);
            var formed := attacker != "" && victim != "" && payloadOk;
            var own := exists rest :: attacker == n + ":" + rest;
            && (r == Forbidden <==> formed && !own)
            && (r == BadRequestReply <==> !formed || (own && v == ""))
            && (r == UnknownNode <==> formed && own && v != "" && v !in h.members)
            && (r == Incompatible <==> formed && own && v != "" && v in h.members && h.members[v].game != h.members[n].game)
            && (r == Inactive <==> formed && own && v != "" && v in h.members && h.members[v].game == h.members[n].game && !h.members[v].active)
  {
    hide RefNode;
    if StartsWith(attacker, n + ":") {
      assert attacker == n + ":" + attacker[|n| + 1..];
    }
  }

  /** What each answer to a journey means; the first that applies is given. */
  lemma JourneyAnswers(h: HubState, n: NodeId, id: string, gid: string, dest: NodeId, payloadOk: bool)
    requires n in h.members
    ensures var r := JourneyReply(h, n, id, gid, dest, payloadOk);
            var formed := gid != "" && dest != "" && payloadOk;
            && (r == BadRequestReply <==> !formed)
            && (r == UnknownNode <==> formed && dest !in h.members)
            && (r == Incompatible <==> formed && dest in h.members && h.members[dest].game != h.members[n].game)
            && (r == Inactive <==> formed && dest in h.members && h.members[dest].game == h.members[n].game && !h.members[dest].active)
            && r != Forbidden
  {
    hide Refused;
  }

  /** An accepted batch: the feed keeps what it had, and every event's id is there afterwards. */
  lemma {:induction false} AppendTakesAll(feed: seq<WireEvent>, es: seq<WireEvent>)
    ensures feed <= AppendWire(feed, es)
    ensures forall i :: 0 <= i < |es| ==> Has(AppendWire(feed, es), es[i].id)
  {
    hide Has;
    if es != [] {
      var init, last := es[..|es| - 1], es[|es| - 1];
      AppendTakesAll(feed, init);
      var f := AppendWire(feed, init);
      HasMore(f, last);
      forall i | 0 <= i < |es| ensures Has(AppendWire(feed, es), es[i].id) {
        if i < |es| - 1 {
          assert Has(f, init[i].id);
        }
      }
    }
  }

  lemma HasMore(f: seq<WireEvent>, e: WireEvent)
    ensures forall id :: Has(f + [e], id) <==> Has(f, id) || e.id == id
  {
    assert (f + [e])[|f|] == e;
    forall id | Has(f, id) ensures Has(f + [e], id) {
      var i :| 0 <= i < |f| && f[i].id == id;
      assert (f + [e])[i].id == id;
    }
  }

  /** Each new entry is an event of the batch whose id was not there, once. */
  lemma {:induction false} AppendAddsOnce(feed: seq<WireEvent>, es: seq<WireEvent>, k: nat)
    requires |feed| <= k < |AppendWire(feed, es)|
    ensures var f := AppendWire(feed, es); f[k] in es && !Has(f[..k], f[k].id)
  {
    hide Has;
    if es != [] {
      var init, last := es[..|es| - 1], es[|es| - 1];
      var f := AppendWire(feed, init);
      if k < |f| {
        AppendAddsOnce(feed, init, k);
        assert AppendWire(feed, es)[..k] == f[..k];
      } else {
        assert AppendWire(feed, es)[..k] == f;
      }
    }
  }

  /** The game a node registered with stays its game, whatever is asked later. */
  lemma {:induction false} GameStays(h: HubState, rs: seq<Request>, n: NodeId)
    requires n in h.members
    ensures n in ServeAll(h, rs).members && ServeAll(h, rs).members[n] == h.members[n]
    decreases |rs|
  {
    if rs != [] {
      MemberStays(h, rs[0], n);
      GameStays(Serve(h, rs[0]), rs[1..], n);
    }
  }

  lemma MemberStays(h: HubState, r: Request, n: NodeId)
    requires n in h.members
    ensures n in Serve(h, r).members && Serve(h, r).members[n] == h.members[n]
  {
    hide SchemaOk, Refs, RefNode, PushReply, AttackReply, JourneyReply, AppendWire;
  }

  /** A member's game is that of the node's first registration, and there is no other way to become a member. */
  lemma {:induction false} RegisteredGame(h: HubState, rs: seq<Request>, n: NodeId)
    requires n !in h.members
    ensures n in ServeAll(h, rs).members <==> exists i :: 0 <= i < |rs| && rs[i].Register? && rs[i].n == n
    ensures forall i :: 0 <= i < |rs| && rs[i].Register? && rs[i].n == n && (forall j :: 0 <= j < i && rs[j].Register? ==> rs[j].n != n) ==>
              n in ServeAll(h, rs).members && ServeAll(h, rs).members[n] == Member(rs[i].game, true)
    decreases |rs|
  {
    hide Serve;
    if rs != [] {
      RegisterAdds(h, rs[0], n);
      var h' := Serve(h, rs[0]);
      if rs[0].Register? && rs[0].n == n {
        GameStays(h', rs[1..], n);
      } else {
        RegisteredGame(h', rs[1..], n);
        assert forall i :: 1 <= i < |rs| ==> rs[i] == rs[1..][i - 1];
      }
    }
  }

  lemma RegisterAdds(h: HubState, r: Request, n: NodeId)
    requires n !in h.members
    ensures var h' := Serve(h, r);
            if r.Register? && r.n == n then n in h'.members && h'.members[n] == Member(r.game, true) else n !in h'.members
  {
    hide SchemaOk, Refs, RefNode, PushReply, AttackReply, JourneyReply, AppendWire;
  }
}

/**
 The two views of the hub's event table.

 The protocol reads events as what happened; the hub's request checks read them as typed fields.  Appending is the same operation in both
 views, and what a node emits about debts passes the hub's schema.
 */
module Wire {
  import opened Ids
  import opened Events
  import opened Protocol
  import opened Gate

  function Fields(e: Event): map<string, Json> {
    match e.body
    case DebtCreated(oid, origin, terms, _) =>
      map["obligation_id" := Text(oid), "source_node" := Text(origin), "creditor_ref" := Text(terms.creditor),
          "debtor_ref" := Text(terms.debtor), "kind" := Text(terms.kind), "terms" := Text(terms.text), "weight" := Number]
    case DebtAdjusted(oid, _, _) =>
      map["obligation_id" := Text(oid), "old_weight" := Number, "new_weight" := Number, "delta" := Number,
          "reason" := Text("partial_payment")]
    case DebtResolved(oid) =>
      map["obligation_id" := Text(oid), "resolution" := Text("paid"), "resolved_at" := Number]
    case Other(_, text) => map["text" := Text(text)]
  }

  /** An event as it is sent. */
  function Sent(e: Event): WireEvent {
    WireEvent(e.Id(), e.source, e.num, e.body.Type(), e.ts, Object(Fields(e)))
  }

  function AllSent(es: seq<Event>): (r: seq<WireEvent>)
    ensures |r| == |es| && forall i :: 0 <= i < |es| ==> r[i] == Sent(es[i])
  {
    seq(|es|, i requires 0 <= i < |es| => Sent(es[i]))
  }

  lemma HasIsStored(es: seq<Event>, id: string)
    ensures Has(AllSent(es), id) <==> Stored(es, id)
  {
    hide EventId, Fields;
    if Stored(es, id) {
      var i :| 0 <= i < |es| && es[i].Id() == id;
      assert AllSent(es)[i].id == id;
    }
    if Has(AllSent(es), id) {
      var i :| 0 <= i < |AllSent(es)| && AllSent(es)[i].id == id;
      assert es[i].Id() == id;
    }
  }

  /** Appending a batch in one view is appending it in the other. */
  lemma {:induction false} SameAppend(feed: seq<Entry>, es: seq<Event>, gaps: seq<nat>)
    requires |gaps| == |es|
    ensures AppendWire(AllSent(Evs(feed)), AllSent(es)) == AllSent(Evs(AppendAll(feed, es, gaps)))
  {
    hide Has, Stored, Sent;
    if es != [] {
      var k := |es| - 1;
      SameAppend(feed, es[..k], gaps[..k]);
      var f := AppendAll(feed, es[..k], gaps[..k]);
      assert AllSent(es)[..k] == AllSent(es[..k]);
      HasIsStored(Evs(f), es[k].Id());
      SentId(es[k]);
      assert Evs(f + [Entry(Head(f) + 1 + gaps[k], es[k])]) == Evs(f) + [es[k]];
      assert AllSent(Evs(f) + [es[k]]) == AllSent(Evs(f)) + [Sent(es[k])];
    }
  }

  lemma SentId(e: Event)
    ensures Sent(e).id == e.Id()
  {
  }

  /** A debt event with its texts filled in passes the hub's schema. */
  lemma DebtsInSchema(e: Event)
    requires e.body.Debt() && e.source != "" && e.num >= 1 && e.ts >= 1 && e.body.oid != ""
    requires e.body.DebtCreated? ==>
               e.body.terms.creditor != "" && e.body.terms.debtor != "" && e.body.terms.kind != "" && e.body.terms.text != ""
    ensures SchemaOk(Sent(e))
  {
    assert e.Id() != "" by {
      assert ':' in e.Id();
    }
    var f := Fields(e);
    match e.body {
      case DebtCreated(_, _, _, _) =>
        assert TextFields("debt.created") == ["obligation_id", "creditor_ref", "debtor_ref", "kind", "terms"];
        assert NumberFields("debt.created") == ["weight"];
      case DebtAdjusted(_, _, _) =>
        assert TextFields("debt.adjusted") == ["obligation_id", "reason"];
        assert NumberFields("debt.adjusted") == ["old_weight", "new_weight", "delta"];
      case DebtResolved(_) =>
        assert TextFields("debt.resolved") == ["obligation_id", "resolution"];
        assert NumberFields("debt.resolved") == ["resolved_at"];
      case Other(_, _) =>
    }
  }

  /** What the hub reads back from a sent debt.created are the parties of the debt. */
  lemma SentParties(e: Event)
    requires e.body.DebtCreated?
    ensures Refs(Sent(e)) == [e.body.terms.creditor, e.body.terms.debtor]
  {
    hide EventId;
  }

  /** A node's well-formed debt is let in exactly when creditor and debtor are each nobody's, the world's own, or of a member of its game. */
  lemma DebtAdmittedIff(ms: Members, e: Event)
    requires e.source in ms && e.body.DebtCreated? && e.source != "" && e.num >= 1 && e.ts >= 1 && e.body.oid != ""
    requires e.body.terms.creditor != "" && e.body.terms.debtor != "" && e.body.terms.kind != "" && e.body.terms.text != ""
    ensures PushReply(ms, e.source, [Sent(e)]) == Fine <==>
              forall ref :: ref == e.body.terms.creditor || ref == e.body.terms.debtor ==>
                RefNode(ref) == "" || RefNode(ref) == "npc" || (RefNode(ref) in ms && ms[RefNode(ref)].game == ms[e.source].game)
  {
    hide RefNode, SchemaOk, Refs, PushReply;
    var s := Sent(e);
    DebtsInSchema(e);
    SentParties(e);
    PushAcceptedIff(ms, e.source, [s]);
    assert Refs(s)[0] == e.body.terms.creditor && Refs(s)[1] == e.body.terms.debtor;
    assert Admissible(ms, e.source, s) <==> RefsOk(ms, ms[e.source].game, Refs(s));
    assert (forall i :: 0 <= i < |[s]| ==> Admissible(ms, e.source, [s][i])) <==> Admissible(ms, e.source, s) by {
      assert [s][0] == s;
    }
  }
}

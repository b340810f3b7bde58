/**
 Agreement on weights.

 `debt.adjusted` carries the new weight, so the last one applied wins.  When one node did all the paying
 on an obligation, every replica applies that node's payments in the order they were made, and every
 replica's row is a function of what the replica has seen.  It follows that all replicas agree once
 everything is delivered.
 */
module Weights {
  import opened Wrappers
  import opened Ids
  import opened Events
  import opened Ledger
  import opened Protocol
  import opened Replication
  import opened Causality
  import opened Status
  import Delivery

  /** A payment reads the weight and takes from it in one step. */
  ghost predicate Careful(w: World, s: Step)
    requires Can(w, s)
  {
    s.Adjust? ==> w.nodes[s.n].table[s.oid].row.open && w.nodes[s.n].table[s.oid].row.weight == s.seen
  }

  ghost predicate CarefulRun(w: World, steps: seq<Step>)
    requires Runs(w, steps)
    decreases |steps|
  {
    steps == [] || (Careful(w, steps[0]) && CarefulRun(Do(w, steps[0]), steps[1..]))
  }

  /** A payment takes something off. */
  predicate TakesOff(s: Step) {
    s.Adjust? ==> s.amount > 0
  }

  ghost predicate PayingRun(steps: seq<Step>) {
    forall i :: 0 <= i < |steps| ==> TakesOff(steps[i])
  }

  predicate Changes(e: Event, oid: string) {
    e.body.Follows() && e.body.oid == oid
  }

  /** Only p has adjusted or resolved the obligation so far. */
  ghost predicate SinglePayer(w: World, oid: string, p: NodeId) {
    forall n, i :: n in w.nodes && 0 <= i < |Own(n, w.nodes[n])| && Changes(Own(n, w.nodes[n])[i], oid) ==> n == p
  }

  // ---- The invariant ----

  /** What a replica has seen, in an order that suits the obligation: the payer's own payments last. */
  function Seen(n: NodeId, nd: Node, p: NodeId): seq<Event> {
    if n == p then Done(n, nd) + Own(n, nd) else Own(n, nd) + Done(n, nd)
  }

  ghost predicate WeightOk(n: NodeId, nd: Node, oid: string, p: NodeId) {
    RowOf(nd.table, oid) == RowAfter(Seen(n, nd, p), oid)
  }

  ghost predicate WeightInv(w: World) {
    forall oid, p :: SinglePayer(w, oid, p) ==> forall n :: n in w.nodes ==> WeightOk(n, w.nodes[n], oid, p)
  }

  // ---- Inserting into what was seen ----

  /** An event put between a and b acts first if b is silent, and not at all if it is itself silent. */
  lemma InsertEvent(a: seq<Event>, e: Event, b: seq<Event>, oid: string)
    ensures !e.body.About(oid) ==> RowAfter(a + [e] + b, oid) == RowAfter(a + b, oid)
    ensures Silent(b, oid) ==> RowAfter(a + [e] + b, oid) == Effect(RowAfter(a, oid), e, oid)
    ensures Silent(b, oid) ==> RowAfter(a + b, oid) == RowAfter(a, oid)
  {
    EffectsConcat(None, a + [e], b, oid);
    EffectsConcat(None, a, b, oid);
    EffectsAppend(None, a, e, oid);
    if Silent(b, oid) {
      SilentEffects(RowAfter(a + [e], oid), b, oid);
      SilentEffects(RowAfter(a, oid), b, oid);
    }
  }

  // ---- Emitting ----

  /** The id about to be handed out has not been heard of on this node. */
  lemma FreshIsSilent(n: NodeId, nd: Node)
    requires NodeCausal(n, nd) && StatusOk(n, nd)
    ensures Silent(nd.events, ObligationId(n, nd.onum + 1))
    ensures ObligationId(n, nd.onum + 1) !in nd.table
  {
    hide Of, Foreign, Done, Known, Settles, ObligationId, RowsOk;
    NextIdFree(n, nd);
    var oid := ObligationId(n, nd.onum + 1);
    assert Minted(oid, n, nd.onum + 1);
    if CreatedIn(nd.events, oid) {
      var i :| 0 <= i < |nd.events| && nd.events[i].body.DebtCreated? && nd.events[i].body.oid == oid;
      assert Honest(nd.events[i]);
      MintedOnce(oid, n, nd.events[i].source);
      OfComplete(nd.events, nd.events[i]);
    }
    UncreatedIsSilent(nd.events, oid);
  }

  lemma UncreatedIsSilent(s: seq<Event>, oid: string)
    requires Causal(s) && !CreatedIn(s, oid)
    ensures Silent(s, oid)
  {
    forall i | 0 <= i < |s| ensures !s[i].body.About(oid) {
      CreatedBefore(s, i, oid);
      assert s[i].body.Follows() ==> CreatedIn(s[..i], s[i].body.oid);
    }
  }

  lemma CreatedBefore(s: seq<Event>, k: nat, oid: string)
    requires k <= |s|
    ensures CreatedIn(s[..k], oid) ==> CreatedIn(s, oid)
  {
    if CreatedIn(s[..k], oid) {
      CreatedInMonotone(s[..k], s, oid);
    }
  }

  lemma SilentParts(n: NodeId, nd: Node, oid: string)
    requires Silent(nd.events, oid)
    ensures Silent(Own(n, nd), oid) && Silent(Done(n, nd), oid)
  {
    hide Of, Foreign;
    forall i | 0 <= i < |Own(n, nd)| ensures !Own(n, nd)[i].body.About(oid) {
      var x := OfIndex(nd.events, n, i);
    }
    forall i | 0 <= i < |Done(n, nd)| ensures !Done(n, nd)[i].body.About(oid) {
      var x := ForeignIndex(nd.events, n, i);
    }
  }

  /** Emitting e while the table changes the way e says. */
  lemma EmitWeight(n: NodeId, nd: Node, t: Table, onum: nat, ts: int, body: Body, oid: string, p: NodeId)
    requires WeightOk(n, nd, oid, p)
    requires RowOf(t, oid) == Effect(RowOf(nd.table, oid), Event(n, nd.num + 1, ts, body), oid)
    requires body.About(oid) && n != p ==> body.DebtCreated? && Silent(Done(n, nd), oid)
    ensures WeightOk(n, EmitAt(n, nd.(table := t, onum := onum), ts, body), oid, p)
  {
    hide Of, Foreign, Effect;
    var e, nd' := Event(n, nd.num + 1, ts, body), EmitAt(n, nd.(table := t, onum := onum), ts, body);
    var own, done := Own(n, nd), Done(n, nd);
    AppendSelects(nd.events, e, n);
    assert Own(n, nd') == own + [e] && Done(n, nd') == done;
    if n == p {
      assert done + (own + [e]) == (done + own) + [e];
      EffectsAppend(None, done + own, e, oid);
    } else {
      InsertEvent(own, e, done, oid);
      SilentEffect(RowOf(nd.table, oid), e, oid);
    }
  }

  lemma SilentEffect(r: Option<Row>, e: Event, oid: string)
    ensures !e.body.About(oid) ==> Effect(r, e, oid) == r
  {
  }

  /** Payers seen before a step are payers after it. */
  lemma PayerBefore(w: World, n: NodeId, nd: Node, oid: string, p: NodeId)
    requires n in w.nodes && SinglePayer(SetNode(w, n, nd), oid, p) && Own(n, w.nodes[n]) <= Own(n, nd)
    ensures SinglePayer(w, oid, p)
  {
    hide Of;
    var w' := SetNode(w, n, nd);
    forall m, i | m in w.nodes && 0 <= i < |Own(m, w.nodes[m])| && Changes(Own(m, w.nodes[m])[i], oid)
      ensures m == p
    {
      assert Own(m, w'.nodes[m])[i] == Own(m, w.nodes[m])[i];
    }
  }

  lemma EmitKeepsWeights(w: World, n: NodeId, t: Table, onum: nat, ts: int, body: Body)
    requires WeightInv(w) && n in w.nodes
    requires forall oid :: RowOf(t, oid) == Effect(RowOf(w.nodes[n].table, oid), Event(n, w.nodes[n].num + 1, ts, body), oid)
    requires body.DebtCreated? ==> Silent(Done(n, w.nodes[n]), body.oid)
    ensures WeightInv(SetNode(w, n, EmitAt(n, w.nodes[n].(table := t, onum := onum), ts, body)))
  {
    hide Of, Foreign, Effect, WeightOk, Done, Silent, RowOf;
    var nd := w.nodes[n];
    var nd' := EmitAt(n, nd.(table := t, onum := onum), ts, body);
    var e := Event(n, nd.num + 1, ts, body);
    var w' := SetNode(w, n, nd');
    AppendSelects(nd.events, e, n);
    forall oid, p | SinglePayer(w', oid, p) ensures forall m :: m in w'.nodes ==> WeightOk(m, w'.nodes[m], oid, p) {
      PayerBefore(w, n, nd', oid, p);
      assert Own(n, nd')[|Own(n, nd)|] == e;
      assert w'.nodes[n] == nd';
      assert Changes(e, oid) ==> n == p;
      EmitWeight(n, nd, t, onum, ts, body, oid, p);
    }
  }

  lemma LocalWeights(w: World, s: Step)
    requires CausalInv(w) && StatusInv(w) && WeightInv(w) && Can(w, s) && Careful(w, s)
    requires s.Emit? || s.EmitFails? || s.Create? || s.CreateFails? || s.Resolve? || s.Adjust?
    ensures WeightInv(Do(w, s))
  {
    hide StatusOk, NodeCausal, FeedCausal, WeightInv, ObligationId, Silent;
    var n := s.n;
    var nd := w.nodes[n];
    assert StatusOk(n, nd) && NodeCausal(n, nd);
    match s
    case Emit(_, ts, body) => EmitKeepsWeights(w, n, nd.table, nd.onum, ts, body);
    case EmitFails(_) => SameWeights(w, n, nd.(num := nd.num + 1));
    case CreateFails(_) => SameWeights(w, n, nd.(onum := nd.onum + 1));
    case Create(_, now, ts, terms, weight) =>
      var oid := ObligationId(n, nd.onum + 1);
      FreshIsSilent(n, nd);
      SilentParts(n, nd, oid);
      EmitKeepsWeights(w, n, nd.table[oid := Obligation(Row(n, terms, weight, true), now)], nd.onum + 1, ts, DebtCreated(oid, n, terms, weight));
    case Resolve(_, oid, ts) =>
      var o := nd.table[oid];
      EmitKeepsWeights(w, n, nd.table[oid := o.(row := o.row.(open := false))], nd.onum, ts, DebtResolved(oid));
    case Adjust(_, oid, seen, amount, ts) =>
      var o := nd.table[oid];
      EmitKeepsWeights(w, n, nd.table[oid := o.(row := o.row.(weight := o.row.weight - amount))], nd.onum, ts, DebtAdjusted(oid, seen, seen - amount));
    case _ =>
  }

  /** A step that changes neither table nor what was seen. */
  lemma SameWeights(w: World, n: NodeId, nd: Node)
    requires WeightInv(w) && n in w.nodes
    requires Own(n, nd) == Own(n, w.nodes[n]) && Done(n, nd) == Done(n, w.nodes[n])
    requires forall oid :: RowOf(nd.table, oid) == RowOf(w.nodes[n].table, oid)
    ensures WeightInv(SetNode(w, n, nd))
  {
    hide Of, Foreign, Done, RowOf;
    var w' := SetNode(w, n, nd);
    forall oid, p | SinglePayer(w', oid, p) ensures forall m :: m in w'.nodes ==> WeightOk(m, w'.nodes[m], oid, p) {
      PayerBefore(w, n, nd, oid, p);
      assert forall m :: m in w.nodes ==> WeightOk(m, w.nodes[m], oid, p);
    }
  }

  /** A step that touches no node. */
  lemma HubWeights(w: World, w': World)
    requires WeightInv(w) && w'.nodes == w.nodes
    ensures WeightInv(w')
  {
    hide Of, WeightOk;
    forall oid, p | SinglePayer(w', oid, p) ensures forall m :: m in w'.nodes ==> WeightOk(m, w'.nodes[m], oid, p) {
      assert SinglePayer(w, oid, p);
    }
  }

  // ---- The mirror ----

  /** A foreign event stored on n stems from its source's log. */
  lemma StemsFrom(w: World, n: NodeId, e: Event)
    requires Inv(w) && n in w.nodes && e in w.nodes[n].events
    ensures e.source in w.nodes && e in Own(e.source, w.nodes[e.source])
  {
    hide Of, Foreign, Vis, LogOk, FlightsOk, MarksOk, MirrorOk, Pos;
    OfComplete(w.nodes[n].events, e);
    if e.source != n {
      assert NodeOk(n, w.nodes[n], w.hub.feed, w.handlers);
      var rows, vis := Foreign(w.nodes[n].events, n), Vis(w.hub.feed, n);
      var j :| 0 <= j < |rows| && rows[j] == e;
      assert vis[j].ev == e;
      var y := VisIndex(w.hub.feed, n, j);
      Delivery.ReplicaIsPrefixNow(w, e.source, n);
      var k :| 0 <= k < |Of(w.nodes[n].events, e.source)| && Of(w.nodes[n].events, e.source)[k] == e;
      assert Own(e.source, w.nodes[e.source])[k] == e;
    }
  }

  /** On the payer itself a pulled event about the obligation can only be its creation. */
  lemma PayerPullsCreation(w: World, n: NodeId, oid: string)
    requires Inv(w) && n in w.nodes && Busy(w.nodes[n]) && SinglePayer(w, oid, n)
    ensures Pending(w.nodes[n]).body.About(oid) ==> Pending(w.nodes[n]).body.DebtCreated?
  {
    hide Inv, Of, Foreign;
    var e := Pending(w.nodes[n]);
    PendingInLog(w, n);
    StemsFrom(w, n, e);
    var own := Own(e.source, w.nodes[e.source]);
    var i :| 0 <= i < |own| && own[i] == e;
  }

  /** Before the mirror has seen the creation of an obligation, the node has not heard of it. */
  lemma UnseenCreation(w: World, n: NodeId)
    requires Inv(w) && CausalInv(w) && n in w.nodes && Busy(w.nodes[n]) && StatusOk(n, w.nodes[n])
    requires Pending(w.nodes[n]).body.DebtCreated?
    requires w.nodes[n].done == |Foreign(w.nodes[n].events, n)| - 1
    ensures Pending(w.nodes[n]).body.oid !in w.nodes[n].table
    ensures Silent(Own(n, w.nodes[n]), Pending(w.nodes[n]).body.oid)
  {
    hide Inv, CausalInv, Of, Foreign, Settles;
    var nd := w.nodes[n];
    var e, oid := Pending(nd), Pending(nd).body.oid;
    PendingInLog(w, n);
    StemsFrom(w, n, e);
    DoneAround(w, n);
    var own, done, rows := Own(n, nd), Done(n, nd), Foreign(nd.events, n);
    if CreatedIn(own, oid) {
      var i :| 0 <= i < |own| && own[i].body.DebtCreated? && own[i].body.oid == oid;
      var x := OfIndex(nd.events, n, i);
      SameCreation(w, own[i], e);
    }
    if CreatedIn(done, oid) {
      var i :| 0 <= i < |done| && done[i].body.DebtCreated? && done[i].body.oid == oid;
      var x := ForeignIndex(nd.events, n, i);
      StemsFrom(w, n, rows[i]);
      SameCreation(w, rows[i], e);
      RowsDistinct(w, n, i, |rows| - 1);
    }
    assert !Known(n, nd, oid);
    assert oid !in nd.table;
    assert !CreatedIn(own, oid);
    forall i | 0 <= i < |own| ensures !own[i].body.About(oid) {
      assert own[i].body.Follows() ==> own[i].body.oid in nd.table;
      assert own[i].body.DebtCreated? ==> own[i].body.oid != oid;
    }
  }

  lemma RowsDistinct(w: World, n: NodeId, i: nat, j: nat)
    requires Inv(w) && n in w.nodes
    requires i < |Foreign(w.nodes[n].events, n)| && j < |Foreign(w.nodes[n].events, n)|
    requires Foreign(w.nodes[n].events, n)[i] == Foreign(w.nodes[n].events, n)[j]
    ensures i == j
  {
    hide Of, Foreign, Vis, LogOk, FlightsOk, MarksOk, MirrorOk, Pos;
    assert NodeOk(n, w.nodes[n], w.hub.feed, w.handlers);
    var vis := Vis(w.hub.feed, n);
    assert vis[i].ev == Foreign(w.nodes[n].events, n)[i] && vis[j].ev == Foreign(w.nodes[n].events, n)[j];
    VisDistinct(w, n, i, j);
  }

  function Mirrored(n: NodeId, nd: Node): Node
    requires nd.inbox != []
  {
    nd.(table := Mirror(nd.table, Pending(nd)), done := |Foreign(nd.events, n)|)
  }

  /** The mirror runs on the pulled event, for the first time or again after a crash. */
  lemma MirrorWeight(w: World, n: NodeId, oid: string, p: NodeId)
    requires Inv(w) && CausalInv(w) && n in w.nodes && Busy(w.nodes[n]) && StatusOk(n, w.nodes[n])
    requires SinglePayer(w, oid, p) && WeightOk(n, w.nodes[n], oid, p)
    ensures WeightOk(n, Mirrored(n, w.nodes[n]), oid, p)
  {
    hide Inv, CausalInv, Of, Foreign, StatusOk, SinglePayer;
    var nd := w.nodes[n];
    DoneAround(w, n);
    MirrorAndProjectionAgree(nd.table, map[], Pending(nd), oid);
    if n == p {
      PayerPullsCreation(w, n, oid);
    }
    if nd.done < |Foreign(nd.events, n)| {
      if Pending(nd).body.DebtCreated? {
        UnseenCreation(w, n);
      }
      MirrorFirst(n, nd, oid, p);
    } else {
      if Pending(nd).body.DebtCreated? {
        SeenCreation(n, nd);
      }
      MirrorAgain(n, nd, oid, p);
    }
  }

  lemma SeenCreation(n: NodeId, nd: Node)
    requires nd.inbox != [] && StatusOk(n, nd) && Pending(nd).body.DebtCreated?
    requires |Foreign(nd.events, n)| > 0 && nd.done == |Foreign(nd.events, n)|
    requires Foreign(nd.events, n)[|Foreign(nd.events, n)| - 1] == Pending(nd)
    ensures Pending(nd).body.oid in nd.table
  {
    hide Of, Foreign, Settles;
    var k := |Foreign(nd.events, n)| - 1;
    assert Done(n, nd)[k] == Pending(nd);
    assert Known(n, nd, Pending(nd).body.oid);
  }

  lemma MirrorFirst(n: NodeId, nd: Node, oid: string, p: NodeId)
    requires nd.inbox != [] && WeightOk(n, nd, oid, p)
    requires RowOf(Mirror(nd.table, Pending(nd)), oid) == Effect(RowOf(nd.table, oid), Pending(nd), oid)
    requires var rows := Foreign(nd.events, n);
             |rows| > 0 && nd.done == |rows| - 1 && rows[..|rows| - 1] + [Pending(nd)] == rows
    requires n == p && Pending(nd).body.About(oid) ==>
               Pending(nd).body.DebtCreated? && Silent(Own(n, nd), oid)
    ensures WeightOk(n, Mirrored(n, nd), oid, p)
  {
    hide Of, Foreign, Mirror, Effect;
    var e, own, done := Pending(nd), Own(n, nd), Done(n, nd);
    assert Done(n, Mirrored(n, nd)) == done + [e];
    if n == p {
      InsertEvent(done, e, own, oid);
      SilentEffect(RowOf(nd.table, oid), e, oid);
    } else {
      assert own + (done + [e]) == (own + done) + [e];
      EffectsAppend(None, own + done, e, oid);
    }
  }

  lemma MirrorAgain(n: NodeId, nd: Node, oid: string, p: NodeId)
    requires nd.inbox != [] && WeightOk(n, nd, oid, p)
    requires RowOf(Mirror(nd.table, Pending(nd)), oid) == Effect(RowOf(nd.table, oid), Pending(nd), oid)
    requires var rows := Foreign(nd.events, n);
             |rows| > 0 && nd.done == |rows| && rows[..|rows| - 1] + [Pending(nd)] == rows
    requires Pending(nd).body.DebtCreated? ==> Pending(nd).body.oid in nd.table
    requires n == p && Pending(nd).body.About(oid) ==> Pending(nd).body.DebtCreated?
    ensures WeightOk(n, Mirrored(n, nd), oid, p)
  {
    hide Of, Foreign, Mirror;
    var e, own, rows := Pending(nd), Own(n, nd), Foreign(nd.events, n);
    assert Done(n, Mirrored(n, nd)) == Done(n, nd) == rows;
    if n != p {
      var r0 := own + rows[..|rows| - 1];
      assert own + rows == r0 + [e];
      EffectsAppend(None, r0, e, oid);
      TwiceIsOnce(RowAfter(r0, oid), e, oid);
    }
  }

  lemma TwiceIsOnce(r: Option<Row>, e: Event, oid: string)
    ensures Effect(Effect(r, e, oid), e, oid) == Effect(r, e, oid)
  {
  }

  lemma HandleWeights(w: World, n: NodeId, h: Handler)
    requires Inv(w) && CausalInv(w) && StatusInv(w) && WeightInv(w) && n in w.nodes && Busy(w.nodes[n])
    ensures WeightInv(SetNode(w, n, HandlerAt(n, w.nodes[n], h)))
  {
    hide Inv, CausalInv, Of, Foreign, StatusOk, Mirror, WeightOk;
    var nd, nd' := w.nodes[n], HandlerAt(n, w.nodes[n], h);
    if !Skips(nd) && h.MirrorDebt? {
      var w' := SetNode(w, n, nd');
      forall oid, p | SinglePayer(w', oid, p) ensures forall m :: m in w'.nodes ==> WeightOk(m, w'.nodes[m], oid, p) {
        PayerBefore(w, n, nd', oid, p);
        assert StatusOk(n, nd);
        MirrorWeight(w, n, oid, p);
        SameView(n, Mirrored(n, nd), nd', oid, p);
      }
    } else {
      SameWeights(w, n, nd');
    }
  }

  lemma SameView(n: NodeId, nd: Node, nd': Node, oid: string, p: NodeId)
    requires WeightOk(n, nd, oid, p) && nd'.table == nd.table && nd'.done == nd.done && nd'.events == nd.events
    ensures WeightOk(n, nd', oid, p)
  {
    hide Of, Foreign;
  }

  lemma FinishWeights(w: World, n: NodeId)
    requires Inv(w) && WeightInv(w) && n in w.nodes && Busy(w.nodes[n]) && MirrorsDebts(w.handlers)
    requires w.nodes[n].work.idx == Count(w.handlers, Pending(w.nodes[n]))
    ensures WeightInv(SetNode(w, n, FinishAt(n, w.nodes[n])))
  {
    hide Inv, Of, Foreign, WeightOk, MirrorsDebts;
    var nd, nd' := w.nodes[n], FinishAt(n, w.nodes[n]);
    DoneAround(w, n);
    if Pending(nd).body.Debt() {
      FinishedMeansMirrored(w, n);
      SameWeights(w, n, nd');
    } else if nd.done == |Foreign(nd.events, n)| {
      SameWeights(w, n, nd');
    } else {
      var w' := SetNode(w, n, nd');
      forall oid, p | SinglePayer(w', oid, p) ensures forall m :: m in w'.nodes ==> WeightOk(m, w'.nodes[m], oid, p) {
        PayerBefore(w, n, nd', oid, p);
        MirrorFirst(n, nd, oid, p);
        SameView(n, Mirrored(n, nd), nd', oid, p);
      }
    }
  }

  // ---- Every step, every run ----

  lemma StepKeepsWeights(w: World, s: Step)
    requires Inv(w) && CausalInv(w) && StatusInv(w) && WeightInv(w) && MirrorsDebts(w.handlers)
    requires Can(w, s) && Careful(w, s)
    ensures WeightInv(Do(w, s))
  {
    hide Inv, CausalInv, StatusInv, WeightInv, AppendOne, Mirror, Of, Foreign, IsTop, IsTopObligation, FeedSince, EventsSince,
         Stored, Pos, MirrorsDebts, AppendAll, ProjectAll, Project;
    match s
    case Send(n) => SameWeights(w, n, Do(w, s).nodes[n]); HubWeights(SetNode(w, n, Do(w, s).nodes[n]), Do(w, s));
    case Append(i, gap) => HubWeights(w, Do(w, s));
    case Materialize(_, _) => HubWeights(w, Do(w, s));
    case Ack(n) => SameWeights(w, n, Do(w, s).nodes[n]);
    case Push(n, gaps, a, x, acked) => SameWeights(w, n, Do(w, s).nodes[n]); HubWeights(SetNode(w, n, Do(w, s).nodes[n]), Do(w, s));
    case Pull(n) => SameWeights(w, n, Do(w, s).nodes[n]);
    case Begin(n) => BeginKeepsSeen(w, n); SameWeights(w, n, Do(w, s).nodes[n]);
    case Handle(n) => HandleWeights(w, n, Todo(w, n)[w.nodes[n].work.idx]);
    case HandlerFails(n, recorded) => SameWeights(w, n, Do(w, s).nodes[n]);
    case MarkDone(n) => SameWeights(w, n, Do(w, s).nodes[n]);
    case Finish(n) => FinishWeights(w, n);
    case Abort(n) => SameWeights(w, n, Do(w, s).nodes[n]);
    case Restart(n, num, onum) => SameWeights(w, n, Do(w, s).nodes[n]);
    case _ => LocalWeights(w, s);
  }

  lemma StartWeights(w: World)
    requires Start(w)
    ensures WeightInv(w)
  {
  }

  lemma {:induction false} RunKeepsWeights(w: World, steps: seq<Step>)
    requires Inv(w) && CausalInv(w) && StatusInv(w) && WeightInv(w) && MirrorsDebts(w.handlers)
    requires Runs(w, steps) && CarefulRun(w, steps)
    ensures var v := Final(w, steps);
            Inv(v) && CausalInv(v) && StatusInv(v) && WeightInv(v)
    decreases |steps|
  {
    hide Inv, CausalInv, StatusInv, WeightInv, Can, Do, MirrorsDebts, Careful;
    if steps != [] {
      StepKeepsInv(w, steps[0]);
      StepKeepsCausal(w, steps[0]);
      StepKeepsStatus(w, steps[0]);
      StepKeepsWeights(w, steps[0]);
      HandlersStay(w, steps[0]);
      RunKeepsWeights(Do(w, steps[0]), steps[1..]);
    }
  }

  lemma ReachedCarefully(w0: World, steps: seq<Step>)
    requires Start(w0) && MirrorsDebts(w0.handlers) && Runs(w0, steps) && CarefulRun(w0, steps)
    ensures var w := Final(w0, steps);
            Inv(w) && CausalInv(w) && StatusInv(w) && WeightInv(w)
  {
    hide Inv, CausalInv, StatusInv, WeightInv, Can, Do, MirrorsDebts, Careful;
    StartInv(w0);
    StartCausal(w0);
    StartStatus(w0);
    StartWeights(w0);
    RunKeepsWeights(w0, steps);
  }

  // ---- Convergence ----

  /** The creation of an obligation is the first event about it. */
  lemma CreationComesFirst(s: seq<Event>, k: nat, oid: string)
    requires Causal(s) && CreatedOnce(s) && k < |s| && s[k].body.DebtCreated? && s[k].body.oid == oid
    ensures Silent(s[..k], oid)
  {
    CausalPrefix(s, k);
    UncreatedIsSilent(s[..k], oid);
  }

  lemma OncePrefix(s: seq<Event>, k: nat)
    requires CreatedOnce(s) && k <= |s|
    ensures CreatedOnce(s[..k])
  {
  }

  lemma SilentSelection(s: seq<Event>, n: NodeId, oid: string)
    requires Silent(s, oid)
    ensures Silent(Of(s, n), oid) && Silent(Foreign(s, n), oid)
  {
    hide Of, Foreign;
    forall i | 0 <= i < |Of(s, n)| ensures !Of(s, n)[i].body.About(oid) {
      var x := OfIndex(s, n, i);
    }
    forall i | 0 <= i < |Foreign(s, n)| ensures !Foreign(s, n)[i].body.About(oid) {
      var x := ForeignIndex(s, n, i);
    }
  }

  /** Reading n's events first changes nothing as long as n only ever created. */
  lemma {:induction false} OwnFirst(s: seq<Event>, n: NodeId, oid: string)
    requires Causal(s) && CreatedOnce(s)
    requires forall i :: 0 <= i < |s| && s[i].source == n && s[i].body.About(oid) ==> s[i].body.DebtCreated?
    ensures RowAfter(Of(s, n) + Foreign(s, n), oid) == RowAfter(s, oid)
  {
    if s != [] {
      var k := |s| - 1;
      var s0, e := s[..k], s[k];
      assert s == s0 + [e];
      CausalPrefix(s, k);
      OncePrefix(s, k);
      OwnFirst(s0, n, oid);
      AppendSelects(s0, e, n);
      EffectsAppend(None, s0, e, oid);
      if e.source != n {
        assert Of(s, n) + Foreign(s, n) == (Of(s0, n) + Foreign(s0, n)) + [e];
        EffectsAppend(None, Of(s0, n) + Foreign(s0, n), e, oid);
      } else {
        InsertEvent(Of(s0, n), e, Foreign(s0, n), oid);
        if e.body.About(oid) {
          CreationComesFirst(s, k, oid);
          SilentSelection(s0, n, oid);
          SilentEffects(None, s0, oid);
          SilentEffects(None, Of(s0, n), oid);
        }
      }
    }
  }

  /** Reading p's events last changes nothing as long as nobody else did more than create. */
  lemma {:induction false} OwnLast(s: seq<Event>, p: NodeId, oid: string)
    requires Causal(s) && CreatedOnce(s)
    requires forall i :: 0 <= i < |s| && s[i].source != p && s[i].body.About(oid) ==> s[i].body.DebtCreated?
    ensures RowAfter(Foreign(s, p) + Of(s, p), oid) == RowAfter(s, oid)
  {
    if s != [] {
      var k := |s| - 1;
      var s0, e := s[..k], s[k];
      assert s == s0 + [e];
      CausalPrefix(s, k);
      OncePrefix(s, k);
      OwnLast(s0, p, oid);
      AppendSelects(s0, e, p);
      EffectsAppend(None, s0, e, oid);
      if e.source == p {
        assert Foreign(s, p) + Of(s, p) == (Foreign(s0, p) + Of(s0, p)) + [e];
        EffectsAppend(None, Foreign(s0, p) + Of(s0, p), e, oid);
      } else {
        InsertEvent(Foreign(s0, p), e, Of(s0, p), oid);
        if e.body.About(oid) {
          CreationComesFirst(s, k, oid);
          SilentSelection(s0, p, oid);
          SilentEffects(None, s0, oid);
          SilentEffects(None, Foreign(s0, p), oid);
        }
      }
    }
  }

  /** Feed entries stem from their sources' logs. */
  lemma FedStems(w: World, i: nat)
    requires Inv(w) && i < |w.hub.feed|
    ensures var e := w.hub.feed[i].ev; e.source in w.nodes && e in Own(e.source, w.nodes[e.source])
  {
    hide Of, Foreign, Vis, OwnOk, FlightsOk, MirrorsOk, Pos;
    var evs, e := Evs(w.hub.feed), w.hub.feed[i].ev;
    assert NodeOk(e.source, w.nodes[e.source], w.hub.feed, w.handlers);
    assert evs[i] == e;
    OfComplete(evs, e);
    var j :| 0 <= j < |Of(evs, e.source)| && Of(evs, e.source)[j] == e;
    assert Own(e.source, w.nodes[e.source])[j] == e;
  }

  lemma FeedCreatedOnce(w: World)
    requires Inv(w) && CausalInv(w)
    ensures CreatedOnce(Evs(w.hub.feed))
  {
    hide Inv, CausalInv, Of;
    var evs := Evs(w.hub.feed);
    forall i, j | 0 <= i < j < |evs| && evs[i].body.DebtCreated? && evs[j].body.DebtCreated?
      ensures evs[i].body.oid != evs[j].body.oid
    {
      if evs[i].body.oid == evs[j].body.oid {
        FedStems(w, i);
        FedStems(w, j);
        SameCreation(w, evs[i], evs[j]);
        FedOnce(w, i, j);
      }
    }
  }

  lemma FedOnce(w: World, i: nat, j: nat)
    requires Inv(w) && i < j < |w.hub.feed|
    ensures w.hub.feed[i].ev != w.hub.feed[j].ev
  {
    hide LogOk, FlightsOk, MirrorsOk;
    if w.hub.feed[i].ev.source == w.hub.feed[j].ev.source {
      var a := w.hub.feed[i].ev.source;
      assert NodeOk(a, w.nodes[a], w.hub.feed, w.handlers);
      FeedOrdered(a, w.nodes[a], w.hub.feed, i, j);
    }
  }

  lemma PayerInFeed(w: World, oid: string, p: NodeId)
    requires Inv(w) && SinglePayer(w, oid, p)
    ensures forall i :: 0 <= i < |w.hub.feed| && w.hub.feed[i].ev.body.Follows() && w.hub.feed[i].ev.body.oid == oid
                        ==> w.hub.feed[i].ev.source == p
  {
    hide Inv, Of;
    forall i | 0 <= i < |w.hub.feed| && w.hub.feed[i].ev.body.Follows() && w.hub.feed[i].ev.body.oid == oid
      ensures w.hub.feed[i].ev.source == p
    {
      FedStems(w, i);
      var e := w.hub.feed[i].ev;
      var own := Own(e.source, w.nodes[e.source]);
      var j :| 0 <= j < |own| && own[j] == e;
    }
  }

  /** Once all events are delivered and applied, every node's row of an obligation with a single payer is what the
      feed says: the same terms, the same status and the same weight on every node. */
  lemma WeightsConverge(w0: World, steps: seq<Step>, n: NodeId, oid: string, p: NodeId)
    requires Start(w0) && MirrorsDebts(w0.handlers) && Runs(w0, steps) && CarefulRun(w0, steps)
    requires Settled(Final(w0, steps)) && n in Final(w0, steps).nodes
    requires SinglePayer(Final(w0, steps), oid, p)
    ensures var w := Final(w0, steps); RowOf(w.nodes[n].table, oid) == RowAfter(Evs(w.hub.feed), oid)
  {
    hide Inv, CausalInv, StatusInv, Can, Do, MirrorsDebts, Careful, Runs, Final, CarefulRun, Of, Foreign, Done, Settled, SinglePayer;
    ReachedCarefully(w0, steps);
    var w := Final(w0, steps);
    assert WeightOk(n, w.nodes[n], oid, p);
    SettledSees(w, n);
    FeedCreatedOnce(w);
    assert Causal(Evs(w.hub.feed)) by { FeedIsCausal(w); }
    PayerInFeed(w, oid, p);
    if n == p {
      OwnLast(Evs(w.hub.feed), p, oid);
    } else {
      OwnFirst(Evs(w.hub.feed), n, oid);
    }
  }

  lemma FeedIsCausal(w: World)
    requires CausalInv(w)
    ensures Causal(Evs(w.hub.feed))
  {
    hide Causal, NodeCausal;
  }
}

/**
 Agreement on existence and status.

 Whoever pays, and however payments and pulled events interleave (an adjustment may even report a
 weight that was read before another event changed the row), once everything is delivered and applied
 every node has exactly the obligations that were created, and holds exactly those for resolved for which a
 debt.resolved was emitted by anyone.
 */
module Status {
  import opened Ids
  import opened Events
  import opened Ledger
  import opened Protocol
  import opened Replication
  import opened Causality

  /** The foreign rows the debt mirror of n has seen. */
  function Done(n: NodeId, nd: Node): seq<Event> {
    var rows := Foreign(nd.events, n);
    if nd.done <= |rows| then rows[..nd.done] else rows
  }

  /** RegisterDebtHandlers has run: each debt event has the mirror among its handlers. */
  predicate MirrorsDebts(h: Handlers) {
    && MirrorDebt in HandlersFor(h, "debt.created")
    && MirrorDebt in HandlersFor(h, "debt.adjusted")
    && MirrorDebt in HandlersFor(h, "debt.resolved")
  }

  // ---- The invariant ----

  ghost predicate Known(n: NodeId, nd: Node, oid: string) {
    CreatedIn(Own(n, nd), oid) || CreatedIn(Done(n, nd), oid)
  }

  ghost predicate Settles(n: NodeId, nd: Node, oid: string) {
    ResolvedIn(Own(n, nd), oid) || ResolvedIn(Done(n, nd), oid)
  }

  predicate IsResolved(t: Table, oid: string) {
    oid in t && !t[oid].row.open
  }

  ghost predicate StatusOk(n: NodeId, nd: Node) {
    && (forall oid :: oid in nd.table <==> Known(n, nd, oid))
    && (forall oid :: IsResolved(nd.table, oid) <==> Settles(n, nd, oid))
    && (forall i :: 0 <= i < |Own(n, nd)| && Own(n, nd)[i].body.Follows() ==> Own(n, nd)[i].body.oid in nd.table)
  }

  ghost predicate StatusInv(w: World) {
    forall n :: n in w.nodes ==> StatusOk(n, w.nodes[n])
  }

  // ---- Local steps ----

  /** Emitting e while the table changes the way e says. */
  lemma EmitStatus(n: NodeId, nd: Node, t: Table, onum: nat, ts: int, body: Body)
    requires StatusOk(n, nd)
    requires forall oid :: oid in t <==> oid in nd.table || (body.DebtCreated? && body.oid == oid)
    requires forall oid :: IsResolved(t, oid) <==> IsResolved(nd.table, oid) || (body.DebtResolved? && body.oid == oid)
    requires body.Follows() ==> body.oid in nd.table
    ensures StatusOk(n, EmitAt(n, nd.(table := t, onum := onum), ts, body))
  {
    hide Of, Foreign, CreatedIn, ResolvedIn;
    var e, nd' := Event(n, nd.num + 1, ts, body), EmitAt(n, nd.(table := t, onum := onum), ts, body);
    AppendSelects(nd.events, e, n);
    forall oid ensures Known(n, nd', oid) <==> Known(n, nd, oid) || (body.DebtCreated? && body.oid == oid)
               ensures Settles(n, nd', oid) <==> Settles(n, nd, oid) || (body.DebtResolved? && body.oid == oid) {
      CreatedInStep(Own(n, nd), e, oid);
    }
  }

  lemma LocalStatus(w: World, s: Step)
    requires CausalInv(w) && StatusInv(w) && Can(w, s)
    requires s.Emit? || s.EmitFails? || s.Create? || s.CreateFails? || s.Resolve? || s.Adjust?
    ensures StatusInv(Do(w, s))
  {
    hide StatusOk, NodeCausal, FeedCausal;
    var n := s.n;
    var nd := w.nodes[n];
    assert StatusOk(n, nd) && NodeCausal(n, nd);
    match s
    case Emit(_, ts, body) => EmitStatus(n, nd, nd.table, nd.onum, ts, body);
    case EmitFails(_) => SameStatus(n, nd, nd.(num := nd.num + 1));
    case CreateFails(_) => SameStatus(n, nd, nd.(onum := nd.onum + 1));
    case Create(_, now, ts, terms, weight) =>
      CreateCausal(n, nd, now, ts, terms, weight);
      var oid := ObligationId(n, nd.onum + 1);
      EmitStatus(n, nd, nd.table[oid := Obligation(Row(n, terms, weight, true), now)], nd.onum + 1, ts, DebtCreated(oid, n, terms, weight));
    case Resolve(_, oid, ts) =>
      var o := nd.table[oid];
      EmitStatus(n, nd, nd.table[oid := o.(row := o.row.(open := false))], nd.onum, ts, DebtResolved(oid));
    case Adjust(_, oid, seen, amount, ts) =>
      var o := nd.table[oid];
      EmitStatus(n, nd, nd.table[oid := o.(row := o.row.(weight := o.row.weight - amount))], nd.onum, ts, DebtAdjusted(oid, seen, seen - amount));
    case _ =>
  }

  lemma SameStatus(n: NodeId, nd: Node, nd': Node)
    requires StatusOk(n, nd) && Own(n, nd') == Own(n, nd) && Done(n, nd') == Done(n, nd) && nd'.table == nd.table
    ensures StatusOk(n, nd')
  {
    hide Of, Foreign, CreatedIn, ResolvedIn, Done;
    assert forall oid :: Known(n, nd', oid) <==> Known(n, nd, oid);
    assert forall oid :: Settles(n, nd', oid) <==> Settles(n, nd, oid);
  }

  // ---- Applying a pulled event ----

  /** Where the mirror stands with the event being applied: it is the next one to see, or the last one it saw. */
  lemma DoneAround(w: World, n: NodeId)
    requires Inv(w) && n in w.nodes && Busy(w.nodes[n])
    ensures var nd := w.nodes[n];
            var rows := Foreign(nd.events, n);
            && |rows| > 0 && rows[|rows| - 1] == Pending(nd)
            && |rows| - 1 <= nd.done <= |rows|
            && rows[..|rows| - 1] + [Pending(nd)] == rows
  {
    hide LogOk, FlightsOk, Of, MarksOk, MirrorOk, Foreign, Vis, Pos;
    var nd := w.nodes[n];
    assert NodeOk(n, nd, w.hub.feed, w.handlers);
    var vis, k, rows := Vis(w.hub.feed, n), Passed(n, nd, w.hub.feed), Foreign(nd.events, n);
    assert rows[k] == Evs(vis[..k + 1])[k] == vis[k].ev == Pending(nd);
  }

  /** What an event builds on has been seen by the mirror, or is the node's own. */
  lemma BuildsOnKnown(n: NodeId, nd: Node, e: Event)
    requires Causal(nd.events) && e.body.Follows()
    requires var rows := Foreign(nd.events, n);
             |rows| > 0 && rows[|rows| - 1] == e && |rows| - 1 <= nd.done <= |rows|
    ensures Known(n, nd, e.body.oid)
  {
    hide Of, Foreign;
    var rows := Foreign(nd.events, n);
    var x := ForeignIndex(nd.events, n, |rows| - 1);
    assert CreatedIn(nd.events[..x], e.body.oid);
    var i :| 0 <= i < x && nd.events[i].body.DebtCreated? && nd.events[i].body.oid == e.body.oid;
    var c := nd.events[..x][i];
    OfComplete(nd.events[..x], c);
    if c.source == n {
      OfComplete(nd.events, nd.events[i]);
      var j :| 0 <= j < |Own(n, nd)| && Own(n, nd)[j] == c;
    } else {
      var j :| 0 <= j < |rows| - 1 && rows[..|rows| - 1][j] == c;
      assert Done(n, nd)[j] == c;
    }
  }

  /** The mirror runs on the pulled event, for the first time or again. */
  lemma MirrorStatus(w: World, n: NodeId)
    requires Inv(w) && n in w.nodes && Busy(w.nodes[n])
    requires NodeCausal(n, w.nodes[n]) && StatusOk(n, w.nodes[n])
    ensures var nd := w.nodes[n];
            StatusOk(n, nd.(table := Mirror(nd.table, Pending(nd)), done := |Foreign(nd.events, n)|))
  {
    hide Inv, Of, Foreign, CreatedIn, ResolvedIn, RowsOk, CreatedHere, Causal, AllHonest;
    var nd := w.nodes[n];
    var e, rows := Pending(nd), Foreign(nd.events, n);
    DoneAround(w, n);
    if e.body.Follows() {
      BuildsOnKnown(n, nd, e);
    }
    SeeOne(n, nd, e);
  }

  lemma SeeOne(n: NodeId, nd: Node, e: Event)
    requires StatusOk(n, nd)
    requires e.body.Follows() ==> e.body.oid in nd.table
    requires var rows := Foreign(nd.events, n);
             |rows| > 0 && |rows| - 1 <= nd.done <= |rows| && rows[..|rows| - 1] + [e] == rows
    ensures StatusOk(n, nd.(table := Mirror(nd.table, e), done := |Foreign(nd.events, n)|))
  {
    hide Of, Foreign, CreatedIn, ResolvedIn;
    var rows := Foreign(nd.events, n);
    var nd' := nd.(table := Mirror(nd.table, e), done := |rows|);
    assert Done(n, nd') == rows;
    forall oid ensures Known(n, nd', oid) <==> Known(n, nd, oid) || (e.body.DebtCreated? && e.body.oid == oid)
               ensures Settles(n, nd', oid) <==> Settles(n, nd, oid) || (e.body.DebtResolved? && e.body.oid == oid) {
      CreatedInStep(rows[..|rows| - 1], e, oid);
    }
    assert forall oid :: oid in nd'.table <==> oid in nd.table || (e.body.DebtCreated? && e.body.oid == oid);
    assert forall oid :: IsResolved(nd'.table, oid) <==> IsResolved(nd.table, oid) || (e.body.DebtResolved? && e.body.oid == oid);
  }

  /** When a pulled debt event is finished with, its mirror has run. */
  lemma FinishedMeansMirrored(w: World, n: NodeId)
    requires Inv(w) && n in w.nodes && Busy(w.nodes[n]) && MirrorsDebts(w.handlers)
    requires w.nodes[n].work.idx == Count(w.handlers, Pending(w.nodes[n])) && Pending(w.nodes[n]).body.Debt()
    ensures w.nodes[n].done == |Foreign(w.nodes[n].events, n)|
  {
    hide LogOk, FlightsOk, Of, RowsMarked, Foreign, Vis, Pos, ReplicaOk;
    var nd := w.nodes[n];
    assert NodeOk(n, nd, w.hub.feed, w.handlers);
    DoneAround(w, n);
    var hs, rows := HandlersFor(w.handlers, Pending(nd).body.Type()), Foreign(nd.events, n);
    var j :| 0 <= j < |hs| && hs[j] == MirrorDebt;
    assert WorkOk(nd, w.handlers);
    assert IsMarked(nd.marks, (rows[|rows| - 1].Id(), j));
    assert MirrorOk(n, nd, w.handlers);
  }

  lemma FinishStatus(w: World, n: NodeId)
    requires Inv(w) && n in w.nodes && Busy(w.nodes[n]) && MirrorsDebts(w.handlers)
    requires w.nodes[n].work.idx == Count(w.handlers, Pending(w.nodes[n]))
    requires StatusOk(n, w.nodes[n])
    ensures StatusOk(n, FinishAt(n, w.nodes[n]))
  {
    hide Inv, Of, Foreign, StatusOk;
    var nd, nd' := w.nodes[n], FinishAt(n, w.nodes[n]);
    DoneAround(w, n);
    if Pending(nd).body.Debt() {
      FinishedMeansMirrored(w, n);
      SameStatus(n, nd, nd');
    } else {
      SeeOne(n, nd, Pending(nd));
      SameStatus(n, nd.(table := Mirror(nd.table, Pending(nd)), done := |Foreign(nd.events, n)|), nd');
    }
  }

  lemma BeginStatus(w: World, n: NodeId)
    requires Inv(w) && n in w.nodes && w.nodes[n].inbox != [] && StatusOk(n, w.nodes[n])
    ensures StatusOk(n, BeginAt(w.nodes[n]))
  {
    hide Inv, Of, Foreign, StatusOk, Done, Stored;
    BeginKeepsSeen(w, n);
    SameStatus(n, w.nodes[n], BeginAt(w.nodes[n]));
  }

  /** Storing a row does not yet show it to the mirror. */
  lemma BeginKeepsSeen(w: World, n: NodeId)
    requires Inv(w) && n in w.nodes && w.nodes[n].inbox != []
    ensures var nd := w.nodes[n];
            Own(n, BeginAt(nd)) == Own(n, nd) && Done(n, BeginAt(nd)) == Done(n, nd)
  {
    hide LogOk, FlightsOk, Of, MarksOk, MirrorOk, Foreign, Vis, Pos;
    PendingStored(w, n);
    var nd := w.nodes[n];
    assert NodeOk(n, nd, w.hub.feed, w.handlers);
    AppendSelects(nd.events, Pending(nd), n);
  }

  // ---- Every step, every run ----

  lemma StepKeepsStatus(w: World, s: Step)
    requires Inv(w) && CausalInv(w) && StatusInv(w) && Can(w, s) && MirrorsDebts(w.handlers)
    ensures StatusInv(Do(w, s))
  {
    hide Inv, NodeCausal, FeedCausal, StatusOk, AppendOne, Mirror, Of, Foreign, IsTop, IsTopObligation, FeedSince, EventsSince,
         Stored, Pos, MirrorsDebts, AppendAll, ProjectAll, Project;
    match s
    case Send(n) => SameStatus(n, w.nodes[n], Do(w, s).nodes[n]);
    case Append(i, gap) =>
    case Materialize(_, _) =>
    case Ack(n) => SameStatus(n, w.nodes[n], Do(w, s).nodes[n]);
    case Push(n, gaps, a, x, acked) => SameStatus(n, w.nodes[n], Do(w, s).nodes[n]);
    case Pull(n) => SameStatus(n, w.nodes[n], Do(w, s).nodes[n]);
    case Begin(n) => BeginStatus(w, n);
    case Handle(n) => HandleStatus(w, n, Todo(w, n)[w.nodes[n].work.idx]);
    case HandlerFails(n, recorded) => SameStatus(n, w.nodes[n], Do(w, s).nodes[n]);
    case MarkDone(n) => SameStatus(n, w.nodes[n], Do(w, s).nodes[n]);
    case Finish(n) => FinishStatus(w, n);
    case Abort(n) => SameStatus(n, w.nodes[n], Do(w, s).nodes[n]);
    case Restart(n, num, onum) => SameStatus(n, w.nodes[n], Do(w, s).nodes[n]);
    case _ => LocalStatus(w, s);
  }

  lemma HandleStatus(w: World, n: NodeId, h: Handler)
    requires Inv(w) && CausalInv(w) && n in w.nodes && Busy(w.nodes[n]) && StatusOk(n, w.nodes[n])
    ensures StatusOk(n, HandlerAt(n, w.nodes[n], h))
  {
    hide Inv, FeedCausal, NodeCausal, Mirror, Of, Foreign, StatusOk;
    var nd, nd' := w.nodes[n], HandlerAt(n, w.nodes[n], h);
    assert NodeCausal(n, nd);
    if !Skips(nd) && h.MirrorDebt? {
      MirrorStatus(w, n);
      SameStatus(n, nd.(table := Mirror(nd.table, Pending(nd)), done := |Foreign(nd.events, n)|), nd');
    } else {
      SameStatus(n, nd, nd');
    }
  }

  lemma StartStatus(w: World)
    requires Start(w)
    ensures StatusInv(w)
  {
  }

  lemma HandlersStay(w: World, s: Step)
    requires Can(w, s)
    ensures Do(w, s).handlers == w.handlers && Do(w, s).nodes.Keys == w.nodes.Keys
  {
    hide AppendOne, Mirror, Of, Foreign, IsTop, IsTopObligation, FeedSince, EventsSince, Stored, Pos, AppendAll, ProjectAll, Project;
  }

  lemma {:induction false} NodesStay(w: World, steps: seq<Step>)
    requires Runs(w, steps)
    ensures Final(w, steps).nodes.Keys == w.nodes.Keys
    decreases |steps|
  {
    hide Can, Do;
    if steps != [] {
      HandlersStay(w, steps[0]);
      NodesStay(Do(w, steps[0]), steps[1..]);
    }
  }

  lemma {:induction false} RunKeepsStatus(w: World, steps: seq<Step>)
    requires Inv(w) && CausalInv(w) && StatusInv(w) && MirrorsDebts(w.handlers) && Runs(w, steps)
    ensures var v := Final(w, steps);
            Inv(v) && CausalInv(v) && StatusInv(v) && v.handlers == w.handlers && v.nodes.Keys == w.nodes.Keys
    decreases |steps|
  {
    hide Inv, CausalInv, StatusInv, Can, Do, MirrorsDebts;
    if steps != [] {
      StepKeepsInv(w, steps[0]);
      StepKeepsCausal(w, steps[0]);
      StepKeepsStatus(w, steps[0]);
      HandlersStay(w, steps[0]);
      RunKeepsStatus(Do(w, steps[0]), steps[1..]);
    }
  }

  // ---- Convergence ----

  /** Everything emitted has reached the feed, and every node's cursor has passed everything it is shown. */
  ghost predicate Settled(w: World) {
    forall n :: n in w.nodes ==>
      && |Fed(w, n)| == |Own(n, w.nodes[n])|
      && Passed(n, w.nodes[n], w.hub.feed) == |Vis(w.hub.feed, n)|
  }

  /** In a settled world each node's own events and the foreign ones it has mirrored are the whole feed. */
  lemma SettledSees(w: World, n: NodeId)
    requires Inv(w) && Settled(w) && n in w.nodes
    ensures Own(n, w.nodes[n]) == Of(Evs(w.hub.feed), n)
    ensures Done(n, w.nodes[n]) == Foreign(Evs(w.hub.feed), n)
  {
    hide FlightsOk, Of, MarksOk, MirrorOk, Foreign, Vis, Pos, OwnOk;
    assert NodeOk(n, w.nodes[n], w.hub.feed, w.handlers);
    EvsVis(w.hub.feed, n);
    assert Vis(w.hub.feed, n)[..|Vis(w.hub.feed, n)|] == Vis(w.hub.feed, n);
    assert Own(n, w.nodes[n])[..|Fed(w, n)|] == Fed(w, n);
  }

  lemma SplitBySource(s: seq<Event>, n: NodeId, oid: string)
    ensures CreatedIn(s, oid) <==> CreatedIn(Of(s, n), oid) || CreatedIn(Foreign(s, n), oid)
    ensures ResolvedIn(s, oid) <==> ResolvedIn(Of(s, n), oid) || ResolvedIn(Foreign(s, n), oid)
  {
    hide CreatedIn, ResolvedIn;
    if s == [] {
      assert Of(s, n) == [] && Foreign(s, n) == [];
    } else {
      var k := |s| - 1;
      assert s == s[..k] + [s[k]];
      SplitBySource(s[..k], n, oid);
      AppendSelects(s[..k], s[k], n);
      CreatedInStep(s[..k], s[k], oid);
      CreatedInStep(Of(s[..k], n), s[k], oid);
      CreatedInStep(Foreign(s[..k], n), s[k], oid);
    }
  }

  /** Once all events are delivered and applied, every node has exactly the obligations that were created by anyone, and
      holds for resolved exactly those for which anyone emitted debt.resolved, however many nodes paid. */
  lemma StatusConverges(w0: World, steps: seq<Step>, n: NodeId, oid: string)
    requires Start(w0) && MirrorsDebts(w0.handlers) && Runs(w0, steps)
    requires Settled(Final(w0, steps)) && n in Final(w0, steps).nodes
    ensures var w := Final(w0, steps);
            && (oid in w.nodes[n].table <==> exists m :: m in w.nodes && CreatedIn(Own(m, w.nodes[m]), oid))
            && (IsResolved(w.nodes[n].table, oid) <==> exists m :: m in w.nodes && ResolvedIn(Own(m, w.nodes[m]), oid))
  {
    hide Inv, CausalInv, Can, Do, MirrorsDebts, Of, Foreign, CreatedIn, ResolvedIn, Settled, Done, Runs, Final;
    StartInv(w0);
    StartCausal(w0);
    StartStatus(w0);
    RunKeepsStatus(w0, steps);
    var w := Final(w0, steps);
    assert StatusOk(n, w.nodes[n]);
    SettledSees(w, n);
    var evs := Evs(w.hub.feed);
    SplitBySource(evs, n, oid);
    assert Known(n, w.nodes[n], oid) <==> CreatedIn(evs, oid);
    assert Settles(n, w.nodes[n], oid) <==> ResolvedIn(evs, oid);
    EmittedIsFed(w, oid);
  }

  lemma EmittedIsFed(w: World, oid: string)
    requires Inv(w) && Settled(w)
    ensures CreatedIn(Evs(w.hub.feed), oid) <==> exists m :: m in w.nodes && CreatedIn(Own(m, w.nodes[m]), oid)
    ensures ResolvedIn(Evs(w.hub.feed), oid) <==> exists m :: m in w.nodes && ResolvedIn(Own(m, w.nodes[m]), oid)
  {
    hide NodeOk, FlightsOk, Of, Foreign, Settled, Done;
    var evs := Evs(w.hub.feed);
    forall m | m in w.nodes
      ensures CreatedIn(Own(m, w.nodes[m]), oid) ==> CreatedIn(evs, oid)
      ensures ResolvedIn(Own(m, w.nodes[m]), oid) ==> ResolvedIn(evs, oid)
    {
      SettledSees(w, m);
      SplitBySource(evs, m, oid);
    }
    if CreatedIn(evs, oid) {
      var i :| 0 <= i < |evs| && evs[i].body.DebtCreated? && evs[i].body.oid == oid;
      OfComplete(evs, evs[i]);
      SettledSees(w, w.hub.feed[i].ev.source);
    }
    if ResolvedIn(evs, oid) {
      var i :| 0 <= i < |evs| && evs[i].body.DebtResolved? && evs[i].body.oid == oid;
      OfComplete(evs, evs[i]);
      SettledSees(w, w.hub.feed[i].ev.source);
    }
  }

  // ---- No way back ----

  lemma ResolvedStaysOnce(w: World, s: Step, n: NodeId, oid: string)
    requires Can(w, s) && n in w.nodes && IsResolved(w.nodes[n].table, oid)
    ensures n in Do(w, s).nodes && IsResolved(Do(w, s).nodes[n].table, oid)
  {
    hide AppendOne, Of, Foreign, IsTop, IsTopObligation, FeedSince, EventsSince, Stored, Pos, AppendAll, ProjectAll, Project, ObligationId;
  }

  /** No node ever goes back from resolved to open. */
  lemma {:induction false} ResolvedStays(w: World, steps: seq<Step>, n: NodeId, oid: string)
    requires Runs(w, steps) && n in w.nodes && IsResolved(w.nodes[n].table, oid)
    ensures n in Final(w, steps).nodes && IsResolved(Final(w, steps).nodes[n].table, oid)
    decreases |steps|
  {
    hide Can, Do;
    if steps != [] {
      ResolvedStaysOnce(w, steps[0], n, oid);
      ResolvedStays(Do(w, steps[0]), steps[1..], n, oid);
    }
  }

  /** Nor does the hub. */
  lemma {:induction false} ProjectionKeepsResolved(d: Debts, es: seq<Event>, oid: string)
    requires oid in d && !d[oid].open
    ensures oid in ProjectAll(d, es) && !ProjectAll(d, es)[oid].open
  {
    if es != [] {
      ProjectionKeepsResolved(d, es[..|es| - 1], oid);
    }
  }

  lemma {:induction false} HubResolvedStays(w: World, steps: seq<Step>, oid: string)
    requires Runs(w, steps) && oid in w.hub.debts && !w.hub.debts[oid].open
    ensures oid in Final(w, steps).hub.debts && !Final(w, steps).hub.debts[oid].open
    decreases |steps|
  {
    if steps != [] {
      var s := steps[0];
      assert oid in Do(w, s).hub.debts && !Do(w, s).hub.debts[oid].open by {
        HubResolvedStaysOnce(w, s, oid);
      }
      HubResolvedStays(Do(w, s), steps[1..], oid);
    }
  }

  lemma HubResolvedStaysOnce(w: World, s: Step, oid: string)
    requires Can(w, s) && oid in w.hub.debts && !w.hub.debts[oid].open
    ensures oid in Do(w, s).hub.debts && !Do(w, s).hub.debts[oid].open
  {
    hide AppendOne, Mirror, Of, Foreign, IsTop, IsTopObligation, FeedSince, EventsSince, Stored, Pos, AppendAll, ProjectAll, ObligationId;
    if s.Push? {
      ProjectionKeepsResolved(w.hub.debts, Outgoing(s.n, w.nodes[s.n])[..s.materialized], oid);
    }
  }
}

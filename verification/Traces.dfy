/**
 What one step can do to one node: nothing that matters here, an event of the node's own with the change of the table it reports, or a
 run of the debt mirror on the event being applied.
 */
module Traces {
  import opened Ids
  import opened Events
  import opened Ledger
  import opened Protocol
  import opened Replication
  import opened Causality
  import opened Status
  import opened Weights

  /** Log and table are as they were. */
  ghost predicate Kept(n: NodeId, nd: Node, nd': Node) {
    Own(n, nd') == Own(n, nd) && nd'.table == nd.table
  }

  /** The node has emitted e, and every row changed the way e says. */
  ghost predicate Grew(n: NodeId, nd: Node, nd': Node, e: Event) {
    && Own(n, nd') == Own(n, nd) + [e] && Foreign(nd'.events, n) == Foreign(nd.events, n) && e in nd'.events
    && nd'.hubCursor == nd.hubCursor && nd'.done == nd.done
    && forall oid :: RowOf(nd'.table, oid) == Effect(RowOf(nd.table, oid), e, oid)
  }

  /** The mirror has run on the event being applied. */
  ghost predicate Saw(n: NodeId, nd: Node, nd': Node) {
    && Busy(nd) && Own(n, nd') == Own(n, nd) && nd'.events == nd.events && nd'.hubCursor == nd.hubCursor
    && nd'.table == Mirror(nd.table, Pending(nd)) && nd'.done == |Foreign(nd.events, n)|
  }

  ghost predicate RunsMirror(w: World, s: Step, n: NodeId)
    requires Can(w, s)
  {
    s.Handle? && s.n == n && !Skips(w.nodes[n]) && Todo(w, n)[w.nodes[n].work.idx].MirrorDebt?
  }

  predicate IsLocal(s: Step) {
    s.Emit? || s.EmitFails? || s.Create? || s.CreateFails? || s.Resolve? || s.Adjust?
  }

  lemma EmitGrows(n: NodeId, nd: Node, t: Table, onum: nat, ts: int, body: Body)
    requires forall oid :: RowOf(t, oid) == Effect(RowOf(nd.table, oid), Event(n, nd.num + 1, ts, body), oid)
    ensures Grew(n, nd, EmitAt(n, nd.(table := t, onum := onum), ts, body), Event(n, nd.num + 1, ts, body))
  {
    hide Of, Foreign, Effect, RowOf;
    var e := Event(n, nd.num + 1, ts, body);
    AppendSelects(nd.events, e, n);
    assert (nd.events + [e])[|nd.events|] == e;
  }

  lemma LocalAtNode(w: World, s: Step) returns (e: Event)
    requires CausalInv(w) && Can(w, s) && Careful(w, s) && IsLocal(s) && s.n in w.nodes && s.n in Do(w, s).nodes
    ensures var n, nd' := s.n, Do(w, s).nodes[s.n]; Kept(n, w.nodes[n], nd') || Grew(n, w.nodes[n], nd', e)
    ensures var n, nd' := s.n, Do(w, s).nodes[s.n];
            !Grew(n, w.nodes[n], nd', e) ==> nd'.events == w.nodes[n].events && nd'.hubCursor == w.nodes[n].hubCursor && nd'.done == w.nodes[n].done
    ensures s.Adjust? ==> e.body == DebtAdjusted(s.oid, s.seen, s.seen - s.amount) && Grew(s.n, w.nodes[s.n], Do(w, s).nodes[s.n], e)
    ensures e.body.DebtAdjusted? ==> s.Adjust?
  {
    hide NodeCausal, FeedCausal, ObligationId, Of, Foreign, Grew;
    var n := s.n;
    var nd := w.nodes[n];
    assert NodeCausal(n, nd);
    e := Event(n, nd.num + 1, 0, Other("", ""));
    match s
    case Emit(_, ts, body) =>
      e := Event(n, nd.num + 1, ts, body);
      EmitGrows(n, nd, nd.table, nd.onum, ts, body);
    case EmitFails(_) =>
    case CreateFails(_) =>
    case Create(_, now, ts, terms, weight) =>
      CreateCausal(n, nd, now, ts, terms, weight);
      var oid := ObligationId(n, nd.onum + 1);
      e := Event(n, nd.num + 1, ts, DebtCreated(oid, n, terms, weight));
      EmitGrows(n, nd, nd.table[oid := Obligation(Row(n, terms, weight, true), now)], nd.onum + 1, ts, e.body);
    case Resolve(_, oid, ts) =>
      var o := nd.table[oid];
      e := Event(n, nd.num + 1, ts, DebtResolved(oid));
      EmitGrows(n, nd, nd.table[oid := o.(row := o.row.(open := false))], nd.onum, ts, e.body);
    case Adjust(_, oid, seen, amount, ts) =>
      var o := nd.table[oid];
      e := Event(n, nd.num + 1, ts, DebtAdjusted(oid, seen, seen - amount));
      EmitGrows(n, nd, nd.table[oid := o.(row := o.row.(weight := o.row.weight - amount))], nd.onum, ts, e.body);
    case _ =>
  }

  /** Steps that are neither local nor a run of the mirror leave log and table alone. */
  lemma QuietAtNode(w: World, s: Step, n: NodeId)
    requires Inv(w) && Can(w, s) && n in w.nodes && (IsLocal(s) ==> s.n != n) && !RunsMirror(w, s, n)
    ensures n in Do(w, s).nodes && Kept(n, w.nodes[n], Do(w, s).nodes[n])
    ensures !(s.Begin? && s.n == n) ==> Do(w, s).nodes[n].events == w.nodes[n].events
    ensures !(s.Finish? && s.n == n) ==> Do(w, s).nodes[n].hubCursor == w.nodes[n].hubCursor && Do(w, s).nodes[n].done == w.nodes[n].done
  {
    hide Inv, AppendOne, Mirror, Of, Foreign, IsTop, IsTopObligation, FeedSince, EventsSince, Stored, Pos, AppendAll, ProjectAll,
         Project, ObligationId, EventId;
    if s.Begin? {
      BeginKeepsSeen(w, s.n);
    }
  }

  lemma MirrorAtNode(w: World, s: Step, n: NodeId)
    requires Can(w, s) && n in w.nodes && RunsMirror(w, s, n)
    ensures n in Do(w, s).nodes && Saw(n, w.nodes[n], Do(w, s).nodes[n])
  {
    hide Mirror, Of, Foreign, EventId;
  }

  /** No event is ever removed. */
  lemma EventsStay(w: World, s: Step, n: NodeId)
    requires Can(w, s) && n in w.nodes
    ensures n in Do(w, s).nodes && forall e :: e in w.nodes[n].events ==> e in Do(w, s).nodes[n].events
  {
    hide AppendOne, Mirror, Of, Foreign, IsTop, IsTopObligation, FeedSince, EventsSince, Stored, Pos, AppendAll, ProjectAll,
         Project, ObligationId, EventId;
  }

  /** Logs only grow. */
  lemma LogsGrow(w: World, s: Step)
    requires Inv(w) && Can(w, s)
    ensures Do(w, s).nodes.Keys == w.nodes.Keys
    ensures forall n :: n in w.nodes ==> Own(n, w.nodes[n]) <= Own(n, Do(w, s).nodes[n])
  {
    hide Inv, Can, Do, Own;
    HandlersStay(w, s);
    forall n | n in w.nodes ensures Own(n, w.nodes[n]) <= Own(n, Do(w, s).nodes[n]) {
      LogGrows(w, s, n);
    }
  }

  lemma LogGrows(w: World, s: Step, n: NodeId)
    requires Inv(w) && Can(w, s) && n in w.nodes
    ensures n in Do(w, s).nodes && Own(n, w.nodes[n]) <= Own(n, Do(w, s).nodes[n])
  {
    hide Inv, AppendOne, Mirror, Of, Foreign, IsTop, IsTopObligation, FeedSince, EventsSince, Stored, Pos, AppendAll, ProjectAll,
         Project, ObligationId, EventId;
    var nd' := Do(w, s).nodes[n];
    if s.Begin? {
      BeginKeepsSeen(w, s.n);
    } else if nd'.events != w.nodes[n].events {
      var e := nd'.events[|w.nodes[n].events|];
      assert nd'.events == w.nodes[n].events + [e];
      AppendSelects(w.nodes[n].events, e, n);
    }
  }
}

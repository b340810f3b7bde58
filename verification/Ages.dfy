/**
 When a debt was made: the creation time that orders payments is, on every node, the maker's own time for the node's own debts and the
 time of the debt.created event for all others.
 */
module Ages {
  import opened Ids
  import opened Events
  import opened Ledger
  import opened Protocol
  import opened Replication
  import opened Causality
  import opened Status
  import opened Weights
  import opened Traces

  /** e is the creation the row of an obligation came from. */
  ghost predicate MadeBy(nd: Node, oid: string, e: Event)
    requires oid in nd.table
  {
    && e in nd.events && e.body.DebtCreated? && e.body.oid == oid
    && nd.table[oid].createdAt == e.ts && nd.table[oid].row.source == e.body.origin && nd.table[oid].row.terms == e.body.terms
  }

  /** Rows of other nodes' obligations carry the time of their creation event. */
  ghost predicate AgesOk(n: NodeId, nd: Node) {
    forall oid :: oid in nd.table && nd.table[oid].row.source != n ==> exists e :: MadeBy(nd, oid, e)
  }

  predicate SameAge(a: Obligation, b: Obligation) {
    b.createdAt == a.createdAt && b.row.source == a.row.source && b.row.terms == a.row.terms
  }

  /** A row keeps its age, or is new: the node's own, or mirrored just now. */
  lemma RowAges(w: World, s: Step, n: NodeId, oid: string)
    requires Can(w, s) && n in w.nodes && n in Do(w, s).nodes && oid in Do(w, s).nodes[n].table
    ensures oid in w.nodes[n].table ==> SameAge(w.nodes[n].table[oid], Do(w, s).nodes[n].table[oid])
    ensures oid !in w.nodes[n].table ==>
              var nd, nd' := w.nodes[n], Do(w, s).nodes[n];
              || nd'.table[oid].row.source == n
              || (RunsMirror(w, s, n) && Pending(nd).body.DebtCreated? && Pending(nd).body.oid == oid
                  && nd'.table[oid] == Obligation(Row(Pending(nd).body.origin, Pending(nd).body.terms, Pending(nd).body.weight, true), Pending(nd).ts))
  {
    hide AppendOne, Of, Foreign, IsTop, IsTopObligation, FeedSince, EventsSince, Stored, Pos, AppendAll, ProjectAll, Project,
         ObligationId, EventId;
  }

  lemma StepKeepsAges(w: World, s: Step, n: NodeId)
    requires Inv(w) && Can(w, s) && n in w.nodes && AgesOk(n, w.nodes[n])
    ensures n in Do(w, s).nodes && AgesOk(n, Do(w, s).nodes[n])
  {
    hide Inv, Do, Can, RunsMirror;
    EventsStay(w, s, n);
    var nd, nd' := w.nodes[n], Do(w, s).nodes[n];
    forall oid | oid in nd'.table && nd'.table[oid].row.source != n ensures exists e :: MadeBy(nd', oid, e) {
      RowAges(w, s, n, oid);
      if oid in nd.table {
        var e :| MadeBy(nd, oid, e);
        assert MadeBy(nd', oid, e);
      } else {
        MirrorBusy(w, s, n);
        PendingInLog(w, n);
        assert MadeBy(nd', oid, Pending(nd));
      }
    }
  }

  lemma MirrorBusy(w: World, s: Step, n: NodeId)
    requires Can(w, s) && RunsMirror(w, s, n)
    ensures n in w.nodes && Busy(w.nodes[n])
  {
  }

  lemma {:induction false} RunKeepsAges(w: World, steps: seq<Step>, n: NodeId)
    requires Inv(w) && Runs(w, steps) && n in w.nodes && AgesOk(n, w.nodes[n])
    ensures n in Final(w, steps).nodes && AgesOk(n, Final(w, steps).nodes[n])
    decreases |steps|
  {
    hide Inv, Can, Do, AgesOk;
    if steps != [] {
      StepKeepsAges(w, steps[0], n);
      StepKeepsInv(w, steps[0]);
      RunKeepsAges(Do(w, steps[0]), steps[1..], n);
    }
  }

  /** In every run, on every node, the row of another node's obligation has the time, maker and terms of the debt.created event of that
      id in the node's log. */
  lemma MirroredAge(w0: World, steps: seq<Step>, n: NodeId, oid: string, i: nat)
    requires Start(w0) && Runs(w0, steps) && n in Final(w0, steps).nodes
    requires var nd := Final(w0, steps).nodes[n];
             && oid in nd.table && nd.table[oid].row.source != n
             && i < |nd.events| && nd.events[i].body.DebtCreated? && nd.events[i].body.oid == oid
    ensures var nd := Final(w0, steps).nodes[n];
            && nd.table[oid].createdAt == nd.events[i].ts
            && nd.table[oid].row.source == nd.events[i].body.origin && nd.table[oid].row.terms == nd.events[i].body.terms
  {
    hide Inv, CausalInv, Can, Do, Own;
    AgedRun(w0, steps, n);
    var w := Final(w0, steps);
    var nd := w.nodes[n];
    var e :| MadeBy(nd, oid, e);
    StemsFrom(w, n, e);
    StemsFrom(w, n, nd.events[i]);
    SameCreation(w, e, nd.events[i]);
  }

  /** And there is such an event. */
  lemma MirroredHasEvent(w0: World, steps: seq<Step>, n: NodeId, oid: string)
    requires Start(w0) && Runs(w0, steps) && n in Final(w0, steps).nodes
    requires oid in Final(w0, steps).nodes[n].table && Final(w0, steps).nodes[n].table[oid].row.source != n
    ensures CreatedIn(Final(w0, steps).nodes[n].events, oid)
  {
    hide Inv, CausalInv, Can, Do, Own;
    AgedRun(w0, steps, n);
    var nd := Final(w0, steps).nodes[n];
    var e :| MadeBy(nd, oid, e);
    var i :| 0 <= i < |nd.events| && nd.events[i] == e;
  }

  lemma AgedRun(w0: World, steps: seq<Step>, n: NodeId)
    requires Start(w0) && Runs(w0, steps) && n in Final(w0, steps).nodes
    ensures AgesOk(n, Final(w0, steps).nodes[n]) && Inv(Final(w0, steps)) && CausalInv(Final(w0, steps))
  {
    hide Inv, CausalInv, Can, Do, Runs, Final, AgesOk;
    StartInv(w0);
    StartCausal(w0);
    RunKeepsCausal(w0, steps);
    RunKeepsInv(w0, steps);
    NodesStay(w0, steps);
    assert AgesOk(n, w0.nodes[n]) by { StartAges(w0, n); }
    RunKeepsAges(w0, steps, n);
  }

  lemma StartAges(w: World, n: NodeId)
    requires Start(w) && n in w.nodes
    ensures AgesOk(n, w.nodes[n])
  {
  }

  /** No step of any run changes when, by whom or on what terms an obligation was made, and none removes it. */
  lemma {:induction false} AgeStays(w: World, steps: seq<Step>, n: NodeId, oid: string)
    requires Runs(w, steps) && n in w.nodes && oid in w.nodes[n].table
    ensures n in Final(w, steps).nodes && oid in Final(w, steps).nodes[n].table
    ensures SameAge(w.nodes[n].table[oid], Final(w, steps).nodes[n].table[oid])
    decreases |steps|
  {
    hide Can, Do, SameAge;
    if steps == [] {
      assert SameAge(w.nodes[n].table[oid], w.nodes[n].table[oid]) by { Unchanged(w.nodes[n].table[oid]); }
    } else {
      RowStays(w, steps[0], n, oid);
      RowAges(w, steps[0], n, oid);
      var w' := Do(w, steps[0]);
      AgeStays(w', steps[1..], n, oid);
      AgeChain(w.nodes[n].table[oid], w'.nodes[n].table[oid], Final(w, steps).nodes[n].table[oid]);
    }
  }

  lemma Unchanged(a: Obligation)
    ensures SameAge(a, a)
  {
  }

  lemma AgeChain(a: Obligation, b: Obligation, c: Obligation)
    requires SameAge(a, b) && SameAge(b, c)
    ensures SameAge(a, c)
  {
  }

  lemma RowStays(w: World, s: Step, n: NodeId, oid: string)
    requires Can(w, s) && n in w.nodes && oid in w.nodes[n].table
    ensures n in Do(w, s).nodes && oid in Do(w, s).nodes[n].table
  {
    hide AppendOne, Of, Foreign, IsTop, IsTopObligation, FeedSince, EventsSince, Stored, Pos, AppendAll, ProjectAll, Project,
         ObligationId, EventId;
  }
}

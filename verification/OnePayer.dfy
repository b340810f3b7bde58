/**
 With one payer for every obligation no second run of a debt handler changes a table, so crashes never matter.
 */
module OnePayer {
  import opened Ids
  import opened Events
  import opened Ledger
  import opened Protocol
  import opened Replication
  import opened Causality
  import opened Status
  import opened Weights
  import opened Traces
  import opened Ticks
  import opened Crashes
  import opened CrashFree
  import PayerIndex

  /** Every obligation has been paid on by one node only. */
  ghost predicate SinglePayers(w: World) {
    forall oid :: HasPayer(w, oid)
  }

  ghost predicate HasPayer(w: World, oid: string) {
    exists p :: SinglePayer(w, oid, p)
  }

  /** The debt handler has run on e, and running it again changes nothing. */
  predicate Rested(t: Table, e: Event) {
    e.body.Debt() ==>
      && e.body.oid in t
      && (e.body.DebtResolved? ==> !t[e.body.oid].row.open)
      && (e.body.DebtAdjusted? && t[e.body.oid].row.open ==> t[e.body.oid].row.weight == e.body.newWeight)
  }

  /** The foreign rows stay, and what the debt handler has done to the last of them is not undone by the node itself. */
  lemma RestedStays(w: World, s: Step)
    requires Inv(w) && CausalInv(w) && Can(w, s) && Careful(w, s) && MarkBlind(s) && !s.Append? && !s.Materialize?
    requires SinglePayers(Do(w, s))
    ensures s.n in w.nodes && s.n in Do(w, s).nodes
    ensures var n := s.n;
            var a, a' := w.nodes[n], Do(w, s).nodes[n];
            var rows := Foreign(a.events, n);
            && Foreign(a'.events, n) == rows
            && (rows != [] && Rested(a.table, rows[|rows| - 1]) ==> Rested(a'.table, rows[|rows| - 1]))
  {
    hide Inv, CausalInv, Can, Do, Foreign, Rested, SinglePayers, Of;
    NodeOfStep(w, s);
    var n := s.n;
    var a, rows := w.nodes[n], Foreign(w.nodes[n].events, n);
    EventsStay(w, s, n);
    if IsLocal(s) {
      var x := LocalAtNode(w, s);
      var a' := Do(w, s).nodes[n];
      if Grew(n, a, a', x) && rows != [] && Rested(a.table, rows[|rows| - 1]) {
        assert Own(n, a')[|Own(n, a)|] == x;
        if x.body.Follows() && rows[|rows| - 1].body.Follows() && x.body.oid == rows[|rows| - 1].body.oid {
          LastRowElsewhere(w, n);
          LogsGrow(w, s);
          OnePaysOnly(w, Do(w, s), n, x, rows[|rows| - 1]);
        }
        EmitKeepsRested(a.table, a'.table, rows[|rows| - 1], x);
      }
    } else {
      SyncLeaves(w, s);
    }
  }

  lemma LastRowElsewhere(w: World, n: NodeId)
    requires Inv(w) && n in w.nodes && Foreign(w.nodes[n].events, n) != []
    ensures var rows := Foreign(w.nodes[n].events, n);
            var e := rows[|rows| - 1];
            e.source != n && e.source in w.nodes && e in Own(e.source, w.nodes[e.source])
  {
    hide Inv, Foreign, Of;
    var rows := Foreign(w.nodes[n].events, n);
    var x := ForeignIndex(w.nodes[n].events, n, |rows| - 1);
    StemsFrom(w, n, rows[|rows| - 1]);
  }

  lemma PickPayer(w: World, oid: string) returns (p: NodeId)
    requires SinglePayers(w)
    ensures SinglePayer(w, oid, p)
  {
    hide SinglePayer;
    assert HasPayer(w, oid);
    p :| SinglePayer(w, oid, p);
  }

  /** Two nodes cannot both have changed one obligation. */
  lemma OnePaysOnly(w: World, w': World, n: NodeId, x: Event, e: Event)
    requires SinglePayers(w') && w'.nodes.Keys == w.nodes.Keys && n in w.nodes && x in Own(n, w'.nodes[n])
    requires forall m :: m in w.nodes ==> Own(m, w.nodes[m]) <= Own(m, w'.nodes[m])
    requires e.source in w.nodes && e in Own(e.source, w.nodes[e.source]) && e.source != n
    ensures !(x.body.Follows() && e.body.Follows() && x.body.oid == e.body.oid)
  {
    hide Own, SinglePayer, SinglePayers;
    if x.body.Follows() && e.body.Follows() && x.body.oid == e.body.oid {
      var a, b := Own(e.source, w.nodes[e.source]), Own(e.source, w'.nodes[e.source]);
      var i :| 0 <= i < |a| && a[i] == e;
      var j :| 0 <= j < |Own(n, w'.nodes[n])| && Own(n, w'.nodes[n])[j] == x;
      assert b[i] == e;
      var p := PickPayer(w', x.body.oid);
      BothArePayer(w', x.body.oid, p, n, j, e.source, i);
    }
  }

  lemma BothArePayer(w: World, oid: string, p: NodeId, n: NodeId, j: nat, m: NodeId, i: nat)
    requires SinglePayer(w, oid, p) && n in w.nodes && m in w.nodes && j < |Own(n, w.nodes[n])| && i < |Own(m, w.nodes[m])|
    requires Changes(Own(n, w.nodes[n])[j], oid) && Changes(Own(m, w.nodes[m])[i], oid)
    ensures n == m
  {
    hide Of;
  }

  lemma EmitKeepsRested(t: Table, t': Table, e: Event, x: Event)
    requires Rested(t, e) && forall oid :: RowOf(t', oid) == Effect(RowOf(t, oid), x, oid)
    requires !(x.body.Follows() && e.body.Follows() && x.body.oid == e.body.oid)
    ensures Rested(t', e)
  {
    if e.body.Debt() {
      assert RowOf(t', e.body.oid) == Effect(RowOf(t, e.body.oid), x, e.body.oid);
    }
  }

  lemma RestedAgain(t: Table, e: Event)
    requires Rested(t, e)
    ensures Mirror(t, e) == t
  {
    if e.body.Debt() {
      var oid := e.body.oid;
      assert t[oid := t[oid]] == t;
      assert t[oid] == Obligation(t[oid].row, t[oid].createdAt);
    }
  }

  lemma RestedAfter(t: Table, e: Event)
    requires e.body.Follows() ==> e.body.oid in t
    ensures Rested(Mirror(t, e), e)
  {
  }

  lemma PayersBefore(w: World, steps: seq<Step>)
    requires Inv(w) && Runs(w, steps) && SinglePayers(Final(w, steps))
    ensures SinglePayers(w)
  {
    hide Inv, Runs, Final, SinglePayer, SinglePayers;
    assert SinglePayers(w) by {
      forall oid ensures HasPayer(w, oid) {
        var p := PickPayer(Final(w, steps), oid);
        PayerIndex.PayerFromEnd(w, steps, oid, p);
      }
      AllHavePayers(w);
    }
  }

  lemma AllHavePayers(w: World)
    requires forall oid :: HasPayer(w, oid)
    ensures SinglePayers(w)
  {
  }

  // ---- Handlers that have run leave nothing to do ----

  /** Some debt handler has run on e. */
  ghost predicate MirrorRan(runs: seq<(string, nat)>, e: Event, handlers: Handlers) {
    exists j: nat :: RanMirror(runs, e, handlers, j)
  }

  ghost predicate RanMirror(runs: seq<(string, nat)>, e: Event, handlers: Handlers, j: nat) {
    (e.Id(), j) in runs && j < Count(handlers, e) && HandlersFor(handlers, e.body.Type())[j].MirrorDebt?
  }

  /** Handlers have run on stored rows only; and if a debt handler has run on the last row, running it again changes nothing. */
  ghost predicate RestOk(n: NodeId, nd: Node, handlers: Handlers) {
    var rows := Foreign(nd.events, n);
    && (forall key: (string, nat) :: key in nd.runs ==> Stored(rows, key.0))
    && (rows != [] && MirrorRan(nd.runs, rows[|rows| - 1], handlers) ==> Rested(nd.table, rows[|rows| - 1]))
  }

  ghost predicate RestInv(w: World) {
    forall n :: n in w.nodes ==> RestOk(n, w.nodes[n], w.handlers)
  }

  lemma SameRest(n: NodeId, nd: Node, nd': Node, handlers: Handlers)
    requires RestOk(n, nd, handlers) && Foreign(nd'.events, n) == Foreign(nd.events, n) && nd'.runs == nd.runs
    requires var rows := Foreign(nd.events, n);
             rows != [] && Rested(nd.table, rows[|rows| - 1]) ==> Rested(nd'.table, rows[|rows| - 1])
    ensures RestOk(n, nd', handlers)
  {
    hide Foreign, Stored, MirrorRan, Rested;
  }

  /** A new row has not been handled. */
  lemma NewRowRests(w: World, n: NodeId)
    requires Inv(w) && n in w.nodes && w.nodes[n].inbox != [] && RestOk(n, w.nodes[n], w.handlers)
    ensures RestOk(n, BeginAt(w.nodes[n]), w.handlers)
  {
    hide Inv, Foreign, Rested, EventId, Stored;
    var nd, nd' := w.nodes[n], BeginAt(w.nodes[n]);
    if Stored(nd.events, Pending(nd).Id()) {
      SameRest(n, nd, nd', w.handlers);
    } else {
      var e, rows := Pending(nd), Foreign(nd.events, n);
      PendingStored(w, n);
      AppendSelects(nd.events, e, n);
      forall key: (string, nat) | key in nd.runs ensures Stored(rows + [e], key.0) && key.0 != e.Id() {
        StoredAppend(rows, e, key.0);
      }
    }
  }

  lemma HandleRests(w: World, n: NodeId)
    requires Inv(w) && CausalInv(w) && StatusInv(w) && n in w.nodes && RestOk(n, w.nodes[n], w.handlers)
    requires Busy(w.nodes[n]) && w.nodes[n].work.idx < |Todo(w, n)|
    ensures RestOk(n, HandlerAt(n, w.nodes[n], Todo(w, n)[w.nodes[n].work.idx]), w.handlers)
  {
    hide Inv, CausalInv, StatusInv, RestOk, InEvent, HandlerAt, HandlersFor, NextHandler;
    CrashFree.AtHandler(w, n);
    PendingKnown(w, n);
    InEventCounts(n, w.nodes[n], w.handlers);
    HandleNodeRests(n, w.nodes[n], w.handlers);
  }

  lemma InEventCounts(n: NodeId, nd: Node, handlers: Handlers)
    requires InEvent(n, nd, handlers)
    ensures Busy(nd) && nd.work.idx < Count(handlers, Pending(nd))
  {
  }

  lemma HandleNodeRests(n: NodeId, nd: Node, handlers: Handlers)
    requires RestOk(n, nd, handlers) && InEvent(n, nd, handlers)
    requires Pending(nd).body.Follows() ==> Pending(nd).body.oid in nd.table
    ensures RestOk(n, HandlerAt(n, nd, NextHandler(nd, handlers)), handlers)
  {
    hide Foreign, Rested, EventId, Mirror, HandlersFor, RestOk, HandlerAt, Skips;
    var h := NextHandler(nd, handlers);
    var nd' := HandlerAt(n, nd, h);
    HandlerParts(n, nd, h);
    if Skips(nd) {
      SameRest(n, nd, nd', handlers);
    } else if h.MirrorDebt? {
      RestedAfter(nd.table, Pending(nd));
      MirrorRests(n, nd, nd', handlers);
    } else {
      OpaqueRests(n, nd, nd', handlers, Key(nd));
    }
  }

  lemma HandlerParts(n: NodeId, nd: Node, h: Handler)
    requires Busy(nd)
    ensures var nd' := HandlerAt(n, nd, h);
            && nd'.events == nd.events
            && nd'.runs == (if Skips(nd) then nd.runs else nd.runs + [Key(nd)])
            && nd'.table == (if !Skips(nd) && h.MirrorDebt? then Mirror(nd.table, Pending(nd)) else nd.table)
  {
    hide Mirror, Foreign, EventId;
  }

  lemma KeysStored(n: NodeId, nd: Node, runs: seq<(string, nat)>, key: (string, nat))
    requires (forall k: (string, nat) :: k in nd.runs ==> Stored(Foreign(nd.events, n), k.0)) && runs == nd.runs + [key]
    requires Foreign(nd.events, n) != [] && Foreign(nd.events, n)[|Foreign(nd.events, n)| - 1].Id() == key.0
    ensures forall k: (string, nat) :: k in runs ==> Stored(Foreign(nd.events, n), k.0)
  {
    hide Foreign, EventId;
  }

  lemma MirrorRests(n: NodeId, nd: Node, nd': Node, handlers: Handlers)
    requires RestOk(n, nd, handlers) && Busy(nd) && nd'.events == nd.events && nd'.runs == nd.runs + [Key(nd)]
    requires Foreign(nd.events, n) != [] && Foreign(nd.events, n)[|Foreign(nd.events, n)| - 1] == Pending(nd)
    requires Rested(nd'.table, Pending(nd))
    ensures RestOk(n, nd', handlers)
  {
    hide Foreign, Rested, EventId, Stored, MirrorRan;
    KeysStored(n, nd, nd'.runs, Key(nd));
  }

  lemma OpaqueRests(n: NodeId, nd: Node, nd': Node, handlers: Handlers, key: (string, nat))
    requires RestOk(n, nd, handlers) && Busy(nd) && nd'.events == nd.events && nd'.table == nd.table && nd'.runs == nd.runs + [key] && key == Key(nd)
    requires Foreign(nd.events, n) != [] && Foreign(nd.events, n)[|Foreign(nd.events, n)| - 1] == Pending(nd)
    requires nd.work.idx < Count(handlers, Pending(nd)) && !HandlersFor(handlers, Pending(nd).body.Type())[nd.work.idx].MirrorDebt?
    ensures RestOk(n, nd', handlers)
  {
    hide Foreign, Rested, EventId, Stored, HandlersFor;
    KeysStored(n, nd, nd'.runs, key);
    if MirrorRan(nd'.runs, Pending(nd), handlers) {
      var j: nat :| RanMirror(nd'.runs, Pending(nd), handlers, j);
      assert RanMirror(nd.runs, Pending(nd), handlers, j);
    }
  }

  /** Steps that leave the node's rows, runs and table alone. */
  lemma ElsewhereSame(w: World, s: Step, n: NodeId)
    requires Can(w, s) && n in w.nodes
    requires s.Append? || s.Materialize? || s.n != n || s.HandlerFails? || s.MarkDone? || s.Finish? || s.Abort? || s.Restart?
    ensures n in Do(w, s).nodes
    ensures var nd, nd' := w.nodes[n], Do(w, s).nodes[n]; nd'.events == nd.events && nd'.runs == nd.runs && nd'.table == nd.table
  {
    hide AppendOne, Mirror, Of, Foreign, IsTop, IsTopObligation, FeedSince, EventsSince, Stored, Pos, AppendAll, ProjectAll,
         Project, ObligationId, EventId;
  }

  lemma BlindRuns(w: World, s: Step)
    requires Can(w, s) && MarkBlind(s) && !s.Append? && !s.Materialize?
    ensures s.n in w.nodes && s.n in Do(w, s).nodes && Do(w, s).nodes[s.n].runs == w.nodes[s.n].runs
  {
    hide Of, AppendAll, ProjectAll, EventsSince, FeedSince, Pos, ObligationId, EventId;
  }

  lemma RestAtNode(w: World, s: Step, n: NodeId)
    requires Inv(w) && CausalInv(w) && StatusInv(w) && RestInv(w) && Can(w, s) && Careful(w, s) && SinglePayers(Do(w, s)) && n in w.nodes
    ensures n in Do(w, s).nodes && RestOk(n, Do(w, s).nodes[n], w.handlers)
  {
    hide Inv, CausalInv, StatusInv, Can, Do, Careful, RestOk, SinglePayers, Foreign, Rested, BeginAt, HandlerAt;
    assert RestOk(n, w.nodes[n], w.handlers);
    if s.Append? || s.Materialize? || s.n != n || s.HandlerFails? || s.MarkDone? || s.Finish? || s.Abort? || s.Restart? {
      ElsewhereSame(w, s, n);
      SameRest(n, w.nodes[n], Do(w, s).nodes[n], w.handlers);
    } else if s.Begin? {
      PayerIndex.BeginCan(w, s);
      PayerIndex.BeginStays(w, s, n);
      NewRowRests(w, n);
    } else if s.Handle? {
      CrashFree.HandleNow(w, n);
      CanHandle(w, n);
      HandleRests(w, n);
    } else {
      BlindRuns(w, s);
      RestedStays(w, s);
      SameRest(n, w.nodes[n], Do(w, s).nodes[n], w.handlers);
    }
  }

  lemma StepKeepsRest(w: World, s: Step)
    requires Inv(w) && CausalInv(w) && StatusInv(w) && RestInv(w) && Can(w, s) && Careful(w, s) && SinglePayers(Do(w, s))
    ensures RestInv(Do(w, s))
  {
    hide Inv, CausalInv, StatusInv, Can, Do, Careful, RestOk, SinglePayers;
    HandlersStay(w, s);
    forall n | n in Do(w, s).nodes ensures RestOk(n, Do(w, s).nodes[n], w.handlers) {
      RestAtNode(w, s, n);
    }
  }

  /** So a second run of a debt handler is harmless. */
  lemma RestIsHarmless(w: World, s: Step)
    requires Inv(w) && RestInv(w) && Can(w, s)
    ensures Harmless(w, s)
  {
    hide Inv, Can, Do, Foreign, Rested, EventId, Mirror, HandlersFor;
    if s.Handle? {
      var n := s.n;
      CrashFree.HandleNow(w, n);
      if RunsMirror(w, s, n) && Key(w.nodes[n]) in w.nodes[n].runs {
        DoneAround(w, n);
        MirrorAtNode(w, s, n);
        assert RestOk(n, w.nodes[n], w.handlers);
        assert RanMirror(w.nodes[n].runs, Pending(w.nodes[n]), w.handlers, w.nodes[n].work.idx);
        RestedAgain(w.nodes[n].table, Pending(w.nodes[n]));
      }
    }
  }

  lemma {:induction false} RunIsHarmless(w: World, steps: seq<Step>)
    requires Inv(w) && CausalInv(w) && StatusInv(w) && MirrorsDebts(w.handlers) && RestInv(w)
    requires Runs(w, steps) && CarefulRun(w, steps) && SinglePayers(Final(w, steps))
    ensures HarmlessRun(w, steps)
    decreases |steps|
  {
    hide Inv, CausalInv, StatusInv, MirrorsDebts, RestInv, Can, Do, SinglePayers, Careful, Harmless;
    if steps != [] {
      var s, w' := steps[0], Do(w, steps[0]);
      StepKeepsInv(w, s);
      StepKeepsCausal(w, s);
      StepKeepsStatus(w, s);
      HandlersStay(w, s);
      PayersBefore(w', steps[1..]);
      RestIsHarmless(w, s);
      StepKeepsRest(w, s);
      RunIsHarmless(w', steps[1..]);
    }
  }

  /** With one payer for every obligation every run has a companion that marks each handler at once and ends alike, so however often
      crashes make handlers run again, tables, logs and hub are those of a run without a crash. */
  lemma CrashesDoNotMatter(w0: World, steps: seq<Step>) returns (free: seq<Step>)
    requires Start(w0) && MirrorsDebts(w0.handlers) && Runs(w0, steps) && CarefulRun(w0, steps) && SinglePayers(Final(w0, steps))
    ensures HarmlessRun(w0, steps)
    ensures Runs(w0, free) && CarefulRun(w0, free) && AtOnce(w0, free) && EndsAlike(w0, steps, free)
  {
    hide Inv, CausalInv, StatusInv, MirrorsDebts, RestInv, Can, Do, SinglePayers, AtOnce, Runs, Final, CarefulRun, HarmlessRun, EndsAlike, Start;
    StartInv(w0);
    StartCausal(w0);
    StartStatus(w0);
    StartRest(w0);
    RunIsHarmless(w0, steps);
    free := CompanionRun(w0, steps);
  }

  lemma StartRest(w: World)
    requires Start(w)
    ensures RestInv(w)
  {
    hide Rested, EventId;
  }
}

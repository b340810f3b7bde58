/**
 Handlers that run again.

 A node that stops between running a handler and marking it runs the handler again on the next try.  For the debt handler this matters
 exactly when the node itself has paid on the same open obligation in between.  With one payer an obligation it never does:
 every run, crashes and all, ends like a run in which every handler is marked as soon as it has run.
 */
module Crashes {
  import opened Wrappers
  import opened Ids
  import opened Events
  import opened Ledger
  import opened Protocol
  import opened Replication
  import opened Causality
  import opened Status
  import opened Weights
  import opened Traces
  import opened PayerIndex
  import opened Ticks

  lemma {:induction false} CarefulOn(w: World, a: seq<Step>, b: seq<Step>)
    requires Runs(w, a) && CarefulRun(w, a) && Runs(Final(w, a), b) && CarefulRun(Final(w, a), b)
    ensures Runs(w, a + b) && Final(w, a + b) == Final(Final(w, a), b) && CarefulRun(w, a + b)
    decreases |a|
  {
    hide Can, Do, Careful;
    if a == [] {
      assert a + b == b;
    } else {
      assert (a + b)[1..] == a[1..] + b;
      CarefulOn(Do(w, a[0]), a[1..], b);
      RunOn(w, a, b);
    }
  }

  lemma {:induction false} PaysNothingIsCareful(w: World, steps: seq<Step>)
    requires Runs(w, steps) && PaysNothing(steps)
    ensures CarefulRun(w, steps) && PayingRun(steps)
    decreases |steps|
  {
    hide Can, Do;
    if steps != [] {
      PaysNothingIsCareful(Do(w, steps[0]), steps[1..]);
    }
  }

  // ---- Since the handler last ran ----

  /** How many events of its own n had emitted when its debt handler last ran, if that was on an event n has not finished since. */
  ghost function LastRun(w: World, steps: seq<Step>, n: NodeId, before: Option<nat>): Option<nat>
    requires Runs(w, steps) && n in w.nodes
    decreases |steps|
  {
    if steps == [] then before
    else
      var w' := Do(w, steps[0]);
      if n in w'.nodes then LastRun(w', steps[1..], n, RunMark(w, steps[0], n, before)) else None
  }

  ghost function RunMark(w: World, s: Step, n: NodeId, before: Option<nat>): Option<nat>
    requires Can(w, s) && n in w.nodes
  {
    if RunsMirror(w, s, n) then Some(|Own(n, w.nodes[n])|)
    else if s == Finish(n) || (s == Begin(n) && !Stored(w.nodes[n].events, Pending(w.nodes[n]).Id())) then None
    else before
  }

  /** What the debt handler has left behind, given what the node has emitted since. */
  ghost predicate Ran(t: Table, since: seq<Event>, e: Event) {
    e.body.Debt() ==>
      && e.body.oid in t
      && (e.body.DebtResolved? ==> !t[e.body.oid].row.open)
      && (e.body.DebtAdjusted? && t[e.body.oid].row.open ==>
            if AdjustedIn(since, e.body.oid) then t[e.body.oid].row.weight < e.body.newWeight
            else t[e.body.oid].row.weight == e.body.newWeight)
  }

  ghost predicate RanInv(n: NodeId, nd: Node, at: Option<nat>) {
    at.Some? ==>
      var own, rows := Own(n, nd), Foreign(nd.events, n);
      at.value <= |own| && rows != [] && Ran(nd.table, own[at.value..], rows[|rows| - 1])
  }

  /** The node emits e while a run of the handler is outstanding. */
  lemma EmitKeepsRan(t: Table, t': Table, since: seq<Event>, e: Event, x: Event)
    requires Ran(t, since, e) && forall oid :: RowOf(t', oid) == Effect(RowOf(t, oid), x, oid)
    requires x.body.DebtAdjusted? ==>
               x.body.oid in t && t[x.body.oid].row.open && x.body.newWeight < t[x.body.oid].row.weight
    ensures Ran(t', since + [x], e)
  {
    hide AdjustedIn;
    if e.body.Debt() {
      var oid := e.body.oid;
      AdjustedInStep(since, x, oid);
      assert RowOf(t', oid) == Effect(RowOf(t, oid), x, oid);
    }
  }

  /** Right after the handler has run. */
  lemma JustRan(t: Table, e: Event)
    requires e.body.Follows() ==> e.body.oid in t
    ensures Ran(Mirror(t, e), [], e)
  {
  }

  lemma PendingKnown(w: World, n: NodeId)
    requires Inv(w) && CausalInv(w) && StatusInv(w) && n in w.nodes && Busy(w.nodes[n])
    ensures Pending(w.nodes[n]).body.Follows() ==> Pending(w.nodes[n]).body.oid in w.nodes[n].table
  {
    hide Inv, FeedCausal, RowsOk, CreatedHere, AllHonest, Of, Foreign, Known, Settles, Causal;
    var nd := w.nodes[n];
    assert NodeCausal(n, nd) && StatusOk(n, nd);
    DoneAround(w, n);
    if Pending(nd).body.Follows() {
      BuildsOnKnown(n, nd, Pending(nd));
    }
  }

  lemma StepKeepsRan(w: World, s: Step, n: NodeId, at: Option<nat>)
    requires Inv(w) && CausalInv(w) && StatusInv(w) && Can(w, s) && Careful(w, s) && TakesOff(s) && n in w.nodes
    requires RanInv(n, w.nodes[n], at)
    ensures n in Do(w, s).nodes && RanInv(n, Do(w, s).nodes[n], RunMark(w, s, n, at))
  {
    hide Inv, CausalInv, StatusInv, Do, Of, Foreign, Ran, Mirror, Stored, RowOf, Effect;
    EventsStay(w, s, n);
    var nd, nd' := w.nodes[n], Do(w, s).nodes[n];
    if IsLocal(s) && s.n == n {
      var x := LocalAtNode(w, s);
      if Grew(n, nd, nd', x) && at.Some? {
        var own, rows := Own(n, nd), Foreign(nd.events, n);
        EmitKeepsRan(nd.table, nd'.table, own[at.value..], rows[|rows| - 1], x);
        assert (own + [x])[at.value..] == own[at.value..] + [x];
      }
    } else if RunsMirror(w, s, n) {
      MirrorAtNode(w, s, n);
      PendingKnown(w, n);
      DoneAround(w, n);
      JustRan(nd.table, Pending(nd));
      assert Own(n, nd)[|Own(n, nd)|..] == [];
    } else {
      QuietAtNode(w, s, n);
      if s == Begin(n) && at.Some? && Stored(nd.events, Pending(nd).Id()) {
        assert nd'.events == nd.events by { StoredBegins(w, n); }
      }
    }
  }

  lemma StoredBegins(w: World, n: NodeId)
    requires Can(w, Begin(n)) && Stored(w.nodes[n].events, Pending(w.nodes[n]).Id())
    ensures Do(w, Begin(n)).nodes[n].events == w.nodes[n].events
  {
    hide Stored;
  }

  lemma {:induction false} RunKeepsRan(w: World, steps: seq<Step>, n: NodeId, at: Option<nat>)
    requires Inv(w) && CausalInv(w) && StatusInv(w) && MirrorsDebts(w.handlers) && n in w.nodes
    requires Runs(w, steps) && CarefulRun(w, steps) && PayingRun(steps) && RanInv(n, w.nodes[n], at)
    ensures n in Final(w, steps).nodes && RanInv(n, Final(w, steps).nodes[n], LastRun(w, steps, n, at))
    decreases |steps|
  {
    hide Inv, CausalInv, StatusInv, MirrorsDebts, Can, Do, Careful, RanInv, RunMark, TakesOff;
    if steps != [] {
      var s := steps[0];
      assert TakesOff(s);
      StepKeepsRan(w, s, n, at);
      StepKeepsInv(w, s);
      StepKeepsCausal(w, s);
      StepKeepsStatus(w, s);
      HandlersStay(w, s);
      RunKeepsRan(Do(w, s), steps[1..], n, RunMark(w, s, n, at));
    }
  }

  /** The row, and not only the table's rows, comes out the same. */
  lemma MirrorChangesIff(t: Table, since: seq<Event>, e: Event)
    requires Ran(t, since, e)
    ensures Mirror(t, e) != t <==>
            e.body.DebtAdjusted? && e.body.oid in t && t[e.body.oid].row.open && AdjustedIn(since, e.body.oid)
  {
    hide AdjustedIn;
    if e.body.Debt() {
      var oid := e.body.oid;
      assert t[oid := t[oid]] == t;
      assert t[oid] == Obligation(t[oid].row, t[oid].createdAt);
      if e.body.DebtAdjusted? && t[oid].row.open && AdjustedIn(since, oid) {
        assert Mirror(t, e)[oid].row.weight == e.body.newWeight;
      }
    }
  }

  /** In every run: when the debt handler of n is about to run again on an event, because n stopped before marking it or failed
      later, the second run changes n's table exactly when the event is an adjustment of an obligation that is open on n and n has itself adjusted that
      obligation since the handler last ran. */
  lemma RerunIff(w0: World, steps: seq<Step>, n: NodeId)
    requires Start(w0) && MirrorsDebts(w0.handlers) && Runs(w0, steps) && CarefulRun(w0, steps) && PayingRun(steps)
    requires n in Final(w0, steps).nodes && n in w0.nodes && LastRun(w0, steps, n, None).Some?
    requires Can(Final(w0, steps), Handle(n)) && RunsMirror(Final(w0, steps), Handle(n), n)
    ensures var w, m := Final(w0, steps), LastRun(w0, steps, n, None).value;
            var nd := w.nodes[n];
            var e, again := Pending(nd), Do(w, Handle(n)).nodes[n].table;
            && m <= |Own(n, nd)|
            && (again != nd.table <==>
                  e.body.DebtAdjusted? && e.body.oid in nd.table && nd.table[e.body.oid].row.open
                  && AdjustedIn(Own(n, nd)[m..], e.body.oid))
  {
    hide Inv, CausalInv, StatusInv, WeightInv, MirrorsDebts, Can, Do, Runs, Final, CarefulRun, PayingRun, LastRun, Start, Of, Foreign, Mirror, Ran,
         AdjustedIn, RunsMirror;
    var w, at := Final(w0, steps), LastRun(w0, steps, n, None);
    ReachedCarefully(w0, steps);
    StartInv(w0);
    StartCausal(w0);
    StartStatus(w0);
    RunKeepsRan(w0, steps, n, None);
    CanHandleBusy(w, n);
    DoneAround(w, n);
    MirrorAtNode(w, Handle(n), n);
    MirrorChangesIff(w.nodes[n].table, Own(n, w.nodes[n])[at.value..], Pending(w.nodes[n]));
  }

  lemma CanHandleBusy(w: World, n: NodeId)
    requires Can(w, Handle(n))
    ensures n in w.nodes && Busy(w.nodes[n])
  {
  }
}

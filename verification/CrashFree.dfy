/**
 Crashes do not matter unless a second run of a debt handler changes a table.

 Every run in which none does is followed, step by step, by a run in which each handler is marked as soon as it has run.  Where the first run
 stops before a mark and later runs the handler again, the second finds it marked and skips it.  Both runs
 end with the same logs, tables, cursors and counters on every node and the same hub.
 */
module CrashFree {
  import opened Ids
  import opened Events
  import opened Ledger
  import opened Protocol
  import opened Replication
  import opened Causality
  import opened Status
  import opened Weights
  import opened Traces
  import opened Ticks
  import opened Crashes

  /** A handler is about to be executed, not skipped. */
  ghost predicate Executes(w: World, s: Step)
    requires Can(w, s)
  {
    s.Handle? && !Skips(w.nodes[s.n])
  }

  /** Whatever handler runs is marked in the very next step. */
  ghost predicate AtOnce(w: World, steps: seq<Step>)
    requires Runs(w, steps)
    decreases |steps|
  {
    steps == [] ||
    ((Executes(w, steps[0]) ==> |steps| > 1 && steps[1] == MarkDone(steps[0].n)) && AtOnce(Do(w, steps[0]), steps[1..]))
  }

  /** If the step runs a debt handler that has run on the same event before, the table stays as it is; Crashes.RerunIff says when. */
  ghost predicate Harmless(w: World, s: Step)
    requires Can(w, s)
  {
    s.Handle? && RunsMirror(w, s, s.n) && Key(w.nodes[s.n]) in w.nodes[s.n].runs ==>
      s.n in Do(w, s).nodes && Do(w, s).nodes[s.n].table == w.nodes[s.n].table
  }

  ghost predicate HarmlessRun(w: World, steps: seq<Step>)
    requires Runs(w, steps)
    decreases |steps|
  {
    steps == [] || (Harmless(w, steps[0]) && HarmlessRun(Do(w, steps[0]), steps[1..]))
  }

  // ---- The relation ----

  /** Marked in the run that marks at once, not yet marked in the other. */
  predicate Ahead(a: Node, c: Node, key: (string, nat)) {
    IsMarked(c.marks, key) && !IsMarked(a.marks, key)
  }

  /** Same node but for marks, the place in the handler loop, and history. */
  predicate SameBare(a: Node, c: Node) {
    c == a.(marks := c.marks, work := c.work, done := c.done, runs := c.runs)
  }

  predicate SameWork(a: Work, c: Work) {
    if a.Applying? && a.ran then c == Applying(a.isNew, a.idx + 1, false) else c == a
  }

  /** A handler is only ahead on the last foreign row, after having run there. */
  ghost predicate AheadOk(n: NodeId, a: Node, handlers: Handlers, key: (string, nat)) {
    var rows := Foreign(a.events, n);
    key in a.runs && rows != [] && key.0 == rows[|rows| - 1].Id() && key.1 < Count(handlers, rows[|rows| - 1])
  }

  ghost predicate MarksFollow(n: NodeId, a: Node, c: Node, handlers: Handlers) {
    && (forall key :: IsMarked(a.marks, key) ==> IsMarked(c.marks, key))
    && (forall key :: !Ahead(a, c, key) ==> (key in a.marks <==> key in c.marks) && (key in a.marks ==> a.marks[key] == c.marks[key]))
    && (forall key :: Ahead(a, c, key) ==> AheadOk(n, a, handlers, key))
    && (Busy(a) && a.work.ran ==> IsMarked(c.marks, Key(a)))
  }

  ghost predicate Follows(n: NodeId, a: Node, c: Node, handlers: Handlers) {
    SameBare(a, c) && SameWork(a.work, c.work) && MarksFollow(n, a, c, handlers)
  }

  ghost predicate Sim(w: World, c: World) {
    && c.handlers == w.handlers && c.hub == w.hub && c.flights == w.flights && c.nodes.Keys == w.nodes.Keys
    && forall n :: n in w.nodes ==> Follows(n, w.nodes[n], c.nodes[n], w.handlers)
  }

  lemma SimSet(w: World, c: World, n: NodeId, a: Node, d: Node)
    requires Sim(w, c) && n in w.nodes && Follows(n, a, d, w.handlers)
    ensures Sim(SetNode(w, n, a), SetNode(c, n, d))
  {
    hide Follows;
  }

  // ---- Steps that do not look at marks ----

  predicate MarkBlind(s: Step) {
    IsLocal(s) || s.Send? || s.Append? || s.Materialize? || s.Ack? || s.Push? || s.Pull?
  }

  lemma BlindNode(n: NodeId, a: Node, c: Node, a': Node, c': Node, handlers: Handlers)
    requires Follows(n, a, c, handlers) && SameBare(a', c')
    requires a'.marks == a.marks && c'.marks == c.marks && a'.work == a.work && c'.work == c.work && a'.runs == a.runs
    requires Foreign(a'.events, n) == Foreign(a.events, n)
    requires a.work.Applying? ==> a'.inbox == a.inbox
    ensures Follows(n, a', c', handlers)
  {
    hide Foreign, EventId, HandlersFor;
    assert forall key :: Ahead(a', c', key) <==> Ahead(a, c, key);
  }

  /** What a step that does not look at marks does to the node it touches, on both sides. */
  predicate BlindPair(a: Node, c: Node, a': Node, c': Node) {
    && SameBare(a', c') && a'.marks == a.marks && c'.marks == c.marks && a'.work == a.work && c'.work == c.work
    && a'.runs == a.runs && (a.work.Applying? ==> a'.inbox == a.inbox)
  }

  lemma LocalBlind(w: World, c: World, s: Step)
    requires Can(w, s) && IsLocal(s) && s.n in c.nodes && SameBare(w.nodes[s.n], c.nodes[s.n])
    ensures Can(c, s) && s.n in w.nodes && s.n in Do(w, s).nodes && s.n in Do(c, s).nodes
    ensures var a', c' := Do(w, s).nodes[s.n], Do(c, s).nodes[s.n];
            && Do(w, s) == SetNode(w, s.n, a') && Do(c, s) == SetNode(c, s.n, c')
            && BlindPair(w.nodes[s.n], c.nodes[s.n], a', c')
  {
    hide ObligationId, EventId;
  }

  lemma SyncBlind(w: World, c: World, s: Step)
    requires Can(w, s) && (s.Send? || s.Ack? || s.Push? || s.Pull?) && s.n in c.nodes && SameBare(w.nodes[s.n], c.nodes[s.n])
    requires c.hub == w.hub && c.flights == w.flights && (s.Pull? ==> c.nodes[s.n].work.Idle?)
    ensures Can(c, s) && s.n in w.nodes && s.n in Do(w, s).nodes && s.n in Do(c, s).nodes
    ensures var a', c' := Do(w, s).nodes[s.n], Do(c, s).nodes[s.n];
            && Do(w, s) == SetNode(w, s.n, a').(hub := Do(w, s).hub, flights := Do(w, s).flights)
            && Do(c, s) == SetNode(c, s.n, c').(hub := Do(w, s).hub, flights := Do(w, s).flights)
            && BlindPair(w.nodes[s.n], c.nodes[s.n], a', c')
            && a'.events == w.nodes[s.n].events && a'.table == w.nodes[s.n].table
  {
    hide Of, AppendAll, ProjectAll, EventsSince, FeedSince, Pos;
  }

  lemma NodeOfStep(w: World, s: Step)
    requires Can(w, s) && MarkBlind(s) && !s.Append? && !s.Materialize?
    ensures s.n in w.nodes
  {
  }

  /** The foreign rows stay. */
  lemma RowsStay(w: World, s: Step)
    requires Inv(w) && CausalInv(w) && Can(w, s) && Careful(w, s) && MarkBlind(s) && !s.Append? && !s.Materialize?
    ensures s.n in w.nodes && s.n in Do(w, s).nodes
    ensures Foreign(Do(w, s).nodes[s.n].events, s.n) == Foreign(w.nodes[s.n].events, s.n)
  {
    hide Inv, CausalInv, Can, Do, Foreign, Of;
    NodeOfStep(w, s);
    EventsStay(w, s, s.n);
    if IsLocal(s) {
      var x := LocalAtNode(w, s);
    } else {
      SyncLeaves(w, s);
    }
  }

  lemma SyncLeaves(w: World, s: Step)
    requires Can(w, s) && (s.Send? || s.Ack? || s.Push? || s.Pull?)
    ensures Do(w, s).nodes[s.n].events == w.nodes[s.n].events && Do(w, s).nodes[s.n].table == w.nodes[s.n].table
  {
    hide Of, AppendAll, ProjectAll, EventsSince, FeedSince, Pos;
  }

  lemma HubStepSim(w: World, c: World, s: Step)
    requires Sim(w, c) && Can(w, s) && (s.Append? || s.Materialize?)
    ensures Can(c, s) && Sim(Do(w, s), Do(c, s))
  {
    hide Follows, Of, Project, AppendOne;
  }

  lemma SimAt(w: World, c: World, n: NodeId)
    requires Sim(w, c) && n in w.nodes
    ensures Follows(n, w.nodes[n], c.nodes[n], w.handlers) && SameBare(w.nodes[n], c.nodes[n])
    ensures SameWork(w.nodes[n].work, c.nodes[n].work)
  {
    hide MarksFollow;
  }

  lemma BlindKeepsSim(w: World, c: World, s: Step)
    requires Inv(w) && CausalInv(w) && Sim(w, c) && Can(w, s) && Careful(w, s) && MarkBlind(s)
    ensures Can(c, s) && Sim(Do(w, s), Do(c, s))
  {
    hide Inv, CausalInv, Foreign, Can, Do, Careful, Follows, Sim, SetNode, SameBare;
    if s.Append? || s.Materialize? {
      HubStepSim(w, c, s);
    } else {
      NodeOfStep(w, s);
      var n := s.n;
      SimAt(w, c, n);
      SimParts(w, c);
      if IsLocal(s) {
        LocalBlind(w, c, s);
      } else {
        if s.Pull? {
          CanPull(w, s);
        }
        SyncBlind(w, c, s);
      }
      var a', d' := Do(w, s).nodes[n], Do(c, s).nodes[n];
      RowsStay(w, s);
      BlindNode(n, w.nodes[n], c.nodes[n], a', d', w.handlers);
      SimSet(w, c, n, a', d');
      if !IsLocal(s) {
        SimHub(SetNode(w, n, a'), SetNode(c, n, d'), Do(w, s).hub, Do(w, s).flights);
      }
    }
  }

  lemma SimParts(w: World, c: World)
    requires Sim(w, c)
    ensures c.handlers == w.handlers && c.hub == w.hub && c.flights == w.flights && c.nodes.Keys == w.nodes.Keys
  {
    hide Follows;
  }

  lemma SimHub(w: World, c: World, hub: Hub, flights: seq<Flight>)
    requires Sim(w, c)
    ensures Sim(w.(hub := hub, flights := flights), c.(hub := hub, flights := flights))
  {
    hide Follows;
  }

  lemma CanPull(w: World, s: Step)
    requires Can(w, s) && s.Pull?
    ensures w.nodes[s.n].work.Idle?
  {
  }

  // ---- Steps inside an event ----

  lemma AbortFollows(n: NodeId, a: Node, c: Node, handlers: Handlers, num: nat, onum: nat)
    requires Follows(n, a, c, handlers)
    ensures Follows(n, AbortAt(a), AbortAt(c), handlers)
    ensures Follows(n, RestartAt(a, num, onum), RestartAt(c, num, onum), handlers)
  {
    hide Foreign, EventId, HandlersFor;
    assert forall key :: Ahead(AbortAt(a), AbortAt(c), key) <==> Ahead(a, c, key);
    assert forall key :: Ahead(RestartAt(a, num, onum), RestartAt(c, num, onum), key) <==> Ahead(a, c, key);
  }

  /** Once the last stored row is passed, nothing is ahead. */
  lemma NoneAhead(w: World, n: NodeId, c: Node)
    requires Inv(w) && n in w.nodes && w.nodes[n].inbox != [] && !Stored(w.nodes[n].events, Pending(w.nodes[n]).Id())
    requires MarksFollow(n, w.nodes[n], c, w.handlers)
    ensures forall key :: !Ahead(w.nodes[n], c, key)
  {
    hide LogOk, FlightsOk, Of, MirrorOk, ReplicaOk, Foreign, Vis, Pos, EventId, HandlersFor, Ahead;
    PendingStored(w, n);
    var a := w.nodes[n];
    assert NodeOk(n, a, w.hub.feed, w.handlers);
    var rows := Foreign(a.events, n);
    forall key: (string, nat) ensures !Ahead(a, c, key) {
      if Ahead(a, c, key) {
        assert AheadOk(n, a, w.handlers, key);
        assert AllMarked(a.marks, rows[|rows| - 1].Id(), Count(w.handlers, rows[|rows| - 1]));
        NotAhead(a, c, key);
      }
    }
  }

  lemma NotAhead(a: Node, c: Node, key: (string, nat))
    requires IsMarked(a.marks, (key.0, key.1))
    ensures !Ahead(a, c, key)
  {
    assert (key.0, key.1) == key;
  }

  lemma BeginFollows(w: World, n: NodeId, c: Node)
    requires Inv(w) && n in w.nodes && w.nodes[n].inbox != [] && w.nodes[n].work.Idle?
    requires Follows(n, w.nodes[n], c, w.handlers)
    ensures Follows(n, BeginAt(w.nodes[n]), BeginAt(c), w.handlers)
  {
    hide Inv, Foreign, EventId, HandlersFor, Stored;
    var a := w.nodes[n];
    assert forall key :: Ahead(BeginAt(a), BeginAt(c), key) <==> Ahead(a, c, key);
    if !Stored(a.events, Pending(a).Id()) {
      NoneAhead(w, n, c);
    }
  }

  /** The event being applied is the last foreign row, and its handlers are those of the loop. */
  ghost predicate InEvent(n: NodeId, a: Node, handlers: Handlers) {
    && Busy(a) && a.work.idx < Count(handlers, Pending(a))
    && var rows := Foreign(a.events, n); rows != [] && rows[|rows| - 1] == Pending(a)
  }

  function NextHandler(a: Node, handlers: Handlers): Handler
    requires Busy(a) && a.work.idx < Count(handlers, Pending(a))
  {
    HandlersFor(handlers, Pending(a).body.Type())[a.work.idx]
  }

  lemma SkipSkip(n: NodeId, a: Node, c: Node, handlers: Handlers)
    requires Follows(n, a, c, handlers) && InEvent(n, a, handlers) && !a.work.ran && Skips(a)
    ensures Busy(c) && Skips(c)
    ensures Follows(n, HandlerAt(n, a, NextHandler(a, handlers)), HandlerAt(n, c, NextHandler(a, handlers)), handlers)
  {
    hide Foreign, EventId, HandlersFor;
    var h := NextHandler(a, handlers);
    assert forall key :: Ahead(HandlerAt(n, a, h), HandlerAt(n, c, h), key) <==> Ahead(a, c, key);
  }

  /** The handler runs again on one side and is skipped on the other. */
  lemma RunSkip(n: NodeId, a: Node, c: Node, handlers: Handlers)
    requires Follows(n, a, c, handlers) && InEvent(n, a, handlers) && !a.work.ran && !Skips(a) && Busy(c) && Skips(c)
    requires NextHandler(a, handlers).MirrorDebt? && Key(a) in a.runs ==> Mirror(a.table, Pending(a)) == a.table
    ensures Follows(n, HandlerAt(n, a, NextHandler(a, handlers)), HandlerAt(n, c, NextHandler(a, handlers)), handlers)
  {
    hide Foreign, EventId, Mirror;
    var h := NextHandler(a, handlers);
    var a', c' := HandlerAt(n, a, h), HandlerAt(n, c, h);
    assert Ahead(a, c, Key(a));
    assert AheadOk(n, a, handlers, Key(a));
    assert a'.table == a.table;
    assert forall key :: Ahead(a', c', key) <==> Ahead(a, c, key);
    assert forall key :: key in a.runs ==> key in a'.runs;
  }

  /** The handler runs on both sides, and is marked at once on the second. */
  lemma RunRun(n: NodeId, a: Node, c: Node, handlers: Handlers)
    requires Follows(n, a, c, handlers) && InEvent(n, a, handlers) && !a.work.ran && !Skips(a) && Busy(c) && !Skips(c)
    ensures Follows(n, HandlerAt(n, a, NextHandler(a, handlers)), MarkedAt(HandlerAt(n, c, NextHandler(a, handlers))), handlers)
  {
    hide Foreign, EventId, Mirror, HandlersFor;
    var h, k := NextHandler(a, handlers), Key(a);
    var a', c' := HandlerAt(n, a, h), MarkedAt(HandlerAt(n, c, h));
    assert c'.marks == c.marks[k := Applied] && a'.marks == a.marks && a'.runs == a.runs + [k];
    hide AheadOk;
    forall key: (string, nat) | Ahead(a', c', key) ensures AheadOk(n, a', handlers, key) {
      if key == k {
        JustAhead(n, a, a', handlers);
      } else {
        assert Ahead(a, c, key);
        StaysAhead(n, a, a', handlers, key);
      }
    }
    forall key: (string, nat) | !Ahead(a', c', key)
      ensures (key in a'.marks <==> key in c'.marks) && (key in a'.marks ==> a'.marks[key] == c'.marks[key])
    {
      assert key != k ==> !Ahead(a, c, key);
    }
  }

  lemma StaysAhead(n: NodeId, a: Node, a': Node, handlers: Handlers, key: (string, nat))
    requires AheadOk(n, a, handlers, key) && a'.events == a.events && forall k :: k in a.runs ==> k in a'.runs
    ensures AheadOk(n, a', handlers, key)
  {
    hide Foreign, EventId, HandlersFor;
  }

  lemma JustAhead(n: NodeId, a: Node, a': Node, handlers: Handlers)
    requires InEvent(n, a, handlers) && a'.events == a.events && Key(a) in a'.runs
    ensures AheadOk(n, a', handlers, Key(a))
  {
    hide Foreign, EventId, HandlersFor;
  }

  lemma MarkFollows(n: NodeId, a: Node, c: Node, handlers: Handlers)
    requires Follows(n, a, c, handlers) && Busy(a) && a.work.ran
    ensures Follows(n, MarkedAt(a), c, handlers)
  {
    hide Foreign, EventId, HandlersFor;
    var k, a' := Key(a), MarkedAt(a);
    assert a'.marks == a.marks[k := Applied];
    forall key: (string, nat) | Ahead(a', c, key) ensures AheadOk(n, a', handlers, key) {
      assert Ahead(a, c, key);
      assert AheadOk(n, a, handlers, key);
    }
    forall key: (string, nat) | !Ahead(a', c, key) ensures (key in a'.marks <==> key in c.marks) && (key in a'.marks ==> a'.marks[key] == c.marks[key]) {
      assert key != k ==> !Ahead(a, c, key);
    }
  }

  /** The second try of a handler fails on one side; the other has it marked. */
  lemma FailSkip(n: NodeId, a: Node, c: Node, handlers: Handlers, recorded: bool)
    requires Follows(n, a, c, handlers) && Busy(a) && Busy(c) && !a.work.ran && !Skips(a) && Skips(c)
    ensures Follows(n, FailAt(a, recorded), AbortAt(c), handlers)
  {
    hide Foreign, EventId, HandlersFor;
    var k, a', c' := Key(a), FailAt(a, recorded), AbortAt(c);
    assert Ahead(a, c, k);
    assert forall key: (string, nat) :: IsMarked(a'.marks, key) <==> IsMarked(a.marks, key);
    FailMarks(n, a, c, a', c', k, handlers);
  }

  lemma FailFail(n: NodeId, a: Node, c: Node, handlers: Handlers, recorded: bool)
    requires Follows(n, a, c, handlers) && Busy(a) && Busy(c) && !a.work.ran && !IsMarked(c.marks, Key(c))
    ensures Follows(n, FailAt(a, recorded), FailAt(c, recorded), handlers)
  {
    hide Foreign, EventId, HandlersFor;
    var k, a', c' := Key(a), FailAt(a, recorded), FailAt(c, recorded);
    assert k == Key(c);
    assert forall key: (string, nat) :: IsMarked(a'.marks, key) <==> IsMarked(a.marks, key);
    assert forall key: (string, nat) :: IsMarked(c'.marks, key) <==> IsMarked(c.marks, key);
    FailMarks(n, a, c, a', c', k, handlers);
  }

  lemma FailMarks(n: NodeId, a: Node, c: Node, a': Node, c': Node, k: (string, nat), handlers: Handlers)
    requires MarksFollow(n, a, c, handlers)
    requires forall key: (string, nat) :: IsMarked(a'.marks, key) <==> IsMarked(a.marks, key)
    requires forall key: (string, nat) :: IsMarked(c'.marks, key) <==> IsMarked(c.marks, key)
    requires forall key: (string, nat) :: key != k ==> (key in a'.marks <==> key in a.marks) && (key in a.marks ==> a'.marks[key] == a.marks[key])
    requires forall key: (string, nat) :: key != k ==> (key in c'.marks <==> key in c.marks) && (key in c.marks ==> c'.marks[key] == c.marks[key])
    requires !Ahead(a, c, k) ==> (k in a'.marks <==> k in c'.marks) && (k in a'.marks ==> a'.marks[k] == c'.marks[k])
    requires a'.events == a.events && a'.table == a.table && a'.runs == a.runs && a'.work.Idle?
    ensures MarksFollow(n, a', c', handlers)
  {
    hide Foreign, EventId, HandlersFor, IsMarked, AheadOk;
    forall key: (string, nat) ensures Ahead(a', c', key) <==> Ahead(a, c, key) {
    }
    forall key: (string, nat) | Ahead(a', c', key) ensures AheadOk(n, a', handlers, key) {
      assert AheadOk(n, a, handlers, key);
      SameAhead(n, a, a', handlers, key);
    }
    forall key: (string, nat) | !Ahead(a', c', key)
      ensures (key in a'.marks <==> key in c'.marks) && (key in a'.marks ==> a'.marks[key] == c'.marks[key])
    {
      assert !Ahead(a, c, key);
    }
  }

  lemma SameAhead(n: NodeId, a: Node, a': Node, handlers: Handlers, key: (string, nat))
    requires AheadOk(n, a, handlers, key) && a'.events == a.events && a'.table == a.table && a'.runs == a.runs
    ensures AheadOk(n, a', handlers, key)
  {
    hide Foreign, EventId, HandlersFor;
  }

  lemma FinishFollows(n: NodeId, a: Node, c: Node, handlers: Handlers)
    requires Follows(n, a, c, handlers) && Busy(a) && !a.work.ran
    ensures Follows(n, FinishAt(n, a), FinishAt(n, c), handlers)
  {
    hide Foreign, EventId, HandlersFor;
    assert forall key :: Ahead(FinishAt(n, a), FinishAt(n, c), key) <==> Ahead(a, c, key);
  }

  // ---- One step ----

  lemma OneAtOnce(c: World, s: Step) returns (ss: seq<Step>)
    requires Can(c, s) && !Executes(c, s) && Careful(c, s)
    ensures ss == [s] && Runs(c, ss) && Final(c, ss) == Do(c, s) && AtOnce(c, ss) && CarefulRun(c, ss)
  {
    hide Can, Do, Executes, Careful;
    ss := OneStep(c, s);
    NoSteps(Do(c, s));
    assert ss[1..] == [];
  }

  lemma TwoAtOnce(c: World, n: NodeId) returns (ss: seq<Step>)
    requires Can(c, Handle(n)) && Can(Do(c, Handle(n)), MarkDone(n))
    ensures ss == [Handle(n), MarkDone(n)] && Runs(c, ss) && AtOnce(c, ss) && CarefulRun(c, ss)
    ensures Final(c, ss) == Do(Do(c, Handle(n)), MarkDone(n))
  {
    var d := Do(c, Handle(n));
    hide Can, Do;
    ss := OneAtOnce(d, MarkDone(n));
    ss := FirstStep(c, Handle(n), ss);
    assert ss[1..] == [MarkDone(n)];
  }

  lemma StayPut(c: World) returns (ss: seq<Step>)
    ensures ss == [] && Runs(c, ss) && Final(c, ss) == c && AtOnce(c, ss) && CarefulRun(c, ss)
  {
    ss := [];
  }

  lemma SameCare(w: World, c: World, s: Step)
    requires Sim(w, c) && Can(w, s) && Can(c, s) && Careful(w, s)
    ensures Careful(c, s)
  {
    if s.Adjust? {
      SimAt(w, c, s.n);
    }
  }

  lemma BlindSim(w: World, c: World, s: Step) returns (ss: seq<Step>)
    requires Inv(w) && CausalInv(w) && Sim(w, c) && Can(w, s) && Careful(w, s) && MarkBlind(s)
    ensures Runs(c, ss) && Sim(Do(w, s), Final(c, ss)) && AtOnce(c, ss) && CarefulRun(c, ss)
  {
    hide Inv, CausalInv, Sim, Can, Do, Runs, Final, AtOnce, CarefulRun;
    BlindKeepsSim(w, c, s);
    SameCare(w, c, s);
    ss := OneAtOnce(c, s);
  }

  /** Begin, Abort, Restart and Finish. */
  lemma FrameSim(w: World, c: World, s: Step) returns (ss: seq<Step>)
    requires Inv(w) && Sim(w, c) && Can(w, s) && (s.Begin? || s.Abort? || s.Restart? || s.Finish?)
    ensures Runs(c, ss) && Sim(Do(w, s), Final(c, ss)) && AtOnce(c, ss) && CarefulRun(c, ss)
  {
    hide Inv, Sim, Follows, Runs, Final, AtOnce, CarefulRun, BeginAt, FinishAt, AbortAt, RestartAt, IsTop, IsTopObligation, Of, MarksFollow;
    var n := s.n;
    SimAt(w, c, n);
    SimParts(w, c);
    var a, d := w.nodes[n], c.nodes[n];
    if s.Begin? {
      BeginFollows(w, n, d);
      SimSet(w, c, n, BeginAt(a), BeginAt(d));
    } else if s.Finish? {
      FinishFollows(n, a, d, w.handlers);
      SimSet(w, c, n, FinishAt(n, a), FinishAt(n, d));
    } else if s.Abort? {
      AbortFollows(n, a, d, w.handlers, 0, 0);
      SimSet(w, c, n, AbortAt(a), AbortAt(d));
    } else {
      AbortFollows(n, a, d, w.handlers, s.num, s.onum);
      SimSet(w, c, n, RestartAt(a, s.num, s.onum), RestartAt(d, s.num, s.onum));
    }
    ss := OneAtOnce(c, s);
  }

  lemma UnmarkedNext(c: World, n: NodeId)
    requires Inv(c) && n in c.nodes && Busy(c.nodes[n]) && !c.nodes[n].work.ran && !Skips(c.nodes[n])
    ensures !IsMarked(c.nodes[n].marks, Key(c.nodes[n]))
  {
    hide LogOk, FlightsOk, FeedOk, MirrorOk, ReplicaOk, RowsMarked, Foreign, Vis, Pos, EventId, Of;
    assert NodeOk(n, c.nodes[n], c.hub.feed, c.handlers);
    assert WorkOk(c.nodes[n], c.handlers);
  }

  lemma AtHandler(w: World, n: NodeId)
    requires Inv(w) && n in w.nodes && Busy(w.nodes[n]) && w.nodes[n].work.idx < |Todo(w, n)|
    ensures InEvent(n, w.nodes[n], w.handlers) && NextHandler(w.nodes[n], w.handlers) == Todo(w, n)[w.nodes[n].work.idx]
  {
    hide Inv, Foreign, HandlersFor;
    DoneAround(w, n);
  }

  /** A handler is run, or skipped. */
  lemma HandleSim(w: World, c: World, n: NodeId) returns (ss: seq<Step>)
    requires Inv(w) && Sim(w, c) && Can(w, Handle(n)) && Harmless(w, Handle(n))
    ensures Runs(c, ss) && Sim(Do(w, Handle(n)), Final(c, ss)) && AtOnce(c, ss) && CarefulRun(c, ss)
  {
    hide Inv, CausalInv, StatusInv, Sim, Follows, Runs, Final, AtOnce, CarefulRun, HandlerAt, MarkedAt, MarksFollow, InEvent, HandlersFor,
         EventId, Skips;
    HandleNow(w, n);
    if !Skips(w.nodes[n]) && Todo(w, n)[w.nodes[n].work.idx].MirrorDebt? && Key(w.nodes[n]) in w.nodes[n].runs {
      HarmlessMeans(w, n);
    }
    SimAt(w, c, n);
    SimParts(w, c);
    var a, d := w.nodes[n], c.nodes[n];
    AtHandler(w, n);
    var h := NextHandler(a, w.handlers);
    assert Todo(c, n) == Todo(w, n);
    CanHandle(w, n);
    CanHandle(c, n);
    if Skips(a) {
      SkipSkip(n, a, d, w.handlers);
      SimSet(w, c, n, HandlerAt(n, a, h), HandlerAt(n, d, h));
      ss := OneAtOnce(c, Handle(n));
    } else if Skips(d) {
      RunSkip(n, a, d, w.handlers);
      SimSet(w, c, n, HandlerAt(n, a, h), HandlerAt(n, d, h));
      ss := OneAtOnce(c, Handle(n));
    } else {
      RunRun(n, a, d, w.handlers);
      RunEffect(n, d, h);
      var c1 := SetNode(c, n, HandlerAt(n, d, h));
      CanMark(c1, n);
      SetTwice(c, n, HandlerAt(n, d, h), MarkedAt(HandlerAt(n, d, h)));
      SimSet(w, c, n, HandlerAt(n, a, h), MarkedAt(HandlerAt(n, d, h)));
      ss := TwoAtOnce(c, n);
    }
  }

  lemma HarmlessMeans(w: World, n: NodeId)
    requires Can(w, Handle(n)) && Harmless(w, Handle(n)) && !Skips(w.nodes[n])
    requires Todo(w, n)[w.nodes[n].work.idx].MirrorDebt? && Key(w.nodes[n]) in w.nodes[n].runs
    ensures Mirror(w.nodes[n].table, Pending(w.nodes[n])) == w.nodes[n].table
  {
    hide Mirror, Foreign, EventId;
    MirrorAtNode(w, Handle(n), n);
  }

  lemma HandleNow(w: World, n: NodeId)
    requires Can(w, Handle(n))
    ensures n in w.nodes && Busy(w.nodes[n]) && !w.nodes[n].work.ran && w.nodes[n].work.idx < |Todo(w, n)|
  {
  }

  lemma MarkSim(w: World, c: World, n: NodeId) returns (ss: seq<Step>)
    requires Sim(w, c) && Can(w, MarkDone(n))
    ensures Runs(c, ss) && Sim(Do(w, MarkDone(n)), Final(c, ss)) && AtOnce(c, ss) && CarefulRun(c, ss)
  {
    hide Sim, Follows, Runs, Final, AtOnce, CarefulRun, MarkedAt, MarksFollow;
    SimAt(w, c, n);
    SimParts(w, c);
    MarkFollows(n, w.nodes[n], c.nodes[n], w.handlers);
    SimSet(w, c, n, MarkedAt(w.nodes[n]), c.nodes[n]);
    assert SetNode(c, n, c.nodes[n]) == c;
    ss := StayPut(c);
  }

  lemma FailSim(w: World, c: World, n: NodeId, recorded: bool) returns (ss: seq<Step>)
    requires Sim(w, c) && Inv(c) && Can(w, HandlerFails(n, recorded))
    ensures Runs(c, ss) && Sim(Do(w, HandlerFails(n, recorded)), Final(c, ss)) && AtOnce(c, ss) && CarefulRun(c, ss)
  {
    hide Sim, Inv, Follows, Runs, Final, AtOnce, CarefulRun, FailAt, AbortAt, MarksFollow, Skips, EventId;
    SimAt(w, c, n);
    SimParts(w, c);
    var a, d := w.nodes[n], c.nodes[n];
    if Skips(d) {
      FailSkip(n, a, d, w.handlers, recorded);
      SimSet(w, c, n, FailAt(a, recorded), AbortAt(d));
      CanAbort(c, n);
      ss := OneAtOnce(c, Abort(n));
    } else {
      UnmarkedNext(c, n);
      FailFail(n, a, d, w.handlers, recorded);
      SimSet(w, c, n, FailAt(a, recorded), FailAt(d, recorded));
      ss := OneAtOnce(c, HandlerFails(n, recorded));
    }
  }

  lemma SimStep(w: World, c: World, s: Step) returns (ss: seq<Step>)
    requires Inv(w) && CausalInv(w) && Inv(c) && Sim(w, c) && Can(w, s) && Careful(w, s) && Harmless(w, s)
    ensures Runs(c, ss) && Sim(Do(w, s), Final(c, ss)) && AtOnce(c, ss) && CarefulRun(c, ss)
  {
    hide Inv, CausalInv, Sim, Can, Do, Runs, Final, AtOnce, CarefulRun, Careful, Harmless;
    if MarkBlind(s) {
      ss := BlindSim(w, c, s);
    } else if s.Handle? {
      ss := HandleSim(w, c, s.n);
    } else if s.MarkDone? {
      ss := MarkSim(w, c, s.n);
    } else if s.HandlerFails? {
      ss := FailSim(w, c, s.n, s.recorded);
    } else {
      ss := FrameSim(w, c, s);
    }
  }

  // ---- Every run ----

  lemma {:induction false} AtOnceOn(w: World, a: seq<Step>, b: seq<Step>)
    requires Runs(w, a) && AtOnce(w, a) && Runs(Final(w, a), b) && AtOnce(Final(w, a), b)
    ensures Runs(w, a + b) && AtOnce(w, a + b)
    decreases |a|
  {
    hide Can, Do, Executes;
    RunOn(w, a, b);
    if a == [] {
      assert a + b == b;
    } else {
      assert (a + b)[1..] == a[1..] + b;
      AtOnceOn(Do(w, a[0]), a[1..], b);
    }
  }

  lemma {:induction false} Simulate(w: World, c: World, steps: seq<Step>) returns (free: seq<Step>)
    requires Inv(w) && CausalInv(w) && Inv(c) && Sim(w, c)
    requires Runs(w, steps) && CarefulRun(w, steps) && HarmlessRun(w, steps)
    ensures Runs(c, free) && Sim(Final(w, steps), Final(c, free)) && AtOnce(c, free) && CarefulRun(c, free)
    decreases |steps|
  {
    hide Inv, CausalInv, Sim, Can, Do, AtOnce, Careful, Harmless;
    if steps == [] {
      free := StayPut(c);
    } else {
      var s, w' := steps[0], Do(w, steps[0]);
      StepKeepsInv(w, s);
      StepKeepsCausal(w, s);
      var ss := SimStep(w, c, s);
      RunKeepsInv(c, ss);
      var rest := Simulate(w', Final(c, ss), steps[1..]);
      free := ss + rest;
      CarefulOn(c, ss, rest);
      AtOnceOn(c, ss, rest);
    }
  }

  /** Both runs leave the same hub, and on every node the same but for marks that a stop has kept from being written, the place in the
      handler loop, and history. */
  ghost predicate EndsAlike(w0: World, a: seq<Step>, b: seq<Step>)
    requires Runs(w0, a) && Runs(w0, b)
  {
    var w, v := Final(w0, a), Final(w0, b);
    && v.hub == w.hub && v.flights == w.flights && v.nodes.Keys == w.nodes.Keys
    && forall n :: n in w.nodes ==>
         && SameBare(w.nodes[n], v.nodes[n])
         && (forall key :: IsMarked(w.nodes[n].marks, key) ==> IsMarked(v.nodes[n].marks, key))
         && (NothingOutstanding(w.nodes[n]) ==> v.nodes[n].marks == w.nodes[n].marks)
  }

  /** Every handler that has run is marked. */
  ghost predicate NothingOutstanding(nd: Node) {
    forall key: (string, nat) :: key in nd.runs ==> IsMarked(nd.marks, key)
  }

  /** For every run, with any number of stops between handlers and their marks, in which no second run of a debt handler changes a table, there is a
      run in which every handler is marked at once and which ends with the same hub, and on every node the same log, table (weights, status and
      creation times), cursors and counters; its marks are the same too, but that handlers left unmarked by a stop are marked in it. */
  lemma CompanionRun(w0: World, steps: seq<Step>) returns (free: seq<Step>)
    requires Start(w0) && Runs(w0, steps) && CarefulRun(w0, steps) && HarmlessRun(w0, steps)
    ensures Runs(w0, free) && CarefulRun(w0, free) && AtOnce(w0, free) && EndsAlike(w0, steps, free)
  {
    hide Inv, CausalInv, Sim, Can, Do, AtOnce, Careful, Runs, Final, CarefulRun, HarmlessRun, NothingOutstanding, Follows;
    StartInv(w0);
    StartCausal(w0);
    StartFollows(w0);
    free := Simulate(w0, w0, steps);
    var w, v := Final(w0, steps), Final(w0, free);
    SimParts(w, v);
    forall n | n in w.nodes
      ensures SameBare(w.nodes[n], v.nodes[n])
      ensures forall key :: IsMarked(w.nodes[n].marks, key) ==> IsMarked(v.nodes[n].marks, key)
      ensures NothingOutstanding(w.nodes[n]) ==> v.nodes[n].marks == w.nodes[n].marks
    {
      SimAt(w, v, n);
      FollowsMeans(n, w.nodes[n], v.nodes[n], w.handlers);
    }
  }

  lemma StartFollows(w: World)
    requires Start(w)
    ensures Sim(w, w)
  {
    hide Foreign, EventId, HandlersFor;
  }

  lemma FollowsMeans(n: NodeId, a: Node, c: Node, handlers: Handlers)
    requires Follows(n, a, c, handlers)
    ensures forall key :: IsMarked(a.marks, key) ==> IsMarked(c.marks, key)
    ensures NothingOutstanding(a) ==> c.marks == a.marks
  {
    hide Foreign, EventId, HandlersFor;
    if NothingOutstanding(a) {
      forall key: (string, nat) ensures !Ahead(a, c, key) {
        assert Ahead(a, c, key) ==> AheadOk(n, a, handlers, key);
      }
      assert forall key: (string, nat) :: (key in a.marks <==> key in c.marks) && (key in a.marks ==> a.marks[key] == c.marks[key]);
    }
  }
}

/**
 How the hub's index falls behind: a run after which both nodes hold a debt for paid, everything
 is delivered and acknowledged, and the hub's index still shows the debt open.

 The hub stops between appending a's debt.created and projecting it.  Node b pulls the event, pays, and pushes
 debt.resolved, which finds no row to update.  Then a's retry is projected and opens the debt.
 */
module StaleIndex {
  import opened Wrappers
  import opened Ids
  import opened Events
  import opened Ledger
  import opened Protocol
  import opened Replication
  import opened Status
  import opened Weights
  import opened Ticks

  const DEAL: Terms := Terms("npc:npc_maren", "a:p_x", "debt", "a Dock Hook advanced by Maren")

  function Oid(): string { ObligationId("a", 1) }

  const MIRROR: Handlers :=
    map["debt.created" := [MirrorDebt], "debt.adjusted" := [MirrorDebt], "debt.resolved" := [MirrorDebt]]

  function Made(): Event { Event("a", 1, 0, DebtCreated(Oid(), "a", DEAL, 10)) }
  function Paid(): Event { Event("b", 1, 0, DebtResolved(Oid())) }
  function Debt(open: bool): Obligation { Obligation(Row("a", DEAL, 10, open), 0) }

  function Pair(a: Node, b: Node, feed: seq<Entry>, debts: Debts): World {
    World(MIRROR, map["a" := a, "b" := b], Hub(feed, debts), [])
  }

  /** Node a after making the debt, b with an empty database. */
  function MadeAtA(): Node { FRESH.(num := 1, onum := 1, events := [Made()], table := map[Oid() := Debt(true)]) }
  function MirroredAtB(): Node {
    FRESH.(events := [Made()], table := map[Oid() := Debt(true)], hubCursor := 1, done := 1,
           marks := map[(Made().Id(), 0) := Applied], runs := [(Made().Id(), 0)])
  }
  function PaidAtB(): Node { MirroredAtB().(num := 1, events := [Made(), Paid()], table := map[Oid() := Debt(false)]) }
  function MirroredAtA(): Node {
    MadeAtA().(pushCursor := 1, events := [Made(), Paid()], table := map[Oid() := Debt(false)], hubCursor := 2, done := 1,
               marks := map[(Paid().Id(), 0) := Applied], runs := [(Paid().Id(), 0)])
  }

  lemma OneOut(n: NodeId, nd: Node, e: Event)
    requires Of(nd.events, n) == [e] && e.num > nd.pushCursor
    ensures Outgoing(n, nd) == [e]
  {
    hide Of;
    assert [e][1..] == [];
    assert After([e], nd.pushCursor) == [e] + After([], nd.pushCursor);
    assert SortByNum([e]) == InsertByNum(e, []);
  }

  lemma OwnAlone(n: NodeId, e: Event)
    requires e.source == n
    ensures Of([e], n) == [e]
  {
    assert [] + [e] == [e];
    AppendSelects([], e, n);
  }

  lemma PushOne(w: World, n: NodeId, e: Event, projected: bool)
    requires n in w.nodes && Outgoing(n, w.nodes[n]) == [e]
    ensures Can(w, Push(n, [0], 1, if projected then 1 else 0, projected))
    ensures var w' := Do(w, Push(n, [0], 1, if projected then 1 else 0, projected));
            && w'.hub == Hub(AppendOne(w.hub.feed, e, 0), if projected then Project(w.hub.debts, e) else w.hub.debts)
            && w'.handlers == w.handlers && w'.flights == w.flights
            && w'.nodes == w.nodes[n := w.nodes[n].(pushCursor := if projected then e.num else w.nodes[n].pushCursor, awaiting := None)]
  {
    hide AppendOne, Project, Outgoing;
    assert [e][..0] == [] && [e][..1] == [e];
    assert [0 as nat][..0] == [] && [0 as nat][..1] == [0];
    var out, g := [e], [0 as nat];
    assert AppendAll(w.hub.feed, [], []) == w.hub.feed && ProjectAll(w.hub.debts, []) == w.hub.debts;
    assert AppendAll(w.hub.feed, out, g) == AppendOne(AppendAll(w.hub.feed, [], []), e, 0);
    assert ProjectAll(w.hub.debts, out) == Project(ProjectAll(w.hub.debts, []), e);
  }

  lemma OneIn(own: seq<Entry>, x: Entry, n: NodeId, cursor: nat)
    requires x.ev.source != n && x.hubSeq > cursor
    requires |own| <= 1 && forall i :: 0 <= i < |own| ==> own[i].ev.source == n
    ensures FeedSince(own + [x], cursor, PAGE, n) == [x]
  {
    hide Vis, Evs;
    assert Vis([], n) == [] by { VisNothing(n); }
    AppendVis(own, x, n);
    if |own| == 1 {
      assert own == [] + [own[0]];
      AppendVis([], own[0], n);
    }
    assert Vis(own + [x], n) == [x];
    assert [x][1..] == [];
    assert AfterSeq([x], cursor) == [x] + AfterSeq([], cursor);
  }

  lemma VisNothing(n: NodeId)
    ensures Vis([], n) == []
  {
  }

  /** A new debt event goes through its one handler. */
  lemma MirrorOne(n: NodeId, nd: Node, x: Entry)
    requires nd.inbox == [x] && nd.work.Idle? && !Stored(nd.events, x.ev.Id()) && x.ev.body.Debt()
    ensures ApplyPage(n, nd, MIRROR, 0, NoFault).nd ==
            nd.(events := nd.events + [x.ev], table := Mirror(nd.table, x.ev), marks := nd.marks[(x.ev.Id(), 0) := Applied],
                runs := nd.runs + [(x.ev.Id(), 0)], hubCursor := x.hubSeq, inbox := [],
                done := |Foreign(nd.events + [x.ev], n)|)
  {
    hide Mirror, Stored, Foreign, EventId;
    var hs := HandlersFor(MIRROR, x.ev.body.Type());
    assert hs == [MirrorDebt];
    var nd1 := BeginAt(nd);
    var nd2 := MarkedAt(HandlerAt(n, nd1, MirrorDebt));
    assert HandlersAt(n, nd2, hs, 0, NoFault) == Outcome(nd2, true);
    assert HandlersAt(n, nd1, hs, 0, NoFault) == Outcome(nd2, true);
    assert ApplyOne(n, nd, MIRROR, 0, NoFault) == Outcome(FinishAt(n, nd2), true);
    assert ApplyPage(n, FinishAt(n, nd2), MIRROR, 1, NoFault) == Outcome(FinishAt(n, nd2), true);
  }

  /** Pulling and applying one debt event, as a run. */
  lemma PullOne(w: World, n: NodeId, x: Entry) returns (steps: seq<Step>)
    requires n in w.nodes && w.handlers == MIRROR && w.nodes[n].work.Idle?
    requires FeedSince(w.hub.feed, w.nodes[n].hubCursor, PAGE, n) == [x]
    requires !Stored(w.nodes[n].events, x.ev.Id()) && x.ev.body.Debt()
    ensures Runs(w, steps) && SerialRun(steps) && PaysNothing(steps)
    ensures var nd := w.nodes[n];
            Final(w, steps) == SetNode(w, n,
              nd.(events := nd.events + [x.ev], table := Mirror(nd.table, x.ev), marks := nd.marks[(x.ev.Id(), 0) := Applied],
                  runs := nd.runs + [(x.ev.Id(), 0)], hubCursor := x.hubSeq, inbox := [],
                  done := |Foreign(nd.events + [x.ev], n)|))
  {
    hide Mirror, Stored, Foreign, EventId, Runs, Final, FeedSince, ApplyPage;
    var nd := w.nodes[n].(inbox := [x]);
    var w1 := SetNode(w, n, nd);
    assert Do(w, Pull(n)) == w1;
    steps := PageRun(w1, n, 0, NoFault);
    MirrorOne(n, nd, x);
    steps := FirstStep(w, Pull(n), steps);
  }

  // ---- The run ----

  lemma PairSet(a: Node, b: Node, feed: seq<Entry>, debts: Debts, nd: Node)
    ensures SetNode(Pair(a, b, feed, debts), "a", nd) == Pair(nd, b, feed, debts)
    ensures SetNode(Pair(a, b, feed, debts), "b", nd) == Pair(a, nd, feed, debts)
  {
  }

  function Fed1(): seq<Entry> { [Entry(1, Made())] }
  function Fed2(): seq<Entry> { [Entry(1, Made()), Entry(2, Paid())] }

  lemma MakeAndPush(w: World) returns (steps: seq<Step>)
    requires w == Pair(FRESH, FRESH, [], map[])
    ensures SerialRun(steps) && PaysNothing(steps)
    ensures Runs(w, steps) && Final(w, steps) == Pair(MadeAtA(), FRESH, Fed1(), map[])
  {
    hide Runs, Final, ObligationId, EventId, EventsSince;
    var w1 := Pair(MadeAtA(), FRESH, [], map[]);
    var none: Table := map[];
    assert none[Oid() := Debt(true)] == map[Oid() := Debt(true)];
    assert [] + [Made()] == [Made()];
    assert CreateAt("a", FRESH, 0, 0, DEAL, 10) == MadeAtA();
    PairSet(FRESH, FRESH, [], map[], MadeAtA());
    assert Do(w, Create("a", 0, 0, DEAL, 10)) == w1;
    OwnAlone("a", Made());
    OneOut("a", MadeAtA(), Made());
    PushOne(w1, "a", Made(), false);
    steps := OneStep(w1, Push("a", [0], 1, 0, false));
    assert Do(w1, Push("a", [0], 1, 0, false)) == Pair(MadeAtA(), FRESH, Fed1(), map[]);
    steps := FirstStep(w, Create("a", 0, 0, DEAL, 10), steps);
  }

  lemma NotStored(s: seq<Event>, e: Event)
    requires forall i :: 0 <= i < |s| ==> s[i].source != e.source
    ensures !Stored(s, e.Id())
  {
    if Stored(s, e.Id()) {
      var i :| 0 <= i < |s| && s[i].Id() == e.Id();
      SameId(s[i], e);
    }
  }

  lemma MirrorAtB(w: World) returns (steps: seq<Step>)
    requires w == Pair(MadeAtA(), FRESH, Fed1(), map[])
    ensures SerialRun(steps) && PaysNothing(steps)
    ensures Runs(w, steps) && Final(w, steps) == Pair(MadeAtA(), MirroredAtB(), Fed1(), map[])
  {
    hide Runs, Final, ObligationId, EventId, EventsSince, Stored, FeedSince;
    var x := Entry(1, Made());
    assert [] + [x] == Fed1();
    OneIn([], x, "b", 0);
    NotStored([], Made());
    steps := PullOne(w, "b", x);
    var none: Table := map[];
    assert none[Oid() := Debt(true)] == map[Oid() := Debt(true)];
    assert [] + [Made()] == [Made()] && |Foreign([Made()], "b")| == 1 by { AppendSelects([], Made(), "b"); }
    var nd := FRESH;
    assert nd.marks[(Made().Id(), 0) := Applied] == MirroredAtB().marks;
    assert nd.runs + [(Made().Id(), 0)] == MirroredAtB().runs;
    assert nd.table[Oid() := Debt(true)] == MirroredAtB().table;
    PairSet(MadeAtA(), FRESH, Fed1(), map[], MirroredAtB());
  }

  lemma PayAtB(w: World) returns (steps: seq<Step>)
    requires w == Pair(MadeAtA(), MirroredAtB(), Fed1(), map[])
    ensures SerialRun(steps)
    ensures Runs(w, steps) && Final(w, steps) == Pair(MadeAtA(), PaidAtB().(pushCursor := 1), Fed2(), map[])
  {
    hide Runs, Final, ObligationId, EventId, EventsSince, Of, SerialRun, Stored;
    assert [Made()] + [Paid()] == [Made(), Paid()];
    assert map[Oid() := Debt(true)][Oid() := Debt(false)] == map[Oid() := Debt(false)];
    assert ResolveAt("b", MirroredAtB(), Oid(), 0) == PaidAtB();
    PairSet(MadeAtA(), MirroredAtB(), Fed1(), map[], PaidAtB());
    var w1 := Pair(MadeAtA(), PaidAtB(), Fed1(), map[]);
    assert Do(w, Resolve("b", Oid(), 0)) == w1;
    steps := PushAtB(w1);
    steps := FirstStep(w, Resolve("b", Oid(), 0), steps);
  }

  lemma PushAtB(w: World) returns (steps: seq<Step>)
    requires w == Pair(MadeAtA(), PaidAtB(), Fed1(), map[])
    ensures SerialRun(steps)
    ensures Runs(w, steps) && Final(w, steps) == Pair(MadeAtA(), PaidAtB().(pushCursor := 1), Fed2(), map[])
  {
    hide Runs, Final, ObligationId, EventId, EventsSince, Stored, Of, SerialRun, Can, Do, MadeAtA;
    OwnOne("b", Paid(), Made());
    OneOut("b", PaidAtB(), Paid());
    PushOne(w, "b", Paid(), true);
    NotStored(Evs(Fed1()), Paid());
    assert Fed1() + [Entry(2, Paid())] == Fed2();
    PairSet(MadeAtA(), PaidAtB(), Fed2(), map[], PaidAtB().(pushCursor := 1));
    steps := OneStep(w, Push("b", [0], 1, 1, true));
  }

  lemma RetryAtA(w: World, b: Node) returns (steps: seq<Step>)
    requires w == Pair(MadeAtA(), b, Fed2(), map[])
    ensures Runs(w, steps) && SerialRun(steps)
    ensures Final(w, steps) == Pair(MadeAtA().(pushCursor := 1), b, Fed2(), map[Oid() := Debt(true).row])
  {
    hide Runs, Final, ObligationId, EventId, EventsSince;
    OwnAlone("a", Made());
    OneOut("a", MadeAtA(), Made());
    PushOne(w, "a", Made(), true);
    assert Evs(Fed2())[0] == Made();
    var none: Debts := map[];
    assert none[Oid() := Debt(true).row] == map[Oid() := Debt(true).row];
    PairSet(MadeAtA(), b, Fed2(), map[Oid() := Debt(true).row], MadeAtA().(pushCursor := 1));
    steps := OneStep(w, Push("a", [0], 1, 1, true));
  }

  lemma MirrorAtA(w: World, b: Node) returns (steps: seq<Step>)
    requires w == Pair(MadeAtA().(pushCursor := 1), b, Fed2(), map[Oid() := Debt(true).row])
    ensures Runs(w, steps) && SerialRun(steps)
    ensures Final(w, steps) == Pair(MirroredAtA(), b, Fed2(), map[Oid() := Debt(true).row])
  {
    hide Runs, Final, ObligationId, EventId, EventsSince, Stored, FeedSince;
    var x := Entry(2, Paid());
    assert Fed1() + [x] == Fed2();
    OneIn(Fed1(), x, "a", 0);
    NotStored([Made()], Paid());
    steps := PullOne(w, "a", x);
    assert map[Oid() := Debt(true)][Oid() := Debt(false)] == map[Oid() := Debt(false)];
    assert [Made()] + [Paid()] == [Made(), Paid()];
    assert |Foreign([Made(), Paid()], "a")| == 1 by {
      AppendSelects([Made()], Paid(), "a");
      assert [] + [Made()] == [Made()];
      AppendSelects([], Made(), "a");
    }
    var nd := MadeAtA();
    assert nd.marks[(Paid().Id(), 0) := Applied] == MirroredAtA().marks;
    assert nd.runs + [(Paid().Id(), 0)] == MirroredAtA().runs;
    PairSet(MadeAtA().(pushCursor := 1), b, Fed2(), map[Oid() := Debt(true).row], MirroredAtA());
  }

  lemma Sees(n: NodeId, nd: Node, own: Entry, other: Entry, feed: seq<Entry>)
    requires own.ev.source == n && other.ev.source != n && nd.hubCursor >= other.hubSeq
    requires feed == [own, other] || feed == [other, own]
    requires nd.events == [own.ev, other.ev] || nd.events == [other.ev, own.ev]
    ensures |Of(Evs(feed), n)| == |Own(n, nd)| && Passed(n, nd, feed) == |Vis(feed, n)|
  {
    hide Of, Vis, Evs, Pos;
    OwnOne(n, own.ev, other.ev);
    VisOne(n, own, other);
    PosPast(HubSeqs([other]), nd.hubCursor, 0);
  }

  lemma VisOne(n: NodeId, own: Entry, other: Entry)
    requires own.ev.source == n && other.ev.source != n
    ensures Vis([own, other], n) == [other] && Vis([other, own], n) == [other]
    ensures Evs([own, other]) == [own.ev, other.ev] && Evs([other, own]) == [other.ev, own.ev]
  {
    hide Vis;
    var none: seq<Entry> := [];
    assert none + [own] == [own] && none + [other] == [other];
    assert [own] + [other] == [own, other] && [other] + [own] == [other, own];
    VisNothing(n);
    AppendVis(none, own, n);
    AppendVis(none, other, n);
    AppendVis([own], other, n);
    AppendVis([other], own, n);
  }

  lemma OwnOne(n: NodeId, e: Event, f: Event)
    requires e.source == n && f.source != n
    ensures Of([e, f], n) == [e] && Of([f, e], n) == [e]
  {
    assert [e, f] == ([] + [e]) + [f] && [f, e] == ([] + [f]) + [e];
    AppendSelects([], e, n);
    AppendSelects([], f, n);
    AppendSelects([] + [e], f, n);
    AppendSelects([] + [f], e, n);
  }

  lemma TheEnd(w: World)
    requires w == Pair(MirroredAtA(), PaidAtB().(pushCursor := 1), Fed2(), map[Oid() := Debt(true).row])
    ensures Settled(w)
    ensures forall n :: n in w.nodes ==> IsResolved(w.nodes[n].table, Oid())
    ensures Oid() in w.hub.debts && w.hub.debts[Oid()].open
  {
    hide Own, Passed, Vis, Of, Evs, ObligationId, EventId;
    Sees("a", w.nodes["a"], Entry(1, Made()), Entry(2, Paid()), Fed2());
    Sees("b", w.nodes["b"], Entry(2, Paid()), Entry(1, Made()), Fed2());
  }

  lemma OnePayer(w: World)
    requires w.nodes == map["a" := MirroredAtA(), "b" := PaidAtB().(pushCursor := 1)]
    ensures SinglePayer(w, Oid(), "b")
  {
    hide Of, ObligationId, EventId;
    OwnOne("a", Made(), Paid());
  }

  lemma TheStart(w: World)
    requires w == Pair(FRESH, FRESH, [], map[])
    ensures Start(w) && MirrorsDebts(w.handlers)
  {
  }

  /** Everything is pushed, acknowledged, delivered and applied, both nodes hold the debt for paid, and the hub does not. */
  lemma HubCanStayBehind() returns (w0: World, steps: seq<Step>, oid: string)
    ensures Start(w0) && MirrorsDebts(w0.handlers) && Runs(w0, steps) && SerialRun(steps)
    ensures var w := Final(w0, steps);
            && Settled(w)
            && (forall n :: n in w.nodes ==> IsResolved(w.nodes[n].table, oid))
            && oid in w.hub.debts && w.hub.debts[oid].open
            && SinglePayer(w, oid, "b")
  {
    hide SinglePayer, Runs, Final, ObligationId, EventId, Start, MirrorsDebts, Settled, SerialRun, MadeAtA, MirroredAtA, MirroredAtB, PaidAtB;
    oid := Oid();
    w0 := Pair(FRESH, FRESH, [], map[]);
    TheStart(w0);
    steps := MakeAndPush(w0);
    var w1 := Final(w0, steps);
    var s2 := MirrorAtB(w1);
    steps := JoinRuns(w0, steps, w1, s2);
    var w2 := Final(w0, steps);
    var s3 := PayAtB(w2);
    steps := JoinRuns(w0, steps, w2, s3);
    var w3 := Final(w0, steps);
    var b := PaidAtB().(pushCursor := 1);
    var s4 := RetryAtA(w3, b);
    steps := JoinRuns(w0, steps, w3, s4);
    var w4 := Final(w0, steps);
    var s5 := MirrorAtA(w4, b);
    steps := JoinRuns(w0, steps, w4, s5);
    TheEnd(Final(w0, steps));
    OnePayer(Final(w0, steps));
  }
}

/**
 Why the acknowledgement form of row agreement needs the reply in the same step: a run in which pushes do not overlap at the hub, but the
 reply to b's push is processed only after a's push.

 The resolution is projected before the creation and lost.  When the creation enters the index, b's cursor has not moved yet, so by the
 cursor nothing of b's was acknowledged before; and b never sends the resolution again.
 */
module LateReply {
  import opened Wrappers
  import opened Ids
  import opened Events
  import opened Ledger
  import opened Protocol
  import opened Replication
  import opened Status
  import opened Weights
  import opened HubLedger
  import opened Ticks
  import opened PayerIndex
  import opened StaleIndex
  import opened Crashes
  import Projection

  function InFlight(appended: nat, materialized: nat): Flight { Flight("b", 0, [Paid()], appended, materialized) }

  /** Node a has pushed its creation up to the append; b has paid and waits for a reply. */
  function Waiting(): Node { PaidAtB().(awaiting := Some(0)) }

  function Held(a: Node, b: Node, feed: seq<Entry>, debts: Debts, f: Flight): World {
    World(MIRROR, map["a" := a, "b" := b], Hub(feed, debts), [f])
  }

  function OpenRow(): Debts { map[Oid() := Debt(true).row] }

  lemma ResolveAtB(w: World)
    requires w == Pair(MadeAtA(), MirroredAtB(), Fed1(), map[])
    ensures Can(w, Resolve("b", Oid(), 0)) && Do(w, Resolve("b", Oid(), 0)) == Pair(MadeAtA(), PaidAtB(), Fed1(), map[])
  {
    hide ObligationId, EventId;
    assert [Made()] + [Paid()] == [Made(), Paid()];
    assert map[Oid() := Debt(true)][Oid() := Debt(false)] == map[Oid() := Debt(false)];
    assert ResolveAt("b", MirroredAtB(), Oid(), 0) == PaidAtB();
    PairSet(MadeAtA(), MirroredAtB(), Fed1(), map[], PaidAtB());
  }

  lemma SendFromB(w: World)
    requires w == Pair(MadeAtA(), PaidAtB(), Fed1(), map[])
    ensures Can(w, Send("b")) && Do(w, Send("b")) == Held(MadeAtA(), Waiting(), Fed1(), map[], InFlight(0, 0))
  {
    hide ObligationId, EventId, EventsSince, Of, MadeAtA;
    OwnOne("b", Paid(), Made());
    OneOut("b", PaidAtB(), Paid());
    assert Pos(Nums([Paid()]), 0) == 0;
    assert [] + [InFlight(0, 0)] == [InFlight(0, 0)];
    PairSet(MadeAtA(), PaidAtB(), Fed1(), map[], Waiting());
  }

  lemma AppendOfB(w: World)
    requires w == Held(MadeAtA(), Waiting(), Fed1(), map[], InFlight(0, 0))
    ensures Can(w, Append(0, 0)) && Do(w, Append(0, 0)) == Held(MadeAtA(), Waiting(), Fed2(), map[], InFlight(1, 0))
  {
    hide ObligationId, EventId, Stored, MadeAtA, Waiting;
    NotStored(Evs(Fed1()), Paid());
    assert Fed1() + [Entry(2, Paid())] == Fed2();
  }

  lemma ProjectOfB(w: World)
    requires w == Held(MadeAtA(), Waiting(), Fed2(), map[], InFlight(1, 0))
    ensures Can(w, Materialize(0, true)) && Do(w, Materialize(0, true)) == Held(MadeAtA(), Waiting(), Fed2(), map[], InFlight(1, 1))
  {
    hide ObligationId, EventId, MadeAtA, Waiting;
  }

  lemma PushFromA(w: World)
    requires w == Held(MadeAtA(), Waiting(), Fed2(), map[], InFlight(1, 1))
    ensures Can(w, Push("a", [0], 1, 1, true))
    ensures Do(w, Push("a", [0], 1, 1, true)) == Held(MadeAtA().(pushCursor := 1), Waiting(), Fed2(), OpenRow(), InFlight(1, 1))
  {
    hide ObligationId, EventId, EventsSince, Waiting, Can, Do;
    OwnAlone("a", Made());
    OneOut("a", MadeAtA(), Made());
    PushOne(w, "a", Made(), true);
    assert Evs(Fed2())[0] == Made();
    var none: Debts := map[];
    assert none[Oid() := Debt(true).row] == OpenRow();
    assert map["a" := MadeAtA(), "b" := Waiting()]["a" := MadeAtA().(pushCursor := 1)] == map["a" := MadeAtA().(pushCursor := 1), "b" := Waiting()];
  }

  lemma ReplyToB(w: World)
    requires w == Held(MadeAtA().(pushCursor := 1), Waiting(), Fed2(), OpenRow(), InFlight(1, 1))
    ensures Can(w, Ack("b"))
    ensures Do(w, Ack("b")) == Held(MadeAtA().(pushCursor := 1), PaidAtB().(pushCursor := 1), Fed2(), OpenRow(), InFlight(1, 1))
  {
    hide ObligationId, EventId, MadeAtA;
    assert map["a" := MadeAtA().(pushCursor := 1), "b" := Waiting()]["b" := PaidAtB().(pushCursor := 1)]
        == map["a" := MadeAtA().(pushCursor := 1), "b" := PaidAtB().(pushCursor := 1)];
  }

  // ---- One push at a time at the hub ----

  /** Not begun, or dealt with from end to end. */
  predicate Whole(f: Flight) {
    (f.appended == 0 && f.materialized == 0) || Complete(f)
  }

  /** The hub works on a push only while no other is half done. */
  ghost predicate OneAtATime(w: World, s: Step) {
    && (s.Push? ==> forall j :: 0 <= j < |w.flights| ==> Whole(w.flights[j]))
    && (s.Append? || s.Materialize? ==> forall j :: 0 <= j < |w.flights| && j != s.i ==> Whole(w.flights[j]))
  }

  ghost predicate NoOverlap(w: World, steps: seq<Step>)
    requires Runs(w, steps)
    decreases |steps|
  {
    steps == [] || (OneAtATime(w, steps[0]) && NoOverlap(Do(w, steps[0]), steps[1..]))
  }

  lemma {:induction false} NoOverlapOn(w: World, a: seq<Step>, b: seq<Step>)
    requires Runs(w, a) && NoOverlap(w, a) && Runs(Final(w, a), b) && NoOverlap(Final(w, a), b)
    ensures Runs(w, a + b) && NoOverlap(w, a + b)
    decreases |a|
  {
    hide Can, Do, OneAtATime;
    RunOn(w, a, b);
    if a == [] {
      assert a + b == b;
    } else {
      assert (a + b)[1..] == a[1..] + b;
      NoOverlapOn(Do(w, a[0]), a[1..], b);
    }
  }

  lemma {:induction false} NoFlights(w: World, steps: seq<Step>)
    requires Runs(w, steps) && SerialRun(steps) && w.flights == []
    ensures NoOverlap(w, steps)
    decreases |steps|
  {
    hide Can, Do;
    if steps != [] {
      assert Serial(steps[0]);
      Projection.FlightsAside(w, steps[0]);
      NoFlights(Do(w, steps[0]), steps[1..]);
    }
  }

  lemma FirstAlone(w: World, s: Step, rest: seq<Step>) returns (steps: seq<Step>)
    requires Can(w, s) && OneAtATime(w, s) && Runs(Do(w, s), rest) && NoOverlap(Do(w, s), rest) && (!s.Adjust? && PaysNothing(rest))
    ensures steps == [s] + rest && Runs(w, steps) && NoOverlap(w, steps) && PaysNothing(steps) && Final(w, steps) == Final(Do(w, s), rest)
  {
    hide Can, Do, OneAtATime;
    steps := FirstStep(w, s, rest);
    assert steps[1..] == rest;
  }

  lemma NothingAlone(w: World)
    ensures Runs(w, []) && NoOverlap(w, []) && PaysNothing([]) && Final(w, []) == w
  {
  }

  // ---- When the row enters ----

  lemma {:induction false} RowStaysInIndex(w: World, steps: seq<Step>, oid: string)
    requires Runs(w, steps) && oid !in Final(w, steps).hub.debts
    ensures oid !in w.hub.debts
    decreases |steps|
  {
    hide Can, Do;
    if steps != [] {
      RowStaysInIndex(Do(w, steps[0]), steps[1..], oid);
      RowStaysOnce(w, steps[0], oid);
    }
  }

  lemma RowStaysOnce(w: World, s: Step, oid: string)
    requires Can(w, s)
    ensures oid in w.hub.debts ==> oid in Do(w, s).hub.debts
  {
    hide AppendOne, Mirror, Of, Foreign, IsTop, IsTopObligation, FeedSince, EventsSince, Stored, Pos, AppendAll, ProjectAll, ObligationId;
    if s.Push? {
      RowStaysAll(w.hub.debts, Outgoing(s.n, w.nodes[s.n])[..s.materialized], oid);
    }
  }

  lemma {:induction false} RowStaysAll(d: Debts, es: seq<Event>, oid: string)
    ensures oid in d ==> oid in ProjectAll(d, es)
  {
    if es != [] {
      RowStaysAll(d, es[..|es| - 1], oid);
    }
  }

  /** As long as the row has not entered, the past does not matter. */
  lemma {:induction false} EntryLater(w: World, a: seq<Step>, b: seq<Step>, oid: string, p: NodeId)
    requires Runs(w, a) && Runs(Final(w, a), b) && oid !in Final(w, a).hub.debts
    ensures Runs(w, a + b) && AckedAtEntry(w, a + b, oid, p) == AckedAtEntry(Final(w, a), b, oid, p)
    decreases |a|
  {
    hide Can, Do, Acked;
    RunOn(w, a, b);
    if a == [] {
      assert a + b == b;
    } else {
      assert (a + b)[1..] == a[1..] + b;
      RowStaysInIndex(Do(w, a[0]), a[1..], oid);
      EntryLater(Do(w, a[0]), a[1..], b, oid, p);
    }
  }

  lemma EntersNow(w: World, s: Step, rest: seq<Step>, oid: string, p: NodeId)
    requires Can(w, s) && Runs(Do(w, s), rest) && p in w.nodes && oid !in w.hub.debts && oid in Do(w, s).hub.debts
    ensures Runs(w, [s] + rest) && AckedAtEntry(w, [s] + rest, oid, p) == Some(Acked(p, w.nodes[p]))
  {
    hide Can, Do, Acked;
    assert ([s] + rest)[1..] == rest;
  }

  // ---- The run ----

  /** From b's payment to the projection of its resolution. */
  lemma BeforeEntry(w: World) returns (steps: seq<Step>)
    requires w == Pair(MadeAtA(), MirroredAtB(), Fed1(), map[])
    ensures Runs(w, steps) && PaysNothing(steps) && NoOverlap(w, steps)
    ensures Final(w, steps) == Held(MadeAtA(), Waiting(), Fed2(), map[], InFlight(1, 1))
  {
    hide Runs, Final, Can, Do, PaysNothing, NoOverlap, ObligationId, EventId, MadeAtA, Waiting, MirroredAtB, PaidAtB;
    ResolveAtB(w);
    var w1 := Do(w, Resolve("b", Oid(), 0));
    SendFromB(w1);
    var w2 := Do(w1, Send("b"));
    AppendOfB(w2);
    var w3 := Do(w2, Append(0, 0));
    ProjectOfB(w3);
    NothingAlone(Do(w3, Materialize(0, true)));
    steps := FirstAlone(w3, Materialize(0, true), []);
    steps := FirstAlone(w2, Append(0, 0), steps);
    steps := FirstAlone(w1, Send("b"), steps);
    steps := FirstAlone(w, Resolve("b", Oid(), 0), steps);
  }

  lemma AtTheEnd(w: World)
    requires w == Held(MadeAtA().(pushCursor := 1), PaidAtB().(pushCursor := 1), Fed2(), OpenRow(), InFlight(1, 1))
    ensures "b" in w.nodes && Own("b", w.nodes["b"]) == [Paid()] && Acked("b", w.nodes["b"]) == 1
    ensures SinglePayer(w, Oid(), "b") && IsResolved(w.nodes["b"].table, Oid()) && IsOpen(w.hub.debts)
  {
    hide ObligationId, EventId, Of;
    OwnOne("b", Paid(), Made());
    assert Own("b", w.nodes["b"]) == [Paid()];
    assert [Paid()][1..] == [];
    assert Nums([Paid()])[1..] == [];
    assert Pos(Nums([Paid()]), 1) == 1 + Pos(Nums([Paid()])[1..], 1);
    OwnAlone("a", Made());
  }

  predicate IsOpen(d: Debts) {
    Oid() in d && d[Oid()].open
  }

  /** Pushes do not overlap at the hub, b alone has paid, its log is acknowledged, by the cursor nothing of it was acknowledged when the row
      entered, and all of it but the creation is a resolution; yet b holds the debt for paid and the hub does not. */
  lemma CursorIsNotEnough() returns (w0: World, steps: seq<Step>)
    ensures Start(w0) && MirrorsDebts(w0.handlers) && Runs(w0, steps) && CarefulRun(w0, steps) && PayingRun(steps) && NoOverlap(w0, steps)
    ensures var w, own := Final(w0, steps), [Paid()];
            && "b" in w.nodes && Own("b", w.nodes["b"]) == own && Acked("b", w.nodes["b"]) == |own|
            && SinglePayer(w, Oid(), "b") && ResolvedIn(own[0..], Oid())
            && AckedAtEntry(w0, steps, Oid(), "b") == Some(0)
            && IsResolved(w.nodes["b"].table, Oid()) && IsOpen(w.hub.debts)
  {
    hide Runs, Final, CarefulRun, Start, MirrorsDebts, PayingRun, PaysNothing, Can, Do, Acked, Own, AckedAtEntry, SinglePayer,
         Pair, Held, ObligationId, EventId, NoOverlap, SerialRun;
    w0 := Pair(FRESH, FRESH, [], map[]);
    TheStart(w0);
    var s1 := MakeAndPush(w0);
    var w1 := Final(w0, s1);
    var s2 := MirrorAtB(w1);
    s1 := JoinRuns(w0, s1, w1, s2);
    var w2 := Final(w0, s1);
    assert w0.flights == [] by { PairHasNoFlights(); }
    NoFlights(w0, s1);
    var s3 := BeforeEntry(w2);
    NoOverlapOn(w0, s1, s3);
    RunOn(w0, s1, s3);
    BothPayNothing(s1, s3);
    s1 := s1 + s3;
    var w3 := Final(w0, s1);
    PushFromA(w3);
    var w4 := Do(w3, Push("a", [0], 1, 1, true));
    ReplyToB(w4);
    NothingAlone(Do(w4, Ack("b")));
    var s5 := FirstAlone(w4, Ack("b"), []);
    assert OneAtATime(w3, Push("a", [0], 1, 1, true)) by { HeldIsWhole(w3); }
    var s4 := FirstAlone(w3, Push("a", [0], 1, 1, true), s5);
    RowComes(w3, w4);
    EntersNow(w3, Push("a", [0], 1, 1, true), s5, Oid(), "b");
    EntryLater(w0, s1, s4, Oid(), "b");
    RunOn(w0, s1, s4);
    NoOverlapOn(w0, s1, s4);
    steps := s1 + s4;
    BothPayNothing(s1, s4);
    PaysNothingIsCareful(w0, steps);
    AtTheEnd(Final(w0, steps));
    OneResolved();
  }

  lemma PairHasNoFlights()
    ensures Pair(FRESH, FRESH, [], map[]).flights == []
  {
  }

  lemma HeldIsWhole(w: World)
    requires w == Held(MadeAtA(), Waiting(), Fed2(), map[], InFlight(1, 1))
    ensures forall j :: 0 <= j < |w.flights| ==> Whole(w.flights[j])
  {
    hide MadeAtA, Waiting, ObligationId;
  }

  lemma RowComes(w: World, w': World)
    requires w == Held(MadeAtA(), Waiting(), Fed2(), map[], InFlight(1, 1))
    requires w' == Held(MadeAtA().(pushCursor := 1), Waiting(), Fed2(), OpenRow(), InFlight(1, 1))
    ensures "b" in w.nodes && Oid() !in w.hub.debts && Oid() in w'.hub.debts && Acked("b", w.nodes["b"]) == 0
  {
    hide ObligationId, EventId, Of;
    OwnOne("b", Paid(), Made());
    assert Own("b", w.nodes["b"]) == [Paid()];
  }

  lemma BothPayNothing(a: seq<Step>, b: seq<Step>)
    requires PaysNothing(a) && PaysNothing(b)
    ensures PaysNothing(a + b)
  {
  }

  lemma OneResolved()
    ensures ResolvedIn([Paid()][0..], Oid())
  {
    hide ObligationId;
    assert [Paid()][0..][0] == Paid();
  }
}

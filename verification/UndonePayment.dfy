/**
 Why replaying needs one payer: a run after which a node's own payment is undone by its debt handler.

 Both nodes pay on the same debt.  Node a mirrors b's payment, stops before marking the handler, pays two more itself, and then
 applies the event again: the debt is back at what b left.
 */
module UndonePayment {
  import opened Ids
  import opened Events
  import opened Ledger
  import opened Protocol
  import opened Status
  import opened Weights
  import opened Ticks
  import opened StaleIndex
  import opened Crashes

  function Lowered(): Event { Event("b", 1, 0, DebtAdjusted(Oid(), 10, 7)) }
  function LoweredMore(): Event { Event("a", 2, 0, DebtAdjusted(Oid(), 7, 5)) }
  function Owing(weight: int): Obligation { Obligation(Row("a", DEAL, weight, true), 0) }
  function FedPaid(): seq<Entry> { [Entry(1, Made()), Entry(2, Lowered())] }

  function PayingAtB(): Node { MirroredAtB().(num := 1, events := [Made(), Lowered()], table := map[Oid() := Owing(7)]) }

  /** Node a with the event in hand, with its handler run, after the stop, and after paying itself. */
  function PulledAtA(): Node { MadeAtA().(inbox := [Entry(2, Lowered())]) }
  function RanAtA(): Node {
    PulledAtA().(events := [Made(), Lowered()], table := map[Oid() := Owing(7)], work := Applying(true, 0, true), done := 1,
                 runs := [(Lowered().Id(), 0)])
  }
  function StoppedAtA(): Node { RanAtA().(inbox := [], work := Idle) }
  function PaidAtA(): Node {
    StoppedAtA().(num := 2, events := [Made(), Lowered(), LoweredMore()], table := map[Oid() := Owing(5)])
  }
  function UndoneAtA(): Node {
    PaidAtA().(inbox := [Entry(2, Lowered())], table := map[Oid() := Owing(7)], work := Applying(false, 0, true),
               runs := [(Lowered().Id(), 0), (Lowered().Id(), 0)])
  }

  lemma PayAtB(w: World) returns (steps: seq<Step>)
    requires w == Pair(MadeAtA(), MirroredAtB(), Fed1(), map[])
    ensures Runs(w, steps) && CarefulRun(w, steps) && PayingRun(steps)
    ensures Final(w, steps) == Pair(MadeAtA(), PayingAtB().(pushCursor := 1), FedPaid(), map[])
  {
    hide Runs, Final, CarefulRun, ObligationId, EventId, EventsSince, Of, Stored;
    assert [Made()] + [Lowered()] == [Made(), Lowered()];
    assert map[Oid() := Owing(10)][Oid() := Owing(7)] == map[Oid() := Owing(7)];
    assert AdjustAt("b", MirroredAtB(), Oid(), 10, 3, 0) == PayingAtB();
    PairSet(MadeAtA(), MirroredAtB(), Fed1(), map[], PayingAtB());
    var w1 := Pair(MadeAtA(), PayingAtB(), Fed1(), map[]);
    assert Do(w, Adjust("b", Oid(), 10, 3, 0)) == w1;
    steps := PushPayment(w1);
    PaysNothingIsCareful(w1, steps);
    steps := CarefulFirst(w, Adjust("b", Oid(), 10, 3, 0), steps);
  }

  lemma PushPayment(w: World) returns (steps: seq<Step>)
    requires w == Pair(MadeAtA(), PayingAtB(), Fed1(), map[])
    ensures Runs(w, steps) && PaysNothing(steps)
    ensures Final(w, steps) == Pair(MadeAtA(), PayingAtB().(pushCursor := 1), FedPaid(), map[])
  {
    hide Runs, Final, ObligationId, EventId, EventsSince, Stored, Of, Can, Do, MadeAtA;
    OwnOne("b", Lowered(), Made());
    OneOut("b", PayingAtB(), Lowered());
    PushOne(w, "b", Lowered(), true);
    NotStored(Evs(Fed1()), Lowered());
    assert Fed1() + [Entry(2, Lowered())] == FedPaid();
    PairSet(MadeAtA(), PayingAtB(), FedPaid(), map[], PayingAtB().(pushCursor := 1));
    steps := OneStep(w, Push("b", [0], 1, 1, true));
  }

  lemma CarefulFirst(w: World, s: Step, rest: seq<Step>) returns (steps: seq<Step>)
    requires Can(w, s) && Careful(w, s) && TakesOff(s)
    requires Runs(Do(w, s), rest) && CarefulRun(Do(w, s), rest) && PayingRun(rest)
    ensures steps == [s] + rest && Runs(w, steps) && CarefulRun(w, steps) && PayingRun(steps)
    ensures Final(w, steps) == Final(Do(w, s), rest)
  {
    hide Can, Do, Careful, TakesOff;
    steps := [s] + rest;
    assert steps[1..] == rest;
  }

  lemma OneSeen()
    ensures |Foreign([Made(), Lowered()], "a")| == 1
  {
    hide ObligationId;
    AppendSelects([Made()], Lowered(), "a");
    assert [] + [Made()] == [Made()] && [Made()] + [Lowered()] == [Made(), Lowered()];
    AppendSelects([], Made(), "a");
  }

  /** What node a pulls while its cursor is at the start. */
  lemma PageAtA()
    ensures FeedSince(FedPaid(), 0, PAGE, "a") == [Entry(2, Lowered())]
  {
    hide FeedSince, ObligationId;
    assert Fed1() + [Entry(2, Lowered())] == FedPaid();
    OneIn(Fed1(), Entry(2, Lowered()), "a", 0);
  }

  lemma StopAtA(w: World, b: Node) returns (steps: seq<Step>)
    requires w == Pair(MadeAtA(), b, FedPaid(), map[])
    ensures Runs(w, steps) && PaysNothing(steps) && Final(w, steps) == Pair(StoppedAtA(), b, FedPaid(), map[])
  {
    hide Runs, Final, ObligationId, EventId, FeedSince, Stored, PaysNothing, Foreign, MadeAtA;
    var w1 := Pair(PulledAtA(), b, FedPaid(), map[]);
    PageAtA();
    PairSet(MadeAtA(), b, FedPaid(), map[], PulledAtA());
    CursorAtA();
    assert Do(w, Pull("a")) == w1;
    steps := BeginAndStop(w1, b);
    steps := FirstStep(w, Pull("a"), steps);
  }

  lemma CursorAtA()
    ensures MadeAtA().hubCursor == 0 && MadeAtA().work.Idle? && PulledAtA() == MadeAtA().(inbox := [Entry(2, Lowered())])
  {
    hide ObligationId;
  }

  lemma BeginAndStop(w1: World, b: Node) returns (steps: seq<Step>)
    requires w1 == Pair(PulledAtA(), b, FedPaid(), map[])
    ensures Runs(w1, steps) && PaysNothing(steps) && Final(w1, steps) == Pair(StoppedAtA(), b, FedPaid(), map[])
  {
    hide Runs, Final, ObligationId, EventId, Stored, PaysNothing, Foreign;
    var begun := PulledAtA().(events := [Made(), Lowered()], work := Applying(true, 0, false));
    var w2 := Pair(begun, b, FedPaid(), map[]);
    var w3, w4 := Pair(RanAtA(), b, FedPaid(), map[]), Pair(StoppedAtA(), b, FedPaid(), map[]);
    NotStored([Made()], Lowered());
    assert [Made()] + [Lowered()] == [Made(), Lowered()];
    PairSet(PulledAtA(), b, FedPaid(), map[], begun);
    assert Do(w1, Begin("a")) == w2;
    RunAtA(w2, b, begun);
    PairSet(RanAtA(), b, FedPaid(), map[], StoppedAtA());
    CanAbort(w3, "a");
    steps := OneStep(w3, Abort("a"));
    steps := FirstStep(w2, Handle("a"), steps);
    steps := FirstStep(w1, Begin("a"), steps);
  }

  lemma RunAtA(w: World, b: Node, begun: Node)
    requires w == Pair(begun, b, FedPaid(), map[])
    requires begun == PulledAtA().(events := [Made(), Lowered()], work := Applying(true, 0, false))
    ensures Can(w, Handle("a")) && Do(w, Handle("a")) == Pair(RanAtA(), b, FedPaid(), map[])
  {
    hide ObligationId, EventId, Foreign;
    OneSeen();
    assert map[Oid() := Debt(true)][Oid() := Owing(7)] == map[Oid() := Owing(7)];
    assert [] + [(Lowered().Id(), 0)] == RanAtA().runs;
    assert HandlerAt("a", begun, MirrorDebt) == RanAtA();
    PairSet(begun, b, FedPaid(), map[], RanAtA());
  }

  lemma PayAtA(w: World, b: Node) returns (steps: seq<Step>)
    requires w == Pair(StoppedAtA(), b, FedPaid(), map[])
    ensures Runs(w, steps) && CarefulRun(w, steps) && PayingRun(steps) && Final(w, steps) == Pair(PaidAtA(), b, FedPaid(), map[])
  {
    hide Runs, Final, CarefulRun, ObligationId, EventId;
    assert [Made(), Lowered()] + [LoweredMore()] == [Made(), Lowered(), LoweredMore()];
    assert map[Oid() := Owing(7)][Oid() := Owing(5)] == map[Oid() := Owing(5)];
    assert AdjustAt("a", StoppedAtA(), Oid(), 7, 2, 0) == PaidAtA();
    PairSet(StoppedAtA(), b, FedPaid(), map[], PaidAtA());
    var w1 := Do(w, Adjust("a", Oid(), 7, 2, 0));
    NoSteps(w1);
    PaysNothingIsCareful(w1, []);
    steps := CarefulFirst(w, Adjust("a", Oid(), 7, 2, 0), []);
  }

  /** Pull, Begin, Handle once more. */
  lemma ReplayAtA(w: World, b: Node) returns (steps: seq<Step>)
    requires w == Pair(PaidAtA(), b, FedPaid(), map[])
    ensures steps == [Pull("a"), Begin("a"), Handle("a")]
    ensures Runs(w, steps) && Final(w, steps) == Pair(UndoneAtA(), b, FedPaid(), map[])
  {
    hide Runs, Final, ObligationId, EventId, FeedSince, Stored, PaysNothing, Foreign;
    var pulled := PaidAtA().(inbox := [Entry(2, Lowered())]);
    var begun := pulled.(work := Applying(false, 0, false));
    var w1, w2 := Pair(pulled, b, FedPaid(), map[]), Pair(begun, b, FedPaid(), map[]);
    PageAtA();
    PairSet(PaidAtA(), b, FedPaid(), map[], pulled);
    assert Do(w, Pull("a")) == w1;
    IsStored();
    PairSet(pulled, b, FedPaid(), map[], begun);
    assert Do(w1, Begin("a")) == w2;
    AgainAtA(w2, b, begun);
    steps := OneStep(w2, Handle("a"));
    steps := FirstStep(w1, Begin("a"), steps);
    steps := FirstStep(w, Pull("a"), steps);
  }

  lemma IsStored()
    ensures Stored([Made(), Lowered(), LoweredMore()], Lowered().Id())
  {
    hide ObligationId, EventId;
    assert [Made(), Lowered(), LoweredMore()][1].Id() == Lowered().Id();
  }

  lemma AgainAtA(w: World, b: Node, begun: Node)
    requires w == Pair(begun, b, FedPaid(), map[])
    requires begun == PaidAtA().(inbox := [Entry(2, Lowered())], work := Applying(false, 0, false))
    ensures Can(w, Handle("a")) && Do(w, Handle("a")) == Pair(UndoneAtA(), b, FedPaid(), map[])
  {
    hide ObligationId, EventId, Foreign;
    OneSeen();
    AppendSelects([Made(), Lowered()], LoweredMore(), "a");
    assert [Made(), Lowered()] + [LoweredMore()] == [Made(), Lowered(), LoweredMore()];
    assert map[Oid() := Owing(5)][Oid() := Owing(7)] == map[Oid() := Owing(7)];
    assert [(Lowered().Id(), 0)] + [(Lowered().Id(), 0)] == UndoneAtA().runs;
    assert HandlerAt("a", begun, MirrorDebt) == UndoneAtA();
    PairSet(begun, b, FedPaid(), map[], UndoneAtA());
  }

  /** A run of careful payments after which a's row weighs 5, as a's last event says, and a next try at the pulled event that puts the
      7 back. */
  lemma ReplayUndoesAPayment() returns (w0: World, steps: seq<Step>, oid: string)
    ensures Start(w0) && MirrorsDebts(w0.handlers) && Runs(w0, steps) && CarefulRun(w0, steps) && PayingRun(steps)
    ensures var w := Final(w0, steps);
            && "a" in w.nodes && oid in w.nodes["a"].table && w.nodes["a"].table[oid].row.weight == 5
            && w.nodes["a"].events != [] && w.nodes["a"].events[|w.nodes["a"].events| - 1].body == DebtAdjusted(oid, 7, 5)
            && Runs(w, [Pull("a"), Begin("a"), Handle("a")])
            && var again := Final(w, [Pull("a"), Begin("a"), Handle("a")]);
            "a" in again.nodes && oid in again.nodes["a"].table && again.nodes["a"].table[oid].row.weight == 7
  {
    hide Runs, Final, CarefulRun, ObligationId, EventId, Start, MirrorsDebts, PayingRun, MadeAtA, MirroredAtB;
    oid := Oid();
    w0 := Pair(FRESH, FRESH, [], map[]);
    TheStart(w0);
    var s1 := MakeAndPush(w0);
    PaysNothingIsCareful(w0, s1);
    var w1 := Final(w0, s1);
    var s2 := MirrorAtB(w1);
    PaysNothingIsCareful(w1, s2);
    steps := Join(w0, s1, w1, s2);
    var w2 := Final(w0, steps);
    var s3 := PayAtB(w2);
    steps := Join(w0, steps, w2, s3);
    var w3 := Final(w0, steps);
    var b := PayingAtB().(pushCursor := 1);
    var s4 := StopAtA(w3, b);
    PaysNothingIsCareful(w3, s4);
    steps := Join(w0, steps, w3, s4);
    var w4 := Final(w0, steps);
    var s5 := PayAtA(w4, b);
    steps := Join(w0, steps, w4, s5);
    var s6 := ReplayAtA(Final(w0, steps), b);
  }

  lemma Join(w: World, a: seq<Step>, u: World, b: seq<Step>) returns (c: seq<Step>)
    requires Runs(w, a) && CarefulRun(w, a) && PayingRun(a) && Final(w, a) == u
    requires Runs(u, b) && CarefulRun(u, b) && PayingRun(b)
    ensures Runs(w, c) && CarefulRun(w, c) && PayingRun(c) && Final(w, c) == Final(u, b)
  {
    hide Runs, Final, CarefulRun;
    c := a + b;
    CarefulOn(w, a, b);
  }
}

/**
 One sync tick as a function of the node and the hub, and what it means: every tick, whatever goes wrong in it, is a run of
 the protocol, and ticks in which nothing goes wrong work a backlog off a page at a time.
 */
module Ticks {
  import opened Wrappers
  import opened Ids
  import opened Events
  import opened Ledger
  import opened Protocol
  import opened Replication
  import opened Causality

  /** What ends the applying part of a tick early: the k-th pulled event cannot be inserted, its i-th handler's mark cannot be
      read, that handler fails (and the failure may be recorded), its success cannot be marked, or the cursor cannot be saved. */
  datatype Fault =
    | NoFault
    | InsertFails(event: nat)
    | LookupFails(event: nat, handler: nat)
    | HandlerFault(event: nat, handler: nat, recorded: bool)
    | MarkFails(event: nat, handler: nat)
    | CursorFails(event: nat)

  /** What happens to one tick.  The hub appends and projects as many events as it gets to; `gap` gives the jumps of its
      AUTOINCREMENT key. */
  datatype Luck = Luck(
    heartbeat: bool,
    gap: nat -> nat,
    appended: nat,
    materialized: nat,
    replied: bool,
    pulled: bool,
    fault: Fault)

  datatype Outcome = Outcome(nd: Node, ok: bool)
  datatype Ticked = Ticked(nd: Node, hub: Hub, ok: bool)

  // ---- Applying ----

  /** One round of the handler loop of ApplyEvent; k is the position of the event in the page. */
  function HandlerStep(n: NodeId, nd: Node, h: Handler, k: nat, fault: Fault): (r: Outcome)
    requires Busy(nd) && !nd.work.ran
    ensures r.ok ==> r.nd.inbox == nd.inbox && r.nd.work == nd.work.(idx := nd.work.idx + 1)
  {
    var i := nd.work.idx;
    if !nd.work.isNew && fault == LookupFails(k, i) then Outcome(AbortAt(nd), false)
    else if Skips(nd) then Outcome(HandlerAt(n, nd, h), true)
    else if fault.HandlerFault? && fault.event == k && fault.handler == i then Outcome(FailAt(nd, fault.recorded), false)
    else if fault == MarkFails(k, i) then Outcome(AbortAt(HandlerAt(n, nd, h)), false)
    else Outcome(MarkedAt(HandlerAt(n, nd, h)), true)
  }

  /** The handler loop of ApplyEvent, from the next handler on. */
  function HandlersAt(n: NodeId, nd: Node, hs: seq<Handler>, k: nat, fault: Fault): (r: Outcome)
    requires Busy(nd) && !nd.work.ran && nd.work.idx <= |hs|
    ensures r.ok ==> r.nd.inbox == nd.inbox && r.nd.work.Applying? && !r.nd.work.ran && r.nd.work.idx == |hs|
    decreases |hs| - nd.work.idx
  {
    if nd.work.idx == |hs| then Outcome(nd, true)
    else
      var r := HandlerStep(n, nd, hs[nd.work.idx], k, fault);
      if !r.ok then r else HandlersAt(n, r.nd, hs, k, fault)
  }

  /** ApplyEvent and SetHubCursor for the first event of the inbox. */
  function ApplyOne(n: NodeId, nd: Node, hs: Handlers, k: nat, fault: Fault): (r: Outcome)
    requires nd.inbox != [] && nd.work.Idle?
    ensures r.ok ==> r.nd.inbox == nd.inbox[1..] && r.nd.work.Idle? && r.nd.hubCursor == nd.inbox[0].hubSeq
  {
    if fault == InsertFails(k) then Outcome(AbortAt(nd), false)
    else
      var r := HandlersAt(n, BeginAt(nd), HandlersFor(hs, Pending(nd).body.Type()), k, fault);
      if !r.ok then r
      else if fault == CursorFails(k) then Outcome(AbortAt(r.nd), false)
      else Outcome(FinishAt(n, r.nd), true)
  }

  /** The loop over the pulled page. */
  function ApplyPage(n: NodeId, nd: Node, hs: Handlers, k: nat, fault: Fault): (r: Outcome)
    requires nd.work.Idle?
    decreases |nd.inbox|
  {
    if nd.inbox == [] then Outcome(nd, true)
    else
      var r := ApplyOne(n, nd, hs, k, fault);
      if !r.ok then r else ApplyPage(n, r.nd, hs, k + 1, fault)
  }

  // ---- Pushing and pulling ----

  function Least(a: nat, b: nat): nat {
    if a <= b then a else b
  }

  /** How far the hub gets: projecting starts after the whole batch is appended. */
  function AppendedOf(luck: Luck, size: nat): nat {
    Least(luck.appended, size)
  }

  function MaterializedOf(luck: Luck, size: nat): nat {
    if luck.appended < size then 0 else Least(luck.materialized, size)
  }

  predicate AckedBy(luck: Luck, size: nat) {
    luck.replied && MaterializedOf(luck, size) == size
  }

  function Gaps(luck: Luck, size: nat): (g: seq<nat>)
    ensures |g| == size && forall i: nat :: i < size ==> g[i] == luck.gap(i)
  {
    if size == 0 then [] else Gaps(luck, size - 1) + [luck.gap(size - 1)]
  }

  function PushHub(hub: Hub, out: seq<Event>, luck: Luck): Hub {
    var a, x := AppendedOf(luck, |out|), MaterializedOf(luck, |out|);
    Hub(AppendAll(hub.feed, out[..a], Gaps(luck, |out|)[..a]), ProjectAll(hub.debts, out[..x]))
  }

  /** The push part of a tick. */
  function PushTick(n: NodeId, nd: Node, hub: Hub, luck: Luck): Ticked {
    var out := Outgoing(n, nd);
    if out == [] then Ticked(nd, hub, true)
    else
      var ok := AckedBy(luck, |out|);
      Ticked(nd.(pushCursor := if ok then out[|out| - 1].num else nd.pushCursor, awaiting := None), PushHub(hub, out, luck), ok)
  }

  /** One tick: heartbeat, push, pull, apply.  It stops at the first thing that goes wrong. */
  function TickAt(n: NodeId, nd: Node, hub: Hub, hs: Handlers, luck: Luck): Ticked
    requires nd.work.Idle?
  {
    if !luck.heartbeat then Ticked(nd, hub, false)
    else
      var p := PushTick(n, nd, hub, luck);
      if !p.ok || !luck.pulled then p.(ok := false)
      else
        var page := FeedSince(p.hub.feed, p.nd.hubCursor, PAGE, n);
        var r := ApplyPage(n, p.nd.(inbox := page), hs, 0, luck.fault);
        Ticked(r.nd, p.hub, r.ok)
  }

  // ---- Every tick is a run ----

  ghost predicate PaysNothing(steps: seq<Step>) {
    forall i :: 0 <= i < |steps| ==> !steps[i].Adjust?
  }

  lemma SetTwice(w: World, n: NodeId, a: Node, b: Node)
    ensures SetNode(SetNode(w, n, a), n, b) == SetNode(w, n, b)
  {
  }

  lemma CanHandle(w: World, n: NodeId)
    requires n in w.nodes && Busy(w.nodes[n]) && !w.nodes[n].work.ran && w.nodes[n].work.idx < |Todo(w, n)|
    ensures Can(w, Handle(n))
    ensures Do(w, Handle(n)) == SetNode(w, n, HandlerAt(n, w.nodes[n], Todo(w, n)[w.nodes[n].work.idx]))
    ensures !Skips(w.nodes[n]) ==> forall b ::
              Can(w, HandlerFails(n, b)) && Do(w, HandlerFails(n, b)) == SetNode(w, n, FailAt(w.nodes[n], b))
  {
    hide HandlerAt;
  }

  lemma CanMark(w: World, n: NodeId)
    requires n in w.nodes && Busy(w.nodes[n]) && w.nodes[n].work.ran && w.nodes[n].work.idx < |Todo(w, n)|
    ensures Can(w, MarkDone(n)) && Do(w, MarkDone(n)) == SetNode(w, n, MarkedAt(w.nodes[n]))
  {
  }

  lemma CanAbort(w: World, n: NodeId)
    requires n in w.nodes
    ensures Can(w, Abort(n)) && Do(w, Abort(n)) == SetNode(w, n, AbortAt(w.nodes[n]))
  {
  }

  /** The handler loop from a node inside the event, as steps. */
  lemma {:induction false} HandlersRun(w: World, n: NodeId, k: nat, fault: Fault) returns (steps: seq<Step>)
    requires n in w.nodes && Busy(w.nodes[n]) && !w.nodes[n].work.ran && w.nodes[n].work.idx <= |Todo(w, n)|
    ensures Runs(w, steps) && SerialRun(steps) && PaysNothing(steps)
    ensures Final(w, steps) == SetNode(w, n, HandlersAt(n, w.nodes[n], Todo(w, n), k, fault).nd)
    decreases |Todo(w, n)| - w.nodes[n].work.idx
  {
    hide Runs, Final, SerialRun, PaysNothing, HandlerAt, MarkedAt, AbortAt, FailAt, Can, Do, Skips;
    var nd, hs := w.nodes[n], Todo(w, n);
    var i := nd.work.idx;
    if i == |hs| {
      steps := [];
      NoSteps(w);
      assert SetNode(w, n, nd) == w;
    } else if !nd.work.isNew && fault == LookupFails(k, i) {
      CanAbort(w, n);
      steps := OneStep(w, Abort(n));
    } else if Skips(nd) {
      var nd1 := HandlerAt(n, nd, hs[i]);
      SkipEffect(n, nd, hs[i]);
      var w1 := SetNode(w, n, nd1);
      CanHandle(w, n);
      var rest := HandlersRun(w1, n, k, fault);
      SetTwice(w, n, nd1, HandlersAt(n, nd1, hs, k, fault).nd);
      steps := FirstStep(w, Handle(n), rest);
    } else if fault.HandlerFault? && fault.event == k && fault.handler == i {
      CanHandle(w, n);
      steps := OneStep(w, HandlerFails(n, fault.recorded));
    } else {
      var nd1 := HandlerAt(n, nd, hs[i]);
      RunEffect(n, nd, hs[i]);
      var w1 := SetNode(w, n, nd1);
      CanHandle(w, n);
      if fault == MarkFails(k, i) {
        CanAbort(w1, n);
        var rest := OneStep(w1, Abort(n));
        SetTwice(w, n, nd1, AbortAt(nd1));
        steps := FirstStep(w, Handle(n), rest);
      } else {
        var nd2 := MarkedAt(nd1);
        MarkEffect(nd1);
        var w2 := SetNode(w1, n, nd2);
        SetTwice(w, n, nd1, nd2);
        var rest := HandlersRun(w2, n, k, fault);
        SetTwice(w, n, nd2, HandlersAt(n, nd2, hs, k, fault).nd);
        CanMark(w1, n);
        rest := FirstStep(w1, MarkDone(n), rest);
        steps := FirstStep(w, Handle(n), rest);
      }
    }
  }

  lemma SkipEffect(n: NodeId, nd: Node, h: Handler)
    requires Busy(nd) && Skips(nd)
    ensures var nd1 := HandlerAt(n, nd, h); nd1.inbox == nd.inbox && nd1.work == nd.work.(idx := nd.work.idx + 1)
  {
  }

  lemma RunEffect(n: NodeId, nd: Node, h: Handler)
    requires Busy(nd) && !Skips(nd)
    ensures var nd1 := HandlerAt(n, nd, h); nd1.inbox == nd.inbox && nd1.work == nd.work.(ran := true)
  {
  }

  lemma MarkEffect(nd: Node)
    requires Busy(nd)
    ensures var nd1 := MarkedAt(nd); nd1.inbox == nd.inbox && nd1.work == nd.work.(idx := nd.work.idx + 1, ran := false)
  {
  }

  lemma NoSteps(w: World)
    ensures SerialRun([]) && PaysNothing([])
    ensures Runs(w, []) && Final(w, []) == w
  {
  }

  lemma FirstStep(w: World, s: Step, rest: seq<Step>) returns (steps: seq<Step>)
    requires Can(w, s) && Runs(Do(w, s), rest)
    ensures Serial(s) && SerialRun(rest) ==> SerialRun(steps)
    ensures !s.Adjust? && PaysNothing(rest) ==> PaysNothing(steps)
    ensures steps == [s] + rest && Runs(w, steps) && Final(w, steps) == Final(Do(w, s), rest)
  {
    hide Can, Do;
    steps := [s] + rest;
    assert steps[1..] == rest;
  }

  lemma OneStep(w: World, s: Step) returns (steps: seq<Step>)
    requires Can(w, s)
    ensures Serial(s) ==> SerialRun(steps)
    ensures !s.Adjust? ==> PaysNothing(steps)
    ensures steps == [s] && Runs(w, steps) && Final(w, steps) == Do(w, s)
  {
    hide Can, Do;
    NoSteps(Do(w, s));
    steps := FirstStep(w, s, []);
  }

  lemma BeginEffect(nd: Node)
    requires nd.inbox != []
    ensures var nd1 := BeginAt(nd); nd1.inbox == nd.inbox && nd1.work.Applying? && nd1.work.idx == 0 && !nd1.work.ran
  {
  }

  lemma CanBegin(w: World, n: NodeId)
    requires n in w.nodes && w.nodes[n].inbox != [] && w.nodes[n].work.Idle?
    ensures Can(w, Begin(n)) && Do(w, Begin(n)) == SetNode(w, n, BeginAt(w.nodes[n]))
  {
    hide BeginAt;
  }

  lemma CanFinish(w: World, n: NodeId)
    requires n in w.nodes && Busy(w.nodes[n]) && !w.nodes[n].work.ran && w.nodes[n].work.idx == |Todo(w, n)|
    ensures Can(w, Finish(n)) && Do(w, Finish(n)) == SetNode(w, n, FinishAt(n, w.nodes[n]))
  {
    hide FinishAt;
  }

  lemma JoinRuns(w: World, a: seq<Step>, u: World, b: seq<Step>) returns (c: seq<Step>)
    requires Runs(w, a) && Final(w, a) == u && Runs(u, b)
    ensures Runs(w, c) && Final(w, c) == Final(u, b)
    ensures SerialRun(a) && SerialRun(b) ==> SerialRun(c)
    ensures PaysNothing(a) && PaysNothing(b) ==> PaysNothing(c)
  {
    hide Runs, Final;
    c := a + b;
    RunOn(w, a, b);
  }

  lemma ApplyRun(w: World, n: NodeId, k: nat, fault: Fault) returns (steps: seq<Step>)
    requires n in w.nodes && w.nodes[n].inbox != [] && w.nodes[n].work.Idle?
    ensures Runs(w, steps) && SerialRun(steps) && PaysNothing(steps)
    ensures Final(w, steps) == SetNode(w, n, ApplyOne(n, w.nodes[n], w.handlers, k, fault).nd)
  {
    hide Runs, Final, SerialRun, PaysNothing, HandlersAt, BeginAt, FinishAt, AbortAt, Can, Do;
    var nd := w.nodes[n];
    if fault == InsertFails(k) {
      CanAbort(w, n);
      steps := OneStep(w, Abort(n));
    } else {
      var nd1 := BeginAt(nd);
      BeginEffect(nd);
      var w1 := SetNode(w, n, nd1);
      CanBegin(w, n);
      var r := HandlersAt(n, nd1, Todo(w1, n), k, fault);
      var mid := HandlersRun(w1, n, k, fault);
      SetTwice(w, n, nd1, r.nd);
      var w2 := SetNode(w, n, r.nd);
      if r.ok {
        var last := if fault == CursorFails(k) then Abort(n) else Finish(n);
        CanAbort(w2, n);
        CanFinish(w2, n);
        var tail := OneStep(w2, last);
        SetTwice(w, n, r.nd, if fault == CursorFails(k) then AbortAt(r.nd) else FinishAt(n, r.nd));
        mid := JoinRuns(w1, mid, w2, tail);
      }
      steps := FirstStep(w, Begin(n), mid);
    }
  }

  lemma {:induction false} PageRun(w: World, n: NodeId, k: nat, fault: Fault) returns (steps: seq<Step>)
    requires n in w.nodes && w.nodes[n].work.Idle?
    ensures Runs(w, steps) && SerialRun(steps) && PaysNothing(steps)
    ensures Final(w, steps) == SetNode(w, n, ApplyPage(n, w.nodes[n], w.handlers, k, fault).nd)
    decreases |w.nodes[n].inbox|
  {
    hide Runs, Final, SerialRun, PaysNothing, ApplyOne;
    var nd := w.nodes[n];
    if nd.inbox == [] {
      steps := [];
      NoSteps(w);
      assert SetNode(w, n, nd) == w;
    } else {
      var r := ApplyOne(n, nd, w.handlers, k, fault);
      steps := ApplyRun(w, n, k, fault);
      if r.ok {
        var w1 := SetNode(w, n, r.nd);
        var rest := PageRun(w1, n, k + 1, fault);
        SetTwice(w, n, r.nd, ApplyPage(n, r.nd, w.handlers, k + 1, fault).nd);
        steps := JoinRuns(w, steps, w1, rest);
      }
    }
  }

  lemma PushRun(w: World, n: NodeId, luck: Luck) returns (steps: seq<Step>)
    requires n in w.nodes && w.nodes[n].awaiting.None?
    ensures Runs(w, steps) && SerialRun(steps) && PaysNothing(steps)
    ensures var p := PushTick(n, w.nodes[n], w.hub, luck); Final(w, steps) == SetNode(w, n, p.nd).(hub := p.hub)
  {
    hide Runs, Final, SerialRun, PaysNothing, EventsSince, AppendAll, ProjectAll;
    var nd, out := w.nodes[n], Outgoing(n, w.nodes[n]);
    if out == [] {
      steps := [];
      NoSteps(w);
      assert SetNode(w, n, nd) == w;
    } else {
      var a, x := AppendedOf(luck, |out|), MaterializedOf(luck, |out|);
      steps := OneStep(w, Push(n, Gaps(luck, |out|), a, x, AckedBy(luck, |out|)));
    }
  }

  /** Every tick is a run of the protocol, whatever is lost, fails or stops in it: all that holds of runs holds of ticks. */
  lemma TickIsRun(w: World, n: NodeId, luck: Luck) returns (steps: seq<Step>)
    requires n in w.nodes && w.nodes[n].work.Idle? && w.nodes[n].awaiting.None?
    ensures Runs(w, steps) && SerialRun(steps) && PaysNothing(steps)
    ensures var t := TickAt(n, w.nodes[n], w.hub, w.handlers, luck); Final(w, steps) == SetNode(w, n, t.nd).(hub := t.hub)
  {
    hide Runs, Final, SerialRun, PaysNothing, PushTick, FeedSince, ApplyPage;
    var nd := w.nodes[n];
    if !luck.heartbeat {
      steps := [];
      NoSteps(w);
      assert SetNode(w, n, nd) == w;
    } else {
      var p := PushTick(n, nd, w.hub, luck);
      PushLeaves(n, nd, w.hub, luck);
      steps := PushRun(w, n, luck);
      if p.ok && luck.pulled {
        var w1 := SetNode(w, n, p.nd).(hub := p.hub);
        var nd2 := p.nd.(inbox := FeedSince(p.hub.feed, p.nd.hubCursor, PAGE, n));
        var w2 := SetNode(w1, n, nd2);
        var pull := OneStep(w1, Pull(n));
        steps := JoinRuns(w, steps, w1, pull);
        var rest := PageRun(w2, n, 0, luck.fault);
        steps := JoinRuns(w, steps, w2, rest);
      }
    }
  }

  lemma PushLeaves(n: NodeId, nd: Node, hub: Hub, luck: Luck)
    ensures var p := PushTick(n, nd, hub, luck);
            p.nd == nd.(pushCursor := p.nd.pushCursor, awaiting := p.nd.awaiting) && (nd.awaiting.None? ==> p.nd.awaiting.None?)
  {
    hide EventsSince, AppendAll, ProjectAll;
  }

  // ---- Catching up ----

  /** The foreign entries node n has still to pull. */
  function Backlog(n: NodeId, hubCursor: nat, feed: seq<Entry>): nat {
    |Vis(feed, n)| - Pos(HubSeqs(Vis(feed, n)), hubCursor)
  }

  predicate Lucky(luck: Luck, size: nat) {
    luck.heartbeat && luck.appended >= size && luck.materialized >= size && luck.replied && luck.pulled && luck.fault.NoFault?
  }

  lemma {:induction false} HandlersSucceed(n: NodeId, nd: Node, hs: seq<Handler>, k: nat)
    requires Busy(nd) && !nd.work.ran && nd.work.idx <= |hs|
    ensures HandlersAt(n, nd, hs, k, NoFault).ok
    decreases |hs| - nd.work.idx
  {
    if nd.work.idx < |hs| {
      var h := hs[nd.work.idx];
      if Skips(nd) {
        HandlersSucceed(n, HandlerAt(n, nd, h), hs, k);
      } else {
        HandlersSucceed(n, MarkedAt(HandlerAt(n, nd, h)), hs, k);
      }
    }
  }

  /** Without a fault the whole page is applied and the cursor ends on its last entry. */
  lemma {:induction false} PageSucceeds(n: NodeId, nd: Node, hs: Handlers, k: nat)
    requires nd.work.Idle?
    ensures var r := ApplyPage(n, nd, hs, k, NoFault);
            && r.ok && r.nd.work.Idle? && r.nd.inbox == []
            && r.nd.hubCursor == if nd.inbox == [] then nd.hubCursor else nd.inbox[|nd.inbox| - 1].hubSeq
    decreases |nd.inbox|
  {
    hide HandlersAt, BeginAt;
    if nd.inbox != [] {
      BeginEffect(nd);
      HandlersSucceed(n, BeginAt(nd), HandlersFor(hs, Pending(nd).body.Type()), k);
      PageSucceeds(n, ApplyOne(n, nd, hs, k, NoFault).nd, hs, k + 1);
    }
  }

  /** Own events do not show in what a node is shown. */
  lemma {:induction false} OwnPushUnseen(feed: seq<Entry>, es: seq<Event>, gaps: seq<nat>, n: NodeId)
    requires |gaps| == |es| && forall i :: 0 <= i < |es| ==> es[i].source == n
    ensures Vis(AppendAll(feed, es, gaps), n) == Vis(feed, n)
  {
    hide Stored;
    if es != [] {
      var k := |es| - 1;
      OwnPushUnseen(feed, es[..k], gaps[..k], n);
      var feed1 := AppendAll(feed, es[..k], gaps[..k]);
      AppendVis(feed1, Entry(Head(feed1) + 1 + gaps[k], es[k]), n);
    }
  }

  lemma OutgoingIsOwn(w: World, n: NodeId)
    requires Inv(w) && n in w.nodes
    ensures forall i :: 0 <= i < |Outgoing(n, w.nodes[n])| ==> Outgoing(n, w.nodes[n])[i].source == n
  {
    hide Inv, Of, EventsSince;
    var nd := w.nodes[n];
    InvLog(w, n);
    OutgoingIsSuffix(n, nd, w.hub.feed);
    forall i | 0 <= i < |Own(n, nd)| ensures Own(n, nd)[i].source == n {
      var x := OfIndex(nd.events, n, i);
    }
  }

  lemma PushUnseen(w: World, n: NodeId, luck: Luck)
    requires Inv(w) && n in w.nodes
    ensures Vis(PushTick(n, w.nodes[n], w.hub, luck).hub.feed, n) == Vis(w.hub.feed, n)
  {
    hide Inv, EventsSince, AppendAll, ProjectAll, Vis;
    OutgoingIsOwn(w, n);
    var out := Outgoing(n, w.nodes[n]);
    var a := AppendedOf(luck, |out|);
    OwnPushUnseen(w.hub.feed, out[..a], Gaps(luck, |out|)[..a], n);
  }

  /** A tick in which nothing goes wrong takes a full page, or all that is left, off the backlog. */
  lemma LuckyTick(w: World, n: NodeId, luck: Luck)
    requires Inv(w) && n in w.nodes && w.nodes[n].work.Idle? && w.nodes[n].awaiting.None?
    requires Lucky(luck, |Outgoing(n, w.nodes[n])|)
    ensures var t := TickAt(n, w.nodes[n], w.hub, w.handlers, luck);
            var b := Backlog(n, w.nodes[n].hubCursor, w.hub.feed);
            && t.ok && t.nd.work.Idle? && t.nd.inbox == []
            && Vis(t.hub.feed, n) == Vis(w.hub.feed, n)
            && Backlog(n, t.nd.hubCursor, t.hub.feed) == (if b <= 500 then 0 else b - 500)
  {
    hide Inv, Runs, Final, Vis, Pos, FeedSince, ApplyPage, PushTick, Outgoing;
    var nd := w.nodes[n];
    var p := PushTick(n, nd, w.hub, luck);
    assert p.ok by { LuckyPush(n, nd, w.hub, luck); }
    PushLeaves(n, nd, w.hub, luck);
    PushUnseen(w, n, luck);
    var steps := PushRun(w, n, luck);
    RunKeepsInv(w, steps);
    var w1 := SetNode(w, n, p.nd).(hub := p.hub);
    FeedIncreasing(w1);
    FeedSinceIsPage(p.hub.feed, nd.hubCursor, PAGE, n);
    VisIncreasing(p.hub.feed, n);
    var vis := Vis(w.hub.feed, n);
    var k, page := Pos(HubSeqs(vis), nd.hubCursor), FeedSince(p.hub.feed, nd.hubCursor, PAGE, n);
    PageSucceeds(n, p.nd.(inbox := page), w.handlers, 0);
    if page != [] {
      var top := k + |page|;
      assert page[|page| - 1] == vis[top - 1];
      PosIs(HubSeqs(vis), vis[top - 1].hubSeq, top);
    }
  }

  lemma LuckyPush(n: NodeId, nd: Node, hub: Hub, luck: Luck)
    requires Lucky(luck, |Outgoing(n, nd)|)
    ensures PushTick(n, nd, hub, luck).ok
  {
    hide EventsSince, AppendAll, ProjectAll;
  }

  lemma FeedIncreasing(w: World)
    requires Inv(w)
    ensures Increasing(HubSeqs(w.hub.feed))
  {
    hide NodeOk, FlightsOk;
  }

  /** Ticks one after another, as long as they succeed. */
  function TicksAt(n: NodeId, nd: Node, hub: Hub, hs: Handlers, lucks: seq<Luck>): Ticked
    requires nd.work.Idle?
    decreases |lucks|
  {
    if lucks == [] then Ticked(nd, hub, true)
    else
      var t := TickAt(n, nd, hub, hs, lucks[0]);
      if !t.ok || !t.nd.work.Idle? then t else TicksAt(n, t.nd, t.hub, hs, lucks[1..])
  }

  /** Nothing goes wrong in any of the ticks. */
  predicate AllLucky(n: NodeId, nd: Node, hub: Hub, hs: Handlers, lucks: seq<Luck>)
    requires nd.work.Idle?
    decreases |lucks|
  {
    lucks == [] ||
    (Lucky(lucks[0], |Outgoing(n, nd)|)
     && var t := TickAt(n, nd, hub, hs, lucks[0]); t.nd.work.Idle? ==> AllLucky(n, t.nd, t.hub, hs, lucks[1..]))
  }

  /** A node that is b foreign entries behind is, after k ticks in which nothing goes wrong and nothing new arrives, exactly
      500 k fewer behind, or not at all: it has caught up after b / 500 ticks, rounded up, and no sooner. */
  lemma {:induction false} CatchesUp(w: World, n: NodeId, lucks: seq<Luck>)
    requires Inv(w) && n in w.nodes && w.nodes[n].work.Idle? && w.nodes[n].awaiting.None?
    requires AllLucky(n, w.nodes[n], w.hub, w.handlers, lucks)
    ensures var t := TicksAt(n, w.nodes[n], w.hub, w.handlers, lucks);
            var b := Backlog(n, w.nodes[n].hubCursor, w.hub.feed);
            && t.ok
            && Backlog(n, t.nd.hubCursor, t.hub.feed) == (if b <= 500 * |lucks| then 0 else b - 500 * |lucks|)
            && (Backlog(n, t.nd.hubCursor, t.hub.feed) == 0 <==> (b + 499) / 500 <= |lucks|)
    decreases |lucks|
  {
    hide Inv, Runs, Final, TickAt, Lucky, Outgoing;
    if lucks != [] {
      var t := TickAt(n, w.nodes[n], w.hub, w.handlers, lucks[0]);
      LuckyTick(w, n, lucks[0]);
      var steps := TickIsRun(w, n, lucks[0]);
      RunKeepsInv(w, steps);
      var w1 := SetNode(w, n, t.nd).(hub := t.hub);
      TickWaitsForNobody(n, w.nodes[n], w.hub, w.handlers, lucks[0]);
      CatchesUp(w1, n, lucks[1..]);
    }
  }

  lemma {:induction false} PageAwaits(n: NodeId, nd: Node, hs: Handlers, k: nat, fault: Fault)
    requires nd.work.Idle? && nd.awaiting.None?
    ensures ApplyPage(n, nd, hs, k, fault).nd.awaiting.None?
    decreases |nd.inbox|
  {
    hide HandlersAt;
    if nd.inbox != [] {
      if fault != InsertFails(k) {
        BeginEffect(nd);
        HandlersAwait(n, BeginAt(nd), HandlersFor(hs, Pending(nd).body.Type()), k, fault);
      }
      var r := ApplyOne(n, nd, hs, k, fault);
      if r.ok {
        PageAwaits(n, r.nd, hs, k + 1, fault);
      }
    }
  }

  lemma {:induction false} HandlersAwait(n: NodeId, nd: Node, hs: seq<Handler>, k: nat, fault: Fault)
    requires Busy(nd) && !nd.work.ran && nd.work.idx <= |hs| && nd.awaiting.None?
    ensures HandlersAt(n, nd, hs, k, fault).nd.awaiting.None?
    decreases |hs| - nd.work.idx
  {
    if nd.work.idx < |hs| {
      var h := hs[nd.work.idx];
      if Skips(nd) {
        HandlersAwait(n, HandlerAt(n, nd, h), hs, k, fault);
      } else {
        HandlersAwait(n, MarkedAt(HandlerAt(n, nd, h)), hs, k, fault);
      }
    }
  }

  lemma TickWaitsForNobody(n: NodeId, nd: Node, hub: Hub, hs: Handlers, luck: Luck)
    requires nd.work.Idle? && nd.awaiting.None?
    ensures TickAt(n, nd, hub, hs, luck).nd.awaiting.None?
  {
    hide PushTick, ApplyPage, FeedSince;
    PushLeaves(n, nd, hub, luck);
    var p := PushTick(n, nd, hub, luck);
    PageAwaits(n, p.nd.(inbox := FeedSince(p.hub.feed, p.nd.hubCursor, PAGE, n)), hs, 0, luck.fault);
  }
}

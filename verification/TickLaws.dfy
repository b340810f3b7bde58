/**
 What a tick does, in terms of logs, feed and cursors: what of the node's own log is in the feed and in the index afterwards, when the tick counts as
 done, and where each thing that goes wrong stops it.
 */
module TickLaws {
  import opened Ids
  import opened Events
  import opened Ledger
  import opened Protocol
  import opened Replication
  import opened Causality
  import opened Ticks

  /** How many of the node's own events its push cursor has passed. */
  function Sent(n: NodeId, nd: Node): nat {
    Pos(Nums(Own(n, nd)), nd.pushCursor)
  }

  /** How many events of a batch the hub appends, and how many it then projects. */
  function Takes(luck: Luck, size: nat): (a: nat)
    ensures a <= size
  {
    if luck.appended < size then luck.appended else size
  }

  function Indexes(luck: Luck, size: nat): (x: nat)
    ensures x <= size
  {
    if luck.appended < size then 0 else if luck.materialized < size then luck.materialized else size
  }

  function Most(a: nat, b: nat): nat {
    if a < b then b else a
  }

  /** Whatever happens, the feed ends with as much of the node's log as it had or the hub took. */
  lemma PushLaw(w: World, n: NodeId, luck: Luck)
    requires Inv(w) && n in w.nodes && w.nodes[n].awaiting.None?
    ensures var own, lo, fed := Own(n, w.nodes[n]), Sent(n, w.nodes[n]), |Fed(w, n)|;
            && lo <= fed <= |own|
            && var there := Of(Evs(PushTick(n, w.nodes[n], w.hub, luck).hub.feed), n);
            there <= own && |there| == Most(fed, lo + Takes(luck, |own| - lo))
  {
    hide Inv, Own, Outgoing, ProjectAll, PushTick, Takes, Indexes, Sent;
    PushedPart(w, n);
    if Outgoing(n, w.nodes[n]) == [] {
      NothingPushed(w, n, luck);
    } else {
      PushFeed(w, n, luck);
    }
  }

  /** Whatever happens, the index has projected what the hub got to of the log past the cursor. */
  lemma PushProjects(w: World, n: NodeId, luck: Luck)
    requires Inv(w) && n in w.nodes && w.nodes[n].awaiting.None?
    ensures var own, lo := Own(n, w.nodes[n]), Sent(n, w.nodes[n]);
            && lo <= |own|
            && PushTick(n, w.nodes[n], w.hub, luck).hub.debts == ProjectAll(w.hub.debts, own[lo..lo + Indexes(luck, |own| - lo)])
  {
    hide Inv, Own, Outgoing, ProjectAll, PushTick, Takes, Indexes, Sent;
    PushedPart(w, n);
    if Outgoing(n, w.nodes[n]) == [] {
      NothingPushed(w, n, luck);
    } else {
      PushIndex(w, n, luck);
    }
  }

  /** The push counts as done exactly when there was nothing to send or everything was projected and the reply arrived, and only then the
      cursor moves, to the end of the log. */
  lemma PushDone(w: World, n: NodeId, luck: Luck)
    requires Inv(w) && n in w.nodes && w.nodes[n].awaiting.None?
    ensures var nd, own, p := w.nodes[n], Own(n, w.nodes[n]), PushTick(n, w.nodes[n], w.hub, luck);
            && Sent(n, nd) <= |own|
            && var size: nat := |own| - Sent(n, nd);
            && (p.ok <==> size == 0 || (luck.replied && Indexes(luck, size) == size))
            && p.nd == nd.(pushCursor := if p.ok && size > 0 then own[|own| - 1].num else nd.pushCursor)
            && (p.ok ==> forall i :: 0 <= i < |own| ==> own[i].num <= p.nd.pushCursor)
  {
    hide Inv, Own, Outgoing, ProjectAll, PushTick, Takes, Indexes, Sent;
    PushedPart(w, n);
    if Outgoing(n, w.nodes[n]) == [] {
      NothingPushed(w, n, luck);
    } else {
      PushCursor(w, n, luck);
    }
  }

  /** What is sent is the log past the cursor. */
  lemma PushedPart(w: World, n: NodeId)
    requires Inv(w) && n in w.nodes
    ensures var own, lo := Own(n, w.nodes[n]), Sent(n, w.nodes[n]);
            && lo <= |Fed(w, n)| <= |own| && Fed(w, n) == own[..|Fed(w, n)|]
            && Outgoing(n, w.nodes[n]) == own[lo..] && |Outgoing(n, w.nodes[n])| == |own| - lo
  {
    hide Inv, Of, EventsSince, Pos;
    InvLog(w, n);
    OutgoingIsSuffix(n, w.nodes[n], w.hub.feed);
    FedPrefix(w, n);
  }

  lemma NothingPushed(w: World, n: NodeId, luck: Luck)
    requires Inv(w) && n in w.nodes && Outgoing(n, w.nodes[n]) == []
    ensures var nd, own, p := w.nodes[n], Own(n, w.nodes[n]), PushTick(n, w.nodes[n], w.hub, luck);
            && p == Ticked(nd, w.hub, true) && Sent(n, nd) == |own| == |Fed(w, n)| && own[..|own|] == own == Fed(w, n)
            && own[|own|..|own|] == [] && ProjectAll(w.hub.debts, []) == w.hub.debts
            && Takes(luck, 0) == 0 && Indexes(luck, 0) == 0
            && forall i :: 0 <= i < |own| ==> own[i].num <= nd.pushCursor
  {
    hide Inv, Of, EventsSince, Pos;
    PushedPart(w, n);
    InvLog(w, n);
    NothingToProject(w.hub.debts);
    AllSent(n, w.nodes[n], w.hub.feed);
    assert Own(n, w.nodes[n])[..|Own(n, w.nodes[n])|] == Own(n, w.nodes[n]);
  }

  lemma PushFeed(w: World, n: NodeId, luck: Luck)
    requires Inv(w) && n in w.nodes && Outgoing(n, w.nodes[n]) != []
    ensures var nd, own := w.nodes[n], Own(n, w.nodes[n]);
            && Sent(n, nd) <= |Fed(w, n)| <= |own|
            && Of(Evs(PushTick(n, nd, w.hub, luck).hub.feed), n) == own[..Most(|Fed(w, n)|, Sent(n, nd) + Takes(luck, |own| - Sent(n, nd)))]
  {
    hide Inv, Own, Outgoing, PushTick, ProjectAll, Sent, Takes, Indexes, HubAfterPush, Of, Evs, Most;
    PushedPart(w, n);
    var out := Outgoing(n, w.nodes[n]);
    PushedHub(w, n, luck);
    FedAfter(w, n, Gaps(luck, |out|), Takes(luck, |out|), Indexes(luck, |out|));
  }

  lemma PushIndex(w: World, n: NodeId, luck: Luck)
    requires Inv(w) && n in w.nodes && Outgoing(n, w.nodes[n]) != []
    ensures var nd, own := w.nodes[n], Own(n, w.nodes[n]);
            && Sent(n, nd) <= |own|
            && PushTick(n, nd, w.hub, luck).hub.debts
               == ProjectAll(w.hub.debts, own[Sent(n, nd)..Sent(n, nd) + Indexes(luck, |own| - Sent(n, nd))])
  {
    hide Inv, Own, Outgoing, PushTick, ProjectAll, Sent, Takes, Indexes, HubAfterPush, Of, Evs;
    PushedPart(w, n);
    var own, out, lo := Own(n, w.nodes[n]), Outgoing(n, w.nodes[n]), Sent(n, w.nodes[n]);
    var x := Indexes(luck, |out|);
    PushedHub(w, n, luck);
    assert out[..x] == own[lo..lo + x];
  }

  /** The hub after the push part of a tick. */
  lemma PushedHub(w: World, n: NodeId, luck: Luck)
    requires n in w.nodes && Outgoing(n, w.nodes[n]) != []
    ensures var out := Outgoing(n, w.nodes[n]);
            var a, x := Takes(luck, |out|), Indexes(luck, |out|);
            && a <= |out| && x <= |out|
            && PushTick(n, w.nodes[n], w.hub, luck).hub == HubAfterPush(w, out, Gaps(luck, |out|), a, x).hub
            && PushTick(n, w.nodes[n], w.hub, luck).hub.debts == ProjectAll(w.hub.debts, out[..x])
  {
    hide EventsSince, AppendAll, ProjectAll;
  }

  lemma FedAfter(w: World, n: NodeId, gaps: seq<nat>, a: nat, x: nat)
    requires Inv(w) && n in w.nodes
    requires var out := Outgoing(n, w.nodes[n]); |gaps| == |out| && a <= |out| && x <= |out|
    ensures var own := Own(n, w.nodes[n]);
            && |Fed(w, n)| <= |own| && Sent(n, w.nodes[n]) + a <= |own|
            && Of(Evs(HubAfterPush(w, Outgoing(n, w.nodes[n]), gaps, a, x).hub.feed), n) == own[..Most(|Fed(w, n)|, Sent(n, w.nodes[n]) + a)]
  {
    hide Inv, Of, EventsSince, AppendAll, ProjectAll, Pos;
    PushedPart(w, n);
    HubPart(w, n, gaps, a, x);
    FedPrefix(HubAfterPush(w, Outgoing(n, w.nodes[n]), gaps, a, x), n);
  }

  lemma PushCursor(w: World, n: NodeId, luck: Luck)
    requires Inv(w) && n in w.nodes && Outgoing(n, w.nodes[n]) != [] && w.nodes[n].awaiting.None?
    ensures var nd, own, p := w.nodes[n], Own(n, w.nodes[n]), PushTick(n, w.nodes[n], w.hub, luck);
            var size: nat := |own| - Sent(n, nd);
            && size > 0
            && (p.ok <==> luck.replied && Indexes(luck, size) == size)
            && p.nd == nd.(pushCursor := if p.ok then own[|own| - 1].num else nd.pushCursor)
            && (p.ok ==> forall i :: 0 <= i < |own| ==> own[i].num <= p.nd.pushCursor)
  {
    hide Inv, Of, EventsSince, AppendAll, ProjectAll, Pos;
    var nd, own, out := w.nodes[n], Own(n, w.nodes[n]), Outgoing(n, w.nodes[n]);
    PushedPart(w, n);
    InvLog(w, n);
    assert out[|out| - 1] == own[|own| - 1];
    LastIsTop(n, nd, w.hub.feed);
  }

  lemma NothingToProject(d: Debts)
    ensures ProjectAll(d, []) == d
  {
  }

  lemma FedPrefix(w: World, n: NodeId)
    requires Inv(w) && n in w.nodes
    ensures |Fed(w, n)| <= |Own(n, w.nodes[n])| && Fed(w, n) == Own(n, w.nodes[n])[..|Fed(w, n)|]
  {
    hide Inv, Of, Pos, OwnOk;
    InvLog(w, n);
  }

  lemma AllSent(n: NodeId, nd: Node, feed: seq<Entry>)
    requires LogOk(n, nd, feed) && Pos(Nums(Own(n, nd)), nd.pushCursor) == |Own(n, nd)|
    ensures forall i :: 0 <= i < |Own(n, nd)| ==> Own(n, nd)[i].num <= nd.pushCursor
  {
    hide Of;
    assert forall i :: 0 <= i < |Own(n, nd)| ==> Nums(Own(n, nd))[i] <= nd.pushCursor;
  }

  lemma LastIsTop(n: NodeId, nd: Node, feed: seq<Entry>)
    requires LogOk(n, nd, feed) && Own(n, nd) != []
    ensures forall i :: 0 <= i < |Own(n, nd)| ==> Own(n, nd)[i].num <= Own(n, nd)[|Own(n, nd)| - 1].num
  {
    hide Of, Pos;
    var own := Own(n, nd);
    forall i | 0 <= i < |own| ensures own[i].num <= own[|own| - 1].num {
      if i < |own| - 1 {
        assert Nums(own)[i] < Nums(own)[|own| - 1];
      }
    }
  }

  // ---- The whole tick ----

  lemma {:induction false} ApplyingKeepsPush(n: NodeId, nd: Node, hs: Handlers, k: nat, fault: Fault)
    requires nd.work.Idle?
    ensures ApplyPage(n, nd, hs, k, fault).nd.pushCursor == nd.pushCursor
    decreases |nd.inbox|
  {
    hide HandlersAt, BeginAt;
    if nd.inbox != [] {
      BeginEffect(nd);
      BeginPush(nd);
      if fault != InsertFails(k) {
        HandlingKeepsPush(n, BeginAt(nd), HandlersFor(hs, Pending(nd).body.Type()), k, fault);
      }
      var r := ApplyOne(n, nd, hs, k, fault);
      if r.ok {
        ApplyingKeepsPush(n, r.nd, hs, k + 1, fault);
      }
    }
  }

  lemma BeginPush(nd: Node)
    requires nd.inbox != []
    ensures BeginAt(nd).pushCursor == nd.pushCursor && BeginAt(nd).hubCursor == nd.hubCursor
  {
    hide Stored;
  }

  lemma {:induction false} HandlingKeepsPush(n: NodeId, nd: Node, hs: seq<Handler>, k: nat, fault: Fault)
    requires Busy(nd) && !nd.work.ran && nd.work.idx <= |hs|
    ensures var r := HandlersAt(n, nd, hs, k, fault); r.nd.pushCursor == nd.pushCursor && r.nd.hubCursor == nd.hubCursor
    decreases |hs| - nd.work.idx
  {
    hide Mirror, Foreign, EventId;
    if nd.work.idx < |hs| {
      var r := HandlerStep(n, nd, hs[nd.work.idx], k, fault);
      if r.ok {
        HandlingKeepsPush(n, r.nd, hs, k, fault);
      }
    }
  }

  /** Where a tick stops: without a heartbeat before anything; if the push is not done, or the pull fails, after the push, with nothing applied.
      With something to send and no reply it is not done and the push cursor stays. */
  lemma TickStops(w: World, n: NodeId, luck: Luck)
    requires Inv(w) && n in w.nodes && w.nodes[n].awaiting.None? && w.nodes[n].work.Idle?
    ensures var nd, own := w.nodes[n], Own(n, w.nodes[n]);
            var t, p := TickAt(n, nd, w.hub, w.handlers, luck), PushTick(n, nd, w.hub, luck);
            && (!luck.heartbeat ==> t == Ticked(nd, w.hub, false))
            && (luck.heartbeat ==> t.hub == p.hub && t.nd.pushCursor == p.nd.pushCursor)
            && (luck.heartbeat && (!p.ok || !luck.pulled) ==> t == Ticked(p.nd, p.hub, false))
            && (Sent(n, nd) < |own| && !luck.replied ==> !t.ok && t.nd.pushCursor == nd.pushCursor)
  {
    hide Inv, Of, EventsSince, AppendAll, ProjectAll, Pos, FeedSince, ApplyPage, PushTick;
    var nd := w.nodes[n];
    PushDone(w, n, luck);
    PushLeaves(n, nd, w.hub, luck);
    var p := PushTick(n, nd, w.hub, luck);
    ApplyingKeepsPush(n, p.nd.(inbox := FeedSince(p.hub.feed, p.nd.hubCursor, PAGE, n)), w.handlers, 0, luck.fault);
  }

  /** After a tick in which nothing goes wrong the feed has the node's whole log, the cursor has passed all of it, and the index has projected what
      lay past the old cursor. */
  lemma LuckyTickDelivers(w: World, n: NodeId, luck: Luck)
    requires Inv(w) && n in w.nodes && w.nodes[n].work.Idle? && w.nodes[n].awaiting.None?
    requires Lucky(luck, |Outgoing(n, w.nodes[n])|)
    ensures var nd, own := w.nodes[n], Own(n, w.nodes[n]);
            var t := TickAt(n, nd, w.hub, w.handlers, luck);
            && t.ok
            && Of(Evs(t.hub.feed), n) == own
            && (forall i :: 0 <= i < |own| ==> own[i].num <= t.nd.pushCursor)
            && Sent(n, nd) <= |own| && t.hub.debts == ProjectAll(w.hub.debts, own[Sent(n, nd)..])
  {
    hide Inv, Of, EventsSince, AppendAll, ProjectAll, Pos, FeedSince, ApplyPage, PushTick, TickAt;
    var nd, own := w.nodes[n], Own(n, w.nodes[n]);
    PushLaw(w, n, luck);
    PushProjects(w, n, luck);
    PushDone(w, n, luck);
    TickStops(w, n, luck);
    LuckyTick(w, n, luck);
    InvLog(w, n);
    OutgoingIsSuffix(n, nd, w.hub.feed);
    assert |Outgoing(n, nd)| == |own| - Sent(n, nd);
    assert own[..|own|] == own && own[Sent(n, nd)..|own|] == own[Sent(n, nd)..];
  }

  // ---- Where a fault stops the applying ----

  /** Which fault hits which event. */
  predicate Hits(fault: Fault, k: nat) {
    fault == InsertFails(k) || fault == CursorFails(k)
  }

  /** If the insert or the cursor of the k-th pulled event fails, the tick stops there: it is not done, and the cursor is at the
      event before. */
  lemma {:induction false} CursorStopsAt(n: NodeId, nd: Node, hs: Handlers, k: nat, fault: Fault, at: nat)
    requires nd.work.Idle? && k <= at < k + |nd.inbox| && Hits(fault, at)
    ensures var r := ApplyPage(n, nd, hs, k, fault);
            !r.ok && r.nd.hubCursor == if at == k then nd.hubCursor else nd.inbox[at - k - 1].hubSeq
    decreases |nd.inbox|
  {
    hide HandlersAt, BeginAt;
    BeginEffect(nd);
    BeginPush(nd);
    var hl := HandlersFor(hs, Pending(nd).body.Type());
    HandlingKeepsPush(n, BeginAt(nd), hl, k, fault);
    if at > k {
      NoFaultHere(n, BeginAt(nd), hl, k, fault);
      CursorStopsAt(n, ApplyOne(n, nd, hs, k, fault).nd, hs, k + 1, fault, at);
    }
  }

  lemma {:induction false} NoFaultHere(n: NodeId, nd: Node, hs: seq<Handler>, k: nat, fault: Fault)
    requires Busy(nd) && !nd.work.ran && nd.work.idx <= |hs| && (fault.InsertFails? || fault.CursorFails? || fault.NoFault?)
    ensures HandlersAt(n, nd, hs, k, fault).ok
    decreases |hs| - nd.work.idx
  {
    hide Mirror, Foreign, EventId;
    if nd.work.idx < |hs| {
      NoFaultHere(n, HandlerStep(n, nd, hs[nd.work.idx], k, fault).nd, hs, k, fault);
    }
  }

  /** A handler that is due and fails, or cannot be marked, stops the event. */
  lemma {:induction false} HandlerStops(n: NodeId, nd: Node, hs: seq<Handler>, k: nat, fault: Fault, i: nat)
    requires Busy(nd) && !nd.work.ran && nd.work.idx <= i < |hs|
    requires fault == MarkFails(k, i) || (fault.HandlerFault? && fault.event == k && fault.handler == i)
    requires nd.work.isNew || !IsMarked(nd.marks, (Pending(nd).Id(), i))
    ensures !HandlersAt(n, nd, hs, k, fault).ok
    decreases |hs| - nd.work.idx
  {
    hide Mirror, Foreign, EventId;
    if nd.work.idx < i {
      var r := HandlerStep(n, nd, hs[nd.work.idx], k, fault);
      HandlerStops(n, r.nd, hs, k, fault, i);
    }
  }

  /** Without a fault every handler of the event ends up marked. */
  lemma {:induction false} AllMarkedAfter(n: NodeId, nd: Node, hs: seq<Handler>, k: nat)
    requires Busy(nd) && !nd.work.ran && nd.work.idx <= |hs|
    requires forall j: nat :: j < nd.work.idx ==> IsMarked(nd.marks, (Pending(nd).Id(), j))
    ensures var r := HandlersAt(n, nd, hs, k, NoFault);
            r.ok && forall j: nat :: j < |hs| ==> IsMarked(r.nd.marks, (Pending(nd).Id(), j))
    decreases |hs| - nd.work.idx
  {
    hide Mirror, Foreign, EventId;
    if nd.work.idx < |hs| {
      AllMarkedAfter(n, HandlerStep(n, nd, hs[nd.work.idx], k, NoFault).nd, hs, k);
    }
  }

  // ---- What the mirror leaves on an event that is new ----

  predicate HasMirror(hs: seq<Handler>, from: nat) {
    exists j :: from <= j < |hs| && hs[j].MirrorDebt?
  }

  /** Without a fault a new event changes the table as its one mirror does. */
  lemma {:induction false} NewEventTable(n: NodeId, nd: Node, hs: seq<Handler>, k: nat)
    requires Busy(nd) && !nd.work.ran && nd.work.isNew && nd.work.idx <= |hs|
    ensures var r := HandlersAt(n, nd, hs, k, NoFault);
            r.nd.table == if HasMirror(hs, nd.work.idx) then Mirror(nd.table, Pending(nd)) else nd.table
    decreases |hs| - nd.work.idx
  {
    hide Mirror, Foreign, EventId;
    if nd.work.idx < |hs| {
      var r := HandlerStep(n, nd, hs[nd.work.idx], k, NoFault);
      NewEventTable(n, r.nd, hs, k);
      MirrorTwice(nd.table, Pending(nd));
    }
  }

  lemma MirrorTwice(t: Table, e: Event)
    ensures Mirror(Mirror(t, e), e) == Mirror(t, e)
  {
  }

  /** What the mirror writes, whole rows with their creation times. */
  lemma MirrorWrites(t: Table, e: Event)
    ensures e.body.DebtCreated? && e.body.oid !in t ==>
              Mirror(t, e) == t[e.body.oid := Obligation(Row(e.body.origin, e.body.terms, e.body.weight, true), e.ts)]
    ensures e.body.DebtCreated? && e.body.oid in t ==> Mirror(t, e) == t
    ensures e.body.Follows() && e.body.oid in t && t[e.body.oid].row.open ==>
              var o := t[e.body.oid];
              Mirror(t, e) == t[e.body.oid := Obligation(
                if e.body.DebtResolved? then Row(o.row.source, o.row.terms, o.row.weight, false)
                else Row(o.row.source, o.row.terms, e.body.newWeight, true), o.createdAt)]
    ensures (e.body.Follows() && (e.body.oid !in t || !t[e.body.oid].row.open)) || e.body.Other? ==> Mirror(t, e) == t
  {
  }
}

/**
 Event replication: what every interleaving keeps.

 For any two nodes A and B, the A-events on B are a gap-free prefix of A's own log, in order and
 with the same content; the feed is such a prefix of every log even while several overlapping pushes
 of one node are worked off event by event; and every handler is marked once, in order, for everything
 a node's cursor has passed.
 */
module Replication {
  import opened Wrappers
  import opened Ids
  import opened Events
  import opened Ledger
  import opened Protocol

  function Own(n: NodeId, nd: Node): seq<Event> {
    Of(nd.events, n)
  }

  function Top(own: seq<Event>): nat {
    if own == [] then 0 else own[|own| - 1].num
  }

  /** The events of n that have reached the feed. */
  function Fed(w: World, n: NodeId): seq<Event> {
    Of(Evs(w.hub.feed), n)
  }

  // ---- The invariant ----

  ghost predicate OwnOk(n: NodeId, nd: Node) {
    && Increasing(Nums(Own(n, nd)))
    && (forall i :: 0 <= i < |Own(n, nd)| ==> 1 <= Own(n, nd)[i].num <= nd.num)
    && nd.pushCursor <= Top(Own(n, nd))
  }

  ghost predicate FeedOk(w: World) {
    && Increasing(HubSeqs(w.hub.feed))
    && (forall i :: 0 <= i < |w.hub.feed| ==> w.hub.feed[i].hubSeq >= 1 && w.hub.feed[i].ev.source in w.nodes)
  }

  /** The feed holds a prefix of n's log, and at least all of it up to the push cursor. */
  ghost predicate PushedOk(n: NodeId, nd: Node, feed: seq<Entry>) {
    && Of(Evs(feed), n) <= Own(n, nd)
    && Pos(Nums(Own(n, nd)), nd.pushCursor) <= |Of(Evs(feed), n)|
  }

  /** A flight carries a stretch of its sender's log that starts inside what the feed has. */
  ghost predicate FlightOk(f: Flight, own: seq<Event>, fed: nat) {
    && f.batch != []
    && f.lo + |f.batch| <= |own| && f.batch == own[f.lo..f.lo + |f.batch|]
    && f.appended <= |f.batch| && f.materialized <= |f.batch|
    && (f.materialized > 0 ==> f.appended == |f.batch|)
    && f.lo + f.appended <= fed
  }

  /** How many visible entries the hub cursor of n has passed. */
  function Passed(n: NodeId, nd: Node, feed: seq<Entry>): nat {
    Pos(HubSeqs(Vis(feed, n)), nd.hubCursor)
  }

  ghost predicate CursorOk(vis: seq<Entry>, cursor: nat, k: nat) {
    k <= |vis| && (if k == 0 then cursor == 0 else cursor == vis[k - 1].hubSeq)
  }

  /** The foreign rows of n are the first entries of the feed it can see: as many as its cursor has passed,
      or one more whose handlers are not all marked yet. */
  ghost predicate ReplicaOk(n: NodeId, nd: Node, feed: seq<Entry>) {
    ReplicaAt(Vis(feed, n), Passed(n, nd, feed), Foreign(nd.events, n), nd)
  }

  /** A node that is shown vis, has passed k of it and stored the foreign rows. */
  ghost predicate ReplicaAt(vis: seq<Entry>, k: nat, rows: seq<Event>, nd: Node) {
    var m := |rows|;
    && CursorOk(vis, nd.hubCursor, k)
    && k <= m <= k + 1 && m <= |vis|
    && rows == Evs(vis[..m])
    && k + |nd.inbox| <= |vis| && nd.inbox == vis[k..k + |nd.inbox|]
    && (nd.work.Applying? ==> nd.inbox != [] && m == k + 1)
    && k <= nd.done <= m
  }

  lemma ShownMore(vis: seq<Entry>, k: nat, rows: seq<Event>, nd: Node, x: Entry)
    requires ReplicaAt(vis, k, rows, nd)
    ensures ReplicaAt(vis + [x], k, rows, nd)
  {
    hide Evs;
    assert (vis + [x])[..|rows|] == vis[..|rows|];
    assert (vis + [x])[k..k + |nd.inbox|] == vis[k..k + |nd.inbox|];
  }

  lemma StoredNext(vis: seq<Entry>, k: nat, rows: seq<Event>, nd: Node, nd': Node)
    requires ReplicaAt(vis, k, rows, nd) && nd.inbox != [] && |rows| == k
    requires nd'.hubCursor == nd.hubCursor && nd'.inbox == nd.inbox && nd'.done == nd.done
    ensures ReplicaAt(vis, k, rows + [Pending(nd)], nd')
  {
    assert nd.inbox[0] == vis[k];
    assert Evs(vis[..k + 1]) == Evs(vis[..k]) + [vis[k].ev];
  }

  /** The handler marks of one event form a prefix of its handler list. */
  ghost predicate MarkedInOrder(marks: Marks, id: string) {
    forall i: nat, j: nat :: i < j && IsMarked(marks, (id, j)) ==> IsMarked(marks, (id, i))
  }

  ghost predicate AllMarked(marks: Marks, id: string, count: nat) {
    forall j: nat :: j < count ==> IsMarked(marks, (id, j))
  }

  function Count(handlers: Handlers, e: Event): nat {
    |HandlersFor(handlers, e.body.Type())|
  }

  /** Marks exist only for stored foreign rows, in handler order, and completely for the first k rows. */
  ghost predicate RowsMarked(marks: Marks, rows: seq<Event>, k: nat, handlers: Handlers) {
    && (forall key :: key in marks ==> Stored(rows, key.0))
    && (forall id :: MarkedInOrder(marks, id))
    && (forall i :: 0 <= i < k && i < |rows| ==> AllMarked(marks, rows[i].Id(), Count(handlers, rows[i])))
  }

  /** While an event is being applied, the handlers before the current one are marked. */
  ghost predicate WorkOk(nd: Node, handlers: Handlers) {
    nd.work.Applying? && nd.inbox != [] ==>
      && AllMarked(nd.marks, Pending(nd).Id(), nd.work.idx)
      && nd.work.idx <= Count(handlers, Pending(nd))
      && (nd.work.isNew ==> forall j: nat :: (Pending(nd).Id(), j) in nd.marks ==> j < nd.work.idx)
      && (nd.work.ran ==> !IsMarked(nd.marks, Key(nd)) && nd.work.idx < Count(handlers, Pending(nd)))
  }

  ghost predicate MarksOk(n: NodeId, nd: Node, k: nat, handlers: Handlers) {
    RowsMarked(nd.marks, Foreign(nd.events, n), k, handlers) && WorkOk(nd, handlers)
  }

  /** Once the mirror has been marked for a row, it has been run on it. */
  ghost predicate MirrorOk(n: NodeId, nd: Node, handlers: Handlers) {
    var rows := Foreign(nd.events, n);
    && (forall i, j: nat :: nd.done <= i < |rows| && IsMarked(nd.marks, (rows[i].Id(), j))
                            && j < |HandlersFor(handlers, rows[i].body.Type())| ==>
          !HandlersFor(handlers, rows[i].body.Type())[j].MirrorDebt?)
    && (Busy(nd) && nd.work.ran && nd.work.idx < |HandlersFor(handlers, Pending(nd).body.Type())| ==>
          HandlersFor(handlers, Pending(nd).body.Type())[nd.work.idx].MirrorDebt? ==> nd.done == |rows|)
  }

  /** The outgoing side of a node: its own log and the push cursor. */
  ghost predicate LogOk(n: NodeId, nd: Node, feed: seq<Entry>) {
    OwnOk(n, nd) && PushedOk(n, nd, feed)
  }

  /** The incoming side of a node: foreign rows, hub cursor, marks. */
  ghost predicate MirrorsOk(n: NodeId, nd: Node, feed: seq<Entry>, handlers: Handlers) {
    && ReplicaOk(n, nd, feed)
    && MarksOk(n, nd, Passed(n, nd, feed), handlers)
    && MirrorOk(n, nd, handlers)
  }

  /** What holds of a node given the feed; it does not depend on any other node. */
  ghost predicate NodeOk(n: NodeId, nd: Node, feed: seq<Entry>, handlers: Handlers) {
    LogOk(n, nd, feed) && MirrorsOk(n, nd, feed, handlers)
  }

  ghost predicate FlightsOk(w: World) {
    && (forall i :: 0 <= i < |w.flights| ==>
          && w.flights[i].src in w.nodes
          && FlightOk(w.flights[i], Own(w.flights[i].src, w.nodes[w.flights[i].src]), |Fed(w, w.flights[i].src)|))
    && (forall n :: n in w.nodes && w.nodes[n].awaiting.Some? ==>
          w.nodes[n].awaiting.value < |w.flights| && w.flights[w.nodes[n].awaiting.value].src == n)
  }

  ghost predicate Inv(w: World) {
    && FeedOk(w)
    && (forall n :: n in w.nodes ==> NodeOk(n, w.nodes[n], w.hub.feed, w.handlers))
    && FlightsOk(w)
  }

  // ---- Steps of one node that leave its log alone ----

  /** Replacing one node by one with the same own log keeps everything else. */
  lemma SwapNode(w: World, n: NodeId, nd: Node)
    requires Inv(w) && n in w.nodes
    requires Own(n, nd) == Own(n, w.nodes[n])
    requires NodeOk(n, nd, w.hub.feed, w.handlers)
    requires nd.awaiting == w.nodes[n].awaiting || nd.awaiting.None?
    ensures Inv(SetNode(w, n, nd))
  {
    hide NodeOk, FlightOk, Of;
  }

  ghost predicate SameIncoming(n: NodeId, nd: Node, nd': Node) {
    && Foreign(nd'.events, n) == Foreign(nd.events, n)
    && nd'.marks == nd.marks && nd'.hubCursor == nd.hubCursor && nd'.inbox == nd.inbox
    && nd'.work == nd.work && nd'.done == nd.done
  }

  lemma KeepIncoming(n: NodeId, nd: Node, nd': Node, feed: seq<Entry>, handlers: Handlers)
    requires MirrorsOk(n, nd, feed, handlers) && SameIncoming(n, nd, nd')
    ensures MirrorsOk(n, nd', feed, handlers)
  {
  }

  ghost predicate SameOutgoing(n: NodeId, nd: Node, nd': Node) {
    Own(n, nd') == Own(n, nd) && nd'.pushCursor == nd.pushCursor && nd'.num >= nd.num
  }

  lemma KeepOutgoing(n: NodeId, nd: Node, nd': Node, feed: seq<Entry>)
    requires LogOk(n, nd, feed) && SameOutgoing(n, nd, nd')
    ensures LogOk(n, nd', feed)
  {
  }

  // ---- Emitting ----

  lemma {:induction false} PosOfLonger(ks: seq<int>, x: int, c: int)
    requires x > c
    ensures Pos(ks + [x], c) == Pos(ks, c)
  {
    if ks != [] && ks[0] <= c {
      assert (ks + [x])[1..] == ks[1..] + [x];
      PosOfLonger(ks[1..], x, c);
    }
  }

  lemma EmitKeepsLog(n: NodeId, nd: Node, feed: seq<Entry>, ts: int, body: Body)
    requires LogOk(n, nd, feed)
    ensures var nd' := EmitAt(n, nd, ts, body);
            && LogOk(n, nd', feed)
            && Own(n, nd') == Own(n, nd) + [Event(n, nd.num + 1, ts, body)]
            && Foreign(nd'.events, n) == Foreign(nd.events, n)
  {
    hide Foreign, Pos, Of, Evs, Nums, Increasing, Top;
    var e := Event(n, nd.num + 1, ts, body);
    var own := Own(n, nd);
    AppendSelects(nd.events, e, n);
    LongerLog(own, e, nd.num, nd.pushCursor);
    assert Of(Evs(feed), n) <= own <= own + [e];
  }

  lemma LongerLog(own: seq<Event>, e: Event, num: nat, cursor: nat)
    requires Increasing(Nums(own)) && e.num == num + 1 && cursor <= Top(own)
    requires forall i :: 0 <= i < |own| ==> 1 <= own[i].num <= num
    ensures Increasing(Nums(own + [e])) && cursor <= Top(own + [e])
    ensures forall i :: 0 <= i < |own + [e]| ==> 1 <= (own + [e])[i].num <= num + 1
    ensures Pos(Nums(own + [e]), cursor) == Pos(Nums(own), cursor)
  {
    hide Pos;
    NumsGrow(own, e);
    PosOfLonger(Nums(own), e.num, cursor);
  }

  lemma NumsGrow(own: seq<Event>, e: Event)
    requires Increasing(Nums(own)) && (own != [] ==> own[|own| - 1].num < e.num)
    ensures Nums(own + [e]) == Nums(own) + [e.num] && Increasing(Nums(own + [e]))
  {
    assert forall i :: 0 <= i < |own| - 1 ==> Nums(own)[i] < Nums(own)[|own| - 1];
  }

  /** Emitting, whatever happens to the table in the same step. */
  lemma EmitKeepsInv(w: World, n: NodeId, nd: Node, ts: int, body: Body)
    requires Inv(w) && n in w.nodes
    requires nd.(table := w.nodes[n].table, onum := w.nodes[n].onum) == w.nodes[n]
    ensures Inv(SetNode(w, n, EmitAt(n, nd, ts, body)))
  {
    hide LogOk, MirrorsOk, FlightOk, Of, Foreign, FlightsOk;
    var w' := SetNode(w, n, EmitAt(n, nd, ts, body));
    assert NodeOk(n, w.nodes[n], w.hub.feed, w.handlers);
    KeepOutgoing(n, w.nodes[n], nd, w.hub.feed);
    EmitKeepsLog(n, nd, w.hub.feed, ts, body);
    KeepIncoming(n, w.nodes[n], w'.nodes[n], w.hub.feed, w.handlers);
    LongerLogKeepsFlights(w, n, w'.nodes[n]);
  }

  lemma LongerLogKeepsFlights(w: World, n: NodeId, nd: Node)
    requires FlightsOk(w) && n in w.nodes
    requires Own(n, w.nodes[n]) <= Own(n, nd) && nd.awaiting == w.nodes[n].awaiting
    ensures FlightsOk(SetNode(w, n, nd))
  {
    hide Of, Evs;
    forall i | 0 <= i < |w.flights| && w.flights[i].src == n
      ensures FlightOk(w.flights[i], Own(n, nd), |Fed(w, n)|)
    {
      var f := w.flights[i];
      assert FlightOk(f, Own(n, w.nodes[n]), |Fed(w, n)|);
      assert Own(n, nd)[f.lo..f.lo + |f.batch|] == Own(n, w.nodes[n])[f.lo..f.lo + |f.batch|];
    }
  }

  // ---- Pushing ----

  /** What a node sends is its own log past the cursor, and it starts inside what the feed has. */
  lemma OutgoingIsSuffix(n: NodeId, nd: Node, feed: seq<Entry>)
    requires LogOk(n, nd, feed)
    ensures var own := Own(n, nd);
            var lo := Pos(Nums(own), nd.pushCursor);
            Outgoing(n, nd) == own[lo..] && lo <= |Of(Evs(feed), n)|
  {
    EventsSinceIsSuffix(nd.events, n, nd.pushCursor);
  }

  lemma SendKeepsInv(w: World, n: NodeId)
    requires Inv(w) && Can(w, Send(n))
    ensures Inv(Do(w, Send(n)))
  {
    hide LogOk, MirrorsOk, Of, Foreign, FeedSince, EventsSince, Pos;
    var nd := w.nodes[n];
    assert NodeOk(n, nd, w.hub.feed, w.handlers);
    OutgoingIsSuffix(n, nd, w.hub.feed);
    var own := Own(n, nd);
    var f := Flight(n, Pos(Nums(own), nd.pushCursor), Outgoing(n, nd), 0, 0);
    assert own[f.lo..] == own[f.lo..f.lo + |f.batch|];
    assert FlightOk(f, own, |Fed(w, n)|);
    var nd' := nd.(awaiting := Some(|w.flights|));
    KeepOutgoing(n, nd, nd', w.hub.feed);
    KeepIncoming(n, nd, nd', w.hub.feed, w.handlers);
  }

  /** The event a flight is about to append is in the feed already exactly when the feed has got past it. */
  lemma StoredInFeed(n: NodeId, nd: Node, feed: seq<Entry>, x: nat)
    requires LogOk(n, nd, feed) && x < |Own(n, nd)|
    ensures Stored(Evs(feed), Own(n, nd)[x].Id()) <==> x < |Of(Evs(feed), n)|
  {
    var own, fed, evs := Own(n, nd), Of(Evs(feed), n), Evs(feed);
    var z := OfIndex(nd.events, n, x);
    if Stored(evs, own[x].Id()) {
      var i :| 0 <= i < |evs| && evs[i].Id() == own[x].Id();
      SameId(evs[i], own[x]);
      OfComplete(evs, evs[i]);
      var j :| 0 <= j < |fed| && fed[j] == evs[i];
      assert own[j] == fed[j];
      assert Nums(own)[j] == Nums(own)[x];
    }
    if x < |fed| {
      var y := OfIndex(evs, n, x);
    }
  }

  lemma ReplicaSeesMore(m: NodeId, nd: Node, feed: seq<Entry>, x: Entry)
    requires ReplicaOk(m, nd, feed) && Increasing(HubSeqs(feed))
    requires x.hubSeq > Head(feed) && x.ev.source != m
    ensures ReplicaOk(m, nd, feed + [x])
    ensures Passed(m, nd, feed + [x]) == Passed(m, nd, feed)
  {
    hide Vis, Foreign, ReplicaAt, Pos, Evs;
    var vis, k := Vis(feed, m), Passed(m, nd, feed);
    AppendVis(feed, x, m);
    CursorBehind(m, nd, feed);
    assert HubSeqs(vis + [x]) == HubSeqs(vis) + [x.hubSeq];
    PosOfLonger(HubSeqs(vis), x.hubSeq, nd.hubCursor);
    ShownMore(vis, k, Foreign(nd.events, m), nd, x);
  }

  lemma CursorBehind(m: NodeId, nd: Node, feed: seq<Entry>)
    requires ReplicaOk(m, nd, feed) && Increasing(HubSeqs(feed))
    ensures nd.hubCursor <= Head(feed)
  {
    hide Vis, Foreign, Pos, Evs;
    var k := Passed(m, nd, feed);
    if k > 0 {
      var y := VisIndex(feed, m, k - 1);
      assert HubSeqs(feed)[y] <= HubSeqs(feed)[|feed| - 1];
    }
  }

  lemma ReplicaSeesTheSame(m: NodeId, nd: Node, feed: seq<Entry>, feed': seq<Entry>)
    requires ReplicaOk(m, nd, feed) && Vis(feed', m) == Vis(feed, m)
    ensures ReplicaOk(m, nd, feed') && Passed(m, nd, feed') == Passed(m, nd, feed)
  {
    hide Vis, Foreign, Pos;
  }

  /** A node keeps what holds of it when an event of somebody else, or its own next event, joins the feed. */
  lemma NodeSeesMore(m: NodeId, nd: Node, feed: seq<Entry>, x: Entry, handlers: Handlers)
    requires NodeOk(m, nd, feed, handlers) && Increasing(HubSeqs(feed))
    requires x.hubSeq > Head(feed)
    requires x.ev.source == m ==> Of(Evs(feed), m) + [x.ev] <= Own(m, nd)
    ensures NodeOk(m, nd, feed + [x], handlers)
  {
    hide OwnOk, PushedOk, MarksOk, MirrorOk, ReplicaOk, Of, Vis, Pos, Evs, Passed, Increasing, HubSeqs;
    PushedSeesMore(m, nd, feed, x);
    AppendVis(feed, x, m);
    if x.ev.source != m {
      ReplicaSeesMore(m, nd, feed, x);
    } else {
      ReplicaSeesTheSame(m, nd, feed, feed + [x]);
    }
  }

  lemma PushedSeesMore(m: NodeId, nd: Node, feed: seq<Entry>, x: Entry)
    requires PushedOk(m, nd, feed)
    requires x.ev.source == m ==> Of(Evs(feed), m) + [x.ev] <= Own(m, nd)
    ensures PushedOk(m, nd, feed + [x])
  {
    hide Of, Pos, Evs;
    AppendVis(feed, x, m);
    AppendSelects(Evs(feed), x.ev, m);
  }

  function Longer(feed: seq<Entry>, e: Event, gap: nat): seq<Entry> {
    feed + [Entry(Head(feed) + 1 + gap, e)]
  }

  lemma LongerIsOrdered(feed: seq<Entry>, e: Event, gap: nat)
    requires Increasing(HubSeqs(feed))
    ensures Increasing(HubSeqs(Longer(feed, e, gap)))
    ensures forall i :: 0 <= i < |feed| ==> feed[i].hubSeq <= Head(feed)
  {
    assert HubSeqs(Longer(feed, e, gap)) == HubSeqs(feed) + [Head(feed) + 1 + gap];
    assert forall i :: 0 <= i < |feed| ==> HubSeqs(feed)[i] <= Head(feed);
  }

  lemma FedGrows(feed: seq<Entry>, x: Entry, m: NodeId)
    ensures Of(Evs(feed + [x]), m) == if m == x.ev.source then Of(Evs(feed), m) + [x.ev] else Of(Evs(feed), m)
  {
    AppendVis(feed, x, m);
    AppendSelects(Evs(feed), x.ev, m);
  }

  /** Putting the next event of n's log on the feed keeps every replica. */
  lemma FeedGrows(w: World, n: NodeId, e: Event, gap: nat)
    requires Inv(w) && n in w.nodes
    requires |Fed(w, n)| < |Own(n, w.nodes[n])| && e == Own(n, w.nodes[n])[|Fed(w, n)|] && e.source == n
    ensures var w' := w.(hub := w.hub.(feed := Longer(w.hub.feed, e, gap)));
            && Inv(w')
            && Fed(w', n) == Fed(w, n) + [e]
            && (forall m :: m != n ==> Fed(w', m) == Fed(w, m))
  {
    hide NodeOk, FlightsOk, Of, Vis, Increasing, Evs;
    var x := Entry(Head(w.hub.feed) + 1 + gap, e);
    var feed := w.hub.feed;
    var w' := w.(hub := w.hub.(feed := feed + [x]));
    LongerIsOrdered(feed, e, gap);
    forall m ensures Fed(w', m) == if m == n then Fed(w, n) + [e] else Fed(w, m) {
      FedGrows(feed, x, m);
    }
    assert NodeOk(n, w.nodes[n], feed, w.handlers);
    FedIsPrefix(n, w.nodes[n], feed, w.handlers);
    assert Of(Evs(feed), n) + [e] <= Own(n, w.nodes[n]);
    forall m | m in w.nodes ensures NodeOk(m, w.nodes[m], feed + [x], w.handlers) {
      NodeSeesMore(m, w.nodes[m], feed, x, w.handlers);
    }
    MoreFedKeepsFlights(w, w');
  }

  lemma FedIsPrefix(n: NodeId, nd: Node, feed: seq<Entry>, handlers: Handlers)
    requires NodeOk(n, nd, feed, handlers)
    ensures Of(Evs(feed), n) <= Own(n, nd)
  {
    hide OwnOk, MirrorsOk, Of, Evs, Pos;
  }

  lemma MoreFedKeepsFlights(w: World, w': World)
    requires FlightsOk(w) && w'.nodes == w.nodes && w'.flights == w.flights
    requires forall m :: |Fed(w, m)| <= |Fed(w', m)|
    ensures FlightsOk(w')
  {
  }

  /** INSERT OR IGNORE of the x-th event of n's log, when the feed has got at least that far. */
  lemma AppendOneKeepsInv(w: World, n: NodeId, x: nat, gap: nat)
    requires Inv(w) && n in w.nodes && x < |Own(n, w.nodes[n])| && x <= |Fed(w, n)|
    ensures var w' := w.(hub := w.hub.(feed := AppendOne(w.hub.feed, Own(n, w.nodes[n])[x], gap)));
            && Inv(w')
            && w.hub.feed <= w'.hub.feed
            && |Fed(w', n)| == (if x < |Fed(w, n)| then |Fed(w, n)| else x + 1)
            && (forall m :: m != n ==> Fed(w', m) == Fed(w, m))
  {
    hide LogOk, MirrorsOk, FlightsOk, Of, FeedOk;
    assert NodeOk(n, w.nodes[n], w.hub.feed, w.handlers);
    StoredInFeed(n, w.nodes[n], w.hub.feed, x);
    if x == |Fed(w, n)| {
      var z := OfIndex(w.nodes[n].events, n, x);
      FeedGrows(w, n, Own(n, w.nodes[n])[x], gap);
    }
  }

  lemma AppendKeepsInv(w: World, i: nat, gap: nat)
    requires Inv(w) && Can(w, Append(i, gap))
    ensures Inv(Do(w, Append(i, gap)))
  {
    hide LogOk, MirrorsOk, Of, FeedOk, AppendOne;
    var f := w.flights[i];
    var own := Own(f.src, w.nodes[f.src]);
    assert f.batch[f.appended] == own[f.lo + f.appended];
    AppendOneKeepsInv(w, f.src, f.lo + f.appended, gap);
    var w1 := w.(hub := w.hub.(feed := AppendOne(w.hub.feed, f.batch[f.appended], gap)));
    FlightProgress(w1, i, f.(appended := f.appended + 1));
  }

  lemma FlightProgress(w: World, i: nat, f: Flight)
    requires Inv(w) && i < |w.flights| && f.src == w.flights[i].src
    requires FlightOk(f, Own(f.src, w.nodes[f.src]), |Fed(w, f.src)|)
    ensures Inv(w.(flights := w.flights[i := f]))
  {
    hide NodeOk, FlightOk, Of;
  }

  lemma MaterializeKeepsInv(w: World, i: nat, saved: bool)
    requires Inv(w) && Can(w, Materialize(i, saved))
    ensures Inv(Do(w, Materialize(i, saved)))
  {
    hide NodeOk, Of, FeedOk, Project;
    var f := w.flights[i];
    FlightProgress(w, i, f.(materialized := f.materialized + 1));
    DebtsAside(w.(flights := w.flights[i := f.(materialized := f.materialized + 1)]), Project(w.hub.debts, f.batch[f.materialized]));
  }

  /** Replication does not look at the hub's debt index. */
  lemma DebtsAside(w: World, debts: Debts)
    requires Inv(w)
    ensures Inv(w.(hub := w.hub.(debts := debts)))
  {
    var w' := w.(hub := w.hub.(debts := debts));
    assert forall m :: Fed(w', m) == Fed(w, m);
  }

  /** Moving the push cursor to the last of a stretch of the log that is wholly in the feed. */
  lemma CursorKeepsLog(n: NodeId, nd: Node, feed: seq<Entry>, hi: nat)
    requires LogOk(n, nd, feed) && 0 < hi <= |Of(Evs(feed), n)|
    ensures hi <= |Own(n, nd)| && LogOk(n, nd.(pushCursor := Own(n, nd)[hi - 1].num, awaiting := None), feed)
  {
    var own := Own(n, nd);
    assert hi <= |own|;
    PosIs(Nums(own), own[hi - 1].num, hi);
    assert Nums(own)[hi - 1] <= Nums(own)[|own| - 1];
  }

  lemma CursorKeepsInv(w: World, n: NodeId, hi: nat)
    requires Inv(w) && n in w.nodes && 0 < hi <= |Fed(w, n)|
    ensures var nd := w.nodes[n];
            hi <= |Own(n, nd)| && Inv(SetNode(w, n, nd.(pushCursor := Own(n, nd)[hi - 1].num, awaiting := None)))
  {
    var nd := w.nodes[n];
    assert NodeOk(n, nd, w.hub.feed, w.handlers);
    CursorKeepsLog(n, nd, w.hub.feed, hi);
    var nd' := nd.(pushCursor := Own(n, nd)[hi - 1].num, awaiting := None);
    KeepIncoming(n, nd, nd', w.hub.feed, w.handlers);
    SwapNode(w, n, nd');
  }

  lemma AckKeepsInv(w: World, n: NodeId)
    requires Inv(w) && Can(w, Ack(n))
    ensures Inv(Do(w, Ack(n)))
  {
    hide NodeOk, Of, FeedOk;
    var f := w.flights[w.nodes[n].awaiting.value];
    assert FlightOk(f, Own(n, w.nodes[n]), |Fed(w, n)|);
    CursorKeepsInv(w, n, f.lo + |f.batch|);
  }

  lemma {:induction false} AppendAllKeepsInv(w: World, n: NodeId, lo: nat, es: seq<Event>, gaps: seq<nat>)
    requires Inv(w) && n in w.nodes && |gaps| == |es|
    requires lo <= |Fed(w, n)| && lo + |es| <= |Own(n, w.nodes[n])| && es == Own(n, w.nodes[n])[lo..lo + |es|]
    ensures var w' := w.(hub := w.hub.(feed := AppendAll(w.hub.feed, es, gaps)));
            && Inv(w')
            && w.hub.feed <= w'.hub.feed
            && |Fed(w', n)| == (if lo + |es| < |Fed(w, n)| then |Fed(w, n)| else lo + |es|)
            && (forall m :: m != n ==> Fed(w', m) == Fed(w, m))
  {
    hide Inv, Of, AppendOne;
    if es == [] {
      assert w.(hub := w.hub.(feed := w.hub.feed)) == w;
    } else {
      var k := |es| - 1;
      AppendAllKeepsInv(w, n, lo, es[..k], gaps[..k]);
      var w1 := w.(hub := w.hub.(feed := AppendAll(w.hub.feed, es[..k], gaps[..k])));
      AppendOneKeepsInv(w1, n, lo + k, gaps[k]);
    }
  }

  /** The hub's part of a push, as far as it gets. */
  function HubAfterPush(w: World, out: seq<Event>, gaps: seq<nat>, a: nat, x: nat): World
    requires |gaps| == |out| && a <= |out| && x <= |out|
  {
    w.(hub := Hub(AppendAll(w.hub.feed, out[..a], gaps[..a]), ProjectAll(w.hub.debts, out[..x])))
  }

  lemma HubPart(w: World, n: NodeId, gaps: seq<nat>, a: nat, x: nat)
    requires Inv(w) && n in w.nodes
    requires var out := Outgoing(n, w.nodes[n]); |gaps| == |out| && a <= |out| && x <= |out|
    ensures var own := Own(n, w.nodes[n]);
            var lo := Pos(Nums(own), w.nodes[n].pushCursor);
            var w' := HubAfterPush(w, Outgoing(n, w.nodes[n]), gaps, a, x);
            && Outgoing(n, w.nodes[n]) == own[lo..] && lo <= |Fed(w, n)|
            && Inv(w')
            && w.hub.feed <= w'.hub.feed
            && |Fed(w', n)| == (if lo + a < |Fed(w, n)| then |Fed(w, n)| else lo + a)
            && (forall m :: m != n ==> Fed(w', m) == Fed(w, m))
  {
    hide Of, LogOk, MirrorsOk, FeedOk, FlightsOk, Pos, EventsSince, AppendAll, ProjectAll;
    var nd := w.nodes[n];
    var own := Own(n, nd);
    var lo := Pos(Nums(own), nd.pushCursor);
    var out := Outgoing(n, nd);
    assert NodeOk(n, nd, w.hub.feed, w.handlers);
    OutgoingIsSuffix(n, nd, w.hub.feed);
    assert out[..a] == own[lo..lo + a];
    AppendAllKeepsInv(w, n, lo, out[..a], gaps[..a]);
    var w0 := w.(hub := w.hub.(feed := AppendAll(w.hub.feed, out[..a], gaps[..a])));
    DebtsAside(w0, ProjectAll(w.hub.debts, out[..x]));
  }

  lemma PushKeepsInv(w: World, n: NodeId, gaps: seq<nat>, a: nat, x: nat, acked: bool)
    requires Inv(w) && n in w.nodes && a <= |gaps| && x <= |gaps| && (acked ==> a == |gaps|)
    requires |gaps| == |Outgoing(n, w.nodes[n])| && Outgoing(n, w.nodes[n]) != []
    ensures Inv(PushAt(w, n, gaps, a, x, acked))
  {
    hide Of, LogOk, MirrorsOk, FeedOk, FlightsOk, Pos, EventsSince, AppendAll, ProjectAll, Can, Do;
    var nd, out := w.nodes[n], Outgoing(n, w.nodes[n]);
    HubPart(w, n, gaps, a, x);
    var w1 := HubAfterPush(w, out, gaps, a, x);
    if acked {
      var lo := Pos(Nums(Own(n, nd)), nd.pushCursor);
      CursorKeepsInv(w1, n, lo + a);
      assert Own(n, nd)[lo + a - 1] == out[|out| - 1];
    } else {
      AwaitNothing(w1, n);
    }
  }

  lemma AwaitNothing(w: World, n: NodeId)
    requires Inv(w) && n in w.nodes
    ensures Inv(SetNode(w, n, w.nodes[n].(awaiting := None)))
  {
    hide LogOk, MirrorsOk, FlightsOk, Of, Foreign;
    var nd, nd' := w.nodes[n], w.nodes[n].(awaiting := None);
    assert NodeOk(n, nd, w.hub.feed, w.handlers);
    KeepOutgoing(n, nd, nd', w.hub.feed);
    KeepIncoming(n, nd, nd', w.hub.feed, w.handlers);
    SwapNode(w, n, nd');
  }

  // ---- Feed entries are pairwise different events ----

  /** Along the feed, the numbers of one source go up. */
  lemma FeedOrdered(a: NodeId, nd: Node, feed: seq<Entry>, x: nat, y: nat)
    requires LogOk(a, nd, feed) && x < y < |feed|
    requires feed[x].ev.source == a && feed[y].ev.source == a
    ensures feed[x].ev.num < feed[y].ev.num
  {
    hide Of, Pos, Top;
    var evs := Evs(feed);
    var i, j := RankOrder(evs, a, x, y);
    var own := Own(a, nd);
    assert own[i] == evs[x] && own[j] == evs[y];
    assert Nums(own)[i] < Nums(own)[j];
  }

  /** Where an event of source a stands among the events of a. */
  lemma Rank(s: seq<Event>, a: NodeId, x: nat) returns (i: nat)
    requires x < |s| && s[x].source == a
    ensures i == |Of(s[..x], a)| && i < |Of(s, a)| && Of(s, a)[i] == s[x]
  {
    i := |Of(s[..x], a)|;
    OfPrefix(s, x + 1, a);
    assert s[..x + 1] == s[..x] + [s[x]];
    AppendSelects(s[..x], s[x], a);
  }

  lemma RankOrder(s: seq<Event>, a: NodeId, x: nat, y: nat) returns (i: nat, j: nat)
    requires x < y < |s| && s[x].source == a && s[y].source == a
    ensures i < j < |Of(s, a)| && Of(s, a)[i] == s[x] && Of(s, a)[j] == s[y]
  {
    hide Of;
    i := Rank(s, a, x);
    j := Rank(s, a, y);
    OfPrefix(s[..y], x + 1, a);
    assert s[..y][..x + 1] == s[..x] + [s[x]];
    AppendSelects(s[..x], s[x], a);
  }

  lemma VisDistinct(w: World, n: NodeId, i: nat, j: nat)
    requires Inv(w) && i < |Vis(w.hub.feed, n)| && j < |Vis(w.hub.feed, n)|
    requires Vis(w.hub.feed, n)[i].ev.Id() == Vis(w.hub.feed, n)[j].ev.Id()
    ensures i == j
  {
    hide LogOk, MirrorsOk, Of, FlightsOk;
    var feed, vis := w.hub.feed, Vis(w.hub.feed, n);
    SameId(vis[i].ev, vis[j].ev);
    var a := vis[i].ev.source;
    var x := VisIndex(feed, n, i);
    var y := VisIndex(feed, n, j);
    assert NodeOk(a, w.nodes[a], feed, w.handlers);
    if x < y {
      FeedOrdered(a, w.nodes[a], feed, x, y);
    } else if y < x {
      FeedOrdered(a, w.nodes[a], feed, y, x);
    }
    assert |vis[..i]| == |vis[..j]|;
  }

  // ---- Pulling and applying ----

  /** Replacing the incoming side of a node. */
  lemma SwapIncoming(w: World, n: NodeId, nd': Node)
    requires Inv(w) && n in w.nodes
    requires SameOutgoing(n, w.nodes[n], nd') && MirrorsOk(n, nd', w.hub.feed, w.handlers)
    requires nd'.awaiting == w.nodes[n].awaiting || nd'.awaiting.None?
    ensures Inv(SetNode(w, n, nd'))
  {
    assert NodeOk(n, w.nodes[n], w.hub.feed, w.handlers);
    KeepOutgoing(n, w.nodes[n], nd', w.hub.feed);
    SwapNode(w, n, nd');
  }

  lemma PullKeepsInv(w: World, n: NodeId)
    requires Inv(w) && Can(w, Pull(n))
    ensures Inv(Do(w, Pull(n)))
  {
    hide LogOk, Of, FlightsOk, FeedSince, Vis, RowsMarked, Pos;
    assert NodeOk(n, w.nodes[n], w.hub.feed, w.handlers);
    FeedSinceIsPage(w.hub.feed, w.nodes[n].hubCursor, PAGE, n);
    SwapIncoming(w, n, w.nodes[n].(inbox := FeedSince(w.hub.feed, w.nodes[n].hubCursor, PAGE, n)));
  }

  /** The row of a pulled event is there already exactly when the node stopped before finishing with it. */
  lemma PendingStored(w: World, n: NodeId)
    requires Inv(w) && n in w.nodes && w.nodes[n].inbox != []
    ensures var nd := w.nodes[n];
            var k := Passed(n, nd, w.hub.feed);
            && k < |Vis(w.hub.feed, n)| && Pending(nd) == Vis(w.hub.feed, n)[k].ev
            && Pending(nd).source != n && k <= |Foreign(nd.events, n)| <= k + 1
            && (Stored(nd.events, Pending(nd).Id()) <==> |Foreign(nd.events, n)| == k + 1)
            && (Stored(Foreign(nd.events, n), Pending(nd).Id()) <==> |Foreign(nd.events, n)| == k + 1)
  {
    hide LogOk, Of, FlightsOk, Pos, MarksOk, MirrorOk, Vis, Foreign, EventId, FeedOk;
    var nd := w.nodes[n];
    assert NodeOk(n, nd, w.hub.feed, w.handlers);
    var vis := Vis(w.hub.feed, n);
    var k, rows := Passed(n, nd, w.hub.feed), Foreign(nd.events, n);
    var e := Pending(nd);
    assert e == vis[k].ev;
    var z := VisIndex(w.hub.feed, n, k);
    forall j | 0 <= j < |rows| && rows[j].Id() == e.Id() ensures j == k {
      assert rows[j] == vis[j].ev;
      VisDistinct(w, n, j, k);
    }
    if Stored(nd.events, e.Id()) {
      var i :| 0 <= i < |nd.events| && nd.events[i].Id() == e.Id();
      SameId(nd.events[i], e);
      OfComplete(nd.events, nd.events[i]);
      var j :| 0 <= j < |rows| && rows[j] == nd.events[i];
      assert rows[j].Id() == e.Id();
    }
    if |rows| == k + 1 {
      assert rows[k] == vis[k].ev;
      var y := ForeignIndex(nd.events, n, k);
    }
  }

  lemma StoredAppend(s: seq<Event>, e: Event, id: string)
    requires Stored(s, id)
    ensures Stored(s + [e], id)
  {
    var i :| 0 <= i < |s| && s[i].Id() == id;
    assert (s + [e])[i] == s[i];
  }

  lemma BeginKeepsInv(w: World, n: NodeId)
    requires Inv(w) && Can(w, Begin(n))
    ensures Inv(Do(w, Begin(n)))
  {
    hide LogOk, FlightsOk, FeedOk, MirrorsOk, Of, Vis, Foreign;
    var nd := w.nodes[n];
    assert NodeOk(n, nd, w.hub.feed, w.handlers);
    PendingStored(w, n);
    AppendSelects(nd.events, Pending(nd), n);
    if Stored(nd.events, Pending(nd).Id()) {
      OldRow(n, nd, w.hub.feed, w.handlers);
    } else {
      NewRow(n, nd, w.hub.feed, w.handlers);
    }
    SwapIncoming(w, n, BeginAt(nd));
  }

  lemma OldRow(n: NodeId, nd: Node, feed: seq<Entry>, handlers: Handlers)
    requires MirrorsOk(n, nd, feed, handlers) && nd.inbox != [] && nd.work.Idle?
    requires Stored(nd.events, Pending(nd).Id()) && |Foreign(nd.events, n)| == Passed(n, nd, feed) + 1
    ensures MirrorsOk(n, BeginAt(nd), feed, handlers)
  {
    hide Foreign, Vis, Pos, RowsMarked, Stored;
    assert WorkOk(BeginAt(nd), handlers);
  }

  lemma NewRow(n: NodeId, nd: Node, feed: seq<Entry>, handlers: Handlers)
    requires MirrorsOk(n, nd, feed, handlers) && nd.inbox != [] && nd.work.Idle?
    requires !Stored(nd.events, Pending(nd).Id()) && !Stored(Foreign(nd.events, n), Pending(nd).Id())
    requires Pending(nd).source != n && |Foreign(nd.events, n)| == Passed(n, nd, feed)
    ensures MirrorsOk(n, BeginAt(nd), feed, handlers)
  {
    hide Foreign, Vis, Pos, ReplicaOk, EventId, Evs, Stored, RowsMarked, MirrorOk;
    var nd', e := BeginAt(nd), Pending(nd);
    var k, rows := Passed(n, nd, feed), Foreign(nd.events, n);
    AppendSelects(nd.events, e, n);
    NewRowSeen(n, nd, feed);
    MoreRows(nd.marks, rows, e, k, handlers);
    UnseenUnmarked(nd.marks, rows, k, handlers, e.Id());
    NewRowMirror(n, nd, nd', e, handlers);
  }

  lemma UnseenUnmarked(marks: Marks, rows: seq<Event>, k: nat, handlers: Handlers, id: string)
    requires RowsMarked(marks, rows, k, handlers) && !Stored(rows, id)
    ensures forall j: nat :: (id, j) !in marks
  {
    hide Stored, MarkedInOrder, AllMarked;
    forall j: nat ensures (id, j) !in marks {
      assert (id, j) in marks ==> Stored(rows, (id, j).0);
    }
  }

  lemma NewRowMirror(n: NodeId, nd: Node, nd': Node, e: Event, handlers: Handlers)
    requires MirrorOk(n, nd, handlers) && Foreign(nd'.events, n) == Foreign(nd.events, n) + [e]
    requires nd'.marks == nd.marks && nd'.done == nd.done && nd'.work.Applying? && !nd'.work.ran
    requires forall j: nat :: (e.Id(), j) !in nd.marks
    ensures MirrorOk(n, nd', handlers)
  {
    hide Foreign, EventId, HandlersFor;
    var rows, rows' := Foreign(nd.events, n), Foreign(nd'.events, n);
    forall i, j: nat | nd'.done <= i < |rows'| && IsMarked(nd'.marks, (rows'[i].Id(), j))
                       && j < |HandlersFor(handlers, rows'[i].body.Type())|
      ensures !HandlersFor(handlers, rows'[i].body.Type())[j].MirrorDebt?
    {
      assert i < |rows| && rows'[i] == rows[i];
    }
  }

  lemma NewRowSeen(n: NodeId, nd: Node, feed: seq<Entry>)
    requires ReplicaOk(n, nd, feed) && nd.inbox != [] && nd.work.Idle? && !Stored(nd.events, Pending(nd).Id())
    requires Pending(nd).source != n && |Foreign(nd.events, n)| == Passed(n, nd, feed)
    ensures ReplicaOk(n, BeginAt(nd), feed)
  {
    hide Foreign, Vis, Pos, Stored, EventId, ReplicaAt, Evs;
    AppendSelects(nd.events, Pending(nd), n);
    StoredNext(Vis(feed, n), Passed(n, nd, feed), Foreign(nd.events, n), nd, BeginAt(nd));
  }

  lemma MoreRows(marks: Marks, rows: seq<Event>, e: Event, k: nat, handlers: Handlers)
    requires RowsMarked(marks, rows, k, handlers) && k <= |rows|
    ensures RowsMarked(marks, rows + [e], k, handlers)
  {
    forall key | key in marks ensures Stored(rows + [e], key.0) {
      StoredAppend(rows, e, key.0);
    }
  }

  lemma HandleKeepsInv(w: World, n: NodeId)
    requires Inv(w) && Can(w, Handle(n))
    ensures Inv(Do(w, Handle(n)))
  {
    hide LogOk, FlightsOk, FeedOk, MirrorsOk, Of, Vis, Foreign, Mirror;
    var nd := w.nodes[n];
    assert NodeOk(n, nd, w.hub.feed, w.handlers);
    HandleNode(n, nd, w.hub.feed, w.handlers);
    SwapIncoming(w, n, HandlerAt(n, nd, Todo(w, n)[nd.work.idx]));
  }

  lemma HandleNode(n: NodeId, nd: Node, feed: seq<Entry>, handlers: Handlers)
    requires MirrorsOk(n, nd, feed, handlers) && Busy(nd) && !nd.work.ran && nd.work.idx < Count(handlers, Pending(nd))
    ensures MirrorsOk(n, HandlerAt(n, nd, HandlersFor(handlers, Pending(nd).body.Type())[nd.work.idx]), feed, handlers)
  {
    hide Foreign, Vis, Pos, RowsMarked, Stored, Mirror, WorkOk, MirrorOk, Evs, EventId;
    var h := HandlersFor(handlers, Pending(nd).body.Type())[nd.work.idx];
    HandleWork(n, nd, h, handlers);
    HandleMirror(n, nd, h, handlers);
    assert ReplicaOk(n, HandlerAt(n, nd, h), feed);
  }

  lemma HandleWork(n: NodeId, nd: Node, h: Handler, handlers: Handlers)
    requires WorkOk(nd, handlers) && Busy(nd) && !nd.work.ran && nd.work.idx < Count(handlers, Pending(nd))
    ensures WorkOk(HandlerAt(n, nd, h), handlers)
  {
    hide Foreign, Mirror, EventId, HandlersFor;
  }

  lemma HandleMirror(n: NodeId, nd: Node, h: Handler, handlers: Handlers)
    requires MirrorOk(n, nd, handlers) && Busy(nd) && !nd.work.ran && nd.done <= |Foreign(nd.events, n)|
    requires nd.work.idx < Count(handlers, Pending(nd)) && h == HandlersFor(handlers, Pending(nd).body.Type())[nd.work.idx]
    ensures MirrorOk(n, HandlerAt(n, nd, h), handlers)
  {
    hide Foreign, Mirror, EventId, HandlersFor;
  }

  lemma MarkKeepsInv(w: World, n: NodeId)
    requires Inv(w) && Can(w, MarkDone(n))
    ensures Inv(Do(w, MarkDone(n)))
  {
    hide LogOk, FlightsOk, FeedOk, Of, Vis, Foreign, Pos, RowsMarked, Stored;
    var nd := w.nodes[n];
    assert NodeOk(n, nd, w.hub.feed, w.handlers);
    PendingStored(w, n);
    MarkNode(n, nd, w.hub.feed, w.handlers);
    SwapIncoming(w, n, MarkedAt(nd));
  }

  lemma MarkNode(n: NodeId, nd: Node, feed: seq<Entry>, handlers: Handlers)
    requires MirrorsOk(n, nd, feed, handlers) && Busy(nd) && nd.work.ran
    requires Stored(Foreign(nd.events, n), Pending(nd).Id())
    ensures MirrorsOk(n, MarkedAt(nd), feed, handlers)
  {
    hide Foreign, Vis, Pos, Stored;
    var nd', k, rows := MarkedAt(nd), Passed(n, nd, feed), Foreign(nd.events, n);
    NewMark(nd.marks, Key(nd), rows, k, handlers);
    assert WorkOk(nd', handlers);
    assert ReplicaOk(n, nd', feed);
    assert MirrorOk(n, nd', handlers) by {
      assert rows[k] == Pending(nd);
    }
  }

  lemma NewMark(marks: Marks, key: (string, nat), rows: seq<Event>, k: nat, handlers: Handlers)
    requires RowsMarked(marks, rows, k, handlers) && Stored(rows, key.0) && AllMarked(marks, key.0, key.1)
    ensures RowsMarked(marks[key := Applied], rows, k, handlers)
  {
    hide Stored;
    var marks' := marks[key := Applied];
    forall id ensures MarkedInOrder(marks', id) {
      assert MarkedInOrder(marks, id);
    }
  }

  lemma FailKeepsInv(w: World, n: NodeId, recorded: bool)
    requires Inv(w) && Can(w, HandlerFails(n, recorded))
    ensures Inv(Do(w, HandlerFails(n, recorded)))
  {
    hide LogOk, FlightsOk, FeedOk, Of, Vis, Foreign, Pos, RowsMarked, Stored;
    var nd := w.nodes[n];
    assert NodeOk(n, nd, w.hub.feed, w.handlers);
    PendingStored(w, n);
    FailNode(n, nd, w.hub.feed, w.handlers, recorded);
    SwapIncoming(w, n, FailAt(nd, recorded));
  }

  lemma FailNode(n: NodeId, nd: Node, feed: seq<Entry>, handlers: Handlers, recorded: bool)
    requires MirrorsOk(n, nd, feed, handlers) && Busy(nd) && !nd.work.ran && !Skips(nd)
    requires Stored(Foreign(nd.events, n), Pending(nd).Id())
    ensures MirrorsOk(n, FailAt(nd, recorded), feed, handlers)
  {
    hide Foreign, Vis, Pos, Stored;
    var nd', k, rows := FailAt(nd, recorded), Passed(n, nd, feed), Foreign(nd.events, n);
    assert !IsMarked(nd.marks, Key(nd));
    NewFailure(nd.marks, Key(nd), rows, k, handlers);
    assert WorkOk(nd', handlers);
    assert ReplicaOk(n, nd', feed);
    assert forall key :: IsMarked(nd'.marks, key) <==> IsMarked(nd.marks, key);
    assert MirrorOk(n, nd', handlers);
  }

  lemma NewFailure(marks: Marks, key: (string, nat), rows: seq<Event>, k: nat, handlers: Handlers)
    requires RowsMarked(marks, rows, k, handlers) && Stored(rows, key.0) && !IsMarked(marks, key)
    ensures RowsMarked(marks[key := Failed], rows, k, handlers)
  {
    hide Stored;
    var marks' := marks[key := Failed];
    assert forall x :: IsMarked(marks', x) <==> IsMarked(marks, x);
    forall id ensures MarkedInOrder(marks', id) {
      assert MarkedInOrder(marks, id);
    }
  }

  lemma FinishKeepsInv(w: World, n: NodeId)
    requires Inv(w) && n in w.nodes && Busy(w.nodes[n]) && !w.nodes[n].work.ran
    requires w.nodes[n].work.idx == Count(w.handlers, Pending(w.nodes[n]))
    ensures Inv(SetNode(w, n, FinishAt(n, w.nodes[n])))
  {
    hide LogOk, FlightsOk, Of, Vis, Foreign, Pos, MirrorsOk, Increasing;
    var nd := w.nodes[n];
    assert NodeOk(n, nd, w.hub.feed, w.handlers);
    FinishNode(n, nd, w.hub.feed, w.handlers);
    SwapIncoming(w, n, FinishAt(n, nd));
  }

  lemma FinishNode(n: NodeId, nd: Node, feed: seq<Entry>, handlers: Handlers)
    requires MirrorsOk(n, nd, feed, handlers) && Increasing(HubSeqs(feed))
    requires Busy(nd) && !nd.work.ran && nd.work.idx == Count(handlers, Pending(nd))
    ensures MirrorsOk(n, FinishAt(n, nd), feed, handlers)
    ensures Passed(n, FinishAt(n, nd), feed) == Passed(n, nd, feed) + 1
  {
    hide Foreign, Vis, Stored, ReplicaOk, Pos, Increasing, EventId;
    var k, rows := Passed(n, nd, feed), Foreign(nd.events, n);
    var nd' := FinishAt(n, nd);
    CursorMoves(n, nd, feed);
    assert rows[k] == Pending(nd);
    assert RowsMarked(nd'.marks, rows, k + 1, handlers);
    assert WorkOk(nd', handlers);
    assert MirrorOk(n, nd', handlers);
  }

  lemma CursorMoves(n: NodeId, nd: Node, feed: seq<Entry>)
    requires ReplicaOk(n, nd, feed) && Increasing(HubSeqs(feed)) && Busy(nd)
    ensures ReplicaOk(n, FinishAt(n, nd), feed)
    ensures var k := Passed(n, nd, feed);
            Passed(n, FinishAt(n, nd), feed) == k + 1 && |Foreign(nd.events, n)| == k + 1 && Foreign(nd.events, n)[k] == Pending(nd)
  {
    hide Foreign, Vis, Pos, EventId;
    var vis, k := Vis(feed, n), Passed(n, nd, feed);
    VisIncreasing(feed, n);
    PosIs(HubSeqs(vis), vis[k].hubSeq, k + 1);
    assert Evs(vis[..k + 1])[k] == vis[k].ev;
  }

  lemma AbortKeepsInv(w: World, n: NodeId)
    requires Inv(w) && n in w.nodes
    ensures Inv(SetNode(w, n, AbortAt(w.nodes[n])))
  {
    hide LogOk, Of, FlightsOk, Pos, Vis, Foreign, FeedOk;
    assert NodeOk(n, w.nodes[n], w.hub.feed, w.handlers);
    SwapIncoming(w, n, AbortAt(w.nodes[n]));
  }

  lemma TopKeepsLog(n: NodeId, nd: Node, feed: seq<Entry>, num: nat, onum: nat)
    requires LogOk(n, nd, feed) && IsTop(Own(n, nd), num)
    ensures LogOk(n, nd.(num := num, onum := onum), feed)
  {
    hide Of, Pos, Evs;
  }

  lemma RestartKeepsInv(w: World, n: NodeId, num: nat, onum: nat)
    requires Inv(w) && Can(w, Restart(n, num, onum))
    ensures Inv(Do(w, Restart(n, num, onum)))
  {
    hide LogOk, MirrorsOk, FlightsOk, Of, Foreign, FeedOk, IsTop, IsTopObligation;
    AbortKeepsInv(w, n);
    var w1 := SetNode(w, n, AbortAt(w.nodes[n]));
    var nd, nd' := w1.nodes[n], RestartAt(w.nodes[n], num, onum);
    assert NodeOk(n, nd, w1.hub.feed, w1.handlers);
    TopKeepsLog(n, nd, w1.hub.feed, num, onum);
    KeepIncoming(n, nd, nd', w1.hub.feed, w1.handlers);
    SwapNode(w1, n, nd');
    assert SetNode(w1, n, nd') == Do(w, Restart(n, num, onum));
  }

  lemma CounterKeepsInv(w: World, n: NodeId, num: nat, onum: nat)
    requires Inv(w) && n in w.nodes && num >= w.nodes[n].num
    ensures Inv(SetNode(w, n, w.nodes[n].(num := num, onum := onum)))
  {
    var nd, nd' := w.nodes[n], w.nodes[n].(num := num, onum := onum);
    assert NodeOk(n, nd, w.hub.feed, w.handlers);
    KeepOutgoing(n, nd, nd', w.hub.feed);
    KeepIncoming(n, nd, nd', w.hub.feed, w.handlers);
    SwapNode(w, n, nd');
  }

  // ---- Every step, every run ----

  lemma LocalKeepsInv(w: World, s: Step)
    requires Inv(w) && Can(w, s)
    requires s.Emit? || s.EmitFails? || s.Create? || s.CreateFails? || s.Resolve? || s.Adjust?
    ensures Inv(Do(w, s))
  {
    hide Inv;
    match s
    case Emit(n, ts, body) => EmitKeepsInv(w, n, w.nodes[n], ts, body);
    case EmitFails(n) => CounterKeepsInv(w, n, w.nodes[n].num + 1, w.nodes[n].onum);
    case CreateFails(n) => CounterKeepsInv(w, n, w.nodes[n].num, w.nodes[n].onum + 1);
    case Create(n, now, ts, terms, weight) =>
      var nd := w.nodes[n];
      var oid := ObligationId(n, nd.onum + 1);
      if oid in nd.table {
        CounterKeepsInv(w, n, nd.num, nd.onum + 1);
      } else {
        EmitKeepsInv(w, n, nd.(onum := nd.onum + 1, table := nd.table[oid := Obligation(Row(n, terms, weight, true), now)]),
                     ts, DebtCreated(oid, n, terms, weight));
      }
    case Resolve(n, oid, ts) =>
      var o := w.nodes[n].table[oid];
      EmitKeepsInv(w, n, w.nodes[n].(table := w.nodes[n].table[oid := o.(row := o.row.(open := false))]), ts, DebtResolved(oid));
    case Adjust(n, oid, seen, amount, ts) =>
      var o := w.nodes[n].table[oid];
      EmitKeepsInv(w, n, w.nodes[n].(table := w.nodes[n].table[oid := o.(row := o.row.(weight := o.row.weight - amount))]),
                   ts, DebtAdjusted(oid, seen, seen - amount));
    case _ =>
  }

  lemma StepKeepsInv(w: World, s: Step)
    requires Inv(w) && Can(w, s)
    ensures Inv(Do(w, s))
  {
    hide Inv;
    match s
    case Send(n) => SendKeepsInv(w, n);
    case Append(i, gap) => AppendKeepsInv(w, i, gap);
    case Materialize(i, saved) => MaterializeKeepsInv(w, i, saved);
    case Ack(n) => AckKeepsInv(w, n);
    case Push(n, gaps, a, x, acked) => PushKeepsInv(w, n, gaps, a, x, acked);
    case Pull(n) => PullKeepsInv(w, n);
    case Begin(n) => BeginKeepsInv(w, n);
    case Handle(n) => HandleKeepsInv(w, n);
    case HandlerFails(n, recorded) => FailKeepsInv(w, n, recorded);
    case MarkDone(n) => MarkKeepsInv(w, n);
    case Finish(n) => FinishKeepsInv(w, n);
    case Abort(n) => AbortKeepsInv(w, n);
    case Restart(n, num, onum) => RestartKeepsInv(w, n, num, onum);
    case _ => LocalKeepsInv(w, s);
  }

  lemma StartInv(w: World)
    requires Start(w)
    ensures Inv(w)
  {
    hide Digits;
  }

  lemma {:induction false} RunKeepsInv(w: World, steps: seq<Step>)
    requires Inv(w) && Runs(w, steps)
    ensures Inv(Final(w, steps))
    decreases |steps|
  {
    hide Inv;
    if steps != [] {
      StepKeepsInv(w, steps[0]);
      RunKeepsInv(Do(w, steps[0]), steps[1..]);
    }
  }
}

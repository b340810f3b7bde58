/**
 The federation as a state machine: nodes, the hub, and the pushes in flight between them.

 A step is a local operation, one hub statement, or one piece of a node's sync tick; each names
 exactly what one SQL statement or transaction changes.  A request may be lost, a reply may be lost,
 the hub may stop between two statements, a handler may fail and a node may restart at any point.

 `done` and `runs` of a node are history variables: they record which foreign rows the debt mirror has
 seen and which handlers ran, and no step reads them.
 */
module Protocol {
  import opened Wrappers
  import opened Ids
  import opened Events
  import opened Ledger

  datatype Handler = MirrorDebt | Opaque(name: string)

  type Handlers = map<string, seq<Handler>>

  datatype Mark = Applied | Failed

  type Marks = map<(string, nat), Mark>

  /** Where the sync loop is with the first event of its inbox: whether its row was new, which handler is
      next, and whether that handler has run but is not marked yet. */
  datatype Work = Idle | Applying(isNew: bool, idx: nat, ran: bool)

  datatype Node = Node(
    num: nat,
    onum: nat,
    events: seq<Event>,
    marks: Marks,
    table: Table,
    hubCursor: nat,
    pushCursor: nat,
    inbox: seq<Entry>,
    work: Work,
    awaiting: Option<nat>,
    done: nat,
    runs: seq<(string, nat)>)

  /** A push on its way through the hub.  `lo` is where the batch starts in the sender's own log. */
  datatype Flight = Flight(src: NodeId, lo: nat, batch: seq<Event>, appended: nat, materialized: nat)

  datatype Hub = Hub(feed: seq<Entry>, debts: Debts)

  datatype World = World(handlers: Handlers, nodes: map<NodeId, Node>, hub: Hub, flights: seq<Flight>)

  const PAGE: nat := 500

  // ---- Local operations ----

  function EmitAt(n: NodeId, nd: Node, ts: int, body: Body): Node {
    nd.(num := nd.num + 1, events := nd.events + [Event(n, nd.num + 1, ts, body)])
  }

  /** Opens an obligation and emits debt.created; a taken id fails the insert and only burns the number. */
  function CreateAt(n: NodeId, nd: Node, now: int, ts: int, terms: Terms, weight: int): Node {
    var oid := ObligationId(n, nd.onum + 1);
    var nd1 := nd.(onum := nd.onum + 1);
    if oid in nd.table then nd1
    else EmitAt(n, nd1.(table := nd.table[oid := Obligation(Row(n, terms, weight, true), now)]),
                ts, DebtCreated(oid, n, terms, weight))
  }

  function ResolveAt(n: NodeId, nd: Node, oid: string, ts: int): Node
    requires oid in nd.table
  {
    var o := nd.table[oid];
    EmitAt(n, nd.(table := nd.table[oid := o.(row := o.row.(open := false))]), ts, DebtResolved(oid))
  }

  /** Takes amount off the row as it is now; the event reports the weight that was read before (`seen`). */
  function AdjustAt(n: NodeId, nd: Node, oid: string, seen: int, amount: int, ts: int): Node
    requires oid in nd.table
  {
    var o := nd.table[oid];
    EmitAt(n, nd.(table := nd.table[oid := o.(row := o.row.(weight := o.row.weight - amount))]),
           ts, DebtAdjusted(oid, seen, seen - amount))
  }

  // ---- Restarting ----

  ghost predicate IsTop(own: seq<Event>, m: nat) {
    if own == [] then m == 0
    else (exists i :: 0 <= i < |own| && own[i].num == m) && forall i :: 0 <= i < |own| ==> own[i].num <= m
  }

  /** SELECT MAX(CAST(substr(...))) over the node's own obligations; zero when there are none. */
  ghost predicate IsTopObligation(t: Table, n: NodeId, m: nat) {
    if forall oid :: oid in t ==> t[oid].row.source != n then m == 0
    else (exists oid :: oid in t && t[oid].row.source == n && RecoverSuffix(oid) == m)
         && forall oid :: oid in t && t[oid].row.source == n ==> RecoverSuffix(oid) <= m
  }

  /** A tick that ends early forgets what it pulled and whom it was waiting for. */
  function AbortAt(nd: Node): Node {
    nd.(inbox := [], work := Idle, awaiting := None)
  }

  function RestartAt(nd: Node, num: nat, onum: nat): Node {
    AbortAt(nd).(num := num, onum := onum)
  }

  // ---- Applying pulled events ----

  function HandlersFor(hs: Handlers, typ: string): seq<Handler> {
    if typ in hs then hs[typ] else []
  }

  function Pending(nd: Node): Event
    requires nd.inbox != []
  {
    nd.inbox[0].ev
  }

  function Key(nd: Node): (string, nat)
    requires nd.inbox != [] && nd.work.Applying?
  {
    (Pending(nd).Id(), nd.work.idx)
  }

  predicate IsMarked(marks: Marks, key: (string, nat)) {
    key in marks && marks[key] == Applied
  }

  function BeginAt(nd: Node): Node
    requires nd.inbox != []
  {
    if Stored(nd.events, Pending(nd).Id()) then nd.(work := Applying(false, 0, false))
    else nd.(events := nd.events + [Pending(nd)], work := Applying(true, 0, false))
  }

  /** The marks are only looked at when the row was there before. */
  predicate Skips(nd: Node)
    requires nd.inbox != [] && nd.work.Applying?
  {
    !nd.work.isNew && IsMarked(nd.marks, Key(nd))
  }

  function HandlerAt(n: NodeId, nd: Node, h: Handler): Node
    requires nd.inbox != [] && nd.work.Applying?
  {
    if Skips(nd) then nd.(work := nd.work.(idx := nd.work.idx + 1))
    else
      var ran := nd.(work := nd.work.(ran := true), runs := nd.runs + [Key(nd)]);
      if h.MirrorDebt? then ran.(table := Mirror(nd.table, Pending(nd)), done := |Foreign(nd.events, n)|) else ran
  }

  /** A handler error: the failure may be recorded, and the tick gives up. */
  function FailAt(nd: Node, recorded: bool): Node
    requires nd.inbox != [] && nd.work.Applying?
  {
    AbortAt(if recorded then nd.(marks := nd.marks[Key(nd) := Failed]) else nd)
  }

  function MarkedAt(nd: Node): Node
    requires nd.inbox != [] && nd.work.Applying?
  {
    nd.(marks := nd.marks[Key(nd) := Applied], work := nd.work.(idx := nd.work.idx + 1, ran := false))
  }

  function FinishAt(n: NodeId, nd: Node): Node
    requires nd.inbox != []
  {
    nd.(hubCursor := nd.inbox[0].hubSeq, inbox := nd.inbox[1..], work := Idle, done := |Foreign(nd.events, n)|)
  }

  // ---- The hub ----

  function Head(feed: seq<Entry>): nat {
    if feed == [] then 0 else feed[|feed| - 1].hubSeq
  }

  /** INSERT OR IGNORE of one event; AUTOINCREMENT promises a larger number, not the next one. */
  function AppendOne(feed: seq<Entry>, e: Event, gap: nat): seq<Entry> {
    if Stored(Evs(feed), e.Id()) then feed else feed + [Entry(Head(feed) + 1 + gap, e)]
  }

  function AppendAll(feed: seq<Entry>, es: seq<Event>, gaps: seq<nat>): seq<Entry>
    requires |gaps| == |es|
  {
    if es == [] then feed
    else
      var k := |es| - 1;
      AppendOne(AppendAll(feed, es[..k], gaps[..k]), es[k], gaps[k])
  }

  // ---- Steps ----

  datatype Step =
    | Emit(n: NodeId, ts: int, body: Body)
    | EmitFails(n: NodeId)
    | Create(n: NodeId, now: int, ts: int, terms: Terms, weight: int)
    | CreateFails(n: NodeId)
    | Resolve(n: NodeId, oid: string, ts: int)
    | Adjust(n: NodeId, oid: string, seen: int, amount: int, ts: int)
    | Send(n: NodeId)
    | Append(i: nat, gap: nat)
    | Materialize(i: nat, saved: bool)
    | Ack(n: NodeId)
    | Push(n: NodeId, gaps: seq<nat>, appended: nat, materialized: nat, acked: bool)
    | Pull(n: NodeId)
    | Begin(n: NodeId)
    | Handle(n: NodeId)
    | HandlerFails(n: NodeId, recorded: bool)
    | MarkDone(n: NodeId)
    | Finish(n: NodeId)
    | Abort(n: NodeId)
    | Restart(n: NodeId, num: nat, onum: nat)

  /** The handlers registered for the event being applied at n. */
  function Todo(w: World, n: NodeId): seq<Handler>
    requires n in w.nodes && w.nodes[n].inbox != []
  {
    HandlersFor(w.handlers, Pending(w.nodes[n]).body.Type())
  }

  predicate Busy(nd: Node) {
    nd.inbox != [] && nd.work.Applying?
  }

  function Outgoing(n: NodeId, nd: Node): seq<Event> {
    EventsSince(nd.events, n, nd.pushCursor)
  }

  predicate Complete(f: Flight) {
    f.appended == |f.batch| && f.materialized == |f.batch|
  }

  ghost predicate Can(w: World, s: Step) {
    match s
    case Emit(n, _, body) => n in w.nodes && !body.Debt()
    case EmitFails(n) => n in w.nodes
    case Create(n, _, _, _, _) => n in w.nodes
    case CreateFails(n) => n in w.nodes
    case Resolve(n, oid, _) => n in w.nodes && oid in w.nodes[n].table
    case Adjust(n, oid, _, _, _) => n in w.nodes && oid in w.nodes[n].table
    case Send(n) => n in w.nodes && Outgoing(n, w.nodes[n]) != []
    case Append(i, _) => i < |w.flights| && w.flights[i].appended < |w.flights[i].batch|
    case Materialize(i, _) =>
      i < |w.flights| && w.flights[i].appended == |w.flights[i].batch| && w.flights[i].materialized < |w.flights[i].batch|
    case Ack(n) =>
      n in w.nodes && w.nodes[n].awaiting.Some? && w.nodes[n].awaiting.value < |w.flights|
      && Complete(w.flights[w.nodes[n].awaiting.value]) && w.flights[w.nodes[n].awaiting.value].batch != []
    case Push(n, gaps, a, x, acked) =>
      n in w.nodes && Outgoing(n, w.nodes[n]) != [] && |gaps| == |Outgoing(n, w.nodes[n])|
      && a <= |gaps| && x <= |gaps| && (x > 0 ==> a == |gaps|) && (acked ==> x == |gaps|)
    case Pull(n) => n in w.nodes && w.nodes[n].work.Idle?
    case Begin(n) => n in w.nodes && w.nodes[n].work.Idle? && w.nodes[n].inbox != []
    case Handle(n) => n in w.nodes && Busy(w.nodes[n]) && !w.nodes[n].work.ran && w.nodes[n].work.idx < |Todo(w, n)|
    case HandlerFails(n, _) =>
      n in w.nodes && Busy(w.nodes[n]) && !w.nodes[n].work.ran && w.nodes[n].work.idx < |Todo(w, n)| && !Skips(w.nodes[n])
    case MarkDone(n) => n in w.nodes && Busy(w.nodes[n]) && w.nodes[n].work.ran && w.nodes[n].work.idx < |Todo(w, n)|
    case Finish(n) => n in w.nodes && Busy(w.nodes[n]) && !w.nodes[n].work.ran && w.nodes[n].work.idx == |Todo(w, n)|
    case Abort(n) => n in w.nodes
    case Restart(n, num, onum) =>
      n in w.nodes && IsTop(Of(w.nodes[n].events, n), num) && IsTopObligation(w.nodes[n].table, n, onum)
  }

  function SetNode(w: World, n: NodeId, nd: Node): World {
    w.(nodes := w.nodes[n := nd])
  }

  /** One whole push, handled by the hub without interruption from anyone else; the hub may stop part way. */
  function PushAt(w: World, n: NodeId, gaps: seq<nat>, a: nat, x: nat, acked: bool): World
    requires n in w.nodes
    requires var out := Outgoing(n, w.nodes[n]); out != [] && |gaps| == |out| && a <= |out| && x <= |out|
  {
    var nd := w.nodes[n];
    var out := Outgoing(n, nd);
    var w1 := w.(hub := Hub(AppendAll(w.hub.feed, out[..a], gaps[..a]), ProjectAll(w.hub.debts, out[..x])));
    SetNode(w1, n, nd.(pushCursor := if acked then out[|out| - 1].num else nd.pushCursor, awaiting := None))
  }

  ghost function Do(w: World, s: Step): World
    requires Can(w, s)
  {
    match s
    case Emit(n, ts, body) => SetNode(w, n, EmitAt(n, w.nodes[n], ts, body))
    case EmitFails(n) => SetNode(w, n, w.nodes[n].(num := w.nodes[n].num + 1))
    case Create(n, now, ts, terms, weight) => SetNode(w, n, CreateAt(n, w.nodes[n], now, ts, terms, weight))
    case CreateFails(n) => SetNode(w, n, w.nodes[n].(onum := w.nodes[n].onum + 1))
    case Resolve(n, oid, ts) => SetNode(w, n, ResolveAt(n, w.nodes[n], oid, ts))
    case Adjust(n, oid, seen, amount, ts) => SetNode(w, n, AdjustAt(n, w.nodes[n], oid, seen, amount, ts))
    case Send(n) =>
      var nd := w.nodes[n];
      var f := Flight(n, Pos(Nums(Of(nd.events, n)), nd.pushCursor), Outgoing(n, nd), 0, 0);
      SetNode(w.(flights := w.flights + [f]), n, nd.(awaiting := Some(|w.flights|)))
    case Append(i, gap) =>
      var f := w.flights[i];
      w.(hub := w.hub.(feed := AppendOne(w.hub.feed, f.batch[f.appended], gap)),
         flights := w.flights[i := f.(appended := f.appended + 1)])
    case Materialize(i, saved) =>
      var f := w.flights[i];
      w.(hub := if saved then w.hub.(debts := Project(w.hub.debts, f.batch[f.materialized])) else w.hub,
         flights := w.flights[i := f.(materialized := f.materialized + 1)])
    case Ack(n) =>
      var b := w.flights[w.nodes[n].awaiting.value].batch;
      SetNode(w, n, w.nodes[n].(pushCursor := b[|b| - 1].num, awaiting := None))
    case Push(n, gaps, a, x, acked) => PushAt(w, n, gaps, a, x, acked)
    case Pull(n) => SetNode(w, n, w.nodes[n].(inbox := FeedSince(w.hub.feed, w.nodes[n].hubCursor, PAGE, n)))
    case Begin(n) => SetNode(w, n, BeginAt(w.nodes[n]))
    case Handle(n) => SetNode(w, n, HandlerAt(n, w.nodes[n], Todo(w, n)[w.nodes[n].work.idx]))
    case HandlerFails(n, recorded) => SetNode(w, n, FailAt(w.nodes[n], recorded))
    case MarkDone(n) => SetNode(w, n, MarkedAt(w.nodes[n]))
    case Finish(n) => SetNode(w, n, FinishAt(n, w.nodes[n]))
    case Abort(n) => SetNode(w, n, AbortAt(w.nodes[n]))
    case Restart(n, num, onum) => SetNode(w, n, RestartAt(w.nodes[n], num, onum))
  }

  // ---- Runs ----

  const FRESH: Node := Node(0, 0, [], map[], map[], 0, 0, [], Idle, None, 0, [])

  /** Nodes with empty databases, an empty hub, nothing in flight.  Node ids contain no colon. */
  ghost predicate Start(w: World) {
    && (forall n :: n in w.nodes ==> w.nodes[n] == FRESH && ':' !in n)
    && w.hub == Hub([], map[]) && w.flights == []
  }

  ghost predicate Runs(w: World, steps: seq<Step>)
    decreases |steps|
  {
    steps == [] || (Can(w, steps[0]) && Runs(Do(w, steps[0]), steps[1..]))
  }

  ghost function Final(w: World, steps: seq<Step>): World
    requires Runs(w, steps)
    decreases |steps|
  {
    if steps == [] then w else Final(Do(w, steps[0]), steps[1..])
  }

  /** Pushes are handled one at a time; a push may still stop anywhere, and its reply may be lost. */
  predicate Serial(s: Step) {
    !s.Send? && !s.Append? && !s.Materialize? && !s.Ack?
  }

  ghost predicate SerialRun(steps: seq<Step>) {
    forall i :: 0 <= i < |steps| ==> Serial(steps[i])
  }

  lemma {:induction false} RunOn(w: World, a: seq<Step>, b: seq<Step>)
    requires Runs(w, a) && Runs(Final(w, a), b)
    ensures Runs(w, a + b) && Final(w, a + b) == Final(Final(w, a), b)
    decreases |a|
  {
    hide Can, Do;
    if a == [] {
      assert a + b == b;
    } else {
      assert (a + b)[1..] == a[1..] + b;
      RunOn(Do(w, a[0]), a[1..], b);
    }
  }
}

/** Whole runs of the two builds: the same calls in the same order give the same reasons where `all`s are level. */
module PromiseReasons {
  import opened PromiseMachine
  import opened PromiseInvariant
  import opened PromiseOrder
  import opened PromiseConfluence
  import opened PromiseStack
  import opened PromiseLevels

  // ---- recursion on slots is the promise machine ----

  lemma CallDue(g: Graph, s: Slots, st: Status, cb: Callback)
    requires GraphOk(g) && PlainGraph(g) && Falling(g, s) && PlainCb(g, cb) && st.Rejected?
    ensures Shape(g, HeapOf(s)) && var (h1, due) := Fire(g, HeapOf(s), st, cb);
      HeapOf(Call(g, s, st, cb)) == h1
      && due == if s.slots[cb.k].state.Waiting? then Items(cb.k, s.slots[cb.k].cbs) else []
  {
    CallHeap(g, s, st, cb);
    assert SlotOk(g, cb.k, s.slots[cb.k]);
  }

  /** Marked promises, but for `m`, have nothing attached. */
  ghost predicate BareBut(s: Slots, m: int) {
    forall j | 0 <= j < |s.slots| && s.slots[j].state.Pre? && j != m :: s.slots[j].cbs == []
  }

  ghost predicate Kept(s: Slots, t: Slots) {
    |s.slots| == |t.slots| && forall j | 0 <= j < |s.slots| && s.slots[j].state.Done? :: t.slots[j] == s.slots[j]
  }

  /** What `Rec` and `RecVisit` come to. */
  ghost predicate Ran(g: Graph, s: Slots, r: Slots, items: seq<Item>)
    requires GraphOk(g)
  {
    && Falling(g, r) && BareBut(r, -1) && Kept(s, r)
    && Shape(g, HeapOf(s)) && (forall x | x in items :: ItemOk(g, x)) && HeapOf(r) == Run(g, HeapOf(s), items)
  }

  lemma {:induction false} RecRuns(g: Graph, s: Slots, st: Status, p: nat, cbs: seq<Callback>)
    requires GraphOk(g) && PlainGraph(g) && Falling(g, s) && FedBy(g, p, cbs) && (st.Rejected? || cbs == [])
    requires p < |g| && s.slots[p].state == Done(st) && BareBut(s, -1) && !st.Pending?
    ensures Ran(g, s, Rec(g, s, st, cbs), Items(p, cbs))
    decreases Undone(s), 3, |cbs|
  {
    HeapShape(g, s);
    if cbs != [] {
      assert Fed(g, p, cbs[0]);
      var c, t := cbs[0], Call(g, s, st, cbs[0]);
      CallRejected(g, s, st, c);
      CallDue(g, s, st, c);
      RecVisitRuns(g, t, c.k);
      var u := RecVisit(g, t, c.k);
      assert t.slots[p] == s.slots[p];
      RecRuns(g, u, st, p, cbs[1..]);
      RanNext(g, s, t, u, Rec(g, u, st, cbs[1..]), st, p, cbs);
    }
  }

  lemma {:induction false} RecVisitRuns(g: Graph, s: Slots, m: nat)
    requires GraphOk(g) && PlainGraph(g) && Falling(g, s) && m < |g| && BareBut(s, m)
    ensures Ran(g, s, RecVisit(g, s, m), if s.slots[m].state.Pre? then Items(m, s.slots[m].cbs) else [])
    decreases Undone(s), 2, 0
  {
    HeapShape(g, s);
    if s.slots[m].state.Pre? {
      CloseOk(g, s, m);
      CloseFalls(g, s, m);
      PutHeap(s, m, Close(s, m).slots[m]);
      assert HeapOf(Close(s, m)).cells == HeapOf(s).cells;
      RecRuns(g, Close(s, m), s.slots[m].state.outcome, m, s.slots[m].cbs);
    }
  }

  lemma ItemsFirst(p: nat, cbs: seq<Callback>)
    requires cbs != []
    ensures Items(p, cbs) == [Item(p, cbs[0])] + Items(p, cbs[1..])
  {}

  /** Running one due item, what it sets off, and the rest. */
  lemma RunNext(g: Graph, h: Heap, it: Item, rest: seq<Item>)
    requires GraphOk(g) && Shape(g, h) && ItemOk(g, it) && forall x | x in rest :: ItemOk(g, x)
    ensures var (h1, due) := Exec(g, h, it); Run(g, h, [it] + rest) == Run(g, Run(g, h1, due), rest)
  {
    var (h1, due) := Exec(g, h, it);
    assert ([it] + rest)[1..] == rest;
    RunConcat(g, h1, due, rest);
  }

  /** One callback, what it sets off, and the rest. */
  lemma RanNext(g: Graph, s: Slots, t: Slots, u: Slots, r: Slots, st: Status, p: nat, cbs: seq<Callback>)
    requires GraphOk(g) && PlainGraph(g) && Falling(g, s) && st.Rejected? && cbs != [] && FedBy(g, p, cbs)
    requires Fed(g, p, cbs[0]) && t == Call(g, s, st, cbs[0]) && Falling(g, t) && BareBut(s, -1)
    requires p < |g| && s.slots[p].state == Done(st) && Shape(g, HeapOf(s))
    requires Ran(g, t, u, if t.slots[cbs[0].k].state.Pre? then Items(cbs[0].k, t.slots[cbs[0].k].cbs) else [])
    requires Ran(g, u, r, Items(p, cbs[1..])) && Kept(s, t)
    ensures Ran(g, s, r, Items(p, cbs))
  {
    var c, h := cbs[0], HeapOf(s);
    CallFires(g, s, st, c);
    assert h.cells[p].status == st && Exec(g, h, Item(p, c)) == Fire(g, h, st, c);
    ItemsFirst(p, cbs);
    RunNext(g, h, Item(p, c), Items(p, cbs[1..]));
    KeptOn(s, t, u, r);
  }

  lemma KeptOn(s: Slots, t: Slots, u: Slots, r: Slots)
    requires Kept(s, t) && Kept(t, u) && Kept(u, r)
    ensures Kept(s, r)
  {}

  /** What a callback sets off is what hangs on the promise it marks. */
  lemma CallFires(g: Graph, s: Slots, st: Status, c: Callback)
    requires GraphOk(g) && PlainGraph(g) && Falling(g, s) && PlainCb(g, c) && st.Rejected? && BareBut(s, -1)
    ensures Shape(g, HeapOf(s))
    ensures var (h1, due) := Fire(g, HeapOf(s), st, c); var t := Call(g, s, st, c);
      HeapOf(t) == h1 && due == if t.slots[c.k].state.Pre? then Items(c.k, t.slots[c.k].cbs) else []
  {
    CallRejected(g, s, st, c);
    CallDue(g, s, st, c);
  }

  // ---- the two builds, side by side ----

  /** What is pending has the same callbacks in both builds, and upstream of `k` every status is the same. */
  ghost predicate Matched(g: Graph, k: nat, h: Heap, h1: Heap) {
    && |h.cells| == |h1.cells| == |g|
    && (forall j | 0 <= j < |g| :: CbsMatch(h.cells[j], h1.cells[j]))
    && forall j | 0 <= j < |g| && From(g, j, k) :: h.cells[j].status == h1.cells[j].status
  }

  ghost predicate CbsMatch(c: Cell, d: Cell) {
    c.status.Pending? && d.status.Pending? ==> c.cbs == d.cbs
  }

  ghost predicate Together(g: Graph, v: World, w: StackWorld) {
    WorldOk(g, v) && StackOk(g, w) && SameInputs(Abstract(w), v)
  }

  /** Whatever is upstream, both builds have settled the same promises. */
  lemma AlikeStatus(g: Graph, v: World, w: StackWorld, j: nat)
    requires Together(g, v, w) && j < |g|
    ensures Similar(v.heap.cells[j].status, StatusOf(w.heap.slots[j]))
    ensures v.heap.cells[j].status.Pending? <==> w.heap.slots[j].state.Waiting?
  {
    forall n | 0 <= n < |g| ensures SteadyAt(g, n) {}
    Determined(g, v, Abstract(w), j);
    assert SlotOk(g, j, w.heap.slots[j]);
  }

  /** The slots of a heap, marked where `s` is. */
  function Like(h: Heap, s: Slots): (r: Slots)
    requires |h.cells| == |s.slots|
    ensures |r.slots| == |h.cells| && r.ran == h.ran
    ensures forall j | 0 <= j < |h.cells| :: r.slots[j] == LikeSlot(h.cells[j], s.slots[j])
  {
    Slots(seq(|h.cells|, j requires 0 <= j < |h.cells| => LikeSlot(h.cells[j], s.slots[j])), h.ran)
  }

  function LikeSlot(c: Cell, x: Slot): Slot {
    var state := if c.status.Pending? then Waiting else if x.state.Pre? then Pre(c.status) else Done(c.status);
    Slot(state, c.cbs, c.left, c.results)
  }

  lemma AttachedHome(g: Graph, wired: set<nat>, h: Heap, q: nat, cb: Callback)
    requires PlainGraph(g) && Inv(g, wired, h, {}) && q < |g| && cb in h.cells[q].cbs
    ensures Fed(g, q, cb) && h.cells[q].status.Pending?
  {
    assert CellOk(g, wired, h, {}, q) && Home(g, wired, h, q, cb) && DefOk(g[cb.k], cb.k);
  }

  lemma LikeOk(g: Graph, v: World, s: Slots)
    requires PlainGraph(g) && WorldOk(g, v) && |s.slots| == |g|
    ensures HeapOf(Like(v.heap, s)) == v.heap && Falling(g, Like(v.heap, s)) && BareBut(Like(v.heap, s), -1)
  {
    var r, h := Like(v.heap, s), v.heap;
    forall q, cb | 0 <= q < |g| && cb in r.slots[q].cbs ensures Fed(g, q, cb) && r.slots[q].state.Waiting? {
      AttachedHome(g, v.wired, h, q, cb);
    }
    forall q | 0 <= q < |g| ensures SlotOk(g, q, r.slots[q]) && CellOf(r.slots[q]) == h.cells[q] {
      assert CellOk(g, v.wired, h, {}, q);
    }
    assert HeapOf(r).cells == h.cells;
  }

  lemma StackFalls(g: Graph, w: StackWorld)
    requires StackOk(g, w)
    ensures Falling(g, w.heap) && BareBut(w.heap, -1)
  {
    forall q, cb | 0 <= q < |g| && cb in w.heap.slots[q].cbs ensures Fed(g, q, cb) {
      assert SlotOk(g, q, w.heap.slots[q]) && (w.heap.slots[q].state.Pre? ==> q in Marks(w.heap));
      AttachedHome(g, w.wired, HeapOf(w.heap), q, cb);
    }
    forall q | 0 <= q < |g| && w.heap.slots[q].state.Pre? ensures w.heap.slots[q].cbs == [] {
      assert q in Marks(w.heap);
    }
  }

  lemma LikeUp(g: Graph, k: nat, v: World, w: StackWorld)
    requires Together(g, v, w) && Matched(g, k, v.heap, HeapOf(w.heap))
    ensures AlikeUp(g, k, Like(v.heap, w.heap), w.heap)
  {
    var r := Like(v.heap, w.heap);
    forall j | 0 <= j < |g| && From(g, j, k) ensures SameSlot(r.slots[j], w.heap.slots[j]) {
      AlikeStatus(g, v, w, j);
      assert SlotOk(g, j, w.heap.slots[j]) && CellOk(g, v.wired, v.heap, {}, j);
      assert CbsMatch(v.heap.cells[j], HeapOf(w.heap).cells[j]);
      assert w.heap.slots[j].state.Pre? ==> j in Marks(w.heap);
    }
  }

  // ---- a rejected root ----

  lemma MarkRejected(g: Graph, s: Slots, x: nat, o: Status)
    requires GraphOk(g) && PlainGraph(g) && Falling(g, s) && BareBut(s, -1) && x < |g| && o.Rejected?
    requires s.slots[x].state.Waiting?
    ensures var t := Mark(g, s, x, o);
      Falling(g, t) && BareBut(t, x) && t.slots[x] == s.slots[x].(state := Pre(o))
      && forall j | 0 <= j < |g| && j != x :: t.slots[j] == s.slots[j]
  {}

  lemma MarkUp(g: Graph, k: nat, s: Slots, t: Slots, x: nat, o: Status)
    requires GraphOk(g) && PlainGraph(g) && Falling(g, s) && Falling(g, t) && BareBut(s, -1) && BareBut(t, -1)
    requires x < |g| && o.Rejected? && s.slots[x].state.Waiting? && t.slots[x].state.Waiting? && AlikeUp(g, k, s, t)
    ensures AlikeUp(g, k, Mark(g, s, x, o), Mark(g, t, x, o))
  {
    MarkRejected(g, s, x, o);
    MarkRejected(g, t, x, o);
    forall j | 0 <= j < |g| && From(g, j, k) ensures SameSlot(Mark(g, s, x, o).slots[j], Mark(g, t, x, o).slots[j]) {
      assert SameSlot(s.slots[j], t.slots[j]);
    }
  }

  /** The recursive settlement of a root, on the slots of its heap. */
  lemma SettleRec(g: Graph, s: Slots, x: nat, o: Status)
    requires GraphOk(g) && PlainGraph(g) && Falling(g, s) && BareBut(s, -1) && x < |g| && o.Rejected?
    requires s.slots[x].state.Waiting?
    ensures Shape(g, HeapOf(s)) && HeapOf(RecVisit(g, Mark(g, s, x, o), x)) == Settle(g, HeapOf(s), x, o)
  {
    MarkRejected(g, s, x, o);
    MarkHeap(g, s, x, o);
    RecVisitRuns(g, Mark(g, s, x, o), x);
    assert CellOf(s.slots[x]).cbs == s.slots[x].cbs;
  }

  lemma RejectReasons(g: Graph, k: nat, v: World, w: StackWorld, x: nat, o: Status, j: nat)
    requires Together(g, v, w) && Matched(g, k, v.heap, HeapOf(w.heap)) && Level(g, k) && OpOk(g, SettleRoot(x, o))
    requires o.Rejected?
    requires x !in v.roots && j < |g| && From(g, j, k)
    ensures Settle(g, v.heap, x, o).cells[j].status == StatusOf(Visit(g, Mark(g, w.heap, x, o), x).slots[j])
  {
    var l := Like(v.heap, w.heap);
    LikeOk(g, v, w.heap);
    StackFalls(g, w);
    LikeUp(g, k, v, w);
    AlikeStatus(g, v, w, x);
    MarkUp(g, k, l, w.heap, x, o);
    MarkRejected(g, l, x, o);
    MarkRejected(g, w.heap, x, o);
    SettleRec(g, l, x, o);
    SameVisit(g, k, Mark(g, l, x, o), x);
    VisitUp(g, k, Mark(g, l, x, o), Mark(g, w.heap, x, o), x);
    assert SameSlot(Visit(g, Mark(g, l, x, o), x).slots[j], RecVisit(g, Mark(g, l, x, o), x).slots[j]);
    assert SameSlot(Visit(g, Mark(g, l, x, o), x).slots[j], Visit(g, Mark(g, w.heap, x, o), x).slots[j]);
  }

  // ---- callbacks of what stays pending ----

  /** What is pending in `h1` was pending, with the same callbacks. */
  ghost predicate PendKept(h: Heap, h1: Heap) {
    && |h.cells| == |h1.cells|
    && forall j | 0 <= j < |h.cells| && h1.cells[j].status.Pending? ::
         h.cells[j].status.Pending? && h1.cells[j].cbs == h.cells[j].cbs
  }

  lemma {:induction false} RunPends(g: Graph, h: Heap, items: seq<Item>)
    requires GraphOk(g) && PlainGraph(g) && Shape(g, h) && forall x | x in items :: ItemOk(g, x) && Settled(h, x.src)
    ensures PendKept(h, Run(g, h, items))
    decreases Pend(h), |items|
  {
    if items != [] {
      var (h1, due) := Exec(g, h, items[0]);
      FirePends(g, h, items[0]);
      RunPends(g, h1, due + items[1..]);
    }
  }

  lemma FirePends(g: Graph, h: Heap, it: Item)
    requires GraphOk(g) && PlainGraph(g) && Shape(g, h) && ItemOk(g, it) && Settled(h, it.src)
    ensures var (h1, due) := Exec(g, h, it);
      PendKept(h, h1) && (forall x | x in due :: Settled(h1, x.src)) && forall j: nat | Settled(h, j) :: Settled(h1, j)
  {}

  lemma SettlePends(g: Graph, h: Heap, x: nat, o: Status)
    requires GraphOk(g) && PlainGraph(g) && Shape(g, h) && x < |g| && !o.Pending?
    ensures PendKept(h, Settle(g, h, x, o))
  {
    RunPends(g, SettleCell(g, h, x, o).0, SettleCell(g, h, x, o).1);
  }

  /** The same of slots. */
  ghost predicate WaitKept(s: Slots, t: Slots) {
    && |s.slots| == |t.slots|
    && forall j | 0 <= j < |s.slots| && t.slots[j].state.Waiting? ::
         s.slots[j].state.Waiting? && t.slots[j].cbs == s.slots[j].cbs
  }

  lemma {:induction false} CallAllWaits(g: Graph, s: Slots, st: Status, cbs: seq<Callback>)
    requires PlainGraph(g) && SlotsOk(g, s) && !st.Pending? && forall cb | cb in cbs :: PlainCb(g, cb)
    ensures WaitKept(s, CallAll(g, s, st, cbs))
    decreases |cbs|
  {
    if cbs != [] {
      assert PlainCb(g, cbs[0]);
      CallWaits(g, s, st, cbs[0]);
      CallAllWaits(g, Call(g, s, st, cbs[0]), st, cbs[1..]);
    }
  }

  lemma CallWaits(g: Graph, s: Slots, st: Status, cb: Callback)
    requires PlainGraph(g) && SlotsOk(g, s) && !st.Pending? && PlainCb(g, cb)
    ensures WaitKept(s, Call(g, s, st, cb))
  {}

  lemma {:induction false} VisitWaits(g: Graph, s: Slots, m: nat)
    requires PlainGraph(g) && SlotsOk(g, s) && m < |g|
    ensures WaitKept(s, Visit(g, s, m))
    decreases Undone(s), 1, 0
  {
    if s.slots[m].state.Pre? {
      CloseOk(g, s, m);
      CallAllWaits(g, Close(s, m), s.slots[m].state.outcome, s.slots[m].cbs);
      VisitAllWaits(g, Settled1(g, s, m), Deps(s.slots[m].cbs));
    }
  }

  lemma {:induction false} VisitAllWaits(g: Graph, s: Slots, ks: seq<nat>)
    requires PlainGraph(g) && SlotsOk(g, s) && forall i | 0 <= i < |ks| :: ks[i] < |g|
    ensures WaitKept(s, VisitAll(g, s, ks))
    decreases Undone(s), 2, |ks|
  {
    if ks != [] {
      VisitWaits(g, s, ks[0]);
      VisitAllWaits(g, Visit(g, s, ks[0]), ks[1..]);
    }
  }

  // ---- a fulfilled root rejects nothing ----

  lemma {:induction false} NothingRejected(g: Graph, v: World, v1: World, x: nat, o: Status, j: nat)
    requires WorldOk(g, v) && WorldOk(g, v1) && v1.wired == v.wired && v1.roots == v.roots[x := o] && o.Fulfilled?
    requires PlainGraph(g) && j < |g| && v1.heap.cells[j].status.Rejected?
    ensures v.heap.cells[j].status.Rejected?
  {
    WiredNotRoot(g, v, j);
    WiredNotRoot(g, v1, j);
    if j in v.wired {
      WiredMeaning(g, v, j);
      WiredMeaning(g, v1, j);
      assert DefOk(g[j], j);
      match g[j] {
        case Root =>
        case Then(s, _, _) => NothingRejected(g, v, v1, x, o, s);
        case All(ss) =>
          assert AllMeaning(v1, ss, StatusAt(v1, j)) && AllMeaning(v, ss, StatusAt(v, j));
          var i :| 0 <= i < |ss| && StatusAt(v1, ss[i]).Rejected?;
          NothingRejected(g, v, v1, x, o, ss[i]);
      }
    }
  }

  lemma StackKept(g: Graph, w: StackWorld, x: nat, o: Status, j: nat)
    requires StackOk(g, w) && OpOk(g, SettleRoot(x, o)) && x !in w.roots && j < |g| && Settled(HeapOf(w.heap), j)
    ensures StatusOf(Visit(g, Mark(g, w.heap, x, o), x).slots[j]) == StatusOf(w.heap.slots[j])
  {
    var t := Mark(g, w.heap, x, o);
    MarkGood(g, w, x, o);
    VisitKeeps(g, w.wired, t, x);
    assert HeapOf(t).cells[j].status == HeapOf(w.heap).cells[j].status;
  }

  lemma FulfilReasons(g: Graph, k: nat, v: World, w: StackWorld, x: nat, o: Status, j: nat)
    requires Together(g, v, w) && Matched(g, k, v.heap, HeapOf(w.heap)) && OpOk(g, SettleRoot(x, o)) && o.Fulfilled?
    requires x !in v.roots && j < |g| && From(g, j, k)
    requires Together(g, Step(g, v, SettleRoot(x, o)), StackStep(g, w, SettleRoot(x, o)))
    ensures Step(g, v, SettleRoot(x, o)).heap.cells[j].status
      == StatusOf(StackStep(g, w, SettleRoot(x, o)).heap.slots[j])
  {
    var v1, w1 := Step(g, v, SettleRoot(x, o)), StackStep(g, w, SettleRoot(x, o));
    AlikeStatus(g, v1, w1, j);
    if v1.heap.cells[j].status.Rejected? {
      NothingRejected(g, v, v1, x, o, j);
      StepKeeps(g, v, SettleRoot(x, o));
      StackKept(g, w, x, o, j);
      assert v.heap.cells[j].status == HeapOf(w.heap).cells[j].status;
    }
  }

  // ---- a new promise ----

  /** The callbacks that making a promise adds to promise `j`, while that is pending. */
  function Added(items: seq<Item>, j: nat): seq<Callback> {
    if items == [] then [] else (if items[0].src == j then [items[0].cb] else []) + Added(items[1..], j)
  }

  /** The first rejected source, in the order of the list. */
  function FirstBad(h: Heap, items: seq<Item>): Status
    requires forall i | 0 <= i < |items| :: items[i].src < |h.cells|
  {
    if items == [] then Pending
    else if h.cells[items[0].src].status.Rejected? then h.cells[items[0].src].status else FirstBad(h, items[1..])
  }

  lemma {:induction false} FirstBadSame(h: Heap, h1: Heap, items: seq<Item>)
    requires |h.cells| == |h1.cells| && (forall i | 0 <= i < |items| :: items[i].src < |h.cells|)
    requires forall i | 0 <= i < |items| :: SourceSame(h, h1, items[i])
    ensures FirstBad(h, items) == FirstBad(h1, items)
  {
    if items != [] {
      assert SourceSame(h, h1, items[0]);
      assert forall i | 0 <= i < |items[1..]| :: items[1..][i] == items[i + 1];
      FirstBadSame(h, h1, items[1..]);
    }
  }

  ghost predicate SourceSame(h: Heap, h1: Heap, it: Item) {
    it.src < |h.cells| && it.src < |h1.cells| && h1.cells[it.src].status == h.cells[it.src].status
  }

  ghost predicate NewReady(h: Heap, k: nat, items: seq<Item>) {
    && k < |h.cells| && (forall i | 0 <= i < |items| :: items[i].src < |h.cells|)
    && (h.cells[k].cbs == [] || forall i | 0 <= i < |items| :: h.cells[items[i].src].status.Pending?)
  }

  /** What making promise `k` does. */
  ghost predicate MadeNew(g: Graph, h: Heap, r: Heap, k: nat, items: seq<Item>) {
    && |h.cells| == |r.cells| == |g| && k < |g| && (forall i | 0 <= i < |items| :: items[i].src < |g|)
    && (forall j | 0 <= j < |g| && j != k :: r.cells[j].status == h.cells[j].status)
    && (forall j: nat | j < |g| && r.cells[j].status.Pending? :: r.cells[j].cbs == h.cells[j].cbs + Added(items, j))
    && (r.cells[k].status.Rejected? ==>
          h.cells[k].status == r.cells[k].status || !AllInputs(items) || FirstBad(h, items) == r.cells[k].status)
  }

  ghost predicate AllInputs(items: seq<Item>) {
    forall i | 0 <= i < |items| :: items[i].cb.OnAll?
  }

  lemma {:induction false} RunMakes(g: Graph, h: Heap, k: nat, items: seq<Item>)
    requires GraphOk(g) && PlainGraph(g) && Shape(g, h) && Feeds(g, k, items) && NewReady(h, k, items) && k < |g|
    ensures (forall x | x in items :: ItemOk(g, x)) && MadeNew(g, h, Run(g, h, items), k, items)
    decreases |items|
  {
    assert forall x | x in items :: ItemOk(g, x) by {
      forall i | 0 <= i < |items| ensures ItemOk(g, items[i]) { assert FeedOk(g, k, items[i]); }
    }
    if items != [] {
      FeedsRest(g, k, items);
      var (h1, due) := Exec(g, h, items[0]);
      ExecMakes(g, h, k, items[0]);
      assert due + items[1..] == items[1..];
      ReadyNext(g, h, h1, k, items);
      RunMakes(g, h1, k, items[1..]);
      if Settled(h1, k) { RunStable(g, h1, items[1..], k); }
      MadeNext(g, h, h1, Run(g, h1, items[1..]), k, items);
    }
  }

  /** One subscription of a new promise. */
  ghost predicate Subscribed(h: Heap, h1: Heap, k: nat, it: Item) {
    && |h.cells| == |h1.cells| && k < |h.cells| && it.src < k
    && (forall j | 0 <= j < |h.cells| && j != k :: h1.cells[j].status == h.cells[j].status)
    && (forall j | 0 <= j < |h.cells| && h1.cells[j].status.Pending? ::
          h1.cells[j].cbs == h.cells[j].cbs + if j == it.src then [it.cb] else [])
    && (h.cells[k].cbs == [] ==> h1.cells[k].cbs == [])
    && (h1.cells[k].status.Rejected? && it.cb.OnAll? ==>
          h1.cells[k].status == h.cells[k].status || h1.cells[k].status == h.cells[it.src].status)
    && (h.cells[it.src].status.Rejected? ==> !h1.cells[k].status.Pending?)
    && (!h.cells[k].status.Pending? ==> h1.cells[k].status == h.cells[k].status)
  }

  lemma ExecMakes(g: Graph, h: Heap, k: nat, it: Item)
    requires GraphOk(g) && PlainGraph(g) && Shape(g, h) && FeedOk(g, k, it)
    requires h.cells[k].cbs == [] || h.cells[it.src].status.Pending?
    ensures var (h1, due) := Exec(g, h, it); due == [] && Subscribed(h, h1, k, it)
  {}

  lemma ReadyNext(g: Graph, h: Heap, h1: Heap, k: nat, items: seq<Item>)
    requires items != [] && Feeds(g, k, items) && NewReady(h, k, items) && Subscribed(h, h1, k, items[0])
    ensures NewReady(h1, k, items[1..])
  {
    forall i | 0 <= i < |items[1..]| ensures items[1..][i].src < k { assert FeedOk(g, k, items[i + 1]); }
    assert forall i | 0 <= i < |items[1..]| :: items[1..][i] == items[i + 1];
  }

  /** The reason that making promise `k` leaves it with. */
  lemma ReasonNext(h: Heap, h1: Heap, k: nat, items: seq<Item>, st: Status)
    requires items != [] && NewReady(h, k, items) && Subscribed(h, h1, k, items[0]) && st.Rejected?
    requires forall i | 0 <= i < |items[1..]| :: SourceSame(h, h1, items[1..][i])
    requires !h1.cells[k].status.Pending? ==> st == h1.cells[k].status
    requires h1.cells[k].status == st || !AllInputs(items[1..]) || FirstBad(h1, items[1..]) == st
    ensures h.cells[k].status == st || !AllInputs(items) || FirstBad(h, items) == st
  {
    FirstBadSame(h, h1, items[1..]);
    assert AllInputs(items) ==> items[0].cb.OnAll? && AllInputs(items[1..]);
  }

  lemma AppendAppend<T>(a: seq<T>, b: seq<T>, c: seq<T>)
    ensures a + b + c == a + (b + c)
  {}

  lemma MadeNext(g: Graph, h: Heap, h1: Heap, r: Heap, k: nat, items: seq<Item>)
    requires items != [] && Feeds(g, k, items) && NewReady(h, k, items) && Subscribed(h, h1, k, items[0])
    requires MadeNew(g, h1, r, k, items[1..])
    requires (!h1.cells[k].status.Pending? ==> r.cells[k].status == h1.cells[k].status)
    ensures MadeNew(g, h, r, k, items)
  {
    forall i | 0 <= i < |items[1..]| ensures SourceSame(h, h1, items[1..][i]) {
      assert items[1..][i] == items[i + 1] && FeedOk(g, k, items[i + 1]);
    }
    if r.cells[k].status.Rejected? { ReasonNext(h, h1, k, items, r.cells[k].status); }
    forall j: nat | j < |g| && r.cells[j].status.Pending? ensures r.cells[j].cbs == h.cells[j].cbs + Added(items, j) {
      AppendAppend(h.cells[j].cbs, if items[0].src == j then [items[0].cb] else [], Added(items[1..], j));
    }
  }

  // ---- one call ----

  /** A promise that stays pending in both builds keeps its callbacks in both. */
  lemma CbsKept(g: Graph, h: Heap, h1: Heap, s: Slots, s1: Slots, j: nat)
    requires PendKept(h, h1) && WaitKept(s, s1) && SlotsOk(g, s) && SlotsOk(g, s1) && |h.cells| == |g| && j < |g|
    requires CbsMatch(h.cells[j], HeapOf(s).cells[j])
    ensures CbsMatch(h1.cells[j], HeapOf(s1).cells[j])
  {
    assert SlotOk(g, j, s1.slots[j]) && SlotOk(g, j, s.slots[j]);
  }

  lemma SettleReasons(g: Graph, k: nat, v: World, w: StackWorld, x: nat, o: Status)
    requires Together(g, v, w) && Matched(g, k, v.heap, HeapOf(w.heap)) && Level(g, k) && OpOk(g, SettleRoot(x, o))
    requires x !in v.roots && Together(g, Step(g, v, SettleRoot(x, o)), StackStep(g, w, SettleRoot(x, o)))
    ensures var h, s := Step(g, v, SettleRoot(x, o)).heap, StackStep(g, w, SettleRoot(x, o)).heap;
      forall j | 0 <= j < |g| && From(g, j, k) :: h.cells[j].status == StatusOf(s.slots[j])
  {
    forall j | 0 <= j < |g| && From(g, j, k)
      ensures Step(g, v, SettleRoot(x, o)).heap.cells[j].status
        == StatusOf(StackStep(g, w, SettleRoot(x, o)).heap.slots[j])
    {
      if o.Rejected? { RejectReasons(g, k, v, w, x, o, j); } else { FulfilReasons(g, k, v, w, x, o, j); }
    }
  }

  lemma SettleMatched(g: Graph, k: nat, v: World, w: StackWorld, x: nat, o: Status)
    requires Together(g, v, w) && Matched(g, k, v.heap, HeapOf(w.heap)) && Level(g, k) && OpOk(g, SettleRoot(x, o))
    requires x !in v.roots && Together(g, Step(g, v, SettleRoot(x, o)), StackStep(g, w, SettleRoot(x, o)))
    ensures Matched(g, k, Step(g, v, SettleRoot(x, o)).heap, HeapOf(StackStep(g, w, SettleRoot(x, o)).heap))
  {
    var v1, w1 := Step(g, v, SettleRoot(x, o)), StackStep(g, w, SettleRoot(x, o));
    SettlePends(g, v.heap, x, o);
    VisitWaits(g, Mark(g, w.heap, x, o), x);
    assert WaitKept(w.heap, w1.heap);
    forall j | 0 <= j < |g| ensures CbsMatch(v1.heap.cells[j], HeapOf(w1.heap).cells[j]) {
      CbsKept(g, v.heap, v1.heap, w.heap, w1.heap, j);
    }
    SettleReasons(g, k, v, w, x, o);
  }

  lemma NewReadyBoth(g: Graph, k: nat, v: World, w: StackWorld, n: nat)
    requires Together(g, v, w) && Matched(g, k, v.heap, HeapOf(w.heap)) && Attachable(g, w, Wire(n)) && n !in w.wired
    ensures NewReady(v.heap, n, Subscriptions(g, n)) && NewReady(HeapOf(w.heap), n, Subscriptions(g, n))
    ensures v.heap.cells[n].status.Pending? && HeapOf(w.heap).cells[n].status.Pending?
  {
    var items, h := Subscriptions(g, n), HeapOf(w.heap);
    assert Unwired(g, v.heap, n) && Unwired(g, h, n) && SlotOk(g, n, w.heap.slots[n]);
    assert CbsMatch(v.heap.cells[n], h.cells[n]);
    if w.heap.slots[n].cbs != [] {
      forall i | 0 <= i < |items|
        ensures v.heap.cells[items[i].src].status.Pending? && h.cells[items[i].src].status.Pending?
      {
        AlikeStatus(g, v, w, items[i].src);
      }
    }
  }

  /** The reason of a new promise upstream of `k`. */
  lemma NewReason(g: Graph, k: nat, v: World, v1: World, u: World, u1: World, n: nat)
    requires WorldOk(g, v1) && WorldOk(g, u1) && n in v1.wired && n in u1.wired && n < |g| && From(g, n, k)
    requires PlainGraph(g) && Matched(g, k, v.heap, u.heap) && StatusAt(v1, n).Rejected? && StatusAt(u1, n).Rejected?
    requires v.heap.cells[n].status.Pending? && u.heap.cells[n].status.Pending?
    requires MadeNew(g, v.heap, v1.heap, n, Subscriptions(g, n)) && MadeNew(g, u.heap, u1.heap, n, Subscriptions(g, n))
    ensures StatusAt(v1, n) == StatusAt(u1, n)
  {
    assert DefOk(g[n], n);
    WiredMeaning(g, v1, n);
    WiredMeaning(g, u1, n);
    var items := Subscriptions(g, n);
    SubscriptionsFeed(g, n);
    forall i | 0 <= i < |items| ensures SourceSame(v.heap, u.heap, items[i]) {
      assert FeedOk(g, n, items[i]);
      SourceFrom(g, n, i);
      FromTrans(g, items[i].src, n, k);
    }
    FirstBadSame(v.heap, u.heap, items);
    if g[n].Then? { assert SourceSame(v.heap, u.heap, items[0]); } else { assert AllInputs(items); }
  }

  lemma SourceFrom(g: Graph, n: nat, i: nat)
    requires GraphOk(g) && n < |g| && i < |Subscriptions(g, n)|
    ensures From(g, Subscriptions(g, n)[i].src, n)
  {
    assert DefOk(g[n], n) && From(g, Subscriptions(g, n)[i].src, Subscriptions(g, n)[i].src);
    if g[n].All? { assert From(g, Subscriptions(g, n)[i].src, g[n].srcs[i]); }
  }

  lemma WireMatched(g: Graph, k: nat, v: World, w: StackWorld, n: nat)
    requires Together(g, v, w) && Matched(g, k, v.heap, HeapOf(w.heap)) && Attachable(g, w, Wire(n)) && n !in w.wired
    requires Together(g, Step(g, v, Wire(n)), StackStep(g, w, Wire(n)))
    ensures Matched(g, k, Step(g, v, Wire(n)).heap, HeapOf(StackStep(g, w, Wire(n)).heap))
  {
    var v1, u, u1, items := Step(g, v, Wire(n)), Abstract(w), Abstract(StackStep(g, w, Wire(n))), Subscriptions(g, n);
    WireStep(g, w, n);
    SubscriptionsFeed(g, n);
    NewReadyBoth(g, k, v, w, n);
    RunMakes(g, v.heap, n, items);
    RunMakes(g, u.heap, n, items);
    PendingSame(g, v.heap, u.heap, v1.heap, u1.heap, n, items) by {
      forall j | 0 <= j < |g| ensures v.heap.cells[j].status.Pending? <==> u.heap.cells[j].status.Pending? {
        AlikeStatus(g, v, w, j);
      }
      assert forall j | 0 <= j < |g| :: CbsMatch(v.heap.cells[j], u.heap.cells[j]);
    }
    forall j | 0 <= j < |g| && From(g, j, k) ensures v1.heap.cells[j].status == u1.heap.cells[j].status {
      AlikeStatus(g, v1, StackStep(g, w, Wire(n)), j);
      if j == n && v1.heap.cells[n].status.Rejected? { NewReason(g, k, v, v1, u, u1, n); }
    }
  }

  lemma PendingSame(g: Graph, h: Heap, d: Heap, h1: Heap, d1: Heap, n: nat, items: seq<Item>)
    requires MadeNew(g, h, h1, n, items) && MadeNew(g, d, d1, n, items) && |h.cells| == |d.cells| == |g|
    requires h.cells[n].status.Pending? && d.cells[n].status.Pending?
    requires forall j | 0 <= j < |g| :: h.cells[j].status.Pending? <==> d.cells[j].status.Pending?
    requires forall j | 0 <= j < |g| :: CbsMatch(h.cells[j], d.cells[j])
    ensures forall j | 0 <= j < |g| :: CbsMatch(h1.cells[j], d1.cells[j])
  {
    forall j: nat | j < |g| ensures CbsMatch(h1.cells[j], d1.cells[j]) { assert CbsMatch(h.cells[j], d.cells[j]); }
  }

  // ---- whole runs ----

  lemma StepTogether(g: Graph, v: World, w: StackWorld, op: Op)
    requires Together(g, v, w) && Attachable(g, w, op)
    ensures Together(g, Step(g, v, op), StackStep(g, w, op))
  {
    StepKeeps(g, v, op);
    StackStepKeeps(g, w, op);
  }

  lemma {:induction false} PlayMatched(g: Graph, k: nat, v: World, w: StackWorld, ops: seq<Op>)
    requires Together(g, v, w) && Matched(g, k, v.heap, HeapOf(w.heap)) && Level(g, k) && AllAttachable(g, w, ops)
    ensures OpsOk(g, ops) && Matched(g, k, Play(g, v, ops).heap, HeapOf(StackPlay(g, w, ops).heap))
    decreases |ops|
  {
    if ops != [] {
      StepTogether(g, v, w, ops[0]);
      StepMatched(g, k, v, w, ops[0]);
      PlayMatched(g, k, Step(g, v, ops[0]), StackStep(g, w, ops[0]), ops[1..]);
      assert forall op | op in ops :: op == ops[0] || op in ops[1..];
    }
  }

  lemma StepMatched(g: Graph, k: nat, v: World, w: StackWorld, op: Op)
    requires Together(g, v, w) && Matched(g, k, v.heap, HeapOf(w.heap)) && Level(g, k) && Attachable(g, w, op)
    requires Together(g, Step(g, v, op), StackStep(g, w, op))
    ensures Matched(g, k, Step(g, v, op).heap, HeapOf(StackStep(g, w, op).heap))
  {
    match op
    case SettleRoot(x, o) => if x !in v.roots { SettleMatched(g, k, v, w, x, o); }
    case Wire(n) => if n !in v.wired { WireMatched(g, k, v, w, n); }
  }

  /** On the same calls in the same order both builds give promise `k` the same status, its rejection reason
      included, if no `all` upstream of it lists a promise together with one that comes from it. */
  lemma SameReason(g: Graph, ops: seq<Op>, k: nat)
    requires GraphOk(g) && PlainGraph(g) && AllAttachable(g, StackInit(g), ops) && Level(g, k)
    ensures OpsOk(g, ops) && Shape(g, Init(g).heap)
    ensures StatusAt(Play(g, Init(g), ops), k) == StatusOf(StackPlay(g, StackInit(g), ops).heap.slots[k])
  {
    InitOk(g);
    StackInitOk(g);
    PlayMatched(g, k, Init(g), StackInit(g), ops);
    assert From(g, k, k);
  }
}

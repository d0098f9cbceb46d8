/** The `cppromise_use_stack_free` build as a value: callbacks only mark promises, and a visit settles a
    marked promise and then its dependants, depth first. */
module PromiseStack {
  import opened PromiseMachine
  import opened PromiseInvariant
  import opened PromiseOrder
  import opened PromiseConfluence

  /** `Pre` is prefulfilled or prerejected: the outcome is known, the callbacks have not run. */
  datatype State = Waiting | Pre(outcome: Status) | Done(outcome: Status)

  /** A promise with its queued callbacks; its dependants are the promises those settle. */
  datatype Slot = Slot(state: State, cbs: seq<Callback>, left: int, results: seq<Value>)

  datatype Slots = Slots(slots: seq<Slot>, ran: seq<Callback>)

  /** Callbacks return plain values; promise-returning ones are wired differently in this build. */
  ghost predicate PlainGraph(g: Graph) {
    forall k, v | 0 <= k < |g| && g[k].Then? :: g[k].onF(v).Return? && g[k].onR(v).Return?
  }

  ghost predicate PlainCb(g: Graph, cb: Callback) {
    CbOk(g, cb) && !cb.Adopt?
  }

  ghost predicate SlotOk(g: Graph, k: nat, x: Slot)
    requires k < |g|
  {
    && (forall cb | cb in x.cbs :: PlainCb(g, cb)) && (g[k].All? ==> |x.results| == |g[k].srcs|)
    && (!x.state.Waiting? ==> !x.state.outcome.Pending?) && (x.state.Done? ==> x.cbs == [])
  }

  ghost predicate SlotsOk(g: Graph, s: Slots) {
    |s.slots| == |g| && forall k {:trigger SlotOk(g, k, s.slots[k])} | 0 <= k < |g| :: SlotOk(g, k, s.slots[k])
  }

  function Undone(s: Slots): set<nat> {
    set k: nat | k < |s.slots| && !s.slots[k].state.Done?
  }

  function Put(s: Slots, k: nat, x: Slot): Slots
    requires k < |s.slots|
  {
    s.(slots := s.slots[k := x])
  }

  lemma PutOk(g: Graph, s: Slots, k: nat, x: Slot)
    requires SlotsOk(g, s) && k < |g| && SlotOk(g, k, x)
    ensures SlotsOk(g, Put(s, k, x))
    ensures Undone(Put(s, k, x)) == if x.state.Done? then Undone(s) - {k} else Undone(s) + {k}
  {
    forall j | 0 <= j < |g| ensures SlotOk(g, j, Put(s, k, x).slots[j]) { assert j != k ==> SlotOk(g, j, s.slots[j]); }
  }

  /** `_resolve` / `_reject`: mark a pending promise, and nothing more. */
  function Mark(g: Graph, s: Slots, k: nat, o: Status): (r: Slots)
    requires SlotsOk(g, s) && k < |g| && !o.Pending?
    ensures SlotsOk(g, r) && Undone(r) == Undone(s)
  {
    var x := s.slots[k];
    assert SlotOk(g, k, x);
    if x.state.Waiting? then
      PutOk(g, s, k, x.(state := Pre(o)));
      assert k in Undone(s) && Undone(s) + {k} == Undone(s);
      Put(s, k, x.(state := Pre(o)))
    else s
  }

  /** `all` promise `k` stores result `i` and counts down. */
  function Stored(g: Graph, s: Slots, k: nat, i: nat, v: Value): (r: Slots)
    requires SlotsOk(g, s) && CbOk(g, OnAll(k, i))
    ensures SlotsOk(g, r) && Undone(r) == Undone(s)
  {
    var x := s.slots[k];
    assert SlotOk(g, k, x);
    PutOk(g, s, k, x.(left := x.left - 1, results := x.results[i := v]));
    assert k in Undone(s) <==> !x.state.Done?;
    Put(s, k, x.(left := x.left - 1, results := x.results[i := v]))
  }

  function Logged(s: Slots, cb: Callback): Slots {
    s.(ran := s.ran + [cb])
  }

  /** One closure, run on the outcome `st` of its source. */
  function Call(g: Graph, s: Slots, st: Status, cb: Callback): (r: Slots)
    requires PlainGraph(g) && SlotsOk(g, s) && PlainCb(g, cb) && !st.Pending?
    ensures SlotsOk(g, r) && Undone(r) == Undone(s)
  {
    var t := Logged(s, cb);
    assert SlotsOk(g, t) by {
      forall k | 0 <= k < |g| ensures SlotOk(g, k, t.slots[k]) { assert SlotOk(g, k, s.slots[k]); }
    }
    match cb
    case OnThen(k) => Mark(g, t, k, Outcome(st, Reaction(g[k], st).v))
    case OnAll(k, i) =>
      if st.Rejected? then Mark(g, t, k, st)
      else
        var u := Stored(g, t, k, i, st.value);
        if u.slots[k].left == 0 then Mark(g, u, k, Fulfilled(Vec(u.slots[k].results))) else u
  }

  function CallAll(g: Graph, s: Slots, st: Status, cbs: seq<Callback>): (r: Slots)
    requires PlainGraph(g) && SlotsOk(g, s) && !st.Pending? && forall cb | cb in cbs :: PlainCb(g, cb)
    ensures SlotsOk(g, r) && Undone(r) == Undone(s)
    decreases |cbs|
  {
    if cbs == [] then s else CallAll(g, Call(g, s, st, cbs[0]), st, cbs[1..])
  }

  function Close(s: Slots, k: nat): Slots
    requires k < |s.slots| && s.slots[k].state.Pre?
  {
    Put(s, k, s.slots[k].(state := Done(s.slots[k].state.outcome), cbs := []))
  }

  lemma CloseOk(g: Graph, s: Slots, k: nat)
    requires SlotsOk(g, s) && k < |g| && s.slots[k].state.Pre?
    ensures SlotsOk(g, Close(s, k)) && Undone(Close(s, k)) == Undone(s) - {k} && k in Undone(s)
    ensures !s.slots[k].state.outcome.Pending? && forall cb | cb in s.slots[k].cbs :: PlainCb(g, cb)
  {
    assert SlotOk(g, k, s.slots[k]);
    PutOk(g, s, k, Close(s, k).slots[k]);
  }

  /** The promises whose callbacks are queued: `fulfilled_pms`, and `rejected_pms`. */
  function Deps(cbs: seq<Callback>): (r: seq<nat>)
    ensures |r| == |cbs| && forall i | 0 <= i < |r| :: r[i] == cbs[i].k
  {
    seq(|cbs|, i requires 0 <= i < |cbs| => cbs[i].k)
  }

  /** A marked promise is settled and its callbacks run; what they mark is visited after the last of them. */
  function Settled1(g: Graph, s: Slots, k: nat): (r: Slots)
    requires PlainGraph(g) && SlotsOk(g, s) && k < |g| && s.slots[k].state.Pre?
    ensures SlotsOk(g, r) && Undone(r) == Undone(s) - {k} && k in Undone(s)
    ensures forall i | 0 <= i < |s.slots[k].cbs| :: s.slots[k].cbs[i].k < |g|
  {
    CloseOk(g, s, k);
    assert forall i | 0 <= i < |s.slots[k].cbs| :: PlainCb(g, s.slots[k].cbs[i]);
    CallAll(g, Close(s, k), s.slots[k].state.outcome, s.slots[k].cbs)
  }

  function Visit(g: Graph, s: Slots, k: nat): (r: Slots)
    requires PlainGraph(g) && SlotsOk(g, s) && k < |g|
    ensures SlotsOk(g, r) && Undone(r) <= Undone(s)
    decreases Undone(s), 1, 0
  {
    if s.slots[k].state.Pre? then VisitAll(g, Settled1(g, s, k), Deps(s.slots[k].cbs)) else s
  }

  function VisitAll(g: Graph, s: Slots, ks: seq<nat>): (r: Slots)
    requires PlainGraph(g) && SlotsOk(g, s) && forall i | 0 <= i < |ks| :: ks[i] < |g|
    ensures SlotsOk(g, r) && Undone(r) <= Undone(s)
    decreases Undone(s), 2, |ks|
  {
    if ks == [] then s else VisitAll(g, Visit(g, s, ks[0]), ks[1..])
  }

  // ---- the calls made from outside ----

  /** `then` on a pending promise queues the callback. */
  function Queue(s: Slots, it: Item): Slots
    requires it.src < |s.slots|
  {
    Put(s, it.src, s.slots[it.src].(cbs := s.slots[it.src].cbs + [it.cb]))
  }

  /** One subscription. On a settled source the callback runs at once; `all` then triggers its promise, `then`
      and `fail` do not. On a source that is in a `pre` state the code throws. */
  function Attach1(g: Graph, s: Slots, it: Item): (r: Slots)
    requires PlainGraph(g) && SlotsOk(g, s) && it.src < |g| && PlainCb(g, it.cb)
    ensures SlotsOk(g, r)
  {
    assert SlotOk(g, it.src, s.slots[it.src]);
    match s.slots[it.src].state
    case Waiting => QueueOk(g, s, it); Queue(s, it)
    case Pre(_) => s
    case Done(o) => var t := Call(g, s, o, it.cb); if it.cb.OnAll? then Visit(g, t, it.cb.k) else t
  }

  function AttachAll(g: Graph, s: Slots, items: seq<Item>): (r: Slots)
    requires PlainGraph(g) && SlotsOk(g, s)
    requires forall i | 0 <= i < |items| :: items[i].src < |g| && PlainCb(g, items[i].cb)
    ensures SlotsOk(g, r)
    decreases |items|
  {
    if items == [] then s else AttachAll(g, Attach1(g, s, items[0]), items[1..])
  }

  lemma QueueOk(g: Graph, s: Slots, it: Item)
    requires SlotsOk(g, s) && it.src < |g| && PlainCb(g, it.cb) && s.slots[it.src].state.Waiting?
    ensures SlotsOk(g, Queue(s, it)) && forall k | 0 <= k < |g| :: Queue(s, it).slots[k].state == s.slots[k].state
  {
    assert SlotOk(g, it.src, s.slots[it.src]);
    PutOk(g, s, it.src, Queue(s, it).slots[it.src]);
  }

  datatype StackWorld = StackWorld(wired: set<nat>, roots: map<nat, Status>, heap: Slots)

  function EmptySlot(d: Def): Slot {
    if d.All? then Slot(Waiting, [], |d.srcs|, seq(|d.srcs|, _ => Unit)) else Slot(Waiting, [], 0, [])
  }

  function StackInit(g: Graph): StackWorld {
    StackWorld({}, map[], Slots(seq(|g|, k requires 0 <= k < |g| => EmptySlot(g[k])), []))
  }

  ghost predicate AllWait(s: Slots, items: seq<Item>) {
    forall i | 0 <= i < |items| :: items[i].src < |s.slots| && s.slots[items[i].src].state.Waiting?
  }

  /** Promise `k` can be made from its sources: none of them is in a `pre` state, which throws, and nothing is
      attached to `k` before it is made from a settled one. */
  ghost predicate SourcesReady(s: Slots, k: nat, items: seq<Item>) {
    && k < |s.slots| && (s.slots[k].cbs == [] || AllWait(s, items))
    && forall i | 0 <= i < |items| :: items[i].src < |s.slots| && !s.slots[items[i].src].state.Pre?
  }

  ghost predicate Attachable(g: Graph, w: StackWorld, op: Op)
    requires GraphOk(g) && |w.heap.slots| == |g|
  {
    OpOk(g, op) && (op.Wire? ==> op.k in w.wired || SourcesReady(w.heap, op.k, Subscriptions(g, op.k)))
  }

  /** The subscriptions of promise `k`. */
  ghost predicate Feeds(g: Graph, k: nat, items: seq<Item>) {
    forall i | 0 <= i < |items| :: FeedOk(g, k, items[i])
  }

  ghost predicate FeedOk(g: Graph, k: nat, it: Item) {
    it.src < k < |g| && PlainCb(g, it.cb) && it.cb.k == k
  }

  lemma SubscriptionsFeed(g: Graph, k: nat)
    requires GraphOk(g) && k < |g|
    ensures Feeds(g, k, Subscriptions(g, k))
  {
    assert DefOk(g[k], k);
    var items := Subscriptions(g, k);
    assert forall i | 0 <= i < |items| :: items[i] in items;
  }

  function StackStep(g: Graph, w: StackWorld, op: Op): (r: StackWorld)
    requires GraphOk(g) && PlainGraph(g) && SlotsOk(g, w.heap) && Attachable(g, w, op)
    ensures SlotsOk(g, r.heap)
  {
    match op
    case SettleRoot(k, o) =>
      if k in w.roots then w else StackWorld(w.wired, w.roots[k := o], Visit(g, Mark(g, w.heap, k, o), k))
    case Wire(k) =>
      if k in w.wired then w
      else
        SubscriptionsFeed(g, k);
        StackWorld(w.wired + {k}, w.roots, AttachAll(g, w.heap, Subscriptions(g, k)))
  }

  /** Subscriptions to pending promises are queued. */
  lemma QueueTwo(g: Graph, s: Slots, a: Item, b: Item)
    requires PlainGraph(g) && SlotsOk(g, s) && a.src < |g| && b.src < |g| && PlainCb(g, a.cb) && PlainCb(g, b.cb)
    requires s.slots[a.src].state.Waiting? && s.slots[b.src].state.Waiting?
    ensures AttachAll(g, s, [a]) == Queue(s, a) && AttachAll(g, s, [a, b]) == Queue(Queue(s, a), b)
  {
    QueueOk(g, s, a);
    QueueOk(g, Queue(s, a), b);
    var t := Attach1(g, s, a);
    assert [a][1..] == [] && [b][1..] == [] && [a, b][1..] == [b];
    assert t == Queue(s, a) && AttachAll(g, t, []) == t;
    var u := Attach1(g, t, b);
    assert u == Queue(t, b) && AttachAll(g, u, []) == u && AttachAll(g, t, [b]) == AttachAll(g, u, []);
  }

  ghost predicate AllAttachable(g: Graph, w: StackWorld, ops: seq<Op>)
    requires GraphOk(g) && PlainGraph(g) && SlotsOk(g, w.heap)
    decreases |ops|
  {
    ops == [] || (Attachable(g, w, ops[0]) && AllAttachable(g, StackStep(g, w, ops[0]), ops[1..]))
  }

  function StackPlay(g: Graph, w: StackWorld, ops: seq<Op>): (r: StackWorld)
    requires GraphOk(g) && PlainGraph(g) && SlotsOk(g, w.heap) && AllAttachable(g, w, ops)
    ensures SlotsOk(g, r.heap)
    decreases |ops|
  {
    if ops == [] then w else StackPlay(g, StackStep(g, w, ops[0]), ops[1..])
  }

  // ---- the promise machine in it ----

  function StatusOf(x: Slot): Status {
    if x.state.Waiting? then Pending else x.state.outcome
  }

  function CellOf(x: Slot): Cell {
    Cell(StatusOf(x), if x.state.Waiting? then x.cbs else [], x.left, x.results)
  }

  function HeapOf(s: Slots): (h: Heap)
    ensures |h.cells| == |s.slots| && h.ran == s.ran
    ensures forall k | 0 <= k < |s.slots| :: h.cells[k] == CellOf(s.slots[k])
  {
    Heap(seq(|s.slots|, k requires 0 <= k < |s.slots| => CellOf(s.slots[k])), s.ran)
  }

  /** The callbacks that are due: those of the marked promises. */
  function TodoOf(s: Slots): set<Item> {
    set k: nat, cb | k < |s.slots| && s.slots[k].state.Pre? && cb in s.slots[k].cbs :: Item(k, cb)
  }

  function Marks(s: Slots): set<nat> {
    set k: nat | k < |s.slots| && s.slots[k].state.Pre?
  }

  lemma HeapShape(g: Graph, s: Slots)
    requires SlotsOk(g, s)
    ensures Shape(g, HeapOf(s))
  {
    forall k | 0 <= k < |g|
      ensures forall cb | cb in HeapOf(s).cells[k].cbs :: CbOk(g, cb)
      ensures g[k].All? ==> |HeapOf(s).cells[k].results| == |g[k].srcs|
    {
      assert SlotOk(g, k, s.slots[k]);
    }
  }

  lemma PutHeap(s: Slots, k: nat, x: Slot)
    requires k < |s.slots|
    ensures HeapOf(Put(s, k, x)) == Heap(HeapOf(s).cells[k := CellOf(x)], s.ran)
  {}

  lemma MarkHeap(g: Graph, s: Slots, k: nat, o: Status)
    requires SlotsOk(g, s) && k < |g| && !o.Pending?
    ensures Shape(g, HeapOf(s)) && var (h1, due) := SettleCell(g, HeapOf(s), k, o);
      HeapOf(Mark(g, s, k, o)) == h1 && TodoOf(Mark(g, s, k, o)) == TodoOf(s) + Elems(due)
    ensures Marks(Mark(g, s, k, o)) <= Marks(s) + {k}
    ensures forall j | 0 <= j < |g| :: Mark(g, s, k, o).slots[j].cbs == s.slots[j].cbs
  {
    HeapShape(g, s);
    var x := s.slots[k];
    assert SlotOk(g, k, x);
    if x.state.Waiting? {
      var t := Mark(g, s, k, o);
      PutHeap(s, k, x.(state := Pre(o)));
      var (h1, due) := SettleCell(g, HeapOf(s), k, o);
      assert due == Items(k, x.cbs) && CellOf(x.(state := Pre(o))) == CellOf(x).(status := o, cbs := []);
      forall it ensures it in TodoOf(t) <==> it in TodoOf(s) || it in due {
        if it in TodoOf(s) { assert t.slots[it.src] == s.slots[it.src]; }
        if it in TodoOf(t) && it.src != k { assert t.slots[it.src] == s.slots[it.src]; }
      }
    }
  }

  lemma StoredHeap(g: Graph, s: Slots, k: nat, i: nat, v: Value)
    requires SlotsOk(g, s) && CbOk(g, OnAll(k, i))
    ensures Shape(g, HeapOf(s)) && HeapOf(Stored(g, s, k, i, v)) == Store(g, HeapOf(s), k, i, v)
    ensures TodoOf(Stored(g, s, k, i, v)) == TodoOf(s) && Marks(Stored(g, s, k, i, v)) == Marks(s)
    ensures forall j | 0 <= j < |g| :: Stored(g, s, k, i, v).slots[j].cbs == s.slots[j].cbs
  {
    HeapShape(g, s);
    var x, t := s.slots[k], Stored(g, s, k, i, v);
    assert SlotOk(g, k, x);
    PutHeap(s, k, x.(left := x.left - 1, results := x.results[i := v]));
    forall it ensures it in TodoOf(t) <==> it in TodoOf(s) {
      if it in TodoOf(s) { assert t.slots[it.src].cbs == s.slots[it.src].cbs; }
      if it in TodoOf(t) { assert t.slots[it.src].cbs == s.slots[it.src].cbs; }
    }
  }

  /** What a call does to the state, next to what firing the callback does in the machine. */
  ghost predicate CallIs(g: Graph, s: Slots, st: Status, cb: Callback, t: Slots)
    requires GraphOk(g) && Shape(g, HeapOf(s)) && CbOk(g, cb) && !st.Pending?
  {
    var (h1, due) := Fire(g, HeapOf(s), st, cb);
    && HeapOf(t) == h1 && TodoOf(t) == TodoOf(s) + Elems(due) && Marks(t) <= Marks(s) + {cb.k}
    && |t.slots| == |s.slots| && forall j | 0 <= j < |s.slots| :: t.slots[j].cbs == s.slots[j].cbs
  }

  lemma CallHeap(g: Graph, s: Slots, st: Status, cb: Callback)
    requires GraphOk(g) && PlainGraph(g) && SlotsOk(g, s) && PlainCb(g, cb) && !st.Pending?
    ensures Shape(g, HeapOf(s)) && CallIs(g, s, st, cb, Call(g, s, st, cb))
  {
    HeapShape(g, s);
    var t := Logged(s, cb);
    assert SlotsOk(g, t) by {
      forall k | 0 <= k < |g| ensures SlotOk(g, k, t.slots[k]) { assert SlotOk(g, k, s.slots[k]); }
    }
    assert HeapOf(t) == Log(HeapOf(s), cb) && TodoOf(t) == TodoOf(s) && Marks(t) == Marks(s);
    match cb {
      case OnThen(k) => MarkHeap(g, t, k, Outcome(st, Reaction(g[k], st).v));
      case OnAll(k, i) =>
        if st.Rejected? {
          MarkHeap(g, t, k, st);
        } else {
          StoredHeap(g, t, k, i, st.value);
          var u := Stored(g, t, k, i, st.value);
          assert u.slots[k].left == HeapOf(u).cells[k].left && u.slots[k].results == HeapOf(u).cells[k].results;
          if u.slots[k].left == 0 { MarkHeap(g, u, k, Fulfilled(Vec(u.slots[k].results))); }
        }
    }
  }

  // ---- visits keep the rules of the promise machine ----

  ghost predicate CbsDistinct(s: Slots) {
    forall k | 0 <= k < |s.slots| :: Distinct(s.slots[k].cbs)
  }

  /** The rules hold, with the callbacks of marked promises, and `extra`, still due. */
  ghost predicate Good(g: Graph, wired: set<nat>, s: Slots, extra: set<Item>) {
    GraphOk(g) && PlainGraph(g) && SlotsOk(g, s) && CbsDistinct(s) && Inv(g, wired, HeapOf(s), TodoOf(s) + extra)
  }

  /** Settled promises and roots of `h` are unchanged in `h1`. */
  ghost predicate Keeps(g: Graph, h: Heap, h1: Heap) {
    |g| == |h.cells| == |h1.cells| && forall k | 0 <= k < |g| && (g[k].Root? || Settled(h, k)) ::
      h1.cells[k].status == h.cells[k].status
  }

  lemma KeepsTrans(g: Graph, h: Heap, h1: Heap, h2: Heap)
    requires Keeps(g, h, h1) && Keeps(g, h1, h2)
    ensures Keeps(g, h, h2)
  {}

  lemma FireSettled(g: Graph, h: Heap, it: Item)
    requires GraphOk(g) && Shape(g, h) && ItemOk(g, it) && Settled(h, it.src)
    ensures Keeps(g, h, Fire(g, h, h.cells[it.src].status, it.cb).0)
  {
    forall k | 0 <= k < |g| && (g[k].Root? || Settled(h, k))
      ensures Exec(g, h, it).0.cells[k].status == h.cells[k].status
    {
      ExecStable(g, h, it, k);
    }
  }

  lemma FrontItem(k: nat, cbs: seq<Callback>, t: set<Item>)
    requires cbs != [] && Distinct(cbs) && forall it | it in t :: it.src != k
    ensures Item(k, cbs[0]) in Elems(Items(k, cbs))
    ensures t + Elems(Items(k, cbs)) - {Item(k, cbs[0])} == t + Elems(Items(k, cbs[1..]))
  {
    assert cbs == [cbs[0]] + cbs[1..];
    assert cbs[0] !in cbs[1..];
  }

  /** Running the first of the due callbacks of one settled promise, in the machine. */
  lemma FireNext(g: Graph, wired: set<nat>, h: Heap, k: nat, cbs: seq<Callback>, t: set<Item>)
    requires cbs != [] && Distinct(cbs) && Settled(h, k) && forall it | it in t :: it.src != k
    requires Inv(g, wired, h, t + Elems(Items(k, cbs)))
    ensures CbOk(g, cbs[0]) && Shape(g, h) && GraphOk(g)
    ensures var (h1, due) := Fire(g, h, h.cells[k].status, cbs[0]);
      Inv(g, wired, h1, t + Elems(due) + Elems(Items(k, cbs[1..]))) && Keeps(g, h, h1)
  {
    var it := Item(k, cbs[0]);
    FrontItem(k, cbs, t);
    ExecKeeps(g, wired, h, t + Elems(Items(k, cbs)), it);
    var due := Exec(g, h, it).1;
    assert t + Elems(Items(k, cbs[1..])) + Elems(due) == t + Elems(due) + Elems(Items(k, cbs[1..]));
    FireSettled(g, h, it);
  }

  lemma CallNext(g: Graph, wired: set<nat>, s: Slots, k: nat, cbs: seq<Callback>)
    requires Good(g, wired, s, Elems(Items(k, cbs))) && k < |g| && s.slots[k].state.Done?
    requires cbs != [] && Distinct(cbs) && PlainCb(g, cbs[0])
    ensures !s.slots[k].state.outcome.Pending?
    ensures var t := Call(g, s, s.slots[k].state.outcome, cbs[0]);
      && Good(g, wired, t, Elems(Items(k, cbs[1..]))) && t.slots[k].state == s.slots[k].state
      && Keeps(g, HeapOf(s), HeapOf(t)) && Marks(t) <= Marks(s) + {cbs[0].k}
  {
    assert SlotOk(g, k, s.slots[k]);
    var st := s.slots[k].state.outcome;
    var t := Call(g, s, st, cbs[0]);
    assert HeapOf(s).cells[k].status == st;
    FireNext(g, wired, HeapOf(s), k, cbs, TodoOf(s));
    CallHeap(g, s, st, cbs[0]);
    assert CbsDistinct(t);
    assert k !in Undone(t);
  }

  /** After a whole list of callbacks. */
  ghost predicate Called(g: Graph, wired: set<nat>, s: Slots, t: Slots, cbs: seq<Callback>) {
    && Good(g, wired, t, {}) && Keeps(g, HeapOf(s), HeapOf(t))
    && forall q | q in Marks(t) :: q in Marks(s) || q in Deps(cbs)
  }

  lemma {:induction false} CallAllKeeps(g: Graph, wired: set<nat>, s: Slots, k: nat, cbs: seq<Callback>)
    requires Good(g, wired, s, Elems(Items(k, cbs))) && k < |g| && s.slots[k].state.Done?
    requires Distinct(cbs) && forall cb | cb in cbs :: PlainCb(g, cb)
    ensures !s.slots[k].state.outcome.Pending? && Called(g, wired, s, CallAll(g, s, s.slots[k].state.outcome, cbs), cbs)
    decreases |cbs|
  {
    assert SlotOk(g, k, s.slots[k]);
    if cbs == [] {
      assert Elems(Items(k, cbs)) == {};
    } else {
      var t := Call(g, s, s.slots[k].state.outcome, cbs[0]);
      CallNext(g, wired, s, k, cbs);
      CallAllKeeps(g, wired, t, k, cbs[1..]);
      CalledOn(g, wired, s, t, CallAll(g, t, s.slots[k].state.outcome, cbs[1..]), cbs);
    }
  }

  lemma CalledOn(g: Graph, wired: set<nat>, s: Slots, t: Slots, u: Slots, cbs: seq<Callback>)
    requires cbs != [] && Keeps(g, HeapOf(s), HeapOf(t)) && Marks(t) <= Marks(s) + {cbs[0].k}
    requires Called(g, wired, t, u, cbs[1..])
    ensures Called(g, wired, s, u, cbs)
  {
    KeepsTrans(g, HeapOf(s), HeapOf(t), HeapOf(u));
    assert Deps(cbs) == [cbs[0].k] + Deps(cbs[1..]);
  }

  lemma CloseKeeps(g: Graph, wired: set<nat>, s: Slots, k: nat)
    requires Good(g, wired, s, {}) && k < |g| && s.slots[k].state.Pre?
    ensures SlotsOk(g, Close(s, k)) && Good(g, wired, Close(s, k), Elems(Items(k, s.slots[k].cbs)))
    ensures HeapOf(Close(s, k)) == HeapOf(s) && Marks(Close(s, k)) == Marks(s) - {k}
  {
    var t, cbs := Close(s, k), s.slots[k].cbs;
    CloseOk(g, s, k);
    PutHeap(s, k, t.slots[k]);
    assert HeapOf(t).cells == HeapOf(s).cells;
    forall it ensures it in TodoOf(t) + Elems(Items(k, cbs)) <==> it in TodoOf(s) + {} {
      if it in TodoOf(s) && it.src != k { assert t.slots[it.src] == s.slots[it.src]; }
      if it in TodoOf(t) { assert t.slots[it.src] == s.slots[it.src]; }
    }
    assert TodoOf(t) + Elems(Items(k, cbs)) == TodoOf(s) + {};
  }

  lemma Settled1Keeps(g: Graph, wired: set<nat>, s: Slots, k: nat)
    requires Good(g, wired, s, {}) && k < |g| && s.slots[k].state.Pre?
    ensures var t := Settled1(g, s, k);
      && Good(g, wired, t, {}) && Keeps(g, HeapOf(s), HeapOf(t))
      && forall q | q in Marks(t) :: q in Marks(s) - {k} || q in Deps(s.slots[k].cbs)
  {
    CloseKeeps(g, wired, s, k);
    CloseOk(g, s, k);
    CallAllKeeps(g, wired, Close(s, k), k, s.slots[k].cbs);
  }

  /** A visit leaves no new marks, and takes that of `k` away. */
  ghost predicate Visited(g: Graph, wired: set<nat>, s: Slots, t: Slots, ks: set<nat>) {
    Good(g, wired, t, {}) && Keeps(g, HeapOf(s), HeapOf(t)) && Marks(t) <= Marks(s) - ks
  }

  lemma {:induction false} VisitKeeps(g: Graph, wired: set<nat>, s: Slots, k: nat)
    requires Good(g, wired, s, {}) && k < |g|
    ensures Visited(g, wired, s, Visit(g, s, k), {k})
    decreases Undone(s), 1, 0
  {
    if s.slots[k].state.Pre? {
      var t, ds := Settled1(g, s, k), Deps(s.slots[k].cbs);
      Settled1Keeps(g, wired, s, k);
      VisitAllKeeps(g, wired, t, ds);
      KeepsTrans(g, HeapOf(s), HeapOf(t), HeapOf(VisitAll(g, t, ds)));
    }
  }

  lemma {:induction false} VisitAllKeeps(g: Graph, wired: set<nat>, s: Slots, ks: seq<nat>)
    requires Good(g, wired, s, {}) && forall i | 0 <= i < |ks| :: ks[i] < |g|
    ensures Visited(g, wired, s, VisitAll(g, s, ks), Elems(ks))
    decreases Undone(s), 2, |ks|
  {
    if ks != [] {
      var t := Visit(g, s, ks[0]);
      VisitKeeps(g, wired, s, ks[0]);
      VisitAllKeeps(g, wired, t, ks[1..]);
      VisitedOn(g, wired, s, t, VisitAll(g, t, ks[1..]), ks);
    }
  }

  lemma VisitedOn(g: Graph, wired: set<nat>, s: Slots, t: Slots, u: Slots, ks: seq<nat>)
    requires ks != [] && Visited(g, wired, s, t, {ks[0]}) && Visited(g, wired, t, u, Elems(ks[1..]))
    ensures Visited(g, wired, s, u, Elems(ks))
  {
    KeepsTrans(g, HeapOf(s), HeapOf(t), HeapOf(u));
    assert ks == [ks[0]] + ks[1..];
  }

  // ---- a promise that was left in a `pre` state stays there ----

  /** Promise `m` was marked by `then` on a settled promise: nothing will trigger it. */
  ghost predicate Stale(g: Graph, wired: set<nat>, s: Slots, m: nat) {
    m in wired && m < |g| && m < |s.slots| && g[m].Then? && s.slots[m].state.Pre?
  }

  lemma NotDependent(g: Graph, wired: set<nat>, s: Slots, k: nat, m: nat)
    requires Good(g, wired, s, {}) && k < |g| && s.slots[k].state.Pre? && Stale(g, wired, s, m)
    ensures forall cb | cb in s.slots[k].cbs :: cb.k != m
  {
    var h := HeapOf(s);
    assert SlotOk(g, k, s.slots[k]) && SlotOk(g, m, s.slots[m]);
    assert NodeOk(g, h, TodoOf(s) + {}, m) && Settled(h, m);
    forall cb | cb in s.slots[k].cbs ensures cb.k != m {
      assert PlainCb(g, cb) && Item(k, cb) in TodoOf(s) + {};
      assert Home(g, wired, h, k, cb);
    }
  }

  lemma {:induction false} CallAllSkips(g: Graph, s: Slots, st: Status, cbs: seq<Callback>, m: nat)
    requires PlainGraph(g) && SlotsOk(g, s) && !st.Pending? && forall cb | cb in cbs :: PlainCb(g, cb) && cb.k != m
    requires m < |g|
    ensures CallAll(g, s, st, cbs).slots[m] == s.slots[m]
    decreases |cbs|
  {
    if cbs != [] {
      assert cbs[0] in cbs;
      CallAllSkips(g, Call(g, s, st, cbs[0]), st, cbs[1..], m);
    }
  }

  lemma {:induction false} VisitSkips(g: Graph, wired: set<nat>, s: Slots, k: nat, m: nat)
    requires Good(g, wired, s, {}) && k < |g| && Stale(g, wired, s, m) && m != k
    ensures Visit(g, s, k).slots[m] == s.slots[m]
    decreases Undone(s), 1, 0
  {
    if s.slots[k].state.Pre? {
      var cbs := s.slots[k].cbs;
      NotDependent(g, wired, s, k, m);
      CloseOk(g, s, k);
      CallAllSkips(g, Close(s, k), s.slots[k].state.outcome, cbs, m);
      Settled1Keeps(g, wired, s, k);
      assert forall q | q in Deps(cbs) :: q != m by { assert forall i | 0 <= i < |cbs| :: cbs[i] in cbs; }
      VisitAllSkips(g, wired, Settled1(g, s, k), Deps(cbs), m);
    }
  }

  lemma {:induction false} VisitAllSkips(g: Graph, wired: set<nat>, s: Slots, ks: seq<nat>, m: nat)
    requires Good(g, wired, s, {}) && (forall i | 0 <= i < |ks| :: ks[i] < |g|)
    requires Stale(g, wired, s, m) && m !in ks
    ensures VisitAll(g, s, ks).slots[m] == s.slots[m]
    decreases Undone(s), 2, |ks|
  {
    if ks != [] {
      VisitKeeps(g, wired, s, ks[0]);
      VisitSkips(g, wired, s, ks[0], m);
      VisitAllSkips(g, wired, Visit(g, s, ks[0]), ks[1..], m);
    }
  }

  // ---- runs ----

  function Abstract(w: StackWorld): World {
    World(w.wired, w.roots, HeapOf(w.heap))
  }

  /** Between calls only derived promises are in a `pre` state, and nothing is attached to those. */
  ghost predicate Quiet(g: Graph, w: StackWorld)
    requires |w.heap.slots| == |g|
  {
    forall m | m in Marks(w.heap) :: m in w.wired && g[m].Then? && w.heap.slots[m].cbs == []
  }

  ghost predicate StackOk(g: Graph, w: StackWorld) {
    GraphOk(g) && PlainGraph(g) && SlotsOk(g, w.heap) && Quiet(g, w) && WorldOk(g, Abstract(w))
  }

  lemma OkGood(g: Graph, w: StackWorld)
    requires StackOk(g, w)
    ensures Good(g, w.wired, w.heap, {}) && TodoOf(w.heap) == {}
  {
    forall k | 0 <= k < |g|
      ensures Distinct(w.heap.slots[k].cbs) && (w.heap.slots[k].state.Pre? ==> w.heap.slots[k].cbs == [])
    {
      assert SlotOk(g, k, w.heap.slots[k]) && CellOk(g, w.wired, HeapOf(w.heap), {}, k);
      assert k in Marks(w.heap) <==> w.heap.slots[k].state.Pre?;
    }
    assert TodoOf(w.heap) + {} == {};
  }

  lemma StackInitOk(g: Graph)
    requires GraphOk(g) && PlainGraph(g)
    ensures StackOk(g, StackInit(g)) && Abstract(StackInit(g)) == Init(g) && Marks(StackInit(g).heap) == {}
  {
    InitOk(g);
    forall k | 0 <= k < |g| ensures SlotOk(g, k, StackInit(g).heap.slots[k]) {}
    assert HeapOf(StackInit(g).heap).cells == Init(g).heap.cells;
  }

  lemma QueueOne(g: Graph, s: Slots, it: Item)
    requires GraphOk(g) && SlotsOk(g, s) && it.src < |g| && PlainCb(g, it.cb) && s.slots[it.src].state.Waiting?
    ensures Shape(g, HeapOf(s)) && Exec(g, HeapOf(s), it) == (HeapOf(Queue(s, it)), [])
    ensures Marks(Queue(s, it)) == Marks(s)
  {
    HeapShape(g, s);
    PutHeap(s, it.src, Queue(s, it).slots[it.src]);
  }

  /** A visit to a promise with nothing attached only closes it. */
  lemma VisitBare(g: Graph, s: Slots, k: nat)
    requires PlainGraph(g) && SlotsOk(g, s) && k < |g| && s.slots[k].cbs == []
    ensures Visit(g, s, k) == if s.slots[k].state.Pre? then Close(s, k) else s
    ensures HeapOf(Visit(g, s, k)) == HeapOf(s) && Marks(Visit(g, s, k)) == Marks(s) - {k}
    ensures forall j | 0 <= j < |g| && j != k :: Visit(g, s, k).slots[j] == s.slots[j]
    ensures Visit(g, s, k).slots[k].cbs == []
  {
    if s.slots[k].state.Pre? {
      CloseOk(g, s, k);
      PutHeap(s, k, Close(s, k).slots[k]);
      assert HeapOf(Close(s, k)).cells == HeapOf(s).cells;
    }
  }

  /** What one subscription of promise `k` does, next to the machine. */
  ghost predicate Attached(g: Graph, s: Slots, t: Slots, k: nat, it: Item)
    requires GraphOk(g) && SlotsOk(g, s) && SlotsOk(g, t) && FeedOk(g, k, it)
  {
    && Shape(g, HeapOf(s)) && Exec(g, HeapOf(s), it) == (HeapOf(t), [])
    && (forall j | 0 <= j < |g| && j != k :: t.slots[j].state == s.slots[j].state) && t.slots[k].cbs == s.slots[k].cbs
    && (forall m | m in Marks(s) && m != k :: t.slots[m].cbs == s.slots[m].cbs)
    && Marks(t) == if !s.slots[it.src].state.Waiting? && it.cb.OnThen? && s.slots[k].state.Waiting?
                   then Marks(s) + {k}
                   else if s.slots[it.src].state.Waiting? || it.cb.OnThen? then Marks(s)
                   else Marks(s) - {k}
  }

  lemma AttachOne(g: Graph, s: Slots, k: nat, it: Item)
    requires GraphOk(g) && PlainGraph(g) && SlotsOk(g, s) && FeedOk(g, k, it) && !s.slots[it.src].state.Pre?
    requires s.slots[k].cbs == [] || s.slots[it.src].state.Waiting?
    ensures Attached(g, s, Attach1(g, s, it), k, it)
  {
    assert SlotOk(g, it.src, s.slots[it.src]);
    if s.slots[it.src].state.Waiting? {
      QueueOne(g, s, it);
      QueueOk(g, s, it);
    } else {
      var o := s.slots[it.src].state.outcome;
      var t := Call(g, s, o, it.cb);
      CallHeap(g, s, o, it.cb);
      CallLocal(g, s, o, it.cb);
      assert HeapOf(s).cells[k].cbs == [];
      if it.cb.OnAll? { VisitBare(g, t, k); } else { ThenMarks(g, s, o, k); }
    }
  }

  /** A call touches its target only. */
  lemma CallLocal(g: Graph, s: Slots, st: Status, cb: Callback)
    requires PlainGraph(g) && SlotsOk(g, s) && PlainCb(g, cb) && !st.Pending?
    ensures forall j | 0 <= j < |g| && j != cb.k :: Call(g, s, st, cb).slots[j] == s.slots[j]
  {}

  lemma ThenMarks(g: Graph, s: Slots, st: Status, k: nat)
    requires PlainGraph(g) && SlotsOk(g, s) && PlainCb(g, OnThen(k)) && !st.Pending?
    ensures Marks(Call(g, s, st, OnThen(k))) == if s.slots[k].state.Waiting? then Marks(s) + {k} else Marks(s)
  {}

  /** Making promise `k` is what the machine does. */
  ghost predicate Made(g: Graph, s: Slots, t: Slots, k: nat, items: seq<Item>)
    requires GraphOk(g) && SlotsOk(g, s) && SlotsOk(g, t) && Feeds(g, k, items) && k < |g|
  {
    && Shape(g, HeapOf(s)) && Run(g, HeapOf(s), items) == HeapOf(t)
    && (forall j | 0 <= j < |g| && j != k :: t.slots[j].state == s.slots[j].state) && t.slots[k].cbs == s.slots[k].cbs
    && (forall m | m in Marks(s) && m != k :: t.slots[m].cbs == s.slots[m].cbs)
  }

  lemma FeedsRest(g: Graph, k: nat, items: seq<Item>)
    requires items != [] && Feeds(g, k, items)
    ensures FeedOk(g, k, items[0]) && Feeds(g, k, items[1..])
  {
    forall i | 0 <= i < |items[1..]| ensures FeedOk(g, k, items[1..][i]) { assert FeedOk(g, k, items[i + 1]); }
  }

  lemma ReadyRest(g: Graph, s: Slots, t: Slots, k: nat, items: seq<Item>)
    requires items != [] && Feeds(g, k, items) && SourcesReady(s, k, items) && |s.slots| == |t.slots| == |g|
    requires t.slots[k].cbs == s.slots[k].cbs
    requires forall j | 0 <= j < |g| && j != k :: t.slots[j].state == s.slots[j].state
    ensures SourcesReady(t, k, items[1..])
  {
    forall i | 0 <= i < |items[1..]|
      ensures items[1..][i].src < |g| && t.slots[items[1..][i].src].state == s.slots[items[1..][i].src].state
    {
      assert FeedOk(g, k, items[i + 1]);
    }
    if AllWait(s, items) { assert AllWait(t, items[1..]); }
  }

  lemma MadeFirst(g: Graph, s: Slots, t: Slots, u: Slots, k: nat, items: seq<Item>)
    requires GraphOk(g) && SlotsOk(g, s) && SlotsOk(g, t) && SlotsOk(g, u) && k < |g| && items != []
    requires Feeds(g, k, items) && FeedOk(g, k, items[0]) && Feeds(g, k, items[1..])
    requires Attached(g, s, t, k, items[0]) && Made(g, t, u, k, items[1..])
    ensures Made(g, s, u, k, items)
  {
    assert forall x | x in items :: ItemOk(g, x) by {
      forall i | 0 <= i < |items| ensures ItemOk(g, items[i]) { assert FeedOk(g, k, items[i]); }
    }
    assert [] + items[1..] == items[1..];
  }

  lemma {:induction false} AttachRuns(g: Graph, s: Slots, k: nat, items: seq<Item>)
    requires GraphOk(g) && PlainGraph(g) && SlotsOk(g, s) && Feeds(g, k, items) && SourcesReady(s, k, items) && k < |g|
    ensures Made(g, s, AttachAll(g, s, items), k, items)
    ensures (forall i | 0 <= i < |items| :: items[i].cb.OnAll?) && k !in Marks(s) ==>
      Marks(AttachAll(g, s, items)) == Marks(s)
    decreases |items|
  {
    if items == [] {
      HeapShape(g, s);
    } else {
      var t := Attach1(g, s, items[0]);
      FeedsRest(g, k, items);
      AttachOne(g, s, k, items[0]);
      ReadyRest(g, s, t, k, items);
      AttachRuns(g, t, k, items[1..]);
      MadeFirst(g, s, t, AttachAll(g, t, items[1..]), k, items);
    }
  }

  /** A call of `then`, `fail` or `all` leaves its promise in a `pre` state exactly when it is `then` or `fail`
      on a settled promise. */
  function StaleAfter(g: Graph, w: StackWorld, op: Op): set<nat>
    requires GraphOk(g) && |w.heap.slots| == |g| && OpOk(g, op)
  {
    if op.Wire? && op.k !in w.wired && g[op.k].Then? && Late(g, w.heap, op.k) then {op.k} else {}
  }

  predicate Late(g: Graph, s: Slots, k: nat)
    requires GraphOk(g) && |s.slots| == |g| && k < |g| && g[k].Then?
  {
    assert DefOk(g[k], k);
    s.slots[g[k].src].state.Done?
  }

  lemma MakeThen(g: Graph, s: Slots, k: nat)
    requires GraphOk(g) && PlainGraph(g) && SlotsOk(g, s) && k < |g| && g[k].Then? && k !in Marks(s)
    requires SourcesReady(s, k, Subscriptions(g, k)) && s.slots[k].state.Waiting?
    ensures Feeds(g, k, Subscriptions(g, k))
    ensures Marks(AttachAll(g, s, Subscriptions(g, k))) == Marks(s) + if Late(g, s, k) then {k} else {}
  {
    var items := Subscriptions(g, k);
    SubscriptionsFeed(g, k);
    assert items == [Item(g[k].src, OnThen(k))] && items[1..] == [] && FeedOk(g, k, items[0]);
    AttachOne(g, s, k, items[0]);
    assert AttachAll(g, s, items) == Attach1(g, s, items[0]);
  }

  lemma WireStep(g: Graph, w: StackWorld, k: nat)
    requires StackOk(g, w) && Attachable(g, w, Wire(k)) && k !in w.wired
    ensures Abstract(StackStep(g, w, Wire(k))) == Step(g, Abstract(w), Wire(k))
    ensures Marks(StackStep(g, w, Wire(k)).heap) == Marks(w.heap) + StaleAfter(g, w, Wire(k))
    ensures Quiet(g, StackStep(g, w, Wire(k)))
  {
    SubscriptionsFeed(g, k);
    AttachRuns(g, w.heap, k, Subscriptions(g, k));
    assert Unwired(g, HeapOf(w.heap), k) && SlotOk(g, k, w.heap.slots[k]);
    if g[k].Then? { MakeThen(g, w.heap, k); }
  }

  lemma MarkGood(g: Graph, w: StackWorld, k: nat, o: Status)
    requires StackOk(g, w) && OpOk(g, SettleRoot(k, o)) && k !in w.roots
    ensures Good(g, w.wired, Mark(g, w.heap, k, o), {})
    ensures Marks(Mark(g, w.heap, k, o)) <= Marks(w.heap) + {k}
    ensures HeapOf(Mark(g, w.heap, k, o)) == SettleCell(g, HeapOf(w.heap), k, o).0
  {
    var t := Mark(g, w.heap, k, o);
    OkGood(g, w);
    RootKeeps(g, Abstract(w), k, o);
    MarkHeap(g, w.heap, k, o);
    assert TodoOf(t) + {} == Elems(SettleCell(g, HeapOf(w.heap), k, o).1);
    assert CbsDistinct(t);
  }

  /** The settlement leaves the marks there were. */
  lemma MarksStay(g: Graph, w: StackWorld, k: nat, o: Status)
    requires StackOk(g, w) && OpOk(g, SettleRoot(k, o)) && k !in w.roots
    requires var t := Mark(g, w.heap, k, o); Good(g, w.wired, t, {}) && Marks(t) <= Marks(w.heap) + {k}
    ensures var r := Visit(g, Mark(g, w.heap, k, o), k);
      Marks(r) == Marks(w.heap) && forall m | m in Marks(w.heap) :: r.slots[m] == w.heap.slots[m]
  {
    var t := Mark(g, w.heap, k, o);
    VisitKeeps(g, w.wired, t, k);
    forall m | m in Marks(w.heap) ensures Visit(g, t, k).slots[m] == w.heap.slots[m] {
      assert Stale(g, w.wired, t, m);
      VisitSkips(g, w.wired, t, k, m);
    }
  }

  lemma SettleStep(g: Graph, w: StackWorld, k: nat, o: Status)
    requires StackOk(g, w) && OpOk(g, SettleRoot(k, o)) && k !in w.roots
    ensures StackOk(g, StackStep(g, w, SettleRoot(k, o)))
    ensures Marks(StackStep(g, w, SettleRoot(k, o)).heap) == Marks(w.heap)
  {
    var t := Mark(g, w.heap, k, o);
    MarkGood(g, w, k, o);
    RootKeeps(g, Abstract(w), k, o);
    MarksStay(g, w, k, o);
    VisitKeeps(g, w.wired, t, k);
    assert TodoOf(Visit(g, t, k)) + {} == {};
  }

  lemma StackStepKeeps(g: Graph, w: StackWorld, op: Op)
    requires StackOk(g, w) && Attachable(g, w, op)
    ensures StackOk(g, StackStep(g, w, op))
    ensures Marks(StackStep(g, w, op).heap) == Marks(w.heap) + StaleAfter(g, w, op)
  {
    match op {
      case SettleRoot(k, o) => if k !in w.roots { SettleStep(g, w, k, o); }
      case Wire(k) =>
        if k !in w.wired {
          WireStep(g, w, k);
          StepKeeps(g, Abstract(w), op);
        }
    }
  }

  /** In every run in which nothing is attached to a promise in a `pre` state the rules of the promise machine hold
      after every call. */
  lemma {:induction false} StackPlayKeeps(g: Graph, w: StackWorld, v: World, ops: seq<Op>)
    requires StackOk(g, w) && AllAttachable(g, w, ops) && Shape(g, v.heap) && SameInputs(Abstract(w), v)
    ensures OpsOk(g, ops) && StackOk(g, StackPlay(g, w, ops))
    ensures SameInputs(Abstract(StackPlay(g, w, ops)), Play(g, v, ops))
    decreases |ops|
  {
    if ops != [] {
      StackStepKeeps(g, w, ops[0]);
      StackPlayKeeps(g, StackStep(g, w, ops[0]), Step(g, v, ops[0]), ops[1..]);
      assert forall op | op in ops :: op == ops[0] || op in ops[1..];
    }
  }

  /** The promises made by `then` or `fail` on a settled one. */
  ghost function MadeLate(g: Graph, w: StackWorld, ops: seq<Op>): set<nat>
    requires GraphOk(g) && PlainGraph(g) && SlotsOk(g, w.heap) && AllAttachable(g, w, ops)
    decreases |ops|
  {
    if ops == [] then {} else StaleAfter(g, w, ops[0]) + MadeLate(g, StackStep(g, w, ops[0]), ops[1..])
  }

  /** Exactly those are left in a `pre` state. */
  lemma {:induction false} LeftInPre(g: Graph, w: StackWorld, ops: seq<Op>)
    requires StackOk(g, w) && AllAttachable(g, w, ops)
    ensures Marks(StackPlay(g, w, ops).heap) == Marks(w.heap) + MadeLate(g, w, ops)
    decreases |ops|
  {
    if ops != [] {
      StackStepKeeps(g, w, ops[0]);
      LeftInPre(g, StackStep(g, w, ops[0]), ops[1..]);
    }
  }

  /** So no promise is left in a `pre` state if and only if no `then` or `fail` is made on a settled promise. */
  lemma NoneInPreIff(g: Graph, ops: seq<Op>)
    requires GraphOk(g) && PlainGraph(g) && AllAttachable(g, StackInit(g), ops)
    ensures Marks(StackPlay(g, StackInit(g), ops).heap) == MadeLate(g, StackInit(g), ops)
    ensures Marks(StackPlay(g, StackInit(g), ops).heap) == {} <==> MadeLate(g, StackInit(g), ops) == {}
  {
    StackInitOk(g);
    LeftInPre(g, StackInit(g), ops);
  }
}

/** The two builds of the promise engine side by side: where they agree and where they do not. */
module PromiseBuilds {
  import opened PromiseMachine
  import opened PromiseInvariant
  import opened PromiseOrder
  import opened PromiseConfluence
  import opened PromiseStack
  import opened PromiseLevels
  import opened PromiseReasons

  lemma PlainSteady(g: Graph)
    requires PlainGraph(g)
    ensures Steady(g)
  {
    forall k | 0 <= k < |g| ensures SteadyAt(g, k) {}
  }

  lemma NeverAdopts(g: Graph, w: World, k: nat)
    requires PlainGraph(g) && WorldOk(g, w)
    ensures Adopt(k) !in w.heap.ran
  {
    if k in w.wired { assert NodeOk(g, w.heap, {}, k); }
  }

  /** Worlds that were given the same inputs have run the same callbacks, each as often. */
  lemma SameRuns(g: Graph, v: World, w: World, cb: Callback)
    requires PlainGraph(g) && WorldOk(g, v) && WorldOk(g, w) && v.wired == w.wired
    requires forall k: nat {:trigger Agrees(g, v, w, k)} | k < |g| :: Agrees(g, v, w, k)
    ensures multiset(v.heap.ran)[cb] == multiset(w.heap.ran)[cb]
  {
    if cb.Adopt? {
      NeverAdopts(g, v, cb.k);
      NeverAdopts(g, w, cb.k);
    } else if CbOk(g, cb) && cb.k in v.wired {
      assert DefOk(g[cb.k], cb.k);
      var s := if cb.OnThen? then g[cb.k].src else g[cb.k].srcs[cb.i];
      RunExactlyOnce(g, v, s, cb);
      RunExactlyOnce(g, w, s, cb);
      assert Agrees(g, v, w, s);
    } else {
      assert cb !in v.heap.ran && cb !in w.heap.ran;
    }
  }

  /** Equal where `all`s are level, and alike in any case. */
  ghost predicate BuildsAgree(g: Graph, v: World, w: StackWorld, k: nat) {
    && k < |v.heap.cells| && k < |w.heap.slots| && Similar(StatusAt(v, k), StatusOf(w.heap.slots[k]))
    && (Level(g, k) ==> StatusAt(v, k) == StatusOf(w.heap.slots[k]))
  }

  /** Both builds end with every promise settled alike, the rejection reason included where no `all` upstream lists a
      promise and another that comes from it; and the same callbacks have run, each as often. */
  ghost predicate SameEnd(g: Graph, v: World, w: StackWorld) {
    && multiset(v.heap.ran) == multiset(w.heap.ran)
    && forall k: nat {:trigger BuildsAgree(g, v, w, k)} | k < |g| :: BuildsAgree(g, v, w, k)
  }

  lemma EndsAlike(g: Graph, v: World, w: StackWorld)
    requires Together(g, v, w)
    ensures multiset(v.heap.ran) == multiset(w.heap.ran)
    ensures forall k: nat {:trigger Agrees(g, v, Abstract(w), k)} | k < |g| :: Agrees(g, v, Abstract(w), k)
  {
    PlainSteady(g);
    forall k: nat | k < |g| ensures Agrees(g, v, Abstract(w), k) { Determined(g, v, Abstract(w), k); }
    forall cb: Callback ensures multiset(v.heap.ran)[cb] == multiset(w.heap.ran)[cb] {
      SameRuns(g, v, Abstract(w), cb);
    }
  }

  /** The explicit stack against recursion, on the same calls in the same order. A promise in a `pre` state counts
      with the outcome it is marked with; those are the ones made by `then` or `fail` on a settled promise. */
  lemma RefinesRecursive(g: Graph, ops: seq<Op>)
    requires GraphOk(g) && PlainGraph(g) && AllAttachable(g, StackInit(g), ops)
    ensures Shape(g, Init(g).heap) && OpsOk(g, ops)
    ensures SameEnd(g, Play(g, Init(g), ops), StackPlay(g, StackInit(g), ops))
    ensures Marks(StackPlay(g, StackInit(g), ops).heap) == MadeLate(g, StackInit(g), ops)
  {
    InitOk(g);
    StackInitOk(g);
    StackPlayKeeps(g, StackInit(g), Init(g), ops);
    PlayKeeps(g, Init(g), ops);
    NoneInPreIff(g, ops);
    var v, w := Play(g, Init(g), ops), StackPlay(g, StackInit(g), ops);
    EndsAlike(g, v, w);
    forall k: nat | k < |g| ensures BuildsAgree(g, v, w, k) {
      assert Agrees(g, v, Abstract(w), k);
      if Level(g, k) { SameReason(g, ops, k); }
    }
  }

  // ---- which promises that covers ----

  /** No root is upstream of both. */
  ghost predicate Unrelated(g: Graph, a: nat, b: nat) {
    forall x: nat | x < |g| && g[x].Root? :: !From(g, x, a) || !From(g, x, b)
  }

  /** Different inputs of every `all` upstream of promise `k` come from different roots. */
  ghost predicate Apart(g: Graph, k: nat)
    decreases k
  {
    k < |g| &&
    match g[k]
    case Root => true
    case Then(s, _, _) => s < k && Apart(g, s)
    case All(ss) =>
      && (forall i | 0 <= i < |ss| :: ss[i] < k && Apart(g, ss[i]))
      && forall i, j | 0 <= i < |ss| && 0 <= j < |ss| && ss[i] != ss[j] :: Unrelated(g, ss[i], ss[j])
  }

  lemma {:induction false} HasRoot(g: Graph, a: nat) returns (x: nat)
    requires GraphOk(g) && a < |g|
    ensures x < |g| && g[x].Root? && From(g, x, a)
    decreases a
  {
    assert DefOk(g[a], a);
    match g[a] {
      case Root => x := a;
      case Then(s, _, _) => x := HasRoot(g, s);
      case All(ss) => x := HasRoot(g, ss[0]);
    }
  }

  /** The inputs of an `all` over independent promises are never in the way. */
  lemma {:induction false} ApartLevel(g: Graph, k: nat)
    requires GraphOk(g) && Apart(g, k)
    ensures Level(g, k)
    decreases k
  {
    match g[k] {
      case Root =>
      case Then(s, _, _) => ApartLevel(g, s);
      case All(ss) =>
        forall i | 0 <= i < |ss| ensures Level(g, ss[i]) { ApartLevel(g, ss[i]); }
        forall i, j | 0 <= i < |ss| && 0 <= j < |ss| && ss[i] != ss[j] ensures !From(g, ss[i], ss[j]) {
          var x := HasRoot(g, ss[i]);
          if From(g, ss[i], ss[j]) { FromTrans(g, x, ss[i], ss[j]); }
        }
    }
  }

  /** So on the same calls both builds give an `all` over independent promises, and what follows from it, one reason. */
  lemma ApartAgree(g: Graph, ops: seq<Op>, k: nat)
    requires GraphOk(g) && PlainGraph(g) && AllAttachable(g, StackInit(g), ops) && Apart(g, k)
    ensures OpsOk(g, ops) && Shape(g, Init(g).heap)
    ensures StatusAt(Play(g, Init(g), ops), k) == StatusOf(StackPlay(g, StackInit(g), ops).heap.slots[k])
  {
    ApartLevel(g, k);
    SameReason(g, ops, k);
  }

  /** Nor is what the order of events cannot touch. */
  lemma {:induction false} CleanLevel(g: Graph, k: nat)
    requires GraphOk(g) && Clean(g, k)
    ensures Level(g, k)
    decreases k
  {
    match g[k] {
      case Root =>
      case Then(s, _, _) => CleanLevel(g, s);
      case All(ss) => CleanLevel(g, ss[0]);
    }
  }

  // ---- where the builds differ ----

  /** Promise `k` is derived from root `x`, and `a` is the `all` of both. */
  ghost predicate Wedge(g: Graph, x: nat, k: nat, a: nat) {
    && GraphOk(g) && PlainGraph(g) && x < k < a < |g| && g[x] == Root && g[k].Then? && g[k].src == x
    && g[a] == All([k, x])
  }

  /** Both are wired up and nothing has run. */
  ghost predicate Wired(g: Graph, x: nat, k: nat, a: nat, h: Heap) {
    && |h.cells| == |g| && x < k < a < |g| && h.cells[x] == Cell(Pending, [OnThen(k), OnAll(a, 1)], 0, [])
    && h.cells[k] == Cell(Pending, [OnAll(a, 0)], 0, []) && h.cells[a] == Cell(Pending, [], 2, [Unit, Unit])
  }

  lemma RunOnce(g: Graph, h: Heap, it: Item, rest: seq<Item>)
    requires GraphOk(g) && Shape(g, h) && ItemOk(g, it) && h.cells[it.src].status.Pending?
    requires forall y | y in rest :: ItemOk(g, y)
    ensures Run(g, h, [it] + rest) == Run(g, Register(g, h, it.src, it.cb), rest)
  {
    assert ([it] + rest)[1..] == rest && [] + rest == rest;
  }

  lemma WireThen(g: Graph, x: nat, k: nat, a: nat, w: World)
    requires Wedge(g, x, k, a) && Shape(g, w.heap) && w.heap.cells[x].status.Pending? && k !in w.wired
    ensures Step(g, w, Wire(k)) == World(w.wired + {k}, w.roots, Register(g, w.heap, x, OnThen(k)))
  {
    assert Subscriptions(g, k) == [Item(x, OnThen(k))] + [];
    RunOnce(g, w.heap, Item(x, OnThen(k)), []);
  }

  lemma WireAll(g: Graph, x: nat, k: nat, a: nat, w: World)
    requires Wedge(g, x, k, a) && Shape(g, w.heap) && w.heap.cells[x].status.Pending? && w.heap.cells[k].status.Pending?
    requires a !in w.wired
    ensures Step(g, w, Wire(a)) ==
      World(w.wired + {a}, w.roots, Register(g, Register(g, w.heap, k, OnAll(a, 0)), x, OnAll(a, 1)))
  {
    assert Subscriptions(g, a) == [Item(k, OnAll(a, 0))] + [Item(x, OnAll(a, 1))];
    RunOnce(g, w.heap, Item(k, OnAll(a, 0)), [Item(x, OnAll(a, 1))]);
    assert [Item(x, OnAll(a, 1))] == [Item(x, OnAll(a, 1))] + [];
    RunOnce(g, Register(g, w.heap, k, OnAll(a, 0)), Item(x, OnAll(a, 1)), []);
  }

  /** What `then` and `all` queue, on cells that are still empty. */
  lemma QueuedCells(g: Graph, x: nat, k: nat, a: nat, h: Heap)
    requires Wedge(g, x, k, a) && Shape(g, h)
    requires h.cells[x] == EmptyCell(g[x]) && h.cells[k] == EmptyCell(g[k]) && h.cells[a] == EmptyCell(g[a])
    ensures var h1 := Register(g, h, x, OnThen(k));
      && h1.cells[x].status.Pending? && h1.cells[k] == h.cells[k]
      && Wired(g, x, k, a, Register(g, Register(g, h1, k, OnAll(a, 0)), x, OnAll(a, 1)))
  {
    assert [OnThen(k)] + [OnAll(a, 1)] == [OnThen(k), OnAll(a, 1)] && h.cells[a].results == [Unit, Unit];
  }

  lemma PlayTwo(g: Graph, w: World, a: Op, b: Op)
    requires GraphOk(g) && Shape(g, w.heap) && OpOk(g, a) && OpOk(g, b)
    ensures OpsOk(g, [a, b]) && Play(g, w, [a, b]) == Step(g, Step(g, w, a), b)
  {
    var w1, ab := Step(g, w, a), [a, b];
    assert ab[1..] == [b] && [b][1..] == [];
    PlayOne(g, w1, b);
    assert Play(g, w, ab) == Play(g, w1, [b]);
  }

  lemma PlayOne(g: Graph, w: World, b: Op)
    requires GraphOk(g) && Shape(g, w.heap) && OpOk(g, b)
    ensures OpsOk(g, [b]) && Play(g, w, [b]) == Step(g, w, b)
  {
    var w1 := Step(g, w, b);
    assert [b][1..] == [] && Play(g, w1, []) == w1;
  }

  lemma WedgeWired(g: Graph, x: nat, k: nat, a: nat, w: World)
    requires Wedge(g, x, k, a) && Shape(g, w.heap) && w.wired == {} && w.roots == map[]
    requires w.heap.cells[x] == EmptyCell(g[x]) && w.heap.cells[k] == EmptyCell(g[k])
    requires w.heap.cells[a] == EmptyCell(g[a])
    ensures OpsOk(g, [Wire(k), Wire(a)])
    ensures var r := Play(g, w, [Wire(k), Wire(a)]); r.roots == map[] && Wired(g, x, k, a, r.heap)
  {
    PlayTwo(g, w, Wire(k), Wire(a));
    QueuedCells(g, x, k, a, w.heap);
    WireThen(g, x, k, a, w);
    WireAll(g, x, k, a, Step(g, w, Wire(k)));
  }

  // recursion: promise `k` settles and runs its callback before the next callback of `x`

  lemma RunFired(g: Graph, h: Heap, it: Item, rest: seq<Item>)
    requires GraphOk(g) && Shape(g, h) && ItemOk(g, it) && !h.cells[it.src].status.Pending?
    requires forall y | y in rest :: ItemOk(g, y)
    ensures var (h1, due) := Fire(g, h, h.cells[it.src].status, it.cb); Run(g, h, [it] + rest) == Run(g, h1, due + rest)
  {
    assert ([it] + rest)[1..] == rest;
  }

  /** The derived promise's subscription runs first and rejects it. */
  lemma DerivedFirst(g: Graph, x: nat, k: nat, a: nat, h: Heap, v: Value) returns (h2: Heap)
    requires Wedge(g, x, k, a) && Shape(g, h) && Wired(g, x, k, a, h)
    ensures Shape(g, h2) && ItemOk(g, Item(k, OnAll(a, 0))) && ItemOk(g, Item(x, OnAll(a, 1)))
    ensures h2.cells[k].status == Rejected(g[k].onR(v).v) && h2.cells[a] == h.cells[a]
    ensures Settle(g, h, x, Rejected(v)) == Run(g, h2, [Item(k, OnAll(a, 0))] + [Item(x, OnAll(a, 1))])
  {
    var (h1, due) := SettleCell(g, h, x, Rejected(v));
    assert due == [Item(x, OnThen(k))] + [Item(x, OnAll(a, 1))];
    RunFired(g, h1, Item(x, OnThen(k)), [Item(x, OnAll(a, 1))]);
    h2 := Fire(g, h1, Rejected(v), OnThen(k)).0;
    assert Fire(g, h1, Rejected(v), OnThen(k)).1 == [Item(k, OnAll(a, 0))];
  }

  lemma RecursiveReason(g: Graph, x: nat, k: nat, a: nat, h: Heap, v: Value)
    requires Wedge(g, x, k, a) && Shape(g, h) && Wired(g, x, k, a, h)
    ensures Settle(g, h, x, Rejected(v)).cells[a].status == Rejected(g[k].onR(v).v)
  {
    var u := g[k].onR(v).v;
    var h2 := DerivedFirst(g, x, k, a, h, v);
    RunFired(g, h2, Item(k, OnAll(a, 0)), [Item(x, OnAll(a, 1))]);
    var (h3, due3) := Fire(g, h2, Rejected(u), OnAll(a, 0));
    assert h3.cells[a].status == Rejected(u);
    RunStable(g, h3, due3 + [Item(x, OnAll(a, 1))], a);
  }

  // explicit stack: every callback of `x` runs before promise `k` is visited

  /** The slots of the three promises once both are wired up. */
  ghost predicate WiredSlots(g: Graph, x: nat, k: nat, a: nat, s: Slots) {
    && |s.slots| == |g| && x < k < a < |g| && s.slots[x] == Slot(Waiting, [OnThen(k), OnAll(a, 1)], 0, [])
    && s.slots[k] == Slot(Waiting, [OnAll(a, 0)], 0, []) && s.slots[a] == Slot(Waiting, [], 2, [Unit, Unit])
  }

  lemma CallTwo(g: Graph, s: Slots, st: Status, a: Callback, b: Callback)
    requires PlainGraph(g) && SlotsOk(g, s) && !st.Pending? && PlainCb(g, a) && PlainCb(g, b)
    ensures CallAll(g, s, st, [a, b]) == Call(g, Call(g, s, st, a), st, b)
  {
    var t := Call(g, s, st, a);
    var u := Call(g, t, st, b);
    assert [b][1..] == [] && [a, b][1..] == [b];
    assert CallAll(g, u, st, []) == u;
    assert CallAll(g, t, st, [b]) == CallAll(g, u, st, []);
  }

  lemma StackWireThen(g: Graph, x: nat, k: nat, a: nat, w: StackWorld)
    requires Wedge(g, x, k, a) && SlotsOk(g, w.heap) && k !in w.wired && w.heap.slots[x].state.Waiting?
    ensures Attachable(g, w, Wire(k))
    ensures StackStep(g, w, Wire(k)) == StackWorld(w.wired + {k}, w.roots, Queue(w.heap, Item(x, OnThen(k))))
  {
    assert Subscriptions(g, k) == [Item(x, OnThen(k))];
    QueueTwo(g, w.heap, Item(x, OnThen(k)), Item(x, OnThen(k)));
  }

  lemma StackWireAll(g: Graph, x: nat, k: nat, a: nat, w: StackWorld)
    requires Wedge(g, x, k, a) && SlotsOk(g, w.heap) && a !in w.wired
    requires w.heap.slots[x].state.Waiting? && w.heap.slots[k].state.Waiting?
    ensures Attachable(g, w, Wire(a))
    ensures StackStep(g, w, Wire(a))
      == StackWorld(w.wired + {a}, w.roots, Queue(Queue(w.heap, Item(k, OnAll(a, 0))), Item(x, OnAll(a, 1))))
  {
    assert Subscriptions(g, a) == [Item(k, OnAll(a, 0)), Item(x, OnAll(a, 1))];
    QueueTwo(g, w.heap, Item(k, OnAll(a, 0)), Item(x, OnAll(a, 1)));
  }

  lemma QueuedSlots(g: Graph, x: nat, k: nat, a: nat, s: Slots)
    requires Wedge(g, x, k, a) && |s.slots| == |g|
    requires s.slots[x] == EmptySlot(g[x]) && s.slots[k] == EmptySlot(g[k]) && s.slots[a] == EmptySlot(g[a])
    ensures var t := Queue(s, Item(x, OnThen(k)));
      && t.slots[x].state.Waiting? && t.slots[k] == s.slots[k] && t.slots[a] == s.slots[a]
      && WiredSlots(g, x, k, a, Queue(Queue(t, Item(k, OnAll(a, 0))), Item(x, OnAll(a, 1))))
  {
    assert [OnThen(k)] + [OnAll(a, 1)] == [OnThen(k), OnAll(a, 1)] && s.slots[a].results == [Unit, Unit];
  }

  lemma SlotsWired(g: Graph, x: nat, k: nat, a: nat, w: StackWorld)
    requires Wedge(g, x, k, a) && SlotsOk(g, w.heap) && w.wired == {} && w.roots == map[]
    requires w.heap.slots[x] == EmptySlot(g[x]) && w.heap.slots[k] == EmptySlot(g[k])
    requires w.heap.slots[a] == EmptySlot(g[a])
    ensures Attachable(g, w, Wire(k)) && Attachable(g, StackStep(g, w, Wire(k)), Wire(a))
    ensures var r := StackStep(g, StackStep(g, w, Wire(k)), Wire(a)); r.roots == map[] && WiredSlots(g, x, k, a, r.heap)
  {
    QueuedSlots(g, x, k, a, w.heap);
    StackWireThen(g, x, k, a, w);
    StackWireAll(g, x, k, a, StackStep(g, w, Wire(k)));
  }

  /** What runs before the first dependant is visited already rejects the `all`. */
  lemma CallbacksFirst(g: Graph, x: nat, k: nat, a: nat, s: Slots, v: Value)
    requires Wedge(g, x, k, a) && WiredSlots(g, x, k, a, s) && SlotsOk(g, s)
    ensures var t := Mark(g, s, x, Rejected(v));
      && t.slots[x] == Slot(Pre(Rejected(v)), [OnThen(k), OnAll(a, 1)], 0, [])
      && StatusOf(Settled1(g, t, x).slots[a]) == Rejected(v)
  {
    var t := Mark(g, s, x, Rejected(v));
    CloseOk(g, t, x);
    var c := Close(t, x);
    CallTwo(g, c, Rejected(v), OnThen(k), OnAll(a, 1));
    assert Call(g, c, Rejected(v), OnThen(k)).slots[a] == s.slots[a];
  }

  /** The visits that follow change nothing that is settled. */
  lemma StackReason(g: Graph, x: nat, k: nat, a: nat, s: Slots, v: Value, wired: set<nat>)
    requires Wedge(g, x, k, a) && WiredSlots(g, x, k, a, s) && SlotsOk(g, s)
    requires Good(g, wired, Mark(g, s, x, Rejected(v)), {})
    ensures StatusOf(Visit(g, Mark(g, s, x, Rejected(v)), x).slots[a]) == Rejected(v)
  {
    var t := Mark(g, s, x, Rejected(v));
    CallbacksFirst(g, x, k, a, s, v);
    var r := Settled1(g, t, x);
    Settled1Keeps(g, wired, t, x);
    VisitAllKeeps(g, wired, r, Deps([OnThen(k), OnAll(a, 1)]));
    assert HeapOf(r).cells[a].status == Rejected(v);
  }

  function WedgeOps(x: nat, k: nat, a: nat, v: Value): seq<Op> {
    [Wire(k), Wire(a)] + [SettleRoot(x, Rejected(v))]
  }

  lemma RecursiveWedge(g: Graph, x: nat, k: nat, a: nat, v: Value, w: World)
    requires Wedge(g, x, k, a) && Shape(g, w.heap) && w.wired == {} && w.roots == map[]
    requires w.heap.cells[x] == EmptyCell(g[x]) && w.heap.cells[k] == EmptyCell(g[k])
    requires w.heap.cells[a] == EmptyCell(g[a])
    ensures OpsOk(g, WedgeOps(x, k, a, v)) && StatusAt(Play(g, w, WedgeOps(x, k, a, v)), a) == Rejected(g[k].onR(v).v)
  {
    WedgeWired(g, x, k, a, w);
    var r, last := Play(g, w, [Wire(k), Wire(a)]), SettleRoot(x, Rejected(v));
    RecursiveReason(g, x, k, a, r.heap, v);
    PlayConcat(g, w, [Wire(k), Wire(a)], [last]);
    PlayOne(g, r, last);
  }

  lemma StackThree(g: Graph, w: StackWorld, a: Op, b: Op, c: Op)
    requires GraphOk(g) && PlainGraph(g) && SlotsOk(g, w.heap) && Attachable(g, w, a)
    requires var w1 := StackStep(g, w, a); Attachable(g, w1, b) && Attachable(g, StackStep(g, w1, b), c)
    ensures AllAttachable(g, w, [a, b, c])
    ensures StackPlay(g, w, [a, b, c]) == StackStep(g, StackStep(g, StackStep(g, w, a), b), c)
  {
    var w1 := StackStep(g, w, a);
    var w2 := StackStep(g, w1, b);
    var w3 := StackStep(g, w2, c);
    assert [a, b, c][1..] == [b, c] && [b, c][1..] == [c] && [c][1..] == [];
    assert AllAttachable(g, w3, []) && StackPlay(g, w3, []) == w3;
    assert AllAttachable(g, w2, [c]) && StackPlay(g, w2, [c]) == w3;
    assert AllAttachable(g, w1, [b, c]) && StackPlay(g, w1, [b, c]) == StackPlay(g, w2, [c]);
  }

  lemma WedgeOk(g: Graph, x: nat, k: nat, a: nat, w: StackWorld)
    requires Wedge(g, x, k, a) && StackOk(g, w) && Attachable(g, w, Wire(k))
    requires Attachable(g, StackStep(g, w, Wire(k)), Wire(a))
    ensures StackOk(g, StackStep(g, w, Wire(k))) && StackOk(g, StackStep(g, StackStep(g, w, Wire(k)), Wire(a)))
  {
    StackStepKeeps(g, w, Wire(k));
    StackStepKeeps(g, StackStep(g, w, Wire(k)), Wire(a));
  }

  lemma WedgePlay(g: Graph, x: nat, k: nat, a: nat, v: Value, w: StackWorld)
    requires Wedge(g, x, k, a) && SlotsOk(g, w.heap) && Attachable(g, w, Wire(k))
    requires Attachable(g, StackStep(g, w, Wire(k)), Wire(a))
    ensures AllAttachable(g, w, WedgeOps(x, k, a, v))
    ensures StackPlay(g, w, WedgeOps(x, k, a, v))
      == StackStep(g, StackStep(g, StackStep(g, w, Wire(k)), Wire(a)), SettleRoot(x, Rejected(v)))
  {
    StackThree(g, w, Wire(k), Wire(a), SettleRoot(x, Rejected(v)));
    assert WedgeOps(x, k, a, v) == [Wire(k), Wire(a), SettleRoot(x, Rejected(v))];
  }

  /** The three calls may be made, and the last one finds both subscriptions in place. */
  lemma WedgeReady(g: Graph, x: nat, k: nat, a: nat, v: Value, w: StackWorld) returns (w2: StackWorld)
    requires Wedge(g, x, k, a) && StackOk(g, w) && w.wired == {} && w.roots == map[]
    requires w.heap.slots[x] == EmptySlot(g[x]) && w.heap.slots[k] == EmptySlot(g[k])
    requires w.heap.slots[a] == EmptySlot(g[a])
    ensures StackOk(g, w2) && w2.roots == map[] && WiredSlots(g, x, k, a, w2.heap)
    ensures AllAttachable(g, w, WedgeOps(x, k, a, v))
    ensures StackPlay(g, w, WedgeOps(x, k, a, v)) == StackStep(g, w2, SettleRoot(x, Rejected(v)))
  {
    SlotsWired(g, x, k, a, w);
    w2 := StackStep(g, StackStep(g, w, Wire(k)), Wire(a));
    WedgeOk(g, x, k, a, w);
    WedgePlay(g, x, k, a, v, w);
  }

  lemma StackWedge(g: Graph, x: nat, k: nat, a: nat, v: Value, w: StackWorld)
    requires Wedge(g, x, k, a) && StackOk(g, w) && w.wired == {} && w.roots == map[]
    requires w.heap.slots[x] == EmptySlot(g[x]) && w.heap.slots[k] == EmptySlot(g[k])
    requires w.heap.slots[a] == EmptySlot(g[a])
    ensures AllAttachable(g, w, WedgeOps(x, k, a, v))
    ensures StatusOf(StackPlay(g, w, WedgeOps(x, k, a, v)).heap.slots[a]) == Rejected(v)
  {
    var w2 := WedgeReady(g, x, k, a, v, w);
    MarkGood(g, w2, x, Rejected(v));
    StackReason(g, x, k, a, w2.heap, v, w2.wired);
  }

  /** On an `all` of a rejected root and of a promise derived from it, wired up before, the recursive build
      reports the derived promise's reason and the explicit stack the root's; so they agree if and only if
      the handler hands the reason through. */
  lemma BuildsAgreeIff(g: Graph, x: nat, k: nat, a: nat, v: Value)
    requires Wedge(g, x, k, a)
    ensures Shape(g, Init(g).heap) && OpsOk(g, WedgeOps(x, k, a, v))
    ensures AllAttachable(g, StackInit(g), WedgeOps(x, k, a, v))
    ensures var ops := WedgeOps(x, k, a, v);
      var r, s := StatusAt(Play(g, Init(g), ops), a), StatusOf(StackPlay(g, StackInit(g), ops).heap.slots[a]);
      r == Rejected(g[k].onR(v).v) && s == Rejected(v) && (r == s <==> g[k].onR(v) == Return(v))
  {
    InitOk(g);
    StackInitOk(g);
    RecursiveWedge(g, x, k, a, v, Init(g));
    StackWedge(g, x, k, a, v, StackInit(g));
  }

  /** So the builds do differ, where an `all` is not level. */
  lemma BuildsDiffer()
    ensures var g: Graph, ops := [Root, FailOnly(0, _ => Return(Atom(99))), All([1, 0])], WedgeOps(0, 1, 2, Atom(1));
      && GraphOk(g) && PlainGraph(g) && Shape(g, Init(g).heap) && OpsOk(g, ops) && AllAttachable(g, StackInit(g), ops)
      && !Level(g, 2) && StatusAt(Play(g, Init(g), ops), 2) == Rejected(Atom(99))
      && StatusOf(StackPlay(g, StackInit(g), ops).heap.slots[2]) == Rejected(Atom(1))
  {
    var g: Graph := [Root, FailOnly(0, _ => Return(Atom(99))), All([1, 0])];
    assert DefOk(g[0], 0) && DefOk(g[1], 1) && DefOk(g[2], 2);
    BuildsAgreeIff(g, 0, 1, 2, Atom(1));
    assert g[2].srcs[1] == 0 && g[2].srcs[0] == 1 && From(g, 0, 0) && From(g, 0, 1);
  }
}

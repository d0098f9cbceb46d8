/** Whole runs of the promise engine: the settled state does not depend on the order of events. */
module PromiseOrder {
  import opened PromiseMachine
  import opened PromiseInvariant

  /** Outside events: settle a root, or call `then`/`fail`/`all` to wire up promise `k`. */
  datatype Op = SettleRoot(k: nat, outcome: Status) | Wire(k: nat)

  ghost predicate OpOk(g: Graph, op: Op) {
    op.k < |g| && match op case SettleRoot(k, o) => g[k].Root? && !o.Pending? case Wire(k) => !g[k].Root?
  }

  /** `roots` records the first outcome each root was given. */
  datatype World = World(wired: set<nat>, roots: map<nat, Status>, heap: Heap)

  function EmptyCell(d: Def): Cell {
    if d.All? then Cell(Pending, [], |d.srcs|, seq(|d.srcs|, _ => Unit)) else Cell(Pending, [], 0, [])
  }

  function Init(g: Graph): World {
    World({}, map[], Heap(seq(|g|, k requires 0 <= k < |g| => EmptyCell(g[k])), []))
  }

  function Subscriptions(g: Graph, k: nat): (r: seq<Item>)
    requires GraphOk(g) && k < |g|
    ensures forall x | x in r :: ItemOk(g, x) && x.cb.k == k
  {
    assert DefOk(g[k], k);
    match g[k]
    case Root => []
    case Then(s, _, _) => [Item(s, OnThen(k))]
    case All(ss) => seq(|ss|, i requires 0 <= i < |ss| => Item(ss[i], OnAll(k, i)))
  }

  /** Settling a promise and everything that follows before the call returns. */
  function Settle(g: Graph, h: Heap, k: nat, o: Status): (r: Heap)
    requires GraphOk(g) && Shape(g, h) && k < |g| && !o.Pending?
    ensures Shape(g, r)
  {
    var (h1, due) := SettleCell(g, h, k, o);
    Run(g, h1, due)
  }

  function Step(g: Graph, w: World, op: Op): (r: World)
    requires GraphOk(g) && Shape(g, w.heap) && OpOk(g, op)
    ensures Shape(g, r.heap)
  {
    match op
    case SettleRoot(k, o) =>
      if k in w.roots then w else World(w.wired, w.roots[k := o], Settle(g, w.heap, k, o))
    case Wire(k) =>
      if k in w.wired then w else World(w.wired + {k}, w.roots, Run(g, w.heap, Subscriptions(g, k)))
  }

  function Play(g: Graph, w: World, ops: seq<Op>): (r: World)
    requires GraphOk(g) && Shape(g, w.heap) && forall op | op in ops :: OpOk(g, op)
    ensures Shape(g, r.heap)
    decreases |ops|
  {
    if ops == [] then w else Play(g, Step(g, w, ops[0]), ops[1..])
  }

  ghost predicate WorldOk(g: Graph, w: World) {
    && Inv(g, w.wired, w.heap, {})
    && (forall k | k in w.roots :: !w.roots[k].Pending?)
    && forall k | 0 <= k < |g| && g[k].Root? ::
         w.heap.cells[k].status == if k in w.roots then w.roots[k] else Pending
  }

  // ---- the invariant over runs ----

  lemma InitOk(g: Graph)
    requires GraphOk(g)
    ensures Shape(g, Init(g).heap) && WorldOk(g, Init(g))
  {}

  ghost function Below(n: nat): (r: set<nat>)
    ensures |r| == n && forall i: nat :: i in r <==> i < n
  {
    if n == 0 then {} else Below(n - 1) + {n - 1}
  }

  lemma WireKeeps(g: Graph, wired: set<nat>, h: Heap, k: nat)
    requires Inv(g, wired, h, {}) && k < |g| && k !in wired && !g[k].Root?
    ensures Inv(g, wired + {k}, h, Elems(Subscriptions(g, k))) && Distinct(Subscriptions(g, k))
  {
    var todo, wired' := Elems(Subscriptions(g, k)), wired + {k};
    assert DefOk(g[k], k) && Unwired(g, h, k);
    forall s, c | Home(g, wired, h, s, c) ensures Home(g, wired', h, s, c) {}
    forall s | 0 <= s < |g| ensures CellOk(g, wired', h, todo, s) { assert CellOk(g, wired, h, {}, s); }
    forall n | n in wired ensures NodeOk(g, h, todo, n) {
      assert NodeOk(g, h, {}, n);
      if g[n].All? {
        forall i | 0 <= i < |g[n].srcs| ensures InputOk(g, h, todo, n, i) { assert InputOk(g, h, {}, n, i); }
      }
    }
    if g[k].All? {
      forall i | 0 <= i < |g[k].srcs| ensures InputOk(g, h, todo, k, i) { assert Subscriptions(g, k)[i] in todo; }
      assert Missing(g, h, k) == Below(|g[k].srcs|);
      assert 0 in Missing(g, h, k);
    } else {
      assert Subscriptions(g, k)[0] in todo;
    }
  }

  /** Callbacks never settle a root, and what is settled stays as it is. */
  lemma {:induction false} RunStable(g: Graph, h: Heap, todo: seq<Item>, k: nat)
    requires GraphOk(g) && Shape(g, h) && (forall x | x in todo :: ItemOk(g, x)) && k < |g|
    requires g[k].Root? || Settled(h, k)
    ensures Run(g, h, todo).cells[k].status == h.cells[k].status
    decreases Pend(h), |todo|
  {
    if todo != [] {
      var (h1, due) := Exec(g, h, todo[0]);
      ExecStable(g, h, todo[0], k);
      RunStable(g, h1, due + todo[1..], k);
    }
  }

  lemma ExecStable(g: Graph, h: Heap, it: Item, k: nat)
    requires GraphOk(g) && Shape(g, h) && ItemOk(g, it) && k < |g|
    requires g[k].Root? || Settled(h, k)
    ensures Exec(g, h, it).0.cells[k].status == h.cells[k].status
  {}

  /** Settling a root makes its callbacks due and breaks no rule. */
  lemma RootKeeps(g: Graph, w: World, k: nat, o: Status)
    requires WorldOk(g, w) && OpOk(g, SettleRoot(k, o)) && k !in w.roots
    ensures var (h1, due) := SettleCell(g, w.heap, k, o);
      && Inv(g, w.wired, h1, Elems(due)) && Distinct(due) && h1.cells[k].status == o
      && forall j | 0 <= j < |g| && j != k :: h1.cells[j] == w.heap.cells[j]
  {
    var (h1, due) := SettleCell(g, w.heap, k, o);
    SettleKeepsBase(g, w.wired, w.heap, {}, k, o);
    assert {} + Elems(due) == Elems(due);
    forall n | n in w.wired ensures NodeOk(g, h1, Elems(due), n) {
      SettleKeepsNode(g, w.wired, w.heap, {}, k, o, n);
    }
  }

  lemma StepKeeps(g: Graph, w: World, op: Op)
    requires WorldOk(g, w) && OpOk(g, op)
    ensures WorldOk(g, Step(g, w, op))
    ensures forall k | 0 <= k < |g| && Settled(w.heap, k) ::
      Step(g, w, op).heap.cells[k].status == w.heap.cells[k].status
  {
    var w' := Step(g, w, op);
    match op {
      case SettleRoot(k, o) =>
        if k !in w.roots {
          var (h1, due) := SettleCell(g, w.heap, k, o);
          RootKeeps(g, w, k, o);
          RunKeeps(g, w.wired, h1, due);
          forall n | 0 <= n < |g| && (g[n].Root? || Settled(h1, n))
            ensures w'.heap.cells[n].status == h1.cells[n].status
          {
            RunStable(g, h1, due, n);
          }
        }
      case Wire(k) =>
        if k !in w.wired {
          WireKeeps(g, w.wired, w.heap, k);
          RunKeeps(g, w.wired + {k}, w.heap, Subscriptions(g, k));
          forall n | 0 <= n < |g| && (g[n].Root? || Settled(w.heap, n))
            ensures w'.heap.cells[n].status == w.heap.cells[n].status
          {
            RunStable(g, w.heap, Subscriptions(g, k), n);
          }
        }
    }
  }

  lemma {:induction false} PlayKeeps(g: Graph, w: World, ops: seq<Op>)
    requires WorldOk(g, w) && forall op | op in ops :: OpOk(g, op)
    ensures WorldOk(g, Play(g, w, ops))
    ensures forall k | 0 <= k < |g| && Settled(w.heap, k) ::
      Play(g, w, ops).heap.cells[k].status == w.heap.cells[k].status
    decreases |ops|
  {
    if ops != [] {
      StepKeeps(g, w, ops[0]);
      PlayKeeps(g, Step(g, w, ops[0]), ops[1..]);
    }
  }

  // ---- what the settled state says ----

  function StatusAt(w: World, k: nat): Status
    requires k < |w.heap.cells|
  {
    w.heap.cells[k].status
  }

  /** The rule of a derived promise, in terms of the promises it was made from. */
  ghost predicate Meaning(g: Graph, w: World, k: nat)
    requires GraphOk(g) && Shape(g, w.heap) && k < |g|
  {
    assert DefOk(g[k], k);
    match g[k]
    case Root => true
    case Then(s, _, _) =>
      if StatusAt(w, s).Pending? then StatusAt(w, k).Pending?
      else (match Reaction(g[k], StatusAt(w, s))
            case Return(v) => StatusAt(w, k) == Outcome(StatusAt(w, s), v)
            case Chain(q) => StatusAt(w, k) == StatusAt(w, q))
    case All(ss) => AllMeaning(w, ss, StatusAt(w, k))
  }

  ghost predicate AllMeaning(w: World, ss: seq<nat>, st: Status)
    requires forall i | 0 <= i < |ss| :: ss[i] < |w.heap.cells|
  {
    match st
    case Fulfilled(v) =>
      v.Vec? && |v.vs| == |ss| && forall i | 0 <= i < |ss| :: StatusAt(w, ss[i]) == Fulfilled(v.vs[i])
    case Rejected(r) => exists i :: 0 <= i < |ss| && StatusAt(w, ss[i]) == Rejected(r)
    case Pending =>
      && (forall i | 0 <= i < |ss| :: !StatusAt(w, ss[i]).Rejected?)
      && (exists i :: 0 <= i < |ss| && StatusAt(w, ss[i]).Pending?)
  }

  lemma ThenMeaning(g: Graph, w: World, k: nat)
    requires WorldOk(g, w) && k in w.wired && k < |g| && g[k].Then?
    ensures Meaning(g, w, k)
  {
    var h, s := w.heap, g[k].src;
    assert DefOk(g[k], k) && NodeOk(g, h, {}, k) && CellOk(g, w.wired, h, {}, s);
    if Settled(h, s) {
      match Reaction(g[k], h.cells[s].status) {
        case Return(_) =>
        case Chain(q) => assert CellOk(g, w.wired, h, {}, q);
      }
    }
  }

  /** Spelled out: a pending source leaves it pending; the handler of the source's outcome is called with its value or
      reason, and a value it returns settles the promise the way the source went, while a promise it hands over
      settles it as that one is. */
  lemma FollowsSource(g: Graph, w: World, k: nat)
    requires WorldOk(g, w) && k in w.wired && k < |g| && g[k].Then?
    ensures g[k].src < |w.heap.cells|
    ensures match StatusAt(w, g[k].src)
            case Pending => StatusAt(w, k) == Pending
            case Fulfilled(v) =>
              (match g[k].onF(v)
               case Return(u) => StatusAt(w, k) == Fulfilled(u)
               case Chain(q) => q < k && StatusAt(w, k) == StatusAt(w, q))
            case Rejected(r) =>
              (match g[k].onR(r)
               case Return(u) => StatusAt(w, k) == Rejected(u)
               case Chain(q) => q < k && StatusAt(w, k) == StatusAt(w, q))
  {
    ThenMeaning(g, w, k);
    assert DefOk(g[k], k);
  }

  /** With only one handler given the other outcome passes through as it is. */
  lemma PassesThrough(g: Graph, w: World, k: nat, s: nat, f: Value -> Ret)
    requires WorldOk(g, w) && k in w.wired && k < |g| && s < |g|
    ensures g[k] == ThenOnly(s, f) && StatusAt(w, s).Rejected? ==> StatusAt(w, k) == StatusAt(w, s)
    ensures g[k] == FailOnly(s, f) && StatusAt(w, s).Fulfilled? ==> StatusAt(w, k) == StatusAt(w, s)
  {
    if g[k].Then? { FollowsSource(g, w, k); }
  }

  /** `all` is fulfilled with every input's value in its place, or rejected with some input's reason,
      or pending with no input rejected. */
  lemma AllSettles(g: Graph, w: World, k: nat)
    requires WorldOk(g, w) && k in w.wired && k < |g| && g[k].All?
    ensures forall i | 0 <= i < |g[k].srcs| :: g[k].srcs[i] < |w.heap.cells|
    ensures AllMeaning(w, g[k].srcs, StatusAt(w, k))
    ensures forall r :: StatusAt(w, k) == Rejected(r) ==> FirstReason(g, w.heap, k, r)
  {
    var h, ss := w.heap, g[k].srcs;
    assert DefOk(g[k], k) && NodeOk(g, h, {}, k);
    forall i | 0 <= i < |ss| ensures InputOk(g, h, {}, k, i) && (OnAll(k, i) in h.ran <==> Settled(h, ss[i])) {
      assert InputOk(g, h, {}, k, i) && CellOk(g, w.wired, h, {}, ss[i]);
    }
    match h.cells[k].status {
      case Pending =>
        var i :| i in Missing(g, h, k);
        assert StatusAt(w, ss[i]).Pending?;
      case Fulfilled(v) =>
        forall i: nat | i < |ss| ensures StatusAt(w, ss[i]) == Fulfilled(v.vs[i]) { assert i !in Missing(g, h, k); }
      case Rejected(r) =>
        var j: nat :| SawReject(g, h, k, j) && h.cells[g[k].srcs[h.ran[j].i]].status == Rejected(r);
    }
  }

  lemma WiredMeaning(g: Graph, w: World, k: nat)
    requires WorldOk(g, w) && k in w.wired
    ensures Meaning(g, w, k)
  {
    if g[k].Then? { ThenMeaning(g, w, k); } else { AllSettles(g, w, k); }
  }

  /** Every callback of a wired promise has run exactly once if its source is settled, and not otherwise. */
  lemma RunExactlyOnce(g: Graph, w: World, s: nat, cb: Callback)
    requires WorldOk(g, w) && s < |g| && CbOk(g, cb) && cb.k in w.wired
    requires match cb case OnThen(k) => g[k].src == s case OnAll(k, i) => g[k].srcs[i] == s
             case Adopt(k) => Adopts(g, w.heap, k, s)
    ensures multiset(w.heap.ran)[cb] == if Settled(w.heap, s) then 1 else 0
  {
    assert NodeOk(g, w.heap, {}, cb.k) && CellOk(g, w.wired, w.heap, {}, s);
    if cb.OnAll? { assert InputOk(g, w.heap, {}, cb.k, cb.i); }
    assert cb in w.heap.ran <==> Settled(w.heap, s);
    CountDistinct(w.heap.ran, cb);
  }

  lemma {:induction false} CountDistinct<T(!new)>(s: seq<T>, x: T)
    requires Distinct(s)
    ensures multiset(s)[x] == if x in s then 1 else 0
  {
    if s != [] {
      assert s == [s[0]] + s[1..];
      CountDistinct(s[1..], x);
    }
  }
}

/** A promise graph and the abstract machine both settlement algorithms implement.

    The closures that `then`, `fail` and `all` push into a promise's callback vectors are
    represented as data (`Callback`), so that a state can be compared and a callback can be
    named in a property. One step of the machine, `Exec`, is one subscription: it is queued
    when its source is pending and it runs at once when its source is settled. */
module PromiseMachine {

  datatype Value = Unit | Atom(n: int) | Vec(vs: seq<Value>)

  datatype Status = Pending | Fulfilled(value: Value) | Rejected(reason: Value)

  /** What a callback gives back: a plain value, or another promise to adopt. */
  datatype Ret = Return(v: Value) | Chain(q: nat)

  /** How a promise came about. A root is settled from outside. `then` with one callback passes a
      rejection through unchanged and `fail` passes a fulfilment through; see `ThenOnly`, `FailOnly`. */
  datatype Def =
    | Root
    | Then(src: nat, onF: Value -> Ret, onR: Value -> Ret)
    | All(srcs: seq<nat>)

  function ThenOnly(src: nat, onF: Value -> Ret): Def {
    Then(src, onF, r => Return(r))
  }

  function FailOnly(src: nat, onR: Value -> Ret): Def {
    Then(src, v => Return(v), onR)
  }

  type Graph = seq<Def>

  /** Acyclic: sources and adoptable promises come earlier. `all` of nothing throws in the source. */
  ghost predicate GraphOk(g: Graph) {
    forall k | 0 <= k < |g| :: DefOk(g[k], k)
  }

  ghost predicate DefOk(d: Def, k: nat) {
    match d
    case Root => true
    case Then(s, f, r) => s < k && forall v :: (f(v).Chain? ==> f(v).q < k) && (r(v).Chain? ==> r(v).q < k)
    case All(ss) => ss != [] && forall i | 0 <= i < |ss| :: ss[i] < k
  }

  datatype Callback = OnThen(k: nat) | OnAll(k: nat, i: nat) | Adopt(k: nat)

  datatype Item = Item(src: nat, cb: Callback)

  /** `left` and `results` are the counter and the vector an `all` shares between its callbacks. */
  datatype Cell = Cell(status: Status, cbs: seq<Callback>, left: int, results: seq<Value>)

  /** `ran` logs the callbacks that have run, in order. */
  datatype Heap = Heap(cells: seq<Cell>, ran: seq<Callback>)

  ghost predicate CbOk(g: Graph, cb: Callback) {
    cb.k < |g| &&
    match cb
    case OnThen(k) => g[k].Then?
    case OnAll(k, i) => g[k].All? && i < |g[k].srcs|
    case Adopt(k) => g[k].Then?
  }

  ghost predicate ItemOk(g: Graph, it: Item) {
    it.src < |g| && CbOk(g, it.cb)
  }

  ghost predicate Shape(g: Graph, h: Heap) {
    && |h.cells| == |g|
    && (forall s, cb | 0 <= s < |g| && cb in h.cells[s].cbs :: CbOk(g, cb))
    && (forall k | 0 <= k < |g| && g[k].All? :: |h.cells[k].results| == |g[k].srcs|)
  }

  function Items(s: nat, cbs: seq<Callback>): (r: seq<Item>)
    ensures |r| == |cbs|
    ensures forall it :: it in r <==> it.src == s && it.cb in cbs
  {
    var r := seq(|cbs|, i requires 0 <= i < |cbs| => Item(s, cbs[i]));
    assert forall cb | cb in cbs :: Item(s, cb) in r by {
      forall cb | cb in cbs ensures Item(s, cb) in r {
        var i :| 0 <= i < |cbs| && cbs[i] == cb;
        assert r[i] == Item(s, cb);
      }
    }
    r
  }

  function Pend(h: Heap): set<nat> {
    set k: nat | k < |h.cells| && h.cells[k].status.Pending?
  }

  function SettleCell(g: Graph, h: Heap, k: nat, o: Status): (r: (Heap, seq<Item>))
    requires Shape(g, h) && k < |g| && !o.Pending?
    ensures Shape(g, r.0) && (forall x | x in r.1 :: ItemOk(g, x))
    ensures Pend(r.0) == Pend(h) - {k} && (k !in Pend(h) ==> r == (h, []))
  {
    var c := h.cells[k];
    if c.status.Pending? then
      var h1 := h.(cells := h.cells[k := c.(status := o, cbs := [])]);
      assert forall j | 0 <= j < |g| && j != k :: h1.cells[j] == h.cells[j];
      (h1, Items(k, c.cbs))
    else
      (h, [])
  }

  function Register(g: Graph, h: Heap, s: nat, cb: Callback): (r: Heap)
    requires Shape(g, h) && s < |g| && CbOk(g, cb)
    ensures Shape(g, r) && Pend(r) == Pend(h)
  {
    var c := h.cells[s];
    var r := h.(cells := h.cells[s := c.(cbs := c.cbs + [cb])]);
    assert forall j | 0 <= j < |g| && j != s :: r.cells[j] == h.cells[j];
    r
  }

  function Log(h: Heap, cb: Callback): (r: Heap)
    ensures Pend(r) == Pend(h) && r.cells == h.cells
  {
    h.(ran := h.ran + [cb])
  }

  /** `all` stores result `i` and counts down. */
  function Store(g: Graph, h: Heap, k: nat, i: nat, v: Value): (r: Heap)
    requires Shape(g, h) && CbOk(g, OnAll(k, i))
    ensures Shape(g, r) && Pend(r) == Pend(h)
  {
    var c := h.cells[k];
    var r := h.(cells := h.cells[k := c.(left := c.left - 1, results := c.results[i := v])]);
    assert forall j | 0 <= j < |g| && j != k :: r.cells[j] == h.cells[j];
    r
  }

  function Reaction(d: Def, st: Status): Ret
    requires d.Then? && !st.Pending?
  {
    if st.Fulfilled? then d.onF(st.value) else d.onR(st.reason)
  }

  /** A value returned by a rejection handler leaves the derived promise rejected. */
  function Outcome(st: Status, w: Value): Status
    requires !st.Pending?
  {
    if st.Fulfilled? then Fulfilled(w) else Rejected(w)
  }

  /** What running `cb` on its settled source does, up to the callbacks that become due. */
  function Fire(g: Graph, h: Heap, st: Status, cb: Callback): (r: (Heap, seq<Item>))
    requires GraphOk(g) && Shape(g, h) && CbOk(g, cb) && !st.Pending?
    ensures Shape(g, r.0) && (forall x | x in r.1 :: ItemOk(g, x))
    ensures Pend(r.0) < Pend(h) || (Pend(r.0) == Pend(h) && r.1 == [])
  {
    var h1 := Log(h, cb);
    match cb
    case Adopt(k) => SettleCell(g, h1, k, st)
    case OnThen(k) =>
      assert DefOk(g[k], k);
      (match Reaction(g[k], st)
       case Return(w) => SettleCell(g, h1, k, Outcome(st, w))
       case Chain(q) =>
         if h.cells[q].status.Pending? then (Register(g, h1, q, Adopt(k)), [])
         else SettleCell(g, Log(h1, Adopt(k)), k, h.cells[q].status))
    case OnAll(k, i) =>
      if st.Rejected? then SettleCell(g, h1, k, st)
      else
        var h2 := Store(g, h1, k, i, st.value);
        if h2.cells[k].left == 0 then SettleCell(g, h2, k, Fulfilled(Vec(h2.cells[k].results))) else (h2, [])
  }

  /** One subscription: queue the callback if its source is pending, else run it. */
  function Exec(g: Graph, h: Heap, it: Item): (r: (Heap, seq<Item>))
    requires GraphOk(g) && Shape(g, h) && ItemOk(g, it)
    ensures Shape(g, r.0) && (forall x | x in r.1 :: ItemOk(g, x))
    ensures Pend(r.0) < Pend(h) || (Pend(r.0) == Pend(h) && r.1 == [])
  {
    var st := h.cells[it.src].status;
    if st.Pending? then (Register(g, h, it.src, it.cb), []) else Fire(g, h, st, it.cb)
  }

  /** The machine: due callbacks go before the ones that were waiting, as nested calls do. */
  function Run(g: Graph, h: Heap, todo: seq<Item>): (r: Heap)
    requires GraphOk(g) && Shape(g, h) && (forall x | x in todo :: ItemOk(g, x))
    ensures Shape(g, r) && Pend(r) <= Pend(h)
    decreases Pend(h), |todo|
  {
    if todo == [] then h
    else
      var (h1, due) := Exec(g, h, todo[0]);
      Run(g, h1, due + todo[1..])
  }

  lemma {:induction false} RunConcat(g: Graph, h: Heap, a: seq<Item>, b: seq<Item>)
    requires GraphOk(g) && Shape(g, h) && (forall x | x in a + b :: ItemOk(g, x))
    ensures Run(g, h, a + b) == Run(g, Run(g, h, a), b)
    decreases Pend(h), |a|
  {
    assert forall x | x in a :: x in a + b;
    assert forall x | x in b :: x in a + b;
    if a == [] {
      assert a + b == b;
    } else {
      var (h1, due) := Exec(g, h, a[0]);
      assert due + (a + b)[1..] == (due + a[1..]) + b;
      assert (a + b)[0] == a[0];
      RunConcat(g, h1, due + a[1..], b);
    }
  }
}

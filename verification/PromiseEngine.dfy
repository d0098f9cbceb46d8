/** The default build of the promise engine: settling a promise calls its callbacks recursively. */
module PromiseEngine {
  import opened PromiseMachine
  import opened PromiseInvariant
  import opened PromiseOrder

  /** `size` and `results` are what the callbacks of one `all` share. */
  class Promise {
    var state: Status
    var fulfilledCallbacks: seq<Callback>
    var rejectedCallbacks: seq<Callback>
    var size: int
    var results: seq<Value>

    constructor (size: nat)
      ensures state == Pending && fulfilledCallbacks == rejectedCallbacks == []
      ensures this.size == size && results == seq(size, _ => Unit)
    {
      state, fulfilledCallbacks, rejectedCallbacks := Pending, [], [];
      this.size, results := size, seq(size, _ => Unit);
    }

    ghost function Cell(): Cell
      reads this
    {
      PromiseMachine.Cell(state, if state.Pending? then fulfilledCallbacks else [], size, results)
    }
  }

  class Engine {
    const graph: Graph
    const pms: seq<Promise>
    var ran: seq<Callback>
    ghost var world: World

    ghost predicate Valid()
      reads this`ran, pms
    {
      && GraphOk(graph) && |pms| == |graph| && Distinct(pms)
      && Shape(graph, Heap())
      && forall i | 0 <= i < |pms| && pms[i].state.Pending? :: pms[i].fulfilledCallbacks == pms[i].rejectedCallbacks
    }

    ghost function Heap(): Heap
      reads this`ran, pms
    {
      PromiseMachine.Heap(seq(|pms|, i requires 0 <= i < |pms| reads pms => pms[i].Cell()), ran)
    }

    ghost predicate Quiet()
      reads this, pms
    {
      Valid() && WorldOk(graph, world) && world.heap == Heap()
    }

    method Resolve(k: nat, v: Value)
      requires Valid() && k < |pms|
      modifies this`ran, pms
      ensures Valid() && Heap() == Settle(graph, old(Heap()), k, Fulfilled(v))
      decreases Pend(Heap()), 1
    {
      if pms[k].state.Pending? {
        TriggerFulfill(k, v);
      } else {
        assert Settle(graph, Heap(), k, Fulfilled(v)) == Heap();
      }
    }

    method Reject(k: nat, r: Value)
      requires Valid() && k < |pms|
      modifies this`ran, pms
      ensures Valid() && Heap() == Settle(graph, old(Heap()), k, Rejected(r))
      decreases Pend(Heap()), 1
    {
      if pms[k].state.Pending? {
        TriggerReject(k, r);
      } else {
        assert Settle(graph, Heap(), k, Rejected(r)) == Heap();
      }
    }

    method TriggerFulfill(k: nat, v: Value)
      requires Valid() && k < |pms| && pms[k].state.Pending?
      modifies this`ran, pms
      ensures Valid() && Heap() == Settle(graph, old(Heap()), k, Fulfilled(v))
      decreases Pend(Heap()), 0
    {
      ghost var h0 := Heap();
      pms[k].state := Fulfilled(v);
      assert Heap() == SettleCell(graph, h0, k, Fulfilled(v)).0;
      CallAll(k, pms[k].fulfilledCallbacks);
      pms[k].fulfilledCallbacks := [];
      assert Heap() == Settle(graph, h0, k, Fulfilled(v));
    }

    method TriggerReject(k: nat, r: Value)
      requires Valid() && k < |pms| && pms[k].state.Pending?
      modifies this`ran, pms
      ensures Valid() && Heap() == Settle(graph, old(Heap()), k, Rejected(r))
      decreases Pend(Heap()), 0
    {
      ghost var h0 := Heap();
      pms[k].state := Rejected(r);
      assert Heap() == SettleCell(graph, h0, k, Rejected(r)).0;
      CallAll(k, pms[k].rejectedCallbacks);
      pms[k].rejectedCallbacks := [];
      assert Heap() == Settle(graph, h0, k, Rejected(r));
    }

    /** `for (const auto &cb: callbacks) cb();` */
    method CallAll(s: nat, cbs: seq<Callback>)
      requires Valid() && s < |pms| && !pms[s].state.Pending? && forall cb | cb in cbs :: CbOk(graph, cb)
      modifies this`ran, pms
      ensures Valid() && Heap() == Run(graph, old(Heap()), Items(s, cbs)) && !pms[s].state.Pending?
      decreases Pend(Heap()), 9
    {
      assert cbs[0..] == cbs;
      for i := 0 to |cbs|
        invariant Valid() && !pms[s].state.Pending? && Pend(Heap()) <= Pend(old(Heap()))
        invariant Run(graph, Heap(), Items(s, cbs[i..])) == Run(graph, old(Heap()), Items(s, cbs))
      {
        CallNext(s, cbs, i);
      }
    }

    /** One round of that loop. */
    method CallNext(s: nat, cbs: seq<Callback>, i: nat)
      requires Valid() && s < |pms| && !pms[s].state.Pending? && i < |cbs| && forall cb | cb in cbs :: CbOk(graph, cb)
      modifies this`ran, pms
      ensures Valid() && !pms[s].state.Pending? && Pend(Heap()) <= Pend(old(Heap()))
      ensures Run(graph, Heap(), Items(s, cbs[i + 1..])) == Run(graph, old(Heap()), Items(s, cbs[i..]))
      decreases Pend(Heap()), 8
    {
      SplitItems(graph, Heap(), s, cbs, i);
      Invoke(s, cbs[i]);
    }

    /** Call `cb` on the settled promise `s`. */
    method Invoke(s: nat, cb: Callback)
      requires Valid() && s < |pms| && !pms[s].state.Pending? && CbOk(graph, cb)
      modifies this`ran, pms
      ensures Valid() && Heap() == Run(graph, old(Heap()), [Item(s, cb)])
      ensures !pms[s].state.Pending? && Pend(Heap()) <= Pend(old(Heap()))
      decreases Pend(Heap()), if cb.OnThen? then 7 else 4
    {
      RunOne(graph, Heap(), Item(s, cb));
      RunStable(graph, Heap(), [Item(s, cb)], s);
      match cb {
        case OnThen(k) => CallThen(s, k);
        case OnAll(k, i) => CallAllSlot(s, k, i);
        case Adopt(k) =>
          ghost var h0 := Heap();
          ran := ran + [cb];
          assert Heap() == Log(h0, cb);
          Pass(k, pms[s].state);
      }
    }

    /** Settle `k` with a settled status. */
    method Pass(k: nat, st: Status)
      requires Valid() && k < |pms| && !st.Pending?
      modifies this`ran, pms
      ensures Valid() && Heap() == Settle(graph, old(Heap()), k, st)
      decreases Pend(Heap()), 2
    {
      if st.Fulfilled? { Resolve(k, st.value); } else { Reject(k, st.reason); }
    }

    /** The closures built by `gen_on_fulfilled`, `gen_on_rejected` and `cps_transform`. */
    method CallThen(s: nat, k: nat)
      requires Valid() && s < |pms| && !pms[s].state.Pending? && CbOk(graph, OnThen(k))
      modifies this`ran, pms
      ensures Valid() && var (h1, due) := Fire(graph, old(Heap()), old(pms[s].state), OnThen(k));
        Heap() == Run(graph, h1, due)
      decreases Pend(Heap()), 6
    {
      ghost var h0 := Heap();
      ran := ran + [OnThen(k)];
      assert Heap() == Log(h0, OnThen(k)) && DefOk(graph[k], k);
      match Reaction(graph[k], pms[s].state) {
        case Return(w) => Pass(k, Outcome(pms[s].state, w));
        case Chain(q) =>
          RunOne(graph, Heap(), Item(q, Adopt(k)));
          Subscribe(q, Adopt(k));
      }
    }

    /** The two closures `all` attaches to its input `i`. */
    method CallAllSlot(s: nat, k: nat, i: nat)
      requires Valid() && s < |pms| && !pms[s].state.Pending? && CbOk(graph, OnAll(k, i))
      modifies this`ran, pms
      ensures Valid() && var (h1, due) := Fire(graph, old(Heap()), old(pms[s].state), OnAll(k, i));
        Heap() == Run(graph, h1, due)
      decreases Pend(Heap()), 3
    {
      ghost var h0 := Heap();
      ran := ran + [OnAll(k, i)];
      ghost var h1 := Heap();
      assert h1 == Log(h0, OnAll(k, i));
      var st := pms[s].state;
      if st.Rejected? {
        Reject(k, st.reason);
      } else {
        pms[k].results := pms[k].results[i := st.value];
        pms[k].size := pms[k].size - 1;
        assert Heap() == Store(graph, h1, k, i, st.value);
        if pms[k].size == 0 { Resolve(k, Vec(pms[k].results)); }
      }
    }

    /** `then` on promise `s`: keep the callback for later, or call it now. */
    method Subscribe(s: nat, cb: Callback)
      requires Valid() && s < |pms| && CbOk(graph, cb)
      modifies this`ran, pms
      ensures Valid() && Heap() == Run(graph, old(Heap()), [Item(s, cb)])
      decreases Pend(Heap()), if cb.OnThen? then 8 else 5
    {
      if pms[s].state.Pending? {
        RunOne(graph, Heap(), Item(s, cb));
        ghost var h0 := Heap();
        pms[s].fulfilledCallbacks := pms[s].fulfilledCallbacks + [cb];
        pms[s].rejectedCallbacks := pms[s].rejectedCallbacks + [cb];
        assert Heap() == Register(graph, h0, s, cb);
      } else {
        Invoke(s, cb);
      }
    }

    // ---- the calls made from outside ----

    constructor (graph: Graph, pms: seq<Promise>)
      requires GraphOk(graph) && |pms| == |graph| && Distinct(pms)
      requires forall i | 0 <= i < |pms| :: pms[i].Cell() == EmptyCell(graph[i]) && pms[i].rejectedCallbacks == []
      ensures Quiet() && world == Init(graph) && this.graph == graph && this.pms == pms
    {
      this.graph, this.pms, ran := graph, pms, [];
      world := Init(graph);
      InitOk(graph);
      new;
      assert Heap() == Init(graph).heap;
    }

    method SettleRoot(k: nat, outcome: Status)
      requires Quiet() && OpOk(graph, Op.SettleRoot(k, outcome))
      modifies this`ran, this`world, pms
      ensures Quiet() && world == Step(graph, old(world), Op.SettleRoot(k, outcome))
    {
      StepKeeps(graph, world, Op.SettleRoot(k, outcome));
      SettleAgain(graph, world, k, outcome);
      world := Step(graph, world, Op.SettleRoot(k, outcome));
      Pass(k, outcome);
    }

    /** `then`, `fail` or `all` producing promise `k`. */
    method Attach(k: nat)
      requires Quiet() && OpOk(graph, Op.Wire(k)) && k !in world.wired
      modifies this`ran, this`world, pms
      ensures Quiet() && world == Step(graph, old(world), Op.Wire(k))
    {
      StepKeeps(graph, world, Op.Wire(k));
      world := Step(graph, world, Op.Wire(k));
      match graph[k] {
        case Then(s, _, _) => Subscribe(s, OnThen(k));
        case All(ss) => SubscribeAll(k, ss);
      }
    }

    /** The loop of `all` over its list. */
    method SubscribeAll(k: nat, ss: seq<nat>)
      requires Valid() && k < |graph| && graph[k] == All(ss)
      modifies this`ran, pms
      ensures Valid() && Heap() == Run(graph, old(Heap()), Subscriptions(graph, k))
    {
      ghost var items := Subscriptions(graph, k);
      assert items == items[0..];
      for i := 0 to |ss|
        invariant Valid() && Run(graph, Heap(), items[i..]) == Run(graph, old(Heap()), items)
      {
        SplitRun(graph, Heap(), items, i);
        Subscribe(ss[i], OnAll(k, i));
      }
    }
  }

  /** `resolve` and `reject` on a settled promise do nothing. */
  lemma SettleAgain(g: Graph, w: World, k: nat, o: Status)
    requires WorldOk(g, w) && OpOk(g, Op.SettleRoot(k, o))
    ensures Step(g, w, Op.SettleRoot(k, o)).heap == Settle(g, w.heap, k, o)
  {}

  lemma RunOne(g: Graph, h: Heap, it: Item)
    requires GraphOk(g) && Shape(g, h) && ItemOk(g, it)
    ensures Run(g, h, [it]) == Run(g, Exec(g, h, it).0, Exec(g, h, it).1)
  {
    assert [it][1..] == [] && Exec(g, h, it).1 + [] == Exec(g, h, it).1;
  }

  lemma SplitRun(g: Graph, h: Heap, items: seq<Item>, i: nat)
    requires GraphOk(g) && Shape(g, h) && i < |items| && forall x | x in items :: ItemOk(g, x)
    ensures ItemOk(g, items[i]) && Run(g, h, items[i..]) == Run(g, Run(g, h, [items[i]]), items[i + 1..])
  {
    assert items[i..] == [items[i]] + items[i + 1..];
    RunConcat(g, h, [items[i]], items[i + 1..]);
  }

  lemma SplitItems(g: Graph, h: Heap, k: nat, cbs: seq<Callback>, i: nat)
    requires GraphOk(g) && Shape(g, h) && i < |cbs| && k < |g| && forall cb | cb in cbs :: CbOk(g, cb)
    ensures forall x | x in Items(k, cbs[i..]) + Items(k, cbs[i + 1..]) :: ItemOk(g, x)
    ensures Run(g, h, Items(k, cbs[i..])) == Run(g, Run(g, h, [Item(k, cbs[i])]), Items(k, cbs[i + 1..]))
  {
    assert Items(k, cbs[i..]) == [Item(k, cbs[i])] + Items(k, cbs[i + 1..]);
    RunConcat(g, h, [Item(k, cbs[i])], Items(k, cbs[i + 1..]));
  }
}

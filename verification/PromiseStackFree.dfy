/** The code of the `cppromise_use_stack_free` build, with its explicit stack. */
module PromiseStackFree {
  import opened PromiseMachine
  import opened PromiseInvariant
  import opened PromiseOrder
  import PS = PromiseStack

  class Promise {
    var state: PS.State
    var fulfilledCallbacks: seq<Callback>
    var rejectedCallbacks: seq<Callback>
    var fulfilledPms: seq<nat>
    var rejectedPms: seq<nat>
    var size: int
    var results: seq<Value>

    constructor (size: nat)
      ensures Valid() && Slot() == PS.Slot(PS.Waiting, [], size, seq(size, _ => Unit))
    {
      state, fulfilledCallbacks, rejectedCallbacks, fulfilledPms, rejectedPms := PS.Waiting, [], [], [], [];
      this.size, results := size, seq(size, _ => Unit);
    }

    ghost function Slot(): PS.Slot
      reads this
    {
      PS.Slot(state, if state.Done? then [] else fulfilledCallbacks, size, results)
    }

    /** Until a promise is settled, the two vectors of each kind grow together. */
    ghost predicate Valid()
      reads this
    {
      !state.Done? ==>
        && fulfilledCallbacks == rejectedCallbacks && fulfilledPms == rejectedPms
        && fulfilledPms == PS.Deps(fulfilledCallbacks)
    }
  }

  /** A stack entry of `_trigger`: a promise, its dependants, and the iterator into them. */
  datatype Frame = Frame(pm: nat, pms: seq<nat>, it: nat)

  ghost predicate FrameOk(f: Frame, n: nat) {
    f.pm < n && f.it <= |f.pms| && forall i | 0 <= i < |f.pms| :: f.pms[i] < n
  }

  ghost predicate FramesOk(fs: seq<Frame>, n: nat) {
    forall i {:trigger fs[i]} | 0 <= i < |fs| :: FrameOk(fs[i], n)
  }

  /** A frame is pushed for a promise that has been settled. */
  ghost predicate FramesDone(fs: seq<Frame>, undone: set<nat>) {
    forall i {:trigger fs[i]} | 0 <= i < |fs| :: fs[i].pm !in undone
  }

  /** What is left to do, read off the stack: the rest of each frame, the top one first. */
  ghost function Rest(g: Graph, s: PS.Slots, fs: seq<Frame>): (r: PS.Slots)
    requires PS.PlainGraph(g) && PS.SlotsOk(g, s) && FramesOk(fs, |g|)
    ensures PS.SlotsOk(g, r)
    decreases |fs|
  {
    if fs == [] then s
    else var f := fs[|fs| - 1]; Rest(g, PS.VisitAll(g, s, f.pms[f.it..]), fs[..|fs| - 1])
  }

  ghost function Work(fs: seq<Frame>): nat {
    if fs == [] then 0
    else
      var f := fs[|fs| - 1];
      Work(fs[..|fs| - 1]) + if f.it <= |f.pms| then |f.pms| - f.it + 1 else 0
  }

  class StackEngine {
    const graph: Graph
    const pms: seq<Promise>
    var ran: seq<Callback>

    ghost predicate Valid()
      reads this`ran, pms
    {
      && GraphOk(graph) && PS.PlainGraph(graph) && |pms| == |graph| && Distinct(pms)
      && PS.SlotsOk(graph, Abs()) && forall i | 0 <= i < |pms| :: pms[i].Valid()
    }

    ghost function Abs(): (s: PS.Slots)
      reads this`ran, pms
      ensures |s.slots| == |pms| && forall i | 0 <= i < |pms| :: s.slots[i] == pms[i].Slot()
    {
      PS.Slots(seq(|pms|, i requires 0 <= i < |pms| reads pms => pms[i].Slot()), ran)
    }

    constructor (graph: Graph, pms: seq<Promise>)
      requires GraphOk(graph) && PS.PlainGraph(graph) && |pms| == |graph| && Distinct(pms)
      requires forall i | 0 <= i < |pms| :: pms[i].Slot() == PS.EmptySlot(graph[i]) && pms[i].Valid()
      ensures Valid() && Abs() == PS.StackInit(graph).heap && this.graph == graph && this.pms == pms
    {
      this.graph, this.pms, ran := graph, pms, [];
      PS.StackInitOk(graph);
      new;
      assert Abs().slots == PS.StackInit(graph).heap.slots;
    }

    /** `_resolve` / `_reject`: mark a pending promise, and nothing more. */
    method Mark(k: nat, o: Status)
      requires Valid() && k < |pms| && !o.Pending?
      modifies pms
      ensures Valid() && Abs() == PS.Mark(graph, old(Abs()), k, o)
    {
      ghost var s := Abs();
      if pms[k].state.Waiting? {
        pms[k].state := PS.Pre(o);
      }
      assert Abs().slots == PS.Mark(graph, s, k, o).slots;
    }

    /** Input `i` of `all` promise `k` delivered `v`. */
    method Deliver(k: nat, i: nat, v: Value)
      requires Valid() && CbOk(graph, OnAll(k, i))
      modifies pms
      ensures Valid()
      ensures var t := PS.Stored(graph, old(Abs()), k, i, v);
        Abs() == if t.slots[k].left == 0 then PS.Mark(graph, t, k, Fulfilled(Vec(t.slots[k].results))) else t
    {
      ghost var s := Abs();
      Store(k, i, v);
      if pms[k].size == 0 { Mark(k, Fulfilled(Vec(pms[k].results))); }
    }

    method Store(k: nat, i: nat, v: Value)
      requires Valid() && CbOk(graph, OnAll(k, i))
      modifies pms
      ensures Valid() && Abs() == PS.Stored(graph, old(Abs()), k, i, v)
    {
      ghost var s := Abs();
      assert PS.SlotOk(graph, k, s.slots[k]);
      pms[k].results := pms[k].results[i := v];
      pms[k].size := pms[k].size - 1;
      assert Abs().slots == PS.Stored(graph, s, k, i, v).slots;
    }

    /** Run a closure on the outcome of its source. */
    method Call(st: Status, cb: Callback)
      requires Valid() && PS.PlainCb(graph, cb) && !st.Pending?
      modifies this`ran, pms
      ensures Valid() && Abs() == PS.Call(graph, old(Abs()), st, cb)
    {
      ghost var s := Abs();
      ran := ran + [cb];
      assert Abs() == PS.Logged(s, cb);
      assert PS.SlotsOk(graph, Abs()) by {
        forall k | 0 <= k < |graph| ensures PS.SlotOk(graph, k, Abs().slots[k]) {
          assert PS.SlotOk(graph, k, s.slots[k]);
        }
      }
      match cb {
        case OnThen(k) => Mark(k, Outcome(st, Reaction(graph[k], st).v));
        case OnAll(k, i) => if st.Rejected? { Mark(k, st); } else { Deliver(k, i, st.value); }
      }
    }

    method CallAll(st: Status, cbs: seq<Callback>)
      requires Valid() && !st.Pending? && forall cb | cb in cbs :: PS.PlainCb(graph, cb)
      modifies this`ran, pms
      ensures Valid() && Abs() == PS.CallAll(graph, old(Abs()), st, cbs)
    {
      ghost var s := Abs();
      for j := 0 to |cbs|
        invariant Valid() && PS.CallAll(graph, Abs(), st, cbs[j..]) == PS.CallAll(graph, s, st, cbs)
      {
        assert cbs[j..][0] == cbs[j] && cbs[j..][1..] == cbs[j + 1..];
        Call(st, cbs[j]);
      }
      assert cbs[|cbs|..] == [];
    }

    /** The body of `push_frame`: settle the marked promise `k` and run its callbacks. */
    method SettleMarked(k: nat) returns (deps: seq<nat>)
      requires Valid() && k < |pms| && pms[k].state.Pre?
      modifies this`ran, pms
      ensures Valid() && Abs() == PS.Settled1(graph, old(Abs()), k) && deps == PS.Deps(old(Abs()).slots[k].cbs)
    {
      ghost var s := Abs();
      PS.CloseOk(graph, s, k);
      var o := pms[k].state.outcome;
      var cbs := if o.Fulfilled? then pms[k].fulfilledCallbacks else pms[k].rejectedCallbacks;
      deps := if o.Fulfilled? then pms[k].fulfilledPms else pms[k].rejectedPms;
      pms[k].state := PS.Done(o);
      assert Abs().slots == PS.Close(s, k).slots;
      CallAll(o, cbs);
    }

    /** `push_frame` */
    method PushFrame(k: nat, fs: seq<Frame>) returns (t: seq<Frame>)
      requires Valid() && k < |pms| && FramesOk(fs, |graph|) && FramesDone(fs, PS.Undone(Abs()))
      modifies this`ran, pms
      ensures Valid() && FramesOk(t, |graph|) && FramesDone(t, PS.Undone(Abs()))
      ensures Rest(graph, Abs(), t) == Rest(graph, PS.Visit(graph, old(Abs()), k), fs)
      ensures PS.Undone(Abs()) < PS.Undone(old(Abs())) || (PS.Undone(Abs()) == PS.Undone(old(Abs())) && t == fs)
    {
      t := fs;
      if pms[k].state.Pre? {
        var deps := SettleMarked(k);
        t := fs + [Frame(k, deps, 0)];
        assert t[..|fs|] == fs && deps[0..] == deps;
      }
    }

    /** `_trigger`: settle `k` and everything that follows from it, depth first, without recursion. */
    method Trigger(k: nat)
      requires Valid() && k < |pms|
      modifies this`ran, pms
      ensures Valid() && Abs() == PS.Visit(graph, old(Abs()), k)
    {
      ghost var s := Abs();
      var fs := PushFrame(k, []);
      while |fs| > 0
        invariant Valid() && FramesOk(fs, |graph|) && FramesDone(fs, PS.Undone(Abs()))
        invariant Rest(graph, Abs(), fs) == PS.Visit(graph, s, k)
        decreases PS.Undone(Abs()), Work(fs)
      {
        fs := Advance(fs);
      }
    }

    /** One round of the loop: close the top frame, or visit its next promise. */
    method Advance(fs: seq<Frame>) returns (t: seq<Frame>)
      requires |fs| > 0 && Valid() && FramesOk(fs, |graph|) && FramesDone(fs, PS.Undone(Abs()))
      modifies this`ran, pms
      ensures Valid() && FramesOk(t, |graph|) && FramesDone(t, PS.Undone(Abs()))
      ensures Rest(graph, Abs(), t) == Rest(graph, old(Abs()), fs)
      ensures PS.Undone(Abs()) < PS.Undone(old(Abs())) ||
        (PS.Undone(Abs()) == PS.Undone(old(Abs())) && Work(t) < Work(fs))
    {
      var top := fs[|fs| - 1];
      if top.it == |top.pms| {
        t := fs[..|fs| - 1];
        assert top.pms[top.it..] == [];
        assert top.pm !in PS.Undone(Abs());
        Clear(top.pm);
      } else {
        var next := fs[..|fs| - 1] + [top.(it := top.it + 1)];
        assert next[..|next| - 1] == fs[..|fs| - 1];
        assert top.pms[top.it..][1..] == top.pms[top.it + 1..];
        t := PushFrame(top.pms[top.it], next);
      }
    }

    /** A finished frame empties the vectors of its promise. */
    method Clear(k: nat)
      requires Valid() && k < |pms| && pms[k].state.Done?
      modifies pms[k]
      ensures Valid() && Abs() == old(Abs())
    {
      ghost var s := Abs();
      if pms[k].state.outcome.Fulfilled? { pms[k].fulfilledPms := []; } else { pms[k].rejectedPms := []; }
      pms[k].fulfilledCallbacks := [];
      pms[k].rejectedCallbacks := [];
      assert Abs().slots == s.slots;
    }

    // ---- the calls made from outside ----

    /** `resolve` or `reject`, then `_trigger`. */
    method Settle(k: nat, o: Status)
      requires Valid() && k < |pms| && !o.Pending?
      modifies this`ran, pms
      ensures Valid()
      ensures Abs() ==
        if old(pms[k].state.Waiting?) then PS.Visit(graph, PS.Mark(graph, old(Abs()), k, o), k) else old(Abs())
    {
      if pms[k].state.Waiting? {
        Mark(k, o);
        Trigger(k);
      }
    }

    /** `then`, `fail` or `all`, which make the new promise `k`. */
    method Attach(k: nat)
      requires Valid() && k < |graph| && !graph[k].Root? && pms[k].state.Waiting?
      requires PS.SourcesReady(Abs(), k, Subscriptions(graph, k))
      modifies this`ran, pms
      ensures Valid() && PS.Feeds(graph, k, Subscriptions(graph, k))
      ensures forall i | 0 <= i < |Subscriptions(graph, k)| :: PS.FeedOk(graph, k, Subscriptions(graph, k)[i])
      ensures Abs() == PS.AttachAll(graph, old(Abs()), Subscriptions(graph, k))
    {
      ghost var s := Abs();
      PS.SubscriptionsFeed(graph, k);
      match graph[k] {
        case Then(src, _, _) =>
          ghost var items := Subscriptions(graph, k);
          assert items == [Item(src, OnThen(k))] && items[1..] == [] && PS.FeedOk(graph, k, items[0]);
          if pms[src].state.Waiting? { Enqueue(Item(src, OnThen(k))); } else { ThenOnSettled(k); }
          assert Abs() == PS.Attach1(graph, s, items[0]);
          assert PS.AttachAll(graph, s, items) == PS.AttachAll(graph, Abs(), items[1..]);
        case All(ss) => AttachInputs(k, ss);
      }
    }

    /** The loop of `all`. */
    method AttachInputs(k: nat, ss: seq<nat>)
      requires Valid() && k < |graph| && graph[k] == All(ss)
      requires PS.SourcesReady(Abs(), k, Subscriptions(graph, k)) && PS.Feeds(graph, k, Subscriptions(graph, k))
      requires forall i | 0 <= i < |Subscriptions(graph, k)| :: PS.FeedOk(graph, k, Subscriptions(graph, k)[i])
      modifies this`ran, pms
      ensures Valid() && Abs() == PS.AttachAll(graph, old(Abs()), Subscriptions(graph, k))
    {
      ghost var items, s := Subscriptions(graph, k), Abs();
      ghost var rest := items;
      for i := 0 to |ss|
        invariant Valid() && rest == items[i..] && PS.Feeds(graph, k, rest) && PS.SourcesReady(Abs(), k, rest)
        invariant forall j | 0 <= j < |rest| :: PS.FeedOk(graph, k, rest[j])
        invariant PS.AttachAll(graph, Abs(), rest) == PS.AttachAll(graph, s, items)
      {
        AttachInput(k, Item(ss[i], OnAll(k, i)), rest);
        rest := rest[1..];
      }
    }

    method AttachInput(k: nat, it: Item, ghost items: seq<Item>)
      requires Valid() && PS.Feeds(graph, k, items) && PS.SourcesReady(Abs(), k, items)
      requires items != [] && items[0] == it && it.cb.OnAll? && PS.FeedOk(graph, k, it)
      requires forall j | 0 <= j < |items| :: PS.FeedOk(graph, k, items[j])
      modifies this`ran, pms
      ensures Valid() && PS.Feeds(graph, k, items[1..]) && PS.SourcesReady(Abs(), k, items[1..])
      ensures forall j | 0 <= j < |items[1..]| :: PS.FeedOk(graph, k, items[1..][j])
      ensures PS.AttachAll(graph, Abs(), items[1..]) == PS.AttachAll(graph, old(Abs()), items)
    {
      ghost var s := Abs();
      if pms[it.src].state.Waiting? { Enqueue(it); } else { InputSettled(it); }
      assert Abs() == PS.Attach1(graph, s, it);
      PS.AttachOne(graph, s, k, it);
      PS.FeedsRest(graph, k, items);
      PS.ReadyRest(graph, s, Abs(), k, items);
    }

    /** Queue the callback, and list the dependant. */
    method Enqueue(it: Item)
      requires Valid() && it.src < |graph| && PS.PlainCb(graph, it.cb) && pms[it.src].state.Waiting?
      modifies pms
      ensures Valid() && Abs() == PS.Queue(old(Abs()), it) && Abs() == PS.Attach1(graph, old(Abs()), it)
    {
      ghost var s := Abs();
      PS.QueueOk(graph, s, it);
      var p := pms[it.src];
      p.fulfilledCallbacks := p.fulfilledCallbacks + [it.cb];
      p.rejectedCallbacks := p.rejectedCallbacks + [it.cb];
      p.fulfilledPms := p.fulfilledPms + [it.cb.k];
      p.rejectedPms := p.rejectedPms + [it.cb.k];
      assert Abs().slots == PS.Queue(s, it).slots;
    }

    /** An input that is already settled: its callback runs, and `_dep_resolve` and `_dep_reject` each trigger the
        new promise, to which nothing is attached yet. */
    method InputSettled(it: Item)
      requires Valid() && it.src < |graph| && PS.PlainCb(graph, it.cb) && it.cb.OnAll? && pms[it.src].state.Done?
      requires Abs().slots[it.cb.k].cbs == []
      modifies this`ran, pms
      ensures Valid() && Abs() == PS.Attach1(graph, old(Abs()), it)
    {
      ghost var s := Abs();
      assert PS.SlotOk(graph, it.src, s.slots[it.src]);
      Call(pms[it.src].state.outcome, it.cb);
      ghost var t := Abs();
      PS.CallHeap(graph, s, s.slots[it.src].state.outcome, it.cb);
      PS.VisitBare(graph, t, it.cb.k);
      PS.VisitBare(graph, PS.Visit(graph, t, it.cb.k), it.cb.k);
      Trigger(it.cb.k);
      Trigger(it.cb.k);
    }

    /** `then` or `fail` on a promise that is already settled: the callback runs, the derived promise
        is marked, and nothing triggers it. */
    method ThenOnSettled(k: nat)
      requires Valid() && k < |graph| && graph[k].Then? && graph[k].src < |pms| && pms[k].state.Waiting?
      requires pms[graph[k].src].state.Done?
      modifies this`ran, pms
      ensures Valid() && !old(pms[graph[k].src].state.outcome).Pending?
      ensures Abs() == PS.Call(graph, old(Abs()), old(pms[graph[k].src].state.outcome), OnThen(k))
      ensures pms[k].state.Pre? && PS.Marks(Abs()) == PS.Marks(old(Abs())) + {k}
    {
      ghost var s := Abs();
      assert PS.SlotOk(graph, graph[k].src, s.slots[graph[k].src]);
      Call(pms[graph[k].src].state.outcome, OnThen(k));
      assert Abs().slots[k] == pms[k].Slot();
    }
  }
}

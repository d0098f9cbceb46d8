/** What every step of the promise machine keeps, whatever order callbacks run in. */
module PromiseInvariant {
  import opened PromiseMachine

  ghost predicate Distinct<T>(s: seq<T>) {
    forall i, j | 0 <= i < j < |s| :: s[i] != s[j]
  }

  ghost function Elems<T>(s: seq<T>): set<T> {
    set x | x in s
  }

  ghost predicate Pending(h: Heap, k: nat) {
    k < |h.cells| && h.cells[k].status.Pending?
  }

  ghost predicate Settled(h: Heap, k: nat) {
    k < |h.cells| && !h.cells[k].status.Pending?
  }

  /** `k` was given a promise to adopt, and that promise is `q`. */
  ghost predicate Adopts(g: Graph, h: Heap, k: nat, q: nat) {
    k < |g| && g[k].Then? && OnThen(k) in h.ran && Settled(h, g[k].src)
    && Reaction(g[k], h.cells[g[k].src].status) == Chain(q)
  }

  /** The only promise `cb` may be subscribed to is `s`, and it has not run. `wired` holds the
      derived promises whose `then` or `all` call has been made. */
  ghost predicate Home(g: Graph, wired: set<nat>, h: Heap, s: nat, cb: Callback) {
    s < |g| && CbOk(g, cb) && cb.k in wired && cb !in h.ran &&
    match cb
    case OnThen(k) => g[k].src == s
    case OnAll(k, i) => g[k].srcs[i] == s
    case Adopt(k) => Adopts(g, h, k, s)
  }

  ghost predicate Active(h: Heap, todo: set<Item>, s: nat, cb: Callback) {
    s < |h.cells| && (cb in h.cells[s].cbs || Item(s, cb) in todo)
  }

  ghost predicate CellOk(g: Graph, wired: set<nat>, h: Heap, todo: set<Item>, s: nat)
    requires s < |h.cells|
  {
    && Distinct(h.cells[s].cbs)
    && (Settled(h, s) ==> h.cells[s].cbs == [])
    && (forall cb | cb in h.cells[s].cbs :: Home(g, wired, h, s, cb) && Item(s, cb) !in todo)
  }

  ghost predicate Unwired(g: Graph, h: Heap, k: nat) {
    Pending(h, k) && (k < |g| && g[k].All? ==> h.cells[k].left == |g[k].srcs|)
  }

  /** Callbacks sit where they belong, once; `todo` holds those that are due. */
  ghost predicate Base(g: Graph, wired: set<nat>, h: Heap, todo: set<Item>) {
    && GraphOk(g) && Shape(g, h)
    && (forall k | k in wired :: k < |g| && !g[k].Root?)
    && (forall k | 0 <= k < |g| && k !in wired && !g[k].Root? :: Unwired(g, h, k))
    && (forall s | 0 <= s < |g| :: CellOk(g, wired, h, todo, s))
    && (forall it | it in todo :: Home(g, wired, h, it.src, it.cb))
    && Distinct(h.ran) && (forall cb | cb in h.ran :: CbOk(g, cb) && cb.k in wired)
  }

  ghost predicate ThenOk(g: Graph, h: Heap, todo: set<Item>, k: nat)
    requires Shape(g, h) && k < |g| && g[k].Then?
  {
    if OnThen(k) !in h.ran then
      Active(h, todo, g[k].src, OnThen(k)) && Pending(h, k) && Adopt(k) !in h.ran
    else
      Settled(h, g[k].src) &&
      var st := h.cells[g[k].src].status;
      match Reaction(g[k], st)
      case Return(w) => h.cells[k].status == Outcome(st, w) && Adopt(k) !in h.ran
      case Chain(q) =>
        if Adopt(k) in h.ran then Settled(h, q) && h.cells[k].status == h.cells[q].status
        else Active(h, todo, q, Adopt(k)) && Pending(h, k)
  }

  /** The inputs of `all` node `k` that have not delivered a value. */
  ghost function Missing(g: Graph, h: Heap, k: nat): set<nat>
    requires Shape(g, h) && k < |g| && g[k].All?
  {
    set i: nat | i < |g[k].srcs|
      && !(OnAll(k, i) in h.ran && g[k].srcs[i] < |g| && h.cells[g[k].srcs[i]].status.Fulfilled?)
  }

  /** The run of `OnAll` at position `j` of the log saw a rejected input. */
  ghost predicate SawReject(g: Graph, h: Heap, k: nat, j: nat) {
    j < |h.ran| && h.ran[j].OnAll? && h.ran[j].k == k && CbOk(g, h.ran[j])
    && var s := g[k].srcs[h.ran[j].i]; s < |h.cells| && h.cells[s].status.Rejected?
  }

  /** `r` is the reason the first such run saw. */
  ghost predicate FirstReason(g: Graph, h: Heap, k: nat, r: Value) {
    exists j: nat :: SawReject(g, h, k, j)
      && h.cells[g[k].srcs[h.ran[j].i]].status == Rejected(r)
      && forall j': nat | j' < j :: !SawReject(g, h, k, j')
  }

  ghost predicate InputOk(g: Graph, h: Heap, todo: set<Item>, k: nat, i: nat)
    requires Shape(g, h) && k < |g| && g[k].All? && i < |g[k].srcs|
  {
    if OnAll(k, i) !in h.ran then Active(h, todo, g[k].srcs[i], OnAll(k, i))
    else
      && Settled(h, g[k].srcs[i])
      && (h.cells[g[k].srcs[i]].status.Fulfilled? ==> h.cells[k].results[i] == h.cells[g[k].srcs[i]].status.value)
      && (h.cells[g[k].srcs[i]].status.Rejected? ==> h.cells[k].status.Rejected?)
  }

  ghost predicate AllOk(g: Graph, h: Heap, todo: set<Item>, k: nat)
    requires Shape(g, h) && k < |g| && g[k].All?
  {
    && (forall i | 0 <= i < |g[k].srcs| :: InputOk(g, h, todo, k, i))
    && h.cells[k].left == |Missing(g, h, k)|
    && match h.cells[k].status
       case Pending => Missing(g, h, k) != {}
       case Fulfilled(v) => Missing(g, h, k) == {} && v == Vec(h.cells[k].results)
       case Rejected(r) => FirstReason(g, h, k, r)
  }

  ghost predicate NodeOk(g: Graph, h: Heap, todo: set<Item>, k: nat)
    requires Shape(g, h) && k < |g|
  {
    match g[k]
    case Root => true
    case Then(_, _, _) => ThenOk(g, h, todo, k)
    case All(_) => AllOk(g, h, todo, k)
  }

  ghost predicate NodesOk(g: Graph, wired: set<nat>, h: Heap, todo: set<Item>, except: set<nat>)
    requires Shape(g, h) && forall k | k in wired :: k < |g|
  {
    forall k | k in wired && k !in except :: NodeOk(g, h, todo, k)
  }

  ghost predicate Inv(g: Graph, wired: set<nat>, h: Heap, todo: set<Item>) {
    Base(g, wired, h, todo) && NodesOk(g, wired, h, todo, {})
  }

  // ---- settling one promise moves its callbacks from its vector to `todo` ----

  lemma SettleKeepsBase(g: Graph, wired: set<nat>, h: Heap, todo: set<Item>, k: nat, o: Status)
    requires Base(g, wired, h, todo) && Pending(h, k) && !o.Pending? && k < |g| && (k in wired || g[k].Root?)
    ensures var (h', due) := SettleCell(g, h, k, o);
      && Base(g, wired, h', todo + Elems(due)) && Distinct(due) && Elems(due) !! todo
      && h'.cells[k].status == o && h'.ran == h.ran
      && forall j | 0 <= j < |g| && j != k :: h'.cells[j] == h.cells[j]
  {
    var (h', due) := SettleCell(g, h, k, o);
    forall s, cb | Home(g, wired, h, s, cb) ensures Home(g, wired, h', s, cb) {}
    forall s | 0 <= s < |g| ensures CellOk(g, wired, h', todo + Elems(due), s) {
      assert CellOk(g, wired, h, todo, s);
    }
    assert CellOk(g, wired, h, todo, k);
  }

  lemma SettleKeepsNode(g: Graph, wired: set<nat>, h: Heap, todo: set<Item>, k: nat, o: Status, n: nat)
    requires Base(g, wired, h, todo) && Pending(h, k) && !o.Pending? && k < |g| && n in wired && n != k
    requires NodeOk(g, h, todo, n)
    ensures var (h', due) := SettleCell(g, h, k, o); NodeOk(g, h', todo + Elems(due), n)
  {
    var (h', due) := SettleCell(g, h, k, o);
    assert DefOk(g[n], n);
    forall s, cb | Active(h, todo, s, cb) ensures Active(h', todo + Elems(due), s, cb) {
      if s == k && cb in h.cells[k].cbs { assert Item(k, cb) in due; }
    }
    if g[n].All? {
      forall i | 0 <= i < |g[n].srcs| ensures InputOk(g, h', todo + Elems(due), n, i) {
        assert InputOk(g, h, todo, n, i);
      }
      forall i: nat | i < |g[n].srcs| && OnAll(n, i) in h.ran ensures g[n].srcs[i] != k {
        assert InputOk(g, h, todo, n, i);
      }
      assert Missing(g, h', n) == Missing(g, h, n);
      forall j: nat ensures SawReject(g, h', n, j) == SawReject(g, h, n, j) {
        if j < |h.ran| && h.ran[j].OnAll? && h.ran[j].k == n { assert h.ran[j] in h.ran; }
      }
      if h.cells[n].status.Rejected? {
        assert FirstReason(g, h', n, h.cells[n].status.reason);
      }
    }
  }

  // ---- running a callback moves it from `todo` to the log ----

  lemma LogKeepsBase(g: Graph, wired: set<nat>, h: Heap, todo: set<Item>, cb: Callback)
    requires Base(g, wired, h, todo) && CbOk(g, cb) && cb.k in wired && cb !in h.ran
    requires forall s: nat :: !Active(h, todo, s, cb)
    ensures Base(g, wired, Log(h, cb), todo)
  {
    var h' := Log(h, cb);
    forall s, c | Home(g, wired, h, s, c) && c != cb ensures Home(g, wired, h', s, c) {}
    forall s | 0 <= s < |g| ensures CellOk(g, wired, h', todo, s) {
      assert CellOk(g, wired, h, todo, s);
      assert !Active(h, todo, s, cb);
    }
    forall it | it in todo ensures Home(g, wired, h', it.src, it.cb) {
      assert !Active(h, todo, it.src, cb);
    }
  }

  lemma LogKeepsNode(g: Graph, wired: set<nat>, h: Heap, todo: set<Item>, it: Item, n: nat)
    requires Base(g, wired, h, todo) && n in wired && NodeOk(g, h, todo, n) && it.cb.k != n
    ensures NodeOk(g, Log(h, it.cb), todo - {it}, n)
  {
    var h' := Log(h, it.cb);
    if g[n].All? {
      forall i | 0 <= i < |g[n].srcs| ensures InputOk(g, h', todo - {it}, n, i) {
        assert InputOk(g, h, todo, n, i);
      }
      assert Missing(g, h', n) == Missing(g, h, n);
      forall j: nat | j < |h.ran| ensures SawReject(g, h', n, j) == SawReject(g, h, n, j) {}
      if h.cells[n].status.Rejected? {
        var r := h.cells[n].status.reason;
        var j: nat :| SawReject(g, h, n, j) && h.cells[g[n].srcs[h.ran[j].i]].status == Rejected(r)
          && forall j': nat | j' < j :: !SawReject(g, h, n, j');
        assert SawReject(g, h', n, j);
        assert FirstReason(g, h', n, r);
      }
    }
  }

  // ---- subscribing to a pending promise moves a callback from `todo` to its vector ----

  lemma RegisterKeepsBase(g: Graph, wired: set<nat>, h: Heap, todo: set<Item>, s: nat, cb: Callback)
    requires Base(g, wired, h, todo) && Pending(h, s) && Home(g, wired, h, s, cb) && !Active(h, todo, s, cb)
    ensures Base(g, wired, Register(g, h, s, cb), todo)
  {
    var h' := Register(g, h, s, cb);
    forall q, c | Home(g, wired, h, q, c) ensures Home(g, wired, h', q, c) {}
    forall q | 0 <= q < |g| ensures CellOk(g, wired, h', todo, q) {
      assert CellOk(g, wired, h, todo, q);
    }
  }

  lemma RegisterKeepsNode(g: Graph, wired: set<nat>, h: Heap, todo: set<Item>, s: nat, cb: Callback, n: nat)
    requires Base(g, wired, h, todo) && Pending(h, s) && s < |g| && CbOk(g, cb)
    requires n in wired && NodeOk(g, h, todo, n)
    ensures NodeOk(g, Register(g, h, s, cb), todo - {Item(s, cb)}, n)
  {
    var h', todo' := Register(g, h, s, cb), todo - {Item(s, cb)};
    forall q, c | Active(h, todo, q, c) ensures Active(h', todo', q, c) {}
    if g[n].All? {
      forall i | 0 <= i < |g[n].srcs| ensures InputOk(g, h', todo', n, i) {
        assert InputOk(g, h, todo, n, i);
      }
      assert Missing(g, h', n) == Missing(g, h, n);
      forall j: nat ensures SawReject(g, h', n, j) == SawReject(g, h, n, j) {}
      if h.cells[n].status.Rejected? { assert FirstReason(g, h', n, h.cells[n].status.reason); }
    }
  }

  // ---- one subscription ----

  /** The state between taking `it` off `todo` and settling its target. */
  lemma Taken(g: Graph, wired: set<nat>, h: Heap, todo: set<Item>, it: Item)
    requires Inv(g, wired, h, todo) && it in todo
    ensures var h' := Log(h, it.cb); Base(g, wired, h', todo - {it}) && NodesOk(g, wired, h', todo - {it}, {it.cb.k})
    ensures forall s: nat :: !Active(h, todo - {it}, s, it.cb)
  {
    assert Home(g, wired, h, it.src, it.cb);
    forall s: nat ensures !Active(h, todo - {it}, s, it.cb) {
      if s < |g| { assert CellOk(g, wired, h, todo, s); }
    }
    forall s | 0 <= s < |g| ensures CellOk(g, wired, h, todo - {it}, s) { assert CellOk(g, wired, h, todo, s); }
    LogKeepsBase(g, wired, h, todo - {it}, it.cb);
    forall n | n in wired && n != it.cb.k ensures NodeOk(g, Log(h, it.cb), todo - {it}, n) {
      LogKeepsNode(g, wired, h, todo, it, n);
    }
  }

  /** Settling the target of the callback just logged, given that its own rule then holds. */
  lemma SettleTarget(g: Graph, wired: set<nat>, h: Heap, todo: set<Item>, k: nat, o: Status)
    requires Base(g, wired, h, todo) && NodesOk(g, wired, h, todo, {k})
    requires k in wired && Pending(h, k) && !o.Pending?
    requires var (h', due) := SettleCell(g, h, k, o); NodeOk(g, h', todo + Elems(due), k)
    ensures var (h', due) := SettleCell(g, h, k, o);
      Inv(g, wired, h', todo + Elems(due)) && Distinct(due) && Elems(due) !! todo
  {
    var (h', due) := SettleCell(g, h, k, o);
    SettleKeepsBase(g, wired, h, todo, k, o);
    forall n | n in wired ensures NodeOk(g, h', todo + Elems(due), n) {
      if n != k { SettleKeepsNode(g, wired, h, todo, k, o, n); }
    }
  }

  ghost predicate Kept(g: Graph, wired: set<nat>, rest: set<Item>, r: (Heap, seq<Item>)) {
    Inv(g, wired, r.0, rest + Elems(r.1)) && Distinct(r.1) && Elems(r.1) !! rest
  }

  lemma FireReturn(g: Graph, wired: set<nat>, h: Heap, todo: set<Item>, it: Item)
    requires Inv(g, wired, h, todo) && it in todo && it.cb.OnThen? && Settled(h, it.src)
    requires CbOk(g, it.cb) && Reaction(g[it.cb.k], h.cells[it.src].status).Return?
    ensures Kept(g, wired, todo - {it}, Fire(g, h, h.cells[it.src].status, it.cb))
  {
    var k, st := it.cb.k, h.cells[it.src].status;
    var o := Outcome(st, Reaction(g[k], st).v);
    Taken(g, wired, h, todo, it);
    assert NodeOk(g, h, todo, k) && DefOk(g[k], k);
    SettleKeepsBase(g, wired, Log(h, it.cb), todo - {it}, k, o);
    SettleTarget(g, wired, Log(h, it.cb), todo - {it}, k, o);
  }

  /** While `OnThen(k)` is due, nothing has been adopted for `k`. */
  lemma NothingAdopted(g: Graph, wired: set<nat>, h: Heap, todo: set<Item>, k: nat, s: nat)
    requires Inv(g, wired, h, todo) && OnThen(k) !in h.ran
    ensures !Active(h, todo, s, Adopt(k))
  {
    if s < |g| { assert CellOk(g, wired, h, todo, s); }
  }

  lemma FireChainPending(g: Graph, wired: set<nat>, h: Heap, todo: set<Item>, it: Item, q: nat)
    requires Inv(g, wired, h, todo) && it in todo && it.cb.OnThen? && Settled(h, it.src)
    requires CbOk(g, it.cb) && Reaction(g[it.cb.k], h.cells[it.src].status) == Chain(q) && Pending(h, q)
    ensures Kept(g, wired, todo - {it}, Fire(g, h, h.cells[it.src].status, it.cb))
  {
    var k, rest, h1 := it.cb.k, todo - {it}, Log(h, it.cb);
    Taken(g, wired, h, todo, it);
    assert NodeOk(g, h, todo, k) && DefOk(g[k], k) && Home(g, wired, h, it.src, it.cb);
    NothingAdopted(g, wired, h, todo, k, q);
    RegisterKeepsBase(g, wired, h1, rest, q, Adopt(k));
    forall n | n in wired && n != k ensures NodeOk(g, Register(g, h1, q, Adopt(k)), rest, n) {
      RegisterKeepsNode(g, wired, h1, rest, q, Adopt(k), n);
      assert rest - {Item(q, Adopt(k))} == rest;
    }
    assert rest + Elems<Item>([]) == rest;
  }

  lemma FireChainSettled(g: Graph, wired: set<nat>, h: Heap, todo: set<Item>, it: Item, q: nat)
    requires Inv(g, wired, h, todo) && it in todo && it.cb.OnThen? && Settled(h, it.src)
    requires CbOk(g, it.cb) && Reaction(g[it.cb.k], h.cells[it.src].status) == Chain(q) && Settled(h, q)
    ensures Kept(g, wired, todo - {it}, Fire(g, h, h.cells[it.src].status, it.cb))
  {
    var k, rest, h1 := it.cb.k, todo - {it}, Log(h, it.cb);
    var h2 := Log(h1, Adopt(k));
    Taken(g, wired, h, todo, it);
    assert NodeOk(g, h, todo, k) && DefOk(g[k], k) && Home(g, wired, h, it.src, it.cb);
    forall s: nat ensures !Active(h1, rest, s, Adopt(k)) { NothingAdopted(g, wired, h, todo, k, s); }
    LogKeepsBase(g, wired, h1, rest, Adopt(k));
    forall n | n in wired && n != k ensures NodeOk(g, h2, rest, n) {
      LogKeepsNode(g, wired, h1, rest, Item(q, Adopt(k)), n);
      assert rest - {Item(q, Adopt(k))} == rest;
    }
    SettleKeepsBase(g, wired, h2, rest, k, h.cells[q].status);
    SettleTarget(g, wired, h2, rest, k, h.cells[q].status);
  }

  lemma FireAdopt(g: Graph, wired: set<nat>, h: Heap, todo: set<Item>, it: Item)
    requires Inv(g, wired, h, todo) && it in todo && it.cb.Adopt? && Settled(h, it.src)
    ensures Kept(g, wired, todo - {it}, Fire(g, h, h.cells[it.src].status, it.cb))
  {
    var k := it.cb.k;
    Taken(g, wired, h, todo, it);
    assert Home(g, wired, h, it.src, it.cb) && NodeOk(g, h, todo, k) && DefOk(g[k], k);
    SettleKeepsBase(g, wired, Log(h, it.cb), todo - {it}, k, h.cells[it.src].status);
    SettleTarget(g, wired, Log(h, it.cb), todo - {it}, k, h.cells[it.src].status);
  }

  /** Logging one more run leaves the first rejection an `all` saw in place. */
  lemma ReasonStable(g: Graph, h: Heap, k: nat, h': Heap, cb: Callback, r: Value)
    requires FirstReason(g, h, k, r) && h'.ran == h.ran + [cb] && |h'.cells| == |h.cells|
    requires forall s | 0 <= s < |h.cells| :: h'.cells[s].status == h.cells[s].status
    ensures FirstReason(g, h', k, r)
  {
    var j: nat :| SawReject(g, h, k, j) && h.cells[g[k].srcs[h.ran[j].i]].status == Rejected(r)
      && forall j': nat | j' < j :: !SawReject(g, h, k, j');
    forall j': nat | j' <= j ensures SawReject(g, h', k, j') == SawReject(g, h, k, j') {}
  }

  /** The first rejection an `all` sees is its reason. */
  lemma FirstSeen(g: Graph, h: Heap, h': Heap, todo: set<Item>, k: nat, i: nat, r: Value)
    requires GraphOk(g) && Shape(g, h) && CbOk(g, OnAll(k, i)) && AllOk(g, h, todo, k) && Pending(h, k)
    requires |h'.cells| == |h.cells| && h'.ran == h.ran + [OnAll(k, i)] && h'.cells[g[k].srcs[i]].status == Rejected(r)
    requires forall j | 0 <= j < |h.cells| && j != k :: h'.cells[j].status == h.cells[j].status
    requires g[k].srcs[i] < |h.cells|
    ensures FirstReason(g, h', k, r)
  {
    assert DefOk(g[k], k);
    forall n: nat | n < |g[k].srcs| && OnAll(k, n) in h.ran ensures h.cells[g[k].srcs[n]].status.Fulfilled? {
      assert InputOk(g, h, todo, k, n);
    }
    var j := |h.ran|;
    forall j': nat | j' < j ensures !SawReject(g, h', k, j') { assert h.ran[j'] in h.ran && h'.ran[j'] == h.ran[j']; }
    assert SawReject(g, h', k, j);
  }

  /** A rejected input settles a pending `all`, which was the first to hear of one. */
  lemma FireAllFirst(g: Graph, wired: set<nat>, h: Heap, todo: set<Item>, it: Item)
    requires Inv(g, wired, h, todo) && it in todo && it.cb.OnAll? && Settled(h, it.src)
    requires h.cells[it.src].status.Rejected? && Pending(h, it.cb.k)
    ensures Kept(g, wired, todo - {it}, Fire(g, h, h.cells[it.src].status, it.cb))
  {
    var k, i, st, rest, h1 := it.cb.k, it.cb.i, h.cells[it.src].status, todo - {it}, Log(h, it.cb);
    Taken(g, wired, h, todo, it);
    assert Home(g, wired, h, it.src, it.cb) && NodeOk(g, h, todo, k) && DefOk(g[k], k);
    assert i in Missing(g, h, k);
    var (h', due) := SettleCell(g, h1, k, st);
    SettleKeepsBase(g, wired, h1, rest, k, st);
    forall n | 0 <= n < |g[k].srcs| ensures InputOk(g, h', rest + Elems(due), k, n) {
      assert InputOk(g, h, todo, k, n);
    }
    assert Missing(g, h', k) == Missing(g, h, k);
    FirstSeen(g, h, h', todo, k, i, st.reason);
    SettleTarget(g, wired, h1, rest, k, st);
  }

  /** It changes nothing in one that is settled. */
  lemma FireAllLate(g: Graph, wired: set<nat>, h: Heap, todo: set<Item>, it: Item)
    requires Inv(g, wired, h, todo) && it in todo && it.cb.OnAll? && Settled(h, it.src)
    requires h.cells[it.src].status.Rejected? && Settled(h, it.cb.k)
    ensures Kept(g, wired, todo - {it}, Fire(g, h, h.cells[it.src].status, it.cb))
  {
    var k, i, rest, h1 := it.cb.k, it.cb.i, todo - {it}, Log(h, it.cb);
    Taken(g, wired, h, todo, it);
    assert Home(g, wired, h, it.src, it.cb) && NodeOk(g, h, todo, k) && DefOk(g[k], k);
    assert i in Missing(g, h, k);
    forall n | 0 <= n < |g[k].srcs| ensures InputOk(g, h1, rest, k, n) { assert InputOk(g, h, todo, k, n); }
    assert Missing(g, h1, k) == Missing(g, h, k);
    ReasonStable(g, h, k, h1, it.cb, h.cells[k].status.reason);
    assert rest + Elems<Item>([]) == rest;
  }

  lemma StoreKeepsBase(g: Graph, wired: set<nat>, h: Heap, todo: set<Item>, k: nat, i: nat, v: Value)
    requires Base(g, wired, h, todo) && CbOk(g, OnAll(k, i)) && k in wired
    ensures Base(g, wired, Store(g, h, k, i, v), todo)
  {
    var h' := Store(g, h, k, i, v);
    forall s, c | Home(g, wired, h, s, c) ensures Home(g, wired, h', s, c) {}
    forall s | 0 <= s < |g| ensures CellOk(g, wired, h', todo, s) { assert CellOk(g, wired, h, todo, s); }
  }

  lemma StoreKeepsNode(g: Graph, wired: set<nat>, h: Heap, todo: set<Item>, k: nat, i: nat, v: Value, n: nat)
    requires Base(g, wired, h, todo) && CbOk(g, OnAll(k, i)) && n in wired && n != k && NodeOk(g, h, todo, n)
    ensures NodeOk(g, Store(g, h, k, i, v), todo, n)
  {
    var h' := Store(g, h, k, i, v);
    if g[n].All? {
      forall m | 0 <= m < |g[n].srcs| ensures InputOk(g, h', todo, n, m) { assert InputOk(g, h, todo, n, m); }
      assert Missing(g, h', n) == Missing(g, h, n);
      forall j: nat ensures SawReject(g, h', n, j) == SawReject(g, h, n, j) {}
      if h.cells[n].status.Rejected? { assert FirstReason(g, h', n, h.cells[n].status.reason); }
    }
  }

  /** The state once result `i` is stored and before its promise may be settled. */
  lemma StoreState(g: Graph, wired: set<nat>, h: Heap, todo: set<Item>, it: Item)
    requires Inv(g, wired, h, todo) && it in todo && it.cb.OnAll? && Settled(h, it.src)
    requires h.cells[it.src].status.Fulfilled?
    requires CbOk(g, it.cb)
    ensures var k, i := it.cb.k, it.cb.i;
      var h2 := Store(g, Log(h, it.cb), k, i, h.cells[it.src].status.value);
      && Base(g, wired, h2, todo - {it}) && NodesOk(g, wired, h2, todo - {it}, {k})
      && (forall n | 0 <= n < |g[k].srcs| :: InputOk(g, h2, todo - {it}, k, n))
      && i in Missing(g, h, k) && Missing(g, h2, k) == Missing(g, h, k) - {i} && h2.cells[k].left == |Missing(g, h2, k)|
  {
    var k, i, v, rest, h1 := it.cb.k, it.cb.i, h.cells[it.src].status.value, todo - {it}, Log(h, it.cb);
    Taken(g, wired, h, todo, it);
    assert Home(g, wired, h, it.src, it.cb) && NodeOk(g, h, todo, k) && DefOk(g[k], k);
    assert i in Missing(g, h, k);
    var h2 := Store(g, h1, k, i, v);
    StoreKeepsBase(g, wired, h1, rest, k, i, v);
    forall n | n in wired && n != k ensures NodeOk(g, h2, rest, n) { StoreKeepsNode(g, wired, h1, rest, k, i, v, n); }
    forall n | 0 <= n < |g[k].srcs| ensures InputOk(g, h2, rest, k, n) { assert InputOk(g, h, todo, k, n); }
    assert Missing(g, h2, k) == Missing(g, h, k) - {i};
  }

  lemma FireAllLast(g: Graph, wired: set<nat>, h: Heap, todo: set<Item>, it: Item)
    requires Inv(g, wired, h, todo) && it in todo && it.cb.OnAll? && Settled(h, it.src)
    requires h.cells[it.src].status.Fulfilled?
    requires CbOk(g, it.cb) && h.cells[it.cb.k].left == 1
    ensures Kept(g, wired, todo - {it}, Fire(g, h, h.cells[it.src].status, it.cb))
  {
    var k, rest := it.cb.k, todo - {it};
    var h2 := Store(g, Log(h, it.cb), k, it.cb.i, h.cells[it.src].status.value);
    StoreState(g, wired, h, todo, it);
    assert DefOk(g[k], k) && Home(g, wired, h, it.src, it.cb) && NodeOk(g, h, todo, k);
    if h.cells[k].status.Rejected? { RejectedMissing(g, h, k, h.cells[k].status.reason); }
    var o := Fulfilled(Vec(h2.cells[k].results));
    var (h', due) := SettleCell(g, h2, k, o);
    SettleKeepsBase(g, wired, h2, rest, k, o);
    assert Missing(g, h', k) == Missing(g, h2, k);
    forall n | 0 <= n < |g[k].srcs| ensures InputOk(g, h', rest + Elems(due), k, n) {
      assert InputOk(g, h2, rest, k, n);
    }
    SettleTarget(g, wired, h2, rest, k, o);
  }

  lemma FireAllMore(g: Graph, wired: set<nat>, h: Heap, todo: set<Item>, it: Item)
    requires Inv(g, wired, h, todo) && it in todo && it.cb.OnAll? && Settled(h, it.src)
    requires h.cells[it.src].status.Fulfilled?
    requires CbOk(g, it.cb) && h.cells[it.cb.k].left != 1
    ensures Kept(g, wired, todo - {it}, Fire(g, h, h.cells[it.src].status, it.cb))
  {
    var k, rest := it.cb.k, todo - {it};
    var h2 := Store(g, Log(h, it.cb), k, it.cb.i, h.cells[it.src].status.value);
    StoreState(g, wired, h, todo, it);
    assert NodeOk(g, h, todo, k);
    if h.cells[k].status.Rejected? { ReasonStable(g, h, k, h2, it.cb, h.cells[k].status.reason); }
    assert rest + Elems<Item>([]) == rest;
  }

  /** An `all` that saw a rejection never counts down to zero. */
  lemma RejectedMissing(g: Graph, h: Heap, k: nat, r: Value)
    requires Shape(g, h) && k < |g| && g[k].All? && FirstReason(g, h, k, r)
    ensures exists i :: i in Missing(g, h, k) && OnAll(k, i) in h.ran
  {
    var j: nat :| SawReject(g, h, k, j) && h.cells[g[k].srcs[h.ran[j].i]].status == Rejected(r);
    assert h.ran[j].i in Missing(g, h, k) && h.ran[j] in h.ran;
  }

  /** One step keeps the invariant: the item leaves `todo`, the callbacks that became due enter it. */
  lemma ExecQueues(g: Graph, wired: set<nat>, h: Heap, todo: set<Item>, it: Item)
    requires Inv(g, wired, h, todo) && it in todo && Pending(h, it.src) && ItemOk(g, it)
    ensures Kept(g, wired, todo - {it}, Exec(g, h, it))
  {
    assert Home(g, wired, h, it.src, it.cb);
    assert Base(g, wired, h, todo - {it}) by {
      forall s | 0 <= s < |g| ensures CellOk(g, wired, h, todo - {it}, s) { assert CellOk(g, wired, h, todo, s); }
    }
    assert CellOk(g, wired, h, todo, it.src);
    RegisterKeepsBase(g, wired, h, todo - {it}, it.src, it.cb);
    forall n | n in wired ensures NodeOk(g, Register(g, h, it.src, it.cb), todo - {it}, n) {
      RegisterKeepsNode(g, wired, h, todo, it.src, it.cb, n);
    }
    assert todo - {it} + Elems<Item>([]) == todo - {it};
  }

  lemma FireThen(g: Graph, wired: set<nat>, h: Heap, todo: set<Item>, it: Item)
    requires Inv(g, wired, h, todo) && it in todo && it.cb.OnThen? && Settled(h, it.src) && ItemOk(g, it)
    ensures Kept(g, wired, todo - {it}, Fire(g, h, h.cells[it.src].status, it.cb))
  {
    assert DefOk(g[it.cb.k], it.cb.k);
    match Reaction(g[it.cb.k], h.cells[it.src].status) {
      case Return(_) => FireReturn(g, wired, h, todo, it);
      case Chain(q) =>
        if Pending(h, q) {
          FireChainPending(g, wired, h, todo, it, q);
        } else {
          FireChainSettled(g, wired, h, todo, it, q);
        }
    }
  }

  lemma FireAll(g: Graph, wired: set<nat>, h: Heap, todo: set<Item>, it: Item)
    requires Inv(g, wired, h, todo) && it in todo && it.cb.OnAll? && Settled(h, it.src) && ItemOk(g, it)
    ensures Kept(g, wired, todo - {it}, Fire(g, h, h.cells[it.src].status, it.cb))
  {
    if h.cells[it.src].status.Rejected? {
      if Pending(h, it.cb.k) { FireAllFirst(g, wired, h, todo, it); } else { FireAllLate(g, wired, h, todo, it); }
    } else if h.cells[it.cb.k].left == 1 {
      FireAllLast(g, wired, h, todo, it);
    } else {
      FireAllMore(g, wired, h, todo, it);
    }
  }

  lemma ExecKeeps(g: Graph, wired: set<nat>, h: Heap, todo: set<Item>, it: Item)
    requires Inv(g, wired, h, todo) && it in todo
    ensures Kept(g, wired, todo - {it}, Exec(g, h, it))
  {
    assert Home(g, wired, h, it.src, it.cb);
    if Pending(h, it.src) {
      ExecQueues(g, wired, h, todo, it);
    } else {
      match it.cb {
        case OnThen(_) => FireThen(g, wired, h, todo, it);
        case Adopt(_) => FireAdopt(g, wired, h, todo, it);
        case OnAll(_, _) => FireAll(g, wired, h, todo, it);
      }
    }
  }

  lemma {:induction false} RunKeeps(g: Graph, wired: set<nat>, h: Heap, todo: seq<Item>)
    requires Inv(g, wired, h, Elems(todo)) && Distinct(todo) && (forall x | x in todo :: ItemOk(g, x))
    ensures Inv(g, wired, Run(g, h, todo), {})
    decreases Pend(h), |todo|
  {
    if todo == [] {
      assert Elems(todo) == {};
    } else {
      var (h1, due) := Exec(g, h, todo[0]);
      assert todo[0] in todo;
      ExecKeeps(g, wired, h, Elems(todo), todo[0]);
      assert Elems(todo) - {todo[0]} == Elems(todo[1..]);
      assert Elems(due + todo[1..]) == Elems(todo[1..]) + Elems(due);
      forall i, j | 0 <= i < |due| && 0 <= j < |todo[1..]| ensures due[i] != todo[1..][j] {
        assert due[i] in Elems(due) && todo[1..][j] in Elems(todo[1..]);
      }
      RunKeeps(g, wired, h1, due + todo[1..]);
    }
  }
}

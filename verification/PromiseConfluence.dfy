/** Order independence: what the settled state of a promise graph may and may not depend on. */
module PromiseConfluence {
  import opened PromiseMachine
  import opened PromiseInvariant
  import opened PromiseOrder

  /** A rejection handler that hands over a promise hands over the same one whatever the reason. */
  ghost predicate Blind(f: Value -> Ret) {
    forall a, b :: f(a).Chain? ==> f(b) == f(a)
  }

  /** Same status, and the same value when fulfilled. A rejection reason may differ. */
  ghost predicate Similar(a: Status, b: Status) {
    match a
    case Pending => b.Pending?
    case Fulfilled(v) => b == Fulfilled(v)
    case Rejected(_) => b.Rejected?
  }

  ghost predicate SameInputs(v: World, w: World) {
    v.wired == w.wired && v.roots == w.roots
  }

  /** No `all` of different promises has a say in how promise `k` settles. */
  ghost predicate Clean(g: Graph, k: nat)
    decreases k
  {
    k < |g| &&
    match g[k]
    case Root => true
    case Then(s, f, r) =>
      && s < k && Clean(g, s)
      && (forall x :: f(x).Chain? ==> f(x).q < k && Clean(g, f(x).q))
      && (forall x :: r(x).Chain? ==> r(x).q < k && Clean(g, r(x).q))
    case All(ss) => ss != [] && ss[0] < k && Clean(g, ss[0]) && forall i | 0 <= i < |ss| :: ss[i] == ss[0]
  }

  /** A handler that picks the promise it hands over by the reason has a clean source. */
  ghost predicate SteadyAt(g: Graph, k: nat)
    requires k < |g|
  {
    g[k].Then? ==> Clean(g, g[k].src) || Blind(g[k].onR)
  }

  ghost predicate Steady(g: Graph) {
    forall k {:trigger SteadyAt(g, k)} | 0 <= k < |g| :: SteadyAt(g, k)
  }

  /** Alike in any case; equal, the rejection reason included, if clean. */
  ghost predicate Agrees(g: Graph, v: World, w: World, k: nat) {
    && k < |v.heap.cells| && k < |w.heap.cells| && Similar(StatusAt(v, k), StatusAt(w, k))
    && (Clean(g, k) ==> StatusAt(v, k) == StatusAt(w, k))
  }

  lemma ThenAgrees(g: Graph, v: World, w: World, k: nat)
    requires GraphOk(g) && Shape(g, v.heap) && Shape(g, w.heap) && k < |g| && g[k].Then? && SteadyAt(g, k)
    requires Meaning(g, v, k) && Meaning(g, w, k) && forall j: nat | j < k :: Agrees(g, v, w, j)
    ensures Agrees(g, v, w, k)
  {
    assert DefOk(g[k], k) && Agrees(g, v, w, g[k].src);
    if !StatusAt(v, g[k].src).Pending? {
      var x, y := Reaction(g[k], StatusAt(v, g[k].src)), Reaction(g[k], StatusAt(w, g[k].src));
      if x.Chain? { assert Agrees(g, v, w, x.q); }
      if y.Chain? { assert Agrees(g, v, w, y.q); }
    }
  }

  lemma AllAgrees(g: Graph, v: World, w: World, k: nat)
    requires GraphOk(g) && Shape(g, v.heap) && Shape(g, w.heap) && k < |g| && g[k].All?
    requires Meaning(g, v, k) && Meaning(g, w, k) && forall j: nat | j < k :: Agrees(g, v, w, j)
    ensures Agrees(g, v, w, k)
  {
    assert DefOk(g[k], k);
    var ss := g[k].srcs;
    assert forall i | 0 <= i < |ss| :: Agrees(g, v, w, ss[i]);
    assert AllMeaning(v, ss, StatusAt(v, k)) && AllMeaning(w, ss, StatusAt(w, k));
    if StatusAt(v, k).Fulfilled? && StatusAt(w, k).Fulfilled? {
      assert forall i | 0 <= i < |ss| :: StatusAt(v, ss[i]) == StatusAt(w, ss[i]);
      assert StatusAt(v, k).value.vs == StatusAt(w, k).value.vs;
    }
  }

  lemma WiredNotRoot(g: Graph, w: World, k: nat)
    requires WorldOk(g, w) && k < |g|
    ensures k in w.wired ==> !g[k].Root?
    ensures k !in w.wired && !g[k].Root? ==> StatusAt(w, k) == Pending
    ensures g[k].Root? ==> StatusAt(w, k) == if k in w.roots then w.roots[k] else Pending
  {
    if k !in w.wired && !g[k].Root? { assert Unwired(g, w.heap, k); }
  }

  /** The rules determine every promise from the roots, sources first. */
  lemma {:induction false} Determined(g: Graph, v: World, w: World, k: nat)
    requires WorldOk(g, v) && WorldOk(g, w) && SameInputs(v, w) && Steady(g) && k < |g|
    ensures Agrees(g, v, w, k)
  {
    forall j: nat | j < k ensures Agrees(g, v, w, j) { Determined(g, v, w, j); }
    WiredNotRoot(g, v, k);
    WiredNotRoot(g, w, k);
    if k in v.wired {
      WiredMeaning(g, v, k);
      WiredMeaning(g, w, k);
      assert SteadyAt(g, k);
      if g[k].Then? { ThenAgrees(g, v, w, k); } else { AllAgrees(g, v, w, k); }
    }
  }

  ghost predicate OpsOk(g: Graph, ops: seq<Op>) {
    forall op | op in ops :: OpOk(g, op)
  }

  /** Two runs that wire up the same promises and settle the roots the same way end alike, whatever the
      order of the events, and whether a callback was attached before or after its source settled. */
  lemma OrderIndependence(g: Graph, ops1: seq<Op>, ops2: seq<Op>)
    requires GraphOk(g) && Steady(g) && OpsOk(g, ops1) && OpsOk(g, ops2)
    requires SameInputs(Play(g, Init(g), ops1), Play(g, Init(g), ops2))
    ensures forall k: nat | k < |g| :: Agrees(g, Play(g, Init(g), ops1), Play(g, Init(g), ops2), k)
  {
    InitOk(g);
    PlayKeeps(g, Init(g), ops1);
    PlayKeeps(g, Init(g), ops2);
    forall k: nat | k < |g| ensures Agrees(g, Play(g, Init(g), ops1), Play(g, Init(g), ops2), k) {
      Determined(g, Play(g, Init(g), ops1), Play(g, Init(g), ops2), k);
    }
  }

  // ---- roots rejected for different reasons ----

  ghost predicate AlikeInputs(v: World, w: World) {
    v.wired == w.wired && v.roots.Keys == w.roots.Keys && forall k | k in v.roots :: Similar(v.roots[k], w.roots[k])
  }

  lemma AlikeAt(g: Graph, v: World, w: World, k: nat)
    requires GraphOk(g) && Shape(g, v.heap) && Shape(g, w.heap) && k < |g| && !g[k].Root?
    requires g[k].Then? ==> Blind(g[k].onR)
    requires Meaning(g, v, k) && Meaning(g, w, k) && forall j: nat | j < k :: Similar(StatusAt(v, j), StatusAt(w, j))
    ensures Similar(StatusAt(v, k), StatusAt(w, k))
  {
    assert DefOk(g[k], k);
  }

  /** With blind handlers throughout, nothing but reasons depends on the reasons roots are rejected with. */
  lemma {:induction false} ReasonIndependence(g: Graph, v: World, w: World, k: nat)
    requires WorldOk(g, v) && WorldOk(g, w) && AlikeInputs(v, w) && k < |g|
    requires forall j | 0 <= j < |g| && g[j].Then? :: Blind(g[j].onR)
    ensures Similar(StatusAt(v, k), StatusAt(w, k))
  {
    forall j: nat | j < k ensures Similar(StatusAt(v, j), StatusAt(w, j)) { ReasonIndependence(g, v, w, j); }
    WiredNotRoot(g, v, k);
    WiredNotRoot(g, w, k);
    if k in v.wired {
      WiredMeaning(g, v, k);
      WiredMeaning(g, w, k);
      AlikeAt(g, v, w, k);
    }
  }

  // ---- what a run was given ----

  lemma {:induction false} PlayConcat(g: Graph, w: World, a: seq<Op>, b: seq<Op>)
    requires GraphOk(g) && Shape(g, w.heap) && (forall op | op in a :: OpOk(g, op))
    requires forall op | op in b :: OpOk(g, op)
    ensures forall op | op in a + b :: OpOk(g, op)
    ensures Play(g, w, a + b) == Play(g, Play(g, w, a), b)
    decreases |a|
  {
    if a == [] {
      assert a + b == b;
    } else {
      assert (a + b)[1..] == a[1..] + b && (a + b)[0] == a[0];
      PlayConcat(g, Step(g, w, a[0]), a[1..], b);
    }
  }

  function Offered(roots: map<nat, Status>, ops: seq<Op>): map<nat, Status>
    decreases |ops|
  {
    if ops == [] then roots
    else Offered(if ops[0].Wire? || ops[0].k in roots then roots else roots[ops[0].k := ops[0].outcome], ops[1..])
  }

  function Wires(ops: seq<Op>): set<nat> {
    set op | op in ops && op.Wire? :: op.k
  }

  /** What is wired, and what each root was first given, can be read off the events. */
  lemma {:induction false} PlayInputs(g: Graph, w: World, ops: seq<Op>)
    requires GraphOk(g) && Shape(g, w.heap) && (forall op | op in ops :: OpOk(g, op))
    ensures Play(g, w, ops).wired == w.wired + Wires(ops)
    ensures Play(g, w, ops).roots == Offered(w.roots, ops)
    decreases |ops|
  {
    if ops != [] {
      PlayInputs(g, Step(g, w, ops[0]), ops[1..]);
      assert Wires(ops) == Wires(ops[1..]) + if ops[0].Wire? then {ops[0].k} else {} by {
        assert forall op | op in ops :: op == ops[0] || op in ops[1..];
      }
    }
  }

  // ---- the hypothesis on rejection handlers is needed, in any graph ----

  /** From `w`, any two runs that offer the same inputs leave promise `k` alike. */
  ghost predicate OrderFree(g: Graph, w: World, k: nat)
    requires GraphOk(g) && Shape(g, w.heap) && k < |g|
  {
    forall ops1, ops2 | OpsOk(g, ops1) && OpsOk(g, ops2) && SameInputs(Play(g, w, ops1), Play(g, w, ops2)) ::
      Similar(StatusAt(Play(g, w, ops1), k), StatusAt(Play(g, w, ops2), k))
  }

  /** Promise `k` comes from an `all` with the different roots `x` and `y` among its inputs, and its
      rejection handler hands over no promises but roots. */
  ghost predicate Picks(g: Graph, k: nat, x: nat, y: nat) {
    && k < |g| && g[k].Then? && g[k].src < |g| && g[g[k].src].All? && x != y
    && x in g[g[k].src].srcs && y in g[g[k].src].srcs && x < |g| && y < |g| && g[x] == Root && g[y] == Root
    && forall v :: Hands(g, g[k].onR(v))
  }

  ghost predicate Hands(g: Graph, r: Ret) {
    r.Chain? ==> r.q < |g| && g[r.q] == Root
  }

  /** Wire up the `all` and promise `k`, then reject root `x` with `v`. */
  function RejectFirst(g: Graph, k: nat, x: nat, v: Value): seq<Op>
    requires k < |g| && g[k].Then?
  {
    [Wire(g[k].src), Wire(k), SettleRoot(x, Rejected(v))]
  }

  lemma RejectInputs(g: Graph, k: nat, x: nat, v: Value)
    requires k < |g| && g[k].Then?
    ensures Wires(RejectFirst(g, k, x, v)) == {g[k].src, k}
    ensures Offered(map[], RejectFirst(g, k, x, v)) == map[x := Rejected(v)]
  {
    var ops := RejectFirst(g, k, x, v);
    assert ops[0] in ops && ops[1] in ops;
    var last := SettleRoot(x, Rejected(v));
    assert ops[1..] == [Wire(k), last] && [Wire(k), last][1..] == [last] && [last][1..] == [];
    assert Offered(map[], [last]) == Offered(map[x := Rejected(v)], []);
    assert Offered(map[], [Wire(k), last]) == Offered(map[], [last]);
  }

  /** When root `x` alone is settled, and rejected, an `all` whose inputs are not derived reports its reason. */
  lemma FirstObserved(g: Graph, a: nat, x: nat, v: Value, w: World)
    requires WorldOk(g, w) && a < |g| && g[a].All? && a in w.wired && forall s | s in g[a].srcs :: s !in w.wired
    requires x in g[a].srcs && x < |g| && g[x] == Root && w.roots == map[x := Rejected(v)]
    ensures StatusAt(w, a) == Rejected(v)
  {
    AllSettles(g, w, a);
    WiredNotRoot(g, w, x);
    var ss := g[a].srcs;
    var i :| 0 <= i < |ss| && ss[i] == x;
    assert StatusAt(w, ss[i]) == Rejected(v);
    assert DefOk(g[a], a);
    forall j | 0 <= j < |ss| && StatusAt(w, ss[j]).Rejected? ensures StatusAt(w, ss[j]) == Rejected(v) {
      WiredNotRoot(g, w, ss[j]);
    }
  }

  /** Events that wire up the two and then reject root `x` with `v`. */
  ghost predicate Rejects(g: Graph, k: nat, x: nat, v: Value, pre: seq<Op>) {
    && k < |g| && g[k].Then? && OpsOk(g, pre) && Wires(pre) == {g[k].src, k}
    && Offered(map[], pre) == map[x := Rejected(v)]
  }

  ghost predicate Blank(g: Graph, w: World) {
    GraphOk(g) && WorldOk(g, w) && w.wired == {} && w.roots == map[]
  }

  lemma Prefix(g: Graph, k: nat, x: nat, y: nat, v: Value, pre: seq<Op>, w0: World)
    requires Blank(g, w0) && Picks(g, k, x, y) && Rejects(g, k, x, v, pre)
    ensures var w := Play(g, w0, pre);
      && WorldOk(g, w) && w.wired == {g[k].src, k} && w.roots == map[x := Rejected(v)]
      && StatusAt(w, g[k].src) == Rejected(v)
  {
    PlayKeeps(g, w0, pre);
    PlayInputs(g, w0, pre);
    assert DefOk(g[k], k) && DefOk(g[g[k].src], g[k].src);
    FirstObserved(g, g[k].src, x, v, Play(g, w0, pre));
  }

  lemma Suffix(g: Graph, k: nat, v: Value, post: seq<Op>, w: World)
    requires GraphOk(g) && WorldOk(g, w) && k in w.wired && k < |g| && g[k].Then? && g[k].src < |g|
    requires StatusAt(w, g[k].src) == Rejected(v) && OpsOk(g, post) && Wires(post) == {}
    ensures var r := Play(g, w, post);
      && WorldOk(g, r) && r.wired == w.wired && r.roots == Offered(w.roots, post)
      && match g[k].onR(v) case Return(u) => StatusAt(r, k) == Rejected(u)
                           case Chain(q) => q < k && StatusAt(r, k) == StatusAt(r, q)
  {
    PlayKeeps(g, w, post);
    PlayInputs(g, w, post);
    assert DefOk(g[k], k);
    ThenMeaning(g, Play(g, w, post), k);
  }

  /** Events that wire up `wired`, give the roots `roots` and leave promise `k` with status `st`. */
  ghost predicate Ends(g: Graph, w0: World, k: nat, ops: seq<Op>, wired: set<nat>, roots: map<nat, Status>, st: Status)
    requires GraphOk(g) && Shape(g, w0.heap) && k < |g|
  {
    OpsOk(g, ops) && var w := Play(g, w0, ops); w.wired == wired && w.roots == roots && StatusAt(w, k) == st
  }

  /** So promise `k` reacts to the first reason, whatever happens later. */
  lemma Reacts(g: Graph, k: nat, x: nat, y: nat, v: Value, pre: seq<Op>, post: seq<Op>, r: map<nat, Status>, w0: World)
    requires Blank(g, w0) && Picks(g, k, x, y) && Rejects(g, k, x, v, pre)
    requires OpsOk(g, post) && Wires(post) == {} && r == Offered(map[x := Rejected(v)], post)
    requires g[k].onR(v).Chain? ==> g[k].onR(v).q in r
    ensures Ends(g, w0, k, pre + post, {g[k].src, k}, r,
      if g[k].onR(v).Chain? then r[g[k].onR(v).q] else Rejected(g[k].onR(v).v))
  {
    Prefix(g, k, x, y, v, pre, w0);
    Suffix(g, k, v, post, Play(g, w0, pre));
    PlayConcat(g, w0, pre, post);
    var w := Play(g, w0, pre + post);
    assert Hands(g, g[k].onR(v));
    if g[k].onR(v).Chain? { WiredNotRoot(g, w, g[k].onR(v).q); }
  }

  ghost predicate ReactsTo(g: Graph, k: nat, x: nat, y: nat, w0: World, v: Value, pre: seq<Op>, post: seq<Op>,
      r: map<nat, Status>)
    requires GraphOk(g) && Shape(g, w0.heap) && k < |g| && g[k].Then?
  {
    && Picks(g, k, x, y) && Rejects(g, k, x, v, pre)
    && OpsOk(g, post) && Wires(post) == {} && r == Offered(map[x := Rejected(v)], post)
    && (g[k].onR(v).Chain? ==> g[k].onR(v).q in r)
    ==> Ends(g, w0, k, pre + post, {g[k].src, k}, r,
          if g[k].onR(v).Chain? then r[g[k].onR(v).q] else Rejected(g[k].onR(v).v))
  }

  ghost predicate Reactive(g: Graph, k: nat, w0: World)
    requires GraphOk(g) && Shape(g, w0.heap) && k < |g| && g[k].Then?
  {
    forall x, y, v, pre, post, r {:trigger ReactsTo(g, k, x, y, w0, v, pre, post, r)} ::
      ReactsTo(g, k, x, y, w0, v, pre, post, r)
  }

  lemma AlwaysReacts(g: Graph, k: nat, w0: World)
    requires Blank(g, w0) && k < |g| && g[k].Then?
    ensures Reactive(g, k, w0)
  {
    forall x: nat, y: nat, v, pre, post, r ensures ReactsTo(g, k, x, y, w0, v, pre, post, r) {
      if Picks(g, k, x, y) && Rejects(g, k, x, v, pre) && OpsOk(g, post) && Wires(post) == {}
        && r == Offered(map[x := Rejected(v)], post) && (g[k].onR(v).Chain? ==> g[k].onR(v).q in r)
      {
        Reacts(g, k, x, y, v, pre, post, r, w0);
      }
    }
  }

  lemma Differ(g: Graph, w0: World, k: nat, ops1: seq<Op>, ops2: seq<Op>, wired: set<nat>, roots: map<nat, Status>,
      st1: Status, st2: Status)
    requires GraphOk(g) && Shape(g, w0.heap) && k < |g| && !Similar(st1, st2)
    requires Ends(g, w0, k, ops1, wired, roots, st1) && Ends(g, w0, k, ops2, wired, roots, st2)
    ensures !OrderFree(g, w0, k)
  {
    assert SameInputs(Play(g, w0, ops1), Play(g, w0, ops2));
  }

  /** After root `y`, root `x` is rejected with `v`, then promise `q` fulfilled and the one in `other` rejected. */
  function Later(x: nat, y: nat, v: Value, q: nat, other: Ret): seq<Op> {
    [SettleRoot(x, Rejected(v)), SettleRoot(q, Fulfilled(Unit))]
    + if other.Chain? && other.q != x && other.q != y then [SettleRoot(other.q, Rejected(Unit))] else []
  }

  lemma LaterInputs(g: Graph, y: nat, d: Value, x: nat, c: Value, q: nat, other: Ret)
    requires x < |g| && y < |g| && g[x] == Root && g[y] == Root && x != y && q != x && q != y
    requires Hands(g, Chain(q)) && Hands(g, other) && (other.Chain? ==> other.q != q)
    ensures OpsOk(g, Later(x, y, c, q, other)) && Wires(Later(x, y, c, q, other)) == {}
    ensures var r := Offered(map[y := Rejected(d)], Later(x, y, c, q, other));
      r == map[x := Rejected(c), y := Rejected(d), q := Fulfilled(Unit)]
        + if other.Chain? && other.q != x && other.q != y then map[other.q := Rejected(Unit)] else map[]
  {
    OfferedThree(map[y := Rejected(d)], Later(x, y, c, q, other));
  }

  lemma OfferedThree(roots: map<nat, Status>, ops: seq<Op>)
    requires (forall op | op in ops :: op.SettleRoot? && op.k !in roots) && 2 <= |ops| <= 3
    requires forall i, j | 0 <= i < j < |ops| :: ops[i].k != ops[j].k
    ensures var r := roots[ops[0].k := ops[0].outcome][ops[1].k := ops[1].outcome];
      Offered(roots, ops) == if |ops| == 2 then r else r[ops[2].k := ops[2].outcome]
  {
    var r1 := roots[ops[0].k := ops[0].outcome];
    var r2 := r1[ops[1].k := ops[1].outcome];
    assert ops[1..][1..] == ops[2..] && (|ops| == 3 ==> ops[2..][1..] == []);
    assert ops[1..][0] == ops[1];
    assert Offered(roots, ops) == Offered(r1, ops[1..]) == Offered(r2, ops[2..]);
    if |ops| == 3 {
      assert ops[2..][0] == ops[2];
      assert Offered(r2, ops[2..]) == Offered(r2[ops[2].k := ops[2].outcome], ops[2..][1..]);
    }
  }

  lemma RejectsFirst(g: Graph, k: nat, x: nat, v: Value)
    requires k < |g| && g[k].Then? && g[k].src < |g| && g[g[k].src].All? && x < |g| && g[x] == Root
    ensures Rejects(g, k, x, v, RejectFirst(g, k, x, v))
  {
    RejectInputs(g, k, x, v);
  }

  /** The two orders offer the same inputs in the end. */
  lemma LaterMeet(g: Graph, k: nat, x: nat, y: nat, a: Value, b: Value, post1: seq<Op>, post2: seq<Op>)
    requires Picks(g, k, x, y) && g[k].onR(a).Chain? && g[k].onR(b) != g[k].onR(a)
    requires g[k].onR(a).q != x && g[k].onR(a).q != y
    requires post1 == Later(y, x, b, g[k].onR(a).q, g[k].onR(b)) && post2 == Later(x, y, a, g[k].onR(a).q, g[k].onR(b))
    ensures OpsOk(g, post1) && OpsOk(g, post2) && Wires(post1) == Wires(post2) == {}
    ensures var r, f := Offered(map[x := Rejected(a)], post1), g[k].onR;
      && r == Offered(map[y := Rejected(b)], post2) && f(a).q in r && r[f(a).q].Fulfilled?
      && (f(b).Chain? ==> f(b).q in r && r[f(b).q].Rejected?)
  {
    assert Hands(g, g[k].onR(a)) && Hands(g, g[k].onR(b));
    LaterInputs(g, x, a, y, b, g[k].onR(a).q, g[k].onR(b));
    LaterInputs(g, y, b, x, a, g[k].onR(a).q, g[k].onR(b));
  }

  lemma Clash(g: Graph, k: nat, x: nat, y: nat, a: Value, b: Value,
              pre1: seq<Op>, pre2: seq<Op>, post1: seq<Op>, post2: seq<Op>, w0: World)
    requires GraphOk(g) && Shape(g, w0.heap) && Picks(g, k, x, y) && Picks(g, k, y, x) && Reactive(g, k, w0)
    requires g[k].onR(a).Chain?
    requires Rejects(g, k, x, a, pre1) && Rejects(g, k, y, b, pre2)
    requires OpsOk(g, post1) && OpsOk(g, post2) && Wires(post1) == Wires(post2) == {}
    requires var r, f := Offered(map[x := Rejected(a)], post1), g[k].onR;
      && r == Offered(map[y := Rejected(b)], post2) && f(a).q in r && r[f(a).q].Fulfilled?
      && (f(b).Chain? ==> f(b).q in r && r[f(b).q].Rejected?)
    ensures !OrderFree(g, w0, k)
  {
    var r, f := Offered(map[x := Rejected(a)], post1), g[k].onR;
    assert ReactsTo(g, k, x, y, w0, a, pre1, post1, r);
    assert ReactsTo(g, k, y, x, w0, b, pre2, post2, r);
    Differ(g, w0, k, pre1 + post1, pre2 + post2, {g[k].src, k}, r, r[f(a).q],
      if f(b).Chain? then r[f(b).q] else Rejected(f(b).v));
  }

  /** Two rejections arriving in either order, and the promises handed over settled differently. */
  lemma NotBlind(g: Graph, k: nat, x: nat, y: nat, a: Value, b: Value, w0: World)
    requires Blank(g, w0) && Picks(g, k, x, y) && g[k].onR(a).Chain? && g[k].onR(b) != g[k].onR(a)
    requires g[k].onR(a).q != x && g[k].onR(a).q != y
    ensures !OrderFree(g, w0, k)
  {
    var post1, post2 := Later(y, x, b, g[k].onR(a).q, g[k].onR(b)), Later(x, y, a, g[k].onR(a).q, g[k].onR(b));
    AlwaysReacts(g, k, w0);
    LaterMeet(g, k, x, y, a, b, post1, post2);
    RejectsFirst(g, k, x, a);
    RejectsFirst(g, k, y, b);
    Clash(g, k, x, y, a, b, RejectFirst(g, k, x, a), RejectFirst(g, k, y, b), post1, post2, w0);
  }

  /** No reason is answered with one of the two roots. */
  ghost predicate PicksOthers(g: Graph, k: nat, x: nat, y: nat) {
    Picks(g, k, x, y) && forall v :: g[k].onR(v).Chain? ==> g[k].onR(v).q != x && g[k].onR(v).q != y
  }

  /** In any graph that is steady elsewhere, a rejection handler behind an `all` of different roots, whatever its other
      inputs, leaves its promise independent of the order if and only if it is blind to the reason. */
  lemma OrderFreeIffBlind(g: Graph, k: nat, x: nat, y: nat)
    requires GraphOk(g) && PicksOthers(g, k, x, y) && forall j | 0 <= j < |g| && j != k :: SteadyAt(g, j)
    ensures Shape(g, Init(g).heap) && (OrderFree(g, Init(g), k) <==> Blind(g[k].onR))
  {
    InitOk(g);
    if Blind(g[k].onR) {
      assert SteadyAt(g, k) && Steady(g);
      forall ops1, ops2 | OpsOk(g, ops1) && OpsOk(g, ops2) && SameInputs(Play(g, Init(g), ops1), Play(g, Init(g), ops2))
        ensures Similar(StatusAt(Play(g, Init(g), ops1), k), StatusAt(Play(g, Init(g), ops2), k))
      {
        OrderIndependence(g, ops1, ops2);
        assert Agrees(g, Play(g, Init(g), ops1), Play(g, Init(g), ops2), k);
      }
    } else {
      var a, b :| g[k].onR(a).Chain? && g[k].onR(b) != g[k].onR(a);
      NotBlind(g, k, x, y, a, b, Init(g));
    }
  }

  // ---- and if the handler may hand over the rejected roots themselves ----

  /** Two different inputs besides `q`. */
  ghost predicate TwoBesides(ss: seq<nat>, q: nat) {
    exists i, j :: 0 <= i < |ss| && 0 <= j < |ss| && ss[i] != ss[j] && ss[i] != q && ss[j] != q
  }

  /** A promise handed over for one reason is handed over for all, unless it is one of just two inputs. */
  ghost predicate BlindBeside(ss: seq<nat>, f: Value -> Ret) {
    forall a, b | f(a).Chain? && TwoBesides(ss, f(a).q) :: f(b) == f(a)
  }

  /** Promise `k` comes from an `all` of roots, two of them different, and hands over roots. */
  ghost predicate OfRoots(g: Graph, k: nat) {
    && k < |g| && g[k].Then? && g[k].src < |g| && g[g[k].src].All?
    && (forall i | 0 <= i < |g[g[k].src].srcs| :: IsRoot(g, g[g[k].src].srcs[i]))
    && (exists i :: 0 <= i < |g[g[k].src].srcs| && g[g[k].src].srcs[i] != g[g[k].src].srcs[0])
    && forall v :: Hands(g, g[k].onR(v))
  }

  ghost predicate IsRoot(g: Graph, x: nat) {
    x < |g| && g[x] == Root
  }

  /** Both reasons are there, so what is handed over for either is rejected or the same. */
  /** A rejected `all` has the reason of an input. */
  lemma RejectedInput(g: Graph, v: World, k: nat) returns (i: nat)
    requires WorldOk(g, v) && k in v.wired && k < |g| && g[k].All? && StatusAt(v, k).Rejected?
    ensures i < |g[k].srcs| && g[k].srcs[i] < |g| && StatusAt(v, g[k].srcs[i]) == StatusAt(v, k)
  {
    WiredMeaning(g, v, k);
    assert DefOk(g[k], k) && AllMeaning(v, g[k].srcs, StatusAt(v, k));
    i :| i < |g[k].srcs| && StatusAt(v, g[k].srcs[i]) == Rejected(StatusAt(v, k).reason);
  }

  lemma HandedAlike(g: Graph, v: World, w: World, k: nat)
    requires WorldOk(g, v) && WorldOk(g, w) && SameInputs(v, w) && OfRoots(g, k) && k in v.wired && g[k].src in v.wired
    requires BlindBeside(g[g[k].src].srcs, g[k].onR)
    requires StatusAt(v, g[k].src).Rejected? && StatusAt(w, g[k].src).Rejected?
    ensures Similar(StatusAt(v, k), StatusAt(w, k))
  {
    var s, ss, f := g[k].src, g[g[k].src].srcs, g[k].onR;
    WiredMeaning(g, v, k);
    WiredMeaning(g, w, k);
    assert DefOk(g[s], s) && DefOk(g[k], k);
    var a, b := StatusAt(v, s).reason, StatusAt(w, s).reason;
    var i := RejectedInput(g, v, s);
    var j := RejectedInput(g, w, s);
    assert IsRoot(g, ss[i]) && IsRoot(g, ss[j]) && Hands(g, f(a)) && Hands(g, f(b));
    RootAlike(g, v, w, ss[i]);
    RootAlike(g, v, w, ss[j]);
    if f(a).Chain? { RootAlike(g, v, w, f(a).q); }
    if f(b).Chain? { RootAlike(g, v, w, f(b).q); }
    if f(a) != f(b) {
      assert ss[i] != ss[j];
      assert f(a).Chain? ==> f(a).q == ss[i] || f(a).q == ss[j];
      assert f(b).Chain? ==> f(b).q == ss[i] || f(b).q == ss[j];
    }
  }

  lemma RootAlike(g: Graph, v: World, w: World, x: nat)
    requires WorldOk(g, v) && WorldOk(g, w) && SameInputs(v, w) && IsRoot(g, x)
    ensures StatusAt(v, x) == StatusAt(w, x)
  {
    WiredNotRoot(g, v, x);
    WiredNotRoot(g, w, x);
  }

  /** Below promise `k` nothing matters: its source and what it hands over are settled by the roots. */
  lemma OfRootsAlike(g: Graph, v: World, w: World, k: nat)
    requires WorldOk(g, v) && WorldOk(g, w) && SameInputs(v, w) && OfRoots(g, k)
    requires BlindBeside(g[g[k].src].srcs, g[k].onR) && (forall x :: Hands(g, g[k].onF(x)))
    ensures Similar(StatusAt(v, k), StatusAt(w, k))
  {
    WiredNotRoot(g, v, k);
    WiredNotRoot(g, w, k);
    if k in v.wired {
      AllOfRootsAlike(g, v, w, g[k].src);
      WiredMeaning(g, v, k);
      WiredMeaning(g, w, k);
      if StatusAt(v, g[k].src).Rejected? {
        WiredNotRoot(g, v, g[k].src);
        HandedAlike(g, v, w, k);
      } else if StatusAt(v, g[k].src).Fulfilled? {
        var x := StatusAt(v, g[k].src).value;
        assert Hands(g, g[k].onF(x));
        if g[k].onF(x).Chain? { RootAlike(g, v, w, g[k].onF(x).q); }
      }
    }
  }

  lemma AllOfRootsAlike(g: Graph, v: World, w: World, s: nat)
    requires WorldOk(g, v) && WorldOk(g, w) && SameInputs(v, w) && s < |g| && g[s].All?
    requires forall i | 0 <= i < |g[s].srcs| :: IsRoot(g, g[s].srcs[i])
    ensures Similar(StatusAt(v, s), StatusAt(w, s))
  {
    WiredNotRoot(g, v, s);
    WiredNotRoot(g, w, s);
    var ss := g[s].srcs;
    if s in v.wired {
      WiredMeaning(g, v, s);
      WiredMeaning(g, w, s);
      assert AllMeaning(v, ss, StatusAt(v, s)) && AllMeaning(w, ss, StatusAt(w, s));
      forall i | 0 <= i < |ss| ensures StatusAt(v, ss[i]) == StatusAt(w, ss[i]) { RootAlike(g, v, w, ss[i]); }
      if StatusAt(v, s).Fulfilled? && StatusAt(w, s).Fulfilled? {
        assert StatusAt(v, s).value.vs == StatusAt(w, s).value.vs;
      }
    }
  }

  /** The exact condition when the handler may hand over any root, an input of the `all` among them. */
  lemma OrderFreeIff(g: Graph, k: nat)
    requires GraphOk(g) && OfRoots(g, k) && forall x :: Hands(g, g[k].onF(x))
    ensures Shape(g, Init(g).heap) && (OrderFree(g, Init(g), k) <==> BlindBeside(g[g[k].src].srcs, g[k].onR))
  {
    InitOk(g);
    var ss, f := g[g[k].src].srcs, g[k].onR;
    if BlindBeside(ss, f) {
      forall ops1, ops2 | OpsOk(g, ops1) && OpsOk(g, ops2) && SameInputs(Play(g, Init(g), ops1), Play(g, Init(g), ops2))
        ensures Similar(StatusAt(Play(g, Init(g), ops1), k), StatusAt(Play(g, Init(g), ops2), k))
      {
        PlayKeeps(g, Init(g), ops1);
        PlayKeeps(g, Init(g), ops2);
        OfRootsAlike(g, Play(g, Init(g), ops1), Play(g, Init(g), ops2), k);
      }
    } else {
      var a, b :| f(a).Chain? && TwoBesides(ss, f(a).q) && f(b) != f(a);
      var i, j :| 0 <= i < |ss| && 0 <= j < |ss| && ss[i] != ss[j] && ss[i] != f(a).q && ss[j] != f(a).q;
      assert IsRoot(g, ss[i]) && IsRoot(g, ss[j]);
      NotBlind(g, k, ss[i], ss[j], a, b, Init(g));
    }
  }

  /** Wire up the `all` `a`, reject root `x` with `v` and then root `y` with `u`. */
  function TwoRejections(a: nat, x: nat, v: Value, y: nat, u: Value): seq<Op> {
    [Wire(a), SettleRoot(x, Rejected(v))] + [SettleRoot(y, Rejected(u))]
  }

  lemma TwoInputs(a: nat, x: nat, v: Value, y: nat, u: Value, pre: seq<Op>, post: seq<Op>)
    requires x != y && pre == [Wire(a), SettleRoot(x, Rejected(v))] && post == [SettleRoot(y, Rejected(u))]
    ensures Wires(pre) == {a} && Wires(post) == {} && Offered(map[], pre) == map[x := Rejected(v)]
    ensures Offered(map[x := Rejected(v)], post) == map[x := Rejected(v), y := Rejected(u)]
  {
    assert pre[1..] == [SettleRoot(x, Rejected(v))] && pre[1..][1..] == [] && post[1..] == [];
    assert pre[0] in pre;
    assert Offered(map[], pre) == Offered(map[], pre[1..]) == Offered(map[x := Rejected(v)], []);
    assert Offered(map[x := Rejected(v)], post) == Offered(map[x := Rejected(v), y := Rejected(u)], []);
  }

  lemma StaysRejected(g: Graph, a: nat, x: nat, v: Value, pre: seq<Op>, post: seq<Op>, roots: map<nat, Status>,
      w0: World)
    requires Blank(g, w0) && a < |g| && g[a].All? && x in g[a].srcs && x < |g| && g[x] == Root
    requires OpsOk(g, pre) && OpsOk(g, post) && Wires(pre) == {a} && Wires(post) == {}
    requires Offered(map[], pre) == map[x := Rejected(v)] && Offered(map[x := Rejected(v)], post) == roots
    ensures Ends(g, w0, a, pre + post, {a}, roots, Rejected(v))
  {
    GetsRejected(g, a, x, v, pre, w0);
    RunsOn(g, Play(g, w0, pre), post, a, v);
    PlayConcat(g, w0, pre, post);
  }

  lemma GetsRejected(g: Graph, a: nat, x: nat, v: Value, pre: seq<Op>, w0: World)
    requires Blank(g, w0) && a < |g| && g[a].All? && x in g[a].srcs && x < |g| && g[x] == Root
    requires OpsOk(g, pre) && Wires(pre) == {a} && Offered(map[], pre) == map[x := Rejected(v)]
    ensures var w := Play(g, w0, pre);
      WorldOk(g, w) && w.wired == {a} && w.roots == map[x := Rejected(v)] && StatusAt(w, a) == Rejected(v)
  {
    PlayKeeps(g, w0, pre);
    PlayInputs(g, w0, pre);
    assert DefOk(g[a], a);
    FirstObserved(g, a, x, v, Play(g, w0, pre));
  }

  lemma RunsOn(g: Graph, w: World, post: seq<Op>, a: nat, v: Value)
    requires GraphOk(g) && WorldOk(g, w) && OpsOk(g, post) && Wires(post) == {} && a < |g|
    requires StatusAt(w, a) == Rejected(v)
    ensures var r := Play(g, w, post);
      r.wired == w.wired && r.roots == Offered(w.roots, post) && StatusAt(r, a) == Rejected(v)
  {
    PlayKeeps(g, w, post);
    PlayInputs(g, w, post);
  }

  lemma FirstStays(g: Graph, a: nat, x: nat, v: Value, y: nat, u: Value, w0: World)
    requires Blank(g, w0) && a < |g| && g[a].All? && x in g[a].srcs && x != y
    requires x < |g| && y < |g| && g[x] == Root && g[y] == Root
    ensures Ends(g, w0, a, TwoRejections(a, x, v, y, u), {a}, map[x := Rejected(v), y := Rejected(u)], Rejected(v))
  {
    var pre, post := [Wire(a), SettleRoot(x, Rejected(v))], [SettleRoot(y, Rejected(u))];
    TwoInputs(a, x, v, y, u, pre, post);
    StaysRejected(g, a, x, v, pre, post, map[x := Rejected(v), y := Rejected(u)], w0);
  }

  /** In any graph, an `all` of different roots that are both rejected reports either reason, from the same
      inputs: the condition on clean promises cannot be dropped. */
  lemma ReasonsDiffer(g: Graph, a: nat, x: nat, y: nat, v: Value, u: Value)
    requires GraphOk(g) && a < |g| && g[a].All? && x in g[a].srcs && y in g[a].srcs && x != y
    requires x < |g| && y < |g| && g[x] == Root && g[y] == Root
    ensures var roots := map[x := Rejected(v), y := Rejected(u)];
      && Shape(g, Init(g).heap)
      && Ends(g, Init(g), a, TwoRejections(a, x, v, y, u), {a}, roots, Rejected(v))
      && Ends(g, Init(g), a, TwoRejections(a, y, u, x, v), {a}, roots, Rejected(u))
  {
    InitOk(g);
    assert map[y := Rejected(u), x := Rejected(v)] == map[x := Rejected(v), y := Rejected(u)];
    FirstStays(g, a, x, v, y, u, Init(g));
    FirstStays(g, a, y, u, x, v, Init(g));
  }
}

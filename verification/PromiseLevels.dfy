/** Recursion against the explicit stack, callback by callback: they differ in when a dependant is visited, and
    that shows only where an `all` lists a promise and another one that comes from it. */
module PromiseLevels {
  import opened PromiseMachine
  import opened PromiseInvariant
  import opened PromiseOrder
  import opened PromiseConfluence
  import opened PromiseStack

  // ---- where promises come from ----

  /** `x` is promise `k` or upstream of it. */
  ghost predicate From(g: Graph, x: nat, k: nat)
    decreases k
  {
    x == k || (k < |g| &&
      match g[k]
      case Root => false
      case Then(s, _, _) => s < k && From(g, x, s)
      case All(ss) => exists i :: 0 <= i < |ss| && ss[i] < k && From(g, x, ss[i]))
  }

  /** Of the inputs of every `all` upstream of promise `k` none comes from another. */
  ghost predicate Level(g: Graph, k: nat)
    decreases k
  {
    k < |g| &&
    match g[k]
    case Root => true
    case Then(s, _, _) => s < k && Level(g, s)
    case All(ss) =>
      && (forall i | 0 <= i < |ss| :: ss[i] < k && Level(g, ss[i]))
      && forall i, j | 0 <= i < |ss| && 0 <= j < |ss| && ss[i] != ss[j] :: !From(g, ss[i], ss[j])
  }

  lemma {:induction false} FromBelow(g: Graph, x: nat, k: nat)
    requires From(g, x, k)
    ensures x <= k
    decreases k
  {
    if x != k {
      match g[k] {
        case Then(s, _, _) => FromBelow(g, x, s);
        case All(ss) =>
          var i :| 0 <= i < |ss| && ss[i] < k && From(g, x, ss[i]);
          FromBelow(g, x, ss[i]);
      }
    }
  }

  lemma {:induction false} FromTrans(g: Graph, x: nat, y: nat, z: nat)
    requires From(g, x, y) && From(g, y, z)
    ensures From(g, x, z)
    decreases z
  {
    if y != z {
      match g[z] {
        case Then(s, _, _) => FromTrans(g, x, y, s);
        case All(ss) =>
          var i :| 0 <= i < |ss| && ss[i] < z && From(g, y, ss[i]);
          FromTrans(g, x, y, ss[i]);
      }
    }
  }

  lemma {:induction false} LevelUp(g: Graph, j: nat, k: nat)
    requires From(g, j, k) && Level(g, k)
    ensures Level(g, j)
    decreases k
  {
    if j != k {
      match g[k] {
        case Then(s, _, _) => LevelUp(g, j, s);
        case All(ss) =>
          var i :| 0 <= i < |ss| && ss[i] < k && From(g, j, ss[i]);
          LevelUp(g, j, ss[i]);
      }
    }
  }

  /** `cb` is a callback attached to promise `p`. */
  ghost predicate Fed(g: Graph, p: nat, cb: Callback) {
    PlainCb(g, cb) && p < cb.k &&
    match cb
    case OnThen(k) => g[k].src == p
    case OnAll(k, i) => g[k].srcs[i] == p
    case Adopt(_) => false
  }

  lemma FedFrom(g: Graph, p: nat, cb: Callback)
    requires GraphOk(g) && Fed(g, p, cb)
    ensures From(g, p, cb.k)
  {
    assert DefOk(g[cb.k], cb.k) && From(g, p, p);
    if cb.OnAll? { assert From(g, p, g[cb.k].srcs[cb.i]); }
  }

  /** Two promises fed by one: where `all`s are level, neither comes from the other. */
  lemma Siblings(g: Graph, k: nat, p: nat, c: Callback, r: Callback)
    requires GraphOk(g) && Fed(g, p, c) && Fed(g, p, r) && Level(g, k) && From(g, r.k, k) && c.k != r.k
    ensures !From(g, c.k, r.k)
  {
    LevelUp(g, r.k, k);
    FedFrom(g, p, c);
    match r {
      case OnThen(_) => if From(g, c.k, p) { FromBelow(g, c.k, p); }
      case OnAll(_, j) =>
        var ss := g[r.k].srcs;
        assert ss[j] == p;
        forall i | 0 <= i < |ss| ensures !From(g, c.k, ss[i]) {
          if From(g, c.k, ss[i]) {
            FromTrans(g, p, c.k, ss[i]);
            FromBelow(g, c.k, ss[i]);
          }
        }
    }
  }

  // ---- recursion on slots ----

  /** A callback runs and what it marks is visited before the next callback. */
  function Rec(g: Graph, s: Slots, st: Status, cbs: seq<Callback>): (r: Slots)
    requires PlainGraph(g) && SlotsOk(g, s) && !st.Pending? && forall cb | cb in cbs :: PlainCb(g, cb)
    ensures SlotsOk(g, r) && Undone(r) <= Undone(s)
    decreases Undone(s), 2, |cbs|
  {
    if cbs == [] then s
    else assert PlainCb(g, cbs[0]); Rec(g, RecVisit(g, Call(g, s, st, cbs[0]), cbs[0].k), st, cbs[1..])
  }

  function RecVisit(g: Graph, s: Slots, k: nat): (r: Slots)
    requires PlainGraph(g) && SlotsOk(g, s) && k < |g|
    ensures SlotsOk(g, r) && Undone(r) <= Undone(s)
    decreases Undone(s), 1, 0
  {
    if s.slots[k].state.Pre? then
      CloseOk(g, s, k);
      Rec(g, Close(s, k), s.slots[k].state.outcome, s.slots[k].cbs)
    else s
  }

  /** Every callback is attached where it belongs, and marked promises are rejected or have none. */
  ghost predicate Falling(g: Graph, s: Slots) {
    && SlotsOk(g, s)
    && (forall q, cb | 0 <= q < |g| && cb in s.slots[q].cbs :: Fed(g, q, cb))
    && forall q | 0 <= q < |g| && s.slots[q].state.Pre? :: s.slots[q].state.outcome.Rejected? || s.slots[q].cbs == []
  }

  ghost predicate FedBy(g: Graph, p: nat, cbs: seq<Callback>) {
    forall cb | cb in cbs :: Fed(g, p, cb)
  }

  /** What a callback makes of a rejection. */
  function Told(g: Graph, st: Status, cb: Callback): Status
    requires PlainGraph(g) && PlainCb(g, cb) && st.Rejected?
  {
    if cb.OnThen? then Rejected(g[cb.k].onR(st.reason).v) else st
  }

  /** A rejection marks its target and touches nothing else. */
  lemma CallRejected(g: Graph, s: Slots, st: Status, cb: Callback)
    requires PlainGraph(g) && Falling(g, s) && PlainCb(g, cb) && st.Rejected?
    ensures var t := Call(g, s, st, cb);
      && Falling(g, t) && (forall j | 0 <= j < |g| && j != cb.k :: t.slots[j] == s.slots[j])
      && t.slots[cb.k] == if s.slots[cb.k].state.Waiting? then s.slots[cb.k].(state := Pre(Told(g, st, cb)))
                          else s.slots[cb.k]
  {}

  lemma CloseFalls(g: Graph, s: Slots, k: nat)
    requires Falling(g, s) && k < |g| && s.slots[k].state.Pre?
    ensures Falling(g, Close(s, k)) && FedBy(g, k, s.slots[k].cbs)
  {
    CloseOk(g, s, k);
  }

  // ---- a visit touches what comes from its promise, and depends on that alone ----

  /** The slots that do not come from `m` are as they were. */
  ghost predicate Local(g: Graph, s: Slots, t: Slots, m: nat) {
    |s.slots| == |t.slots| == |g| && forall j | 0 <= j < |g| && !From(g, m, j) :: t.slots[j] == s.slots[j]
  }

  lemma LocalTrans(g: Graph, s: Slots, t: Slots, u: Slots, m: nat, d: nat)
    requires Local(g, s, t, m) && Local(g, t, u, d) && From(g, m, d)
    ensures Local(g, s, u, m)
  {
    forall j | 0 <= j < |g| && !From(g, m, j) ensures !From(g, d, j) {
      if From(g, d, j) { FromTrans(g, m, d, j); }
    }
  }

  lemma {:induction false} CallAllFalls(g: Graph, s: Slots, st: Status, cbs: seq<Callback>, p: nat)
    requires GraphOk(g) && PlainGraph(g) && Falling(g, s) && FedBy(g, p, cbs) && (st.Rejected? || cbs == [])
    requires !st.Pending?
    ensures Falling(g, CallAll(g, s, st, cbs)) && Local(g, s, CallAll(g, s, st, cbs), p)
    decreases |cbs|
  {
    if cbs != [] {
      assert Fed(g, p, cbs[0]);
      var t := Call(g, s, st, cbs[0]);
      FedFrom(g, p, cbs[0]);
      CallRejected(g, s, st, cbs[0]);
      CallAllFalls(g, t, st, cbs[1..], p);
    }
  }

  ghost predicate Fell(g: Graph, s: Slots, t: Slots, m: nat) {
    Falling(g, t) && Local(g, s, t, m)
  }

  lemma DepsFrom(g: Graph, m: nat, cbs: seq<Callback>)
    requires GraphOk(g) && FedBy(g, m, cbs)
    ensures forall i | 0 <= i < |cbs| :: From(g, m, Deps(cbs)[i]) && Deps(cbs)[i] < |g|
  {
    forall i | 0 <= i < |cbs| ensures From(g, m, cbs[i].k) && cbs[i].k < |g| {
      assert cbs[i] in cbs;
      FedFrom(g, m, cbs[i]);
    }
  }

  lemma {:induction false} VisitLocal(g: Graph, s: Slots, m: nat)
    requires GraphOk(g) && PlainGraph(g) && Falling(g, s) && m < |g|
    ensures Fell(g, s, Visit(g, s, m), m)
    decreases Undone(s), 1, 0
  {
    if s.slots[m].state.Pre? {
      var cbs := s.slots[m].cbs;
      CloseOk(g, s, m);
      CloseFalls(g, s, m);
      CallAllFalls(g, Close(s, m), s.slots[m].state.outcome, cbs, m);
      DepsFrom(g, m, cbs);
      var t := Settled1(g, s, m);
      VisitAllLocal(g, t, Deps(cbs), m);
      assert From(g, m, m) && Local(g, s, t, m);
      LocalTrans(g, s, t, VisitAll(g, t, Deps(cbs)), m, m);
    }
  }

  lemma {:induction false} VisitAllLocal(g: Graph, s: Slots, ks: seq<nat>, m: nat)
    requires GraphOk(g) && PlainGraph(g) && Falling(g, s)
    requires forall i | 0 <= i < |ks| :: ks[i] < |g| && From(g, m, ks[i])
    ensures Fell(g, s, VisitAll(g, s, ks), m)
    decreases Undone(s), 2, |ks|
  {
    if ks != [] {
      var t := Visit(g, s, ks[0]);
      VisitLocal(g, s, ks[0]);
      VisitAllLocal(g, t, ks[1..], m);
      assert From(g, m, m);
      LocalTrans(g, s, s, t, m, ks[0]);
      LocalTrans(g, s, t, VisitAll(g, t, ks[1..]), m, m);
    }
  }

  ghost predicate SameSlot(a: Slot, b: Slot) {
    a.state == b.state && a.cbs == b.cbs
  }

  /** Alike on what comes from `m` and is upstream of `k`. */
  ghost predicate Alike(g: Graph, k: nat, s: Slots, t: Slots, m: nat) {
    && |s.slots| == |t.slots| == |g|
    && forall j | 0 <= j < |g| && From(g, m, j) && From(g, j, k) :: SameSlot(s.slots[j], t.slots[j])
  }

  /** Alike on all that is upstream of `k`. */
  ghost predicate AlikeUp(g: Graph, k: nat, s: Slots, t: Slots) {
    |s.slots| == |t.slots| == |g| && forall j | 0 <= j < |g| && From(g, j, k) :: SameSlot(s.slots[j], t.slots[j])
  }

  lemma AlikeDown(g: Graph, k: nat, s: Slots, t: Slots, m: nat, d: nat)
    requires Alike(g, k, s, t, m) && From(g, m, d)
    ensures Alike(g, k, s, t, d)
  {
    forall j | 0 <= j < |g| && From(g, d, j) ensures From(g, m, j) { FromTrans(g, m, d, j); }
  }

  lemma NoneAlike(g: Graph, k: nat, s: Slots, t: Slots, m: nat)
    requires |s.slots| == |t.slots| == |g| && !From(g, m, k)
    ensures Alike(g, k, s, t, m)
  {
    forall j | 0 <= j < |g| && From(g, m, j) ensures !From(g, j, k) {
      if From(g, j, k) { FromTrans(g, m, j, k); }
    }
  }

  /** Local changes that are alike below `d` keep what is alike below `m`. */
  lemma AlikeAround(g: Graph, k: nat, s: Slots, t: Slots, s1: Slots, t1: Slots, m: nat, d: nat)
    requires Alike(g, k, s, t, m) && Local(g, s, s1, d) && Local(g, t, t1, d) && Alike(g, k, s1, t1, d)
    ensures Alike(g, k, s1, t1, m)
  {
    forall j | 0 <= j < |g| && From(g, m, j) && From(g, j, k) ensures SameSlot(s1.slots[j], t1.slots[j]) {
      assert SameSlot(s.slots[j], t.slots[j]);
    }
  }

  lemma CallAlike(g: Graph, k: nat, s: Slots, t: Slots, st: Status, cb: Callback, m: nat)
    requires PlainGraph(g) && Falling(g, s) && Falling(g, t) && PlainCb(g, cb) && st.Rejected? && Alike(g, k, s, t, m)
    ensures Alike(g, k, Call(g, s, st, cb), Call(g, t, st, cb), m)
  {
    CallRejected(g, s, st, cb);
    CallRejected(g, t, st, cb);
    forall j | 0 <= j < |g| && From(g, m, j) && From(g, j, k)
      ensures SameSlot(Call(g, s, st, cb).slots[j], Call(g, t, st, cb).slots[j])
    {
      assert SameSlot(s.slots[j], t.slots[j]);
    }
  }

  lemma {:induction false} CallAllAlike(g: Graph, k: nat, s: Slots, t: Slots, st: Status, cbs: seq<Callback>, p: nat,
      m: nat)
    requires GraphOk(g) && PlainGraph(g) && Falling(g, s) && Falling(g, t) && FedBy(g, p, cbs) && !st.Pending?
    requires (st.Rejected? || cbs == []) && Alike(g, k, s, t, m)
    ensures Alike(g, k, CallAll(g, s, st, cbs), CallAll(g, t, st, cbs), m)
    decreases |cbs|
  {
    if cbs != [] {
      assert Fed(g, p, cbs[0]);
      CallAlike(g, k, s, t, st, cbs[0], m);
      CallRejected(g, s, st, cbs[0]);
      CallRejected(g, t, st, cbs[0]);
      CallAllAlike(g, k, Call(g, s, st, cbs[0]), Call(g, t, st, cbs[0]), st, cbs[1..], p, m);
    }
  }

  lemma CloseAlike(g: Graph, k: nat, s: Slots, t: Slots, m: nat)
    requires Alike(g, k, s, t, m) && m < |g| && From(g, m, k) && s.slots[m].state.Pre?
    ensures SameSlot(s.slots[m], t.slots[m]) && Alike(g, k, Close(s, m), Close(t, m), m)
  {
    assert From(g, m, m) && SameSlot(s.slots[m], t.slots[m]);
    forall j | 0 <= j < |g| && From(g, m, j) && From(g, j, k)
      ensures SameSlot(Close(s, m).slots[j], Close(t, m).slots[j])
    {
      assert SameSlot(s.slots[j], t.slots[j]);
    }
  }

  lemma {:induction false} VisitAlike(g: Graph, k: nat, s: Slots, t: Slots, m: nat)
    requires GraphOk(g) && PlainGraph(g) && Falling(g, s) && Falling(g, t) && m < |g| && Alike(g, k, s, t, m)
    ensures Alike(g, k, Visit(g, s, m), Visit(g, t, m), m)
    decreases Undone(s), 1, 0
  {
    if !From(g, m, k) {
      NoneAlike(g, k, Visit(g, s, m), Visit(g, t, m), m);
    } else {
      assert From(g, m, m) && SameSlot(s.slots[m], t.slots[m]);
      if s.slots[m].state.Pre? { SettledAlike(g, k, s, t, m); }
    }
  }

  lemma {:induction false} SettledAlike(g: Graph, k: nat, s: Slots, t: Slots, m: nat)
    requires GraphOk(g) && PlainGraph(g) && Falling(g, s) && Falling(g, t) && m < |g| && Alike(g, k, s, t, m)
    requires From(g, m, k) && s.slots[m].state.Pre? && SameSlot(s.slots[m], t.slots[m])
    ensures Alike(g, k, Visit(g, s, m), Visit(g, t, m), m)
    decreases Undone(s), 0, 0
  {
    var cbs, st := s.slots[m].cbs, s.slots[m].state.outcome;
    CloseOk(g, s, m);
    CloseOk(g, t, m);
    CloseFalls(g, s, m);
    CloseFalls(g, t, m);
    CloseAlike(g, k, s, t, m);
    CallAllAlike(g, k, Close(s, m), Close(t, m), st, cbs, m, m);
    CallAllFalls(g, Close(s, m), st, cbs, m);
    CallAllFalls(g, Close(t, m), st, cbs, m);
    DepsFrom(g, m, cbs);
    VisitAllAlike(g, k, Settled1(g, s, m), Settled1(g, t, m), Deps(cbs), m);
  }

  lemma {:induction false} VisitAllAlike(g: Graph, k: nat, s: Slots, t: Slots, ks: seq<nat>, m: nat)
    requires GraphOk(g) && PlainGraph(g) && Falling(g, s) && Falling(g, t) && Alike(g, k, s, t, m)
    requires forall i | 0 <= i < |ks| :: ks[i] < |g| && From(g, m, ks[i])
    ensures Alike(g, k, VisitAll(g, s, ks), VisitAll(g, t, ks), m)
    decreases Undone(s), 2, |ks|
  {
    if ks != [] {
      AlikeDown(g, k, s, t, m, ks[0]);
      VisitAlike(g, k, s, t, ks[0]);
      VisitLocal(g, s, ks[0]);
      VisitLocal(g, t, ks[0]);
      AlikeAround(g, k, s, t, Visit(g, s, ks[0]), Visit(g, t, ks[0]), m, ks[0]);
      VisitAllAlike(g, k, Visit(g, s, ks[0]), Visit(g, t, ks[0]), ks[1..], m);
    }
  }

  // ---- so everything upstream of `k` stays alike ----

  lemma VisitUp(g: Graph, k: nat, s: Slots, t: Slots, m: nat)
    requires GraphOk(g) && PlainGraph(g) && Falling(g, s) && Falling(g, t) && m < |g| && AlikeUp(g, k, s, t)
    ensures AlikeUp(g, k, Visit(g, s, m), Visit(g, t, m))
  {
    VisitAlike(g, k, s, t, m);
    VisitLocal(g, s, m);
    VisitLocal(g, t, m);
    forall j | 0 <= j < |g| && From(g, j, k) ensures SameSlot(Visit(g, s, m).slots[j], Visit(g, t, m).slots[j]) {
      assert SameSlot(s.slots[j], t.slots[j]);
    }
  }

  lemma {:induction false} VisitAllUp(g: Graph, k: nat, s: Slots, t: Slots, ks: seq<nat>)
    requires GraphOk(g) && PlainGraph(g) && Falling(g, s) && Falling(g, t) && AlikeUp(g, k, s, t)
    requires forall i | 0 <= i < |ks| :: ks[i] < |g|
    ensures AlikeUp(g, k, VisitAll(g, s, ks), VisitAll(g, t, ks))
    decreases |ks|
  {
    if ks != [] {
      VisitUp(g, k, s, t, ks[0]);
      VisitLocal(g, s, ks[0]);
      VisitLocal(g, t, ks[0]);
      VisitAllUp(g, k, Visit(g, s, ks[0]), Visit(g, t, ks[0]), ks[1..]);
    }
  }

  lemma CallUp(g: Graph, k: nat, s: Slots, t: Slots, st: Status, cb: Callback)
    requires PlainGraph(g) && Falling(g, s) && Falling(g, t) && PlainCb(g, cb) && st.Rejected? && AlikeUp(g, k, s, t)
    ensures AlikeUp(g, k, Call(g, s, st, cb), Call(g, t, st, cb))
  {
    CallRejected(g, s, st, cb);
    CallRejected(g, t, st, cb);
    forall j | 0 <= j < |g| && From(g, j, k)
      ensures SameSlot(Call(g, s, st, cb).slots[j], Call(g, t, st, cb).slots[j])
    {
      assert SameSlot(s.slots[j], t.slots[j]);
    }
  }

  lemma {:induction false} CallAllUp(g: Graph, k: nat, s: Slots, t: Slots, st: Status, cbs: seq<Callback>, p: nat)
    requires GraphOk(g) && PlainGraph(g) && Falling(g, s) && Falling(g, t) && FedBy(g, p, cbs) && st.Rejected?
    requires AlikeUp(g, k, s, t)
    ensures AlikeUp(g, k, CallAll(g, s, st, cbs), CallAll(g, t, st, cbs))
    decreases |cbs|
  {
    if cbs != [] {
      assert Fed(g, p, cbs[0]);
      CallUp(g, k, s, t, st, cbs[0]);
      CallRejected(g, s, st, cbs[0]);
      CallRejected(g, t, st, cbs[0]);
      CallAllUp(g, k, Call(g, s, st, cbs[0]), Call(g, t, st, cbs[0]), st, cbs[1..], p);
    }
  }

  lemma UpTrans(g: Graph, k: nat, s: Slots, t: Slots, u: Slots)
    requires AlikeUp(g, k, s, t) && AlikeUp(g, k, t, u)
    ensures AlikeUp(g, k, s, u)
  {
    forall j | 0 <= j < |g| && From(g, j, k) ensures SameSlot(s.slots[j], u.slots[j]) {
      assert SameSlot(s.slots[j], t.slots[j]) && SameSlot(t.slots[j], u.slots[j]);
    }
  }

  // ---- a callback and a visit to another promise commute ----

  /** Callback `r` and a visit to `m` do not meet upstream of `k`. */
  ghost predicate Disjoint(g: Graph, k: nat, s: Slots, r: Callback, m: nat) {
    m < |s.slots| && (From(g, r.k, k) ==> !From(g, m, r.k) || (r.k == m && !s.slots[m].state.Waiting?))
  }

  lemma OutsideUp(g: Graph, k: nat, s: Slots, st: Status, r: Callback)
    requires PlainGraph(g) && Falling(g, s) && PlainCb(g, r) && st.Rejected? && !From(g, r.k, k)
    ensures AlikeUp(g, k, s, Call(g, s, st, r))
  {
    CallRejected(g, s, st, r);
    forall j | 0 <= j < |g| && From(g, j, k) ensures SameSlot(s.slots[j], Call(g, s, st, r).slots[j]) {}
  }

  /** A callback changes nothing about promises that do not come from the one it settles. */
  lemma OtherwiseAlike(g: Graph, k: nat, s: Slots, st: Status, r: Callback, m: nat)
    requires GraphOk(g) && PlainGraph(g) && Falling(g, s) && PlainCb(g, r) && st.Rejected? && m < |g|
    requires !From(g, m, r.k)
    ensures Falling(g, Call(g, s, st, r)) && Alike(g, k, Call(g, s, st, r), s, m)
  {
    CallRejected(g, s, st, r);
    var a := Call(g, s, st, r);
    forall j | 0 <= j < |g| && From(g, m, j) && From(g, j, k) ensures SameSlot(a.slots[j], s.slots[j]) {}
  }

  lemma TellUp(g: Graph, k: nat, s: Slots, st: Status, r: Callback, m: nat)
    requires GraphOk(g) && PlainGraph(g) && Falling(g, s) && PlainCb(g, r) && st.Rejected? && m < |g|
    requires !From(g, m, r.k)
    ensures Falling(g, Visit(g, s, m))
    ensures AlikeUp(g, k, Visit(g, Call(g, s, st, r), m), Call(g, Visit(g, s, m), st, r))
  {
    var a, b := Call(g, s, st, r), Visit(g, s, m);
    CallRejected(g, s, st, r);
    VisitLocal(g, s, m);
    VisitLocal(g, a, m);
    CallRejected(g, b, st, r);
    OtherwiseAlike(g, k, s, st, r, m);
    VisitAlike(g, k, a, s, m);
    forall j | 0 <= j < |g| && From(g, j, k)
      ensures SameSlot(Visit(g, a, m).slots[j], Call(g, b, st, r).slots[j])
    {
      if From(g, m, j) { assert SameSlot(Visit(g, a, m).slots[j], b.slots[j]); }
    }
  }

  /** A visit does not make a promise wait. */
  lemma NotWaiting(g: Graph, s: Slots, m: nat)
    requires GraphOk(g) && PlainGraph(g) && Falling(g, s) && m < |g| && !s.slots[m].state.Waiting?
    ensures Visit(g, s, m).slots[m].state.Done?
  {
    if s.slots[m].state.Pre? {
      var cbs, st := s.slots[m].cbs, s.slots[m].state.outcome;
      CloseOk(g, s, m);
      CloseFalls(g, s, m);
      forall cb | cb in cbs ensures PlainCb(g, cb) && cb.k != m { assert Fed(g, m, cb); }
      CallAllSkips(g, Close(s, m), st, cbs, m);
      CallAllFalls(g, Close(s, m), st, cbs, m);
      DepsFrom(g, m, cbs);
      assert forall i | 0 <= i < |cbs| :: cbs[i] in cbs && Fed(g, m, cbs[i]);
      AfterVisits(g, Settled1(g, s, m), Deps(cbs), m);
    }
  }

  lemma {:induction false} AfterVisits(g: Graph, s: Slots, ks: seq<nat>, m: nat)
    requires GraphOk(g) && PlainGraph(g) && Falling(g, s) && m < |g|
    requires forall i | 0 <= i < |ks| :: m < ks[i] < |g|
    ensures VisitAll(g, s, ks).slots[m] == s.slots[m]
    decreases |ks|
  {
    if ks != [] {
      VisitLocal(g, s, ks[0]);
      if From(g, ks[0], m) { FromBelow(g, ks[0], m); }
      AfterVisits(g, Visit(g, s, ks[0]), ks[1..], m);
    }
  }

  lemma CommuteOne(g: Graph, k: nat, s: Slots, st: Status, r: Callback, m: nat)
    requires GraphOk(g) && PlainGraph(g) && Falling(g, s) && PlainCb(g, r) && st.Rejected? && m < |g|
    requires Disjoint(g, k, s, r, m)
    ensures Falling(g, Visit(g, s, m))
    ensures AlikeUp(g, k, Visit(g, Call(g, s, st, r), m), Call(g, Visit(g, s, m), st, r))
  {
    var a, b := Call(g, s, st, r), Visit(g, s, m);
    CallRejected(g, s, st, r);
    VisitLocal(g, s, m);
    if !From(g, m, r.k) {
      TellUp(g, k, s, st, r, m);
    } else if !From(g, r.k, k) {
      OutsideUp(g, k, s, st, r);
      VisitUp(g, k, s, a, m);
      OutsideUp(g, k, b, st, r);
      UpTrans(g, k, Visit(g, a, m), b, Call(g, b, st, r)) by { UpSym(g, k, b, Visit(g, a, m)); }
    } else {
      NotWaiting(g, s, m);
      CallRejected(g, b, st, r);
      assert AlikeUp(g, k, a, s) by {
        forall j | 0 <= j < |g| && From(g, j, k) ensures SameSlot(a.slots[j], s.slots[j]) {}
      }
      VisitUp(g, k, a, s, m);
      assert AlikeUp(g, k, b, Call(g, b, st, r)) by {
        forall j | 0 <= j < |g| && From(g, j, k) ensures SameSlot(b.slots[j], Call(g, b, st, r).slots[j]) {}
      }
      UpTrans(g, k, Visit(g, a, m), b, Call(g, b, st, r));
    }
  }

  lemma UpSym(g: Graph, k: nat, s: Slots, t: Slots)
    requires AlikeUp(g, k, s, t)
    ensures AlikeUp(g, k, t, s)
  {
    forall j | 0 <= j < |g| && From(g, j, k) ensures SameSlot(t.slots[j], s.slots[j]) {
      assert SameSlot(s.slots[j], t.slots[j]);
    }
  }

  ghost predicate AllDisjoint(g: Graph, k: nat, s: Slots, cbs: seq<Callback>, m: nat) {
    forall r | r in cbs :: Disjoint(g, k, s, r, m)
  }

  lemma {:induction false} CommuteAll(g: Graph, k: nat, s: Slots, st: Status, cbs: seq<Callback>, m: nat, p: nat)
    requires GraphOk(g) && PlainGraph(g) && Falling(g, s) && FedBy(g, p, cbs) && st.Rejected? && m < |g|
    requires AllDisjoint(g, k, s, cbs, m)
    ensures Falling(g, Visit(g, s, m)) && Falling(g, CallAll(g, s, st, cbs))
    ensures AlikeUp(g, k, Visit(g, CallAll(g, s, st, cbs), m), CallAll(g, Visit(g, s, m), st, cbs))
    decreases |cbs|
  {
    VisitLocal(g, s, m);
    CallAllFalls(g, s, st, cbs, p);
    if cbs == [] {
      UpRefl(g, k, Visit(g, s, m));
    } else {
      assert Fed(g, p, cbs[0]) && Disjoint(g, k, s, cbs[0], m);
      var s1, u := Call(g, s, st, cbs[0]), Visit(g, s, m);
      CallRejected(g, s, st, cbs[0]);
      CallRejected(g, u, st, cbs[0]);
      assert AllDisjoint(g, k, s1, cbs[1..], m) by {
        forall r | r in cbs[1..] ensures Disjoint(g, k, s1, r, m) { assert Disjoint(g, k, s, r, m); }
      }
      CommuteOne(g, k, s, st, cbs[0], m);
      CommuteAll(g, k, s1, st, cbs[1..], m, p);
      CallAllUp(g, k, Visit(g, s1, m), Call(g, u, st, cbs[0]), st, cbs[1..], p);
      UpTrans(g, k, Visit(g, CallAll(g, s, st, cbs), m), CallAll(g, Visit(g, s1, m), st, cbs[1..]),
              CallAll(g, u, st, cbs));
    }
  }

  lemma UpRefl(g: Graph, k: nat, s: Slots)
    requires |s.slots| == |g|
    ensures AlikeUp(g, k, s, s)
  {
    forall j | 0 <= j < |g| && From(g, j, k) ensures SameSlot(s.slots[j], s.slots[j]) {}
  }

  // ---- so the two ways are alike upstream of a level promise ----

  lemma AllSiblings(g: Graph, k: nat, s: Slots, p: nat, c: Callback, rest: seq<Callback>)
    requires GraphOk(g) && Level(g, k) && Fed(g, p, c) && FedBy(g, p, rest) && |s.slots| == |g|
    requires !s.slots[c.k].state.Waiting?
    ensures AllDisjoint(g, k, s, rest, c.k)
  {
    forall r | r in rest ensures Disjoint(g, k, s, r, c.k) {
      assert Fed(g, p, r);
      if From(g, r.k, k) && r.k != c.k { Siblings(g, k, p, c, r); }
    }
  }

  /** All callbacks, then all visits, or each visit right after its callback. */
  ghost predicate TwoWays(g: Graph, k: nat, s: Slots, st: Status, cbs: seq<Callback>)
    requires PlainGraph(g) && SlotsOk(g, s) && !st.Pending? && forall cb | cb in cbs :: PlainCb(g, cb)
  {
    && (forall i | 0 <= i < |cbs| :: Deps(cbs)[i] < |g|)
    && Falling(g, Rec(g, s, st, cbs))
    && AlikeUp(g, k, VisitAll(g, CallAll(g, s, st, cbs), Deps(cbs)), Rec(g, s, st, cbs))
  }

  ghost predicate BothVisits(g: Graph, k: nat, s: Slots, m: nat)
    requires PlainGraph(g) && SlotsOk(g, s) && m < |g|
  {
    Falling(g, RecVisit(g, s, m)) && AlikeUp(g, k, Visit(g, s, m), RecVisit(g, s, m))
  }

  lemma {:induction false} SameVisit(g: Graph, k: nat, s: Slots, m: nat)
    requires GraphOk(g) && PlainGraph(g) && Level(g, k) && Falling(g, s) && m < |g|
    ensures BothVisits(g, k, s, m)
    decreases Undone(s), 2, 0
  {
    if s.slots[m].state.Pre? {
      CloseOk(g, s, m);
      CloseFalls(g, s, m);
      SameWays(g, k, Close(s, m), s.slots[m].state.outcome, s.slots[m].cbs, m);
    } else {
      UpRefl(g, k, s);
    }
  }

  lemma {:induction false} SameWays(g: Graph, k: nat, s: Slots, st: Status, cbs: seq<Callback>, p: nat)
    requires GraphOk(g) && PlainGraph(g) && Level(g, k) && Falling(g, s) && FedBy(g, p, cbs) && !st.Pending?
    requires st.Rejected? || cbs == []
    ensures TwoWays(g, k, s, st, cbs)
    decreases Undone(s), 3, |cbs|
  {
    if cbs == [] {
      UpRefl(g, k, s);
    } else {
      assert Fed(g, p, cbs[0]);
      var s1 := Call(g, s, st, cbs[0]);
      CallRejected(g, s, st, cbs[0]);
      SameVisit(g, k, s1, cbs[0].k);
      SameWays(g, k, RecVisit(g, s1, cbs[0].k), st, cbs[1..], p);
      NextWay(g, k, s, s1, RecVisit(g, s1, cbs[0].k), st, cbs[0], cbs[1..], p);
      assert cbs == [cbs[0]] + cbs[1..];
    }
  }

  lemma NextWay(g: Graph, k: nat, s: Slots, s1: Slots, s2: Slots, st: Status, c: Callback, rest: seq<Callback>, p: nat)
    requires GraphOk(g) && PlainGraph(g) && Level(g, k) && Falling(g, s) && st.Rejected?
    requires Fed(g, p, c) && FedBy(g, p, rest) && s1 == Call(g, s, st, c) && s2 == RecVisit(g, s1, c.k)
    requires BothVisits(g, k, s1, c.k) && TwoWays(g, k, s2, st, rest)
    ensures TwoWays(g, k, s, st, [c] + rest)
  {
    CallRejected(g, s, st, c);
    AllSiblings(g, k, s1, p, c, rest);
    OneMore(g, k, s1, st, c.k, rest, p, s2);
    CallAllFalls(g, s1, st, rest, p);
    Unfold(g, s, st, c, rest);
    assert forall cb | cb in [c] + rest :: Fed(g, p, cb);
    assert Deps([c] + rest) == [c.k] + Deps(rest);
  }

  lemma VisitFirst(g: Graph, s: Slots, k: nat, ks: seq<nat>)
    requires PlainGraph(g) && SlotsOk(g, s) && k < |g| && forall j | 0 <= j < |ks| :: ks[j] < |g|
    ensures VisitAll(g, s, [k] + ks) == VisitAll(g, Visit(g, s, k), ks)
  {
    assert ([k] + ks)[1..] == ks;
  }

  lemma Unfold(g: Graph, s: Slots, st: Status, c: Callback, rest: seq<Callback>)
    requires PlainGraph(g) && SlotsOk(g, s) && !st.Pending? && PlainCb(g, c) && forall cb | cb in rest :: PlainCb(g, cb)
    ensures forall i | 0 <= i < |rest| :: Deps(rest)[i] < |g|
    ensures Rec(g, s, st, [c] + rest) == Rec(g, RecVisit(g, Call(g, s, st, c), c.k), st, rest)
    ensures var u := CallAll(g, Call(g, s, st, c), st, rest);
      CallAll(g, s, st, [c] + rest) == u
      && VisitAll(g, u, [c.k] + Deps(rest)) == VisitAll(g, Visit(g, u, c.k), Deps(rest))
  {
    assert ([c] + rest)[1..] == rest;
    assert forall i | 0 <= i < |rest| :: rest[i] in rest;
    VisitFirst(g, CallAll(g, Call(g, s, st, c), st, rest), c.k, Deps(rest));
  }

  /** Visit `m` before the other callbacks instead of after them. */
  lemma OneMore(g: Graph, k: nat, s: Slots, st: Status, m: nat, rest: seq<Callback>, p: nat, s2: Slots)
    requires GraphOk(g) && PlainGraph(g) && Falling(g, s) && FedBy(g, p, rest) && st.Rejected? && m < |g|
    requires AllDisjoint(g, k, s, rest, m) && Falling(g, s2) && AlikeUp(g, k, Visit(g, s, m), s2)
    requires TwoWays(g, k, s2, st, rest)
    ensures AlikeUp(g, k, VisitAll(g, Visit(g, CallAll(g, s, st, rest), m), Deps(rest)), Rec(g, s2, st, rest))
  {
    var u, ds := Visit(g, CallAll(g, s, st, rest), m), Deps(rest);
    CommuteAll(g, k, s, st, rest, m, p);
    VisitLocal(g, s, m);
    CallAllUp(g, k, Visit(g, s, m), s2, st, rest, p);
    UpTrans(g, k, u, CallAll(g, Visit(g, s, m), st, rest), CallAll(g, s2, st, rest));
    VisitLocal(g, CallAll(g, s, st, rest), m);
    CallAllFalls(g, s2, st, rest, p);
    VisitAllUp(g, k, u, CallAll(g, s2, st, rest), ds);
    UpTrans(g, k, VisitAll(g, u, ds), VisitAll(g, CallAll(g, s2, st, rest), ds), Rec(g, s2, st, rest));
  }
}

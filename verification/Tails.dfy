/** `tails` of `E2CCore` as a value: which blocks a sequence of calls leaves in it. */
module Tails {
  import opened Blocks

  /** The hashes of the stored blocks, of the delivered ones, and of those in `tails`. */
  datatype Shelf = Shelf(known: set<Hash>, done: set<Hash>, tails: set<Hash>)

  const NEW: Shelf := Shelf({Genesis}, {Genesis}, {Genesis})

  function Listed(hs: seq<Hash>): set<Hash> {
    set h | h in hs
  }

  function Known(t: Shelf, h: Hash): Shelf {
    t.(known := t.known + {h})
  }

  /** Every parent is delivered. */
  predicate Ready(t: Shelf, h: Hash) {
    forall p | p in ParentHashes(h) :: p in t.done
  }

  /** `on_deliver_blk` */
  function DeliverOn(t: Shelf, h: Hash): Shelf {
    if h in t.done || !Ready(t, h) then t
    else Shelf(t.known, t.done + {h}, t.tails - Listed(ParentHashes(h)) + {h})
  }

  /** The height in the object of a stored block: delivery has replaced the one of its content. */
  function HeightIn(t: Shelf, h: Hash): nat {
    if h.Genesis? || h in t.done then Depth(h) else h.wire.height
  }

  /** The block `on_propose` builds. */
  function Built(id: nat, t: Shelf, cmds: seq<Cmd>, parents: seq<Hash>, extra: seq<nat>): Hash
    requires parents != []
  {
    Of(Wire(parents, cmds, extra, id, HeightIn(t, parents[0]) + 1))
  }

  /** `on_propose`: the parents leave `tails` before anything can fail. */
  function ProposeOn(id: nat, t: Shelf, cmds: seq<Cmd>, parents: seq<Hash>, extra: seq<nat>): Shelf {
    if parents == [] then t
    else
      var b := Built(id, t, cmds, parents, extra);
      DeliverOn(Known(t.(tails := t.tails - Listed(parents)), b), b)
  }

  /** Even a proposal that throws leaves the block it built in the store: this replica's, with these fields. */
  lemma BuiltIsKnown(id: nat, t: Shelf, cmds: seq<Cmd>, parents: seq<Hash>, extra: seq<nat>, h: Hash)
    requires parents != [] && h !in t.known
    ensures h in ProposeOn(id, t, cmds, parents, extra).known <==>
      && h.Of? && h.wire.proposer == id && h.wire.cmds == cmds && h.wire.extra == extra && h.wire.parents == parents
      && h.wire.height == HeightIn(t, parents[0]) + 1
  {}

  // ---- what tails is for ----

  /** Some delivered block lists `h` as a parent. */
  ghost predicate Extended(done: set<Hash>, h: Hash) {
    exists c :: c in done && h in ParentHashes(c)
  }

  ghost predicate LeafIn(done: set<Hash>, h: Hash) {
    h in done && !Extended(done, h)
  }

  /** `tails` is the delivered blocks that no delivered block lists as parent. */
  ghost predicate Exact(t: Shelf) {
    forall h {:trigger LeafIn(t.done, h)} :: h in t.tails <==> LeafIn(t.done, h)
  }

  /** The same but for the blocks in `lost`. */
  ghost predicate ExactBut(t: Shelf, lost: set<Hash>) {
    forall h {:trigger LeafIn(t.done, h)} :: h in t.tails <==> LeafIn(t.done, h) && h !in lost
  }

  ghost predicate ShelfOk(t: Shelf, lost: set<Hash>) {
    && Genesis in t.done && t.done <= t.known && lost <= t.done
    && (forall c | c in t.done :: Ready(t, c))
    && ExactBut(t, lost)
  }

  lemma NewOk()
    ensures ShelfOk(NEW, {}) && Exact(NEW)
  {
    assert forall h :: LeafIn(NEW.done, h) <==> h == Genesis;
  }

  lemma KnownKeeps(t: Shelf, h: Hash, lost: set<Hash>)
    requires ShelfOk(t, lost)
    ensures ShelfOk(Known(t, h), lost)
  {
    forall c | c in t.done ensures Ready(Known(t, h), c) { assert Ready(t, c); }
  }

  lemma LeafAfter(done: set<Hash>, b: Hash, h: Hash)
    requires b !in done && (forall c | c in done :: b !in ParentHashes(c)) && b !in ParentHashes(b)
    ensures LeafIn(done + {b}, h) <==> h == b || (LeafIn(done, h) && h !in ParentHashes(b))
  {
    if Extended(done, h) {
      var c :| c in done && h in ParentHashes(c);
      assert c in done + {b};
    }
    if h in ParentHashes(b) { assert b in done + {b}; }
  }

  /** A delivery makes up for the tails of its parents that were erased before. */
  lemma DeliverKeeps(t: Shelf, b: Hash, lost: set<Hash>, erased: set<Hash>)
    requires ShelfOk(t, lost + erased) && erased <= Listed(ParentHashes(b)) && (b in t.done || Ready(t, b))
    requires b in t.known
    requires lost <= t.done
    ensures ShelfOk(DeliverOn(t, b), lost)
  {
    var e := DeliverOn(t, b);
    NotOwnParent(b);
    forall c | c in e.done ensures Ready(e, c) { assert Ready(t, c); }
    forall h ensures h in e.tails <==> LeafIn(e.done, h) && h !in lost {
      if b in t.done {
        assert LeafIn(t.done, h) ==> h !in ParentHashes(b);
      } else {
        assert forall c | c in t.done :: b !in ParentHashes(c) by {
          assert forall c | c in t.done :: Ready(t, c);
        }
        LeafAfter(t.done, b, h);
      }
    }
  }

  // ---- sequences of calls ----

  datatype Call =
    | Add(wire: Wire)
    | Deliver(h: Hash)
    | Propose(cmds: seq<Cmd>, parents: seq<Hash>, extra: seq<nat>)
    | Receive(h: Hash)
    | Timeout(ht: nat)

  datatype Node = Node(r: Replica, t: Shelf)

  /** A call takes blocks of the store; a block to deliver has a parent; a timer was armed. */
  predicate Callable(n: Node, call: Call) {
    match call
    case Add(_) => true
    case Deliver(h) => h in n.t.known && (h in n.t.done || ParentHashes(h) != [])
    case Propose(_, parents, _) => Listed(parents) <= n.t.known
    case Receive(h) => h in n.t.known
    case Timeout(ht) => ht in n.r.chain
  }

  function Proposed(id: nat, n: Node, cmds: seq<Cmd>, parents: seq<Hash>, extra: seq<nat>): Node {
    var t := ProposeOn(id, n.t, cmds, parents, extra);
    if parents == [] || !(Listed(parents) <= n.t.done) then n.(t := t)
    else Node(Blocks.Propose(n.r, Built(id, n.t, cmds, parents, extra)), t)
  }

  /** One call; one that cannot be made is no step. */
  function Apply(id: nat, n: Node, call: Call): Node {
    if !Callable(n, call) then n else
    match call
    case Add(wire) => n.(t := Known(n.t, Of(wire)))
    case Deliver(h) => n.(t := DeliverOn(n.t, h))
    case Propose(cmds, parents, extra) => Proposed(id, n, cmds, parents, extra)
    case Receive(h) => if h in n.t.done then n.(r := Blocks.Receive(n.r, h)) else n
    case Timeout(ht) => n.(r := Commit(id, n.r, ht))
  }

  function Run(id: nat, n: Node, calls: seq<Call>): Node {
    if calls == [] then n else Apply(id, Run(id, n, calls[..|calls| - 1]), calls[|calls| - 1])
  }

  const START: Node := Node(Blocks.START, NEW)

  /** The call is an `on_propose` that will throw: a parent is not delivered. */
  predicate Fails(n: Node, call: Call) {
    Callable(n, call) && call.Propose? && call.parents != [] && !(Listed(call.parents) <= n.t.done)
  }

  /** What a call takes out of `tails` and does not extend. */
  function Drops(n: Node, call: Call): set<Hash> {
    if Fails(n, call) then n.t.tails * Listed(call.parents) else {}
  }

  /** The tails that failing proposals have taken away over a run. */
  function Lost(id: nat, calls: seq<Call>): set<Hash> {
    if calls == [] then {}
    else var before := calls[..|calls| - 1];
      Lost(id, before) + Drops(Run(id, START, before), calls[|calls| - 1])
  }

  lemma ProposeKeeps(id: nat, t: Shelf, cmds: seq<Cmd>, parents: seq<Hash>, extra: seq<nat>, lost: set<Hash>)
    requires ShelfOk(t, lost) && parents != [] && Listed(parents) <= t.done
    ensures ShelfOk(ProposeOn(id, t, cmds, parents, extra), lost)
  {
    var b := Built(id, t, cmds, parents, extra);
    var u := t.(tails := t.tails - Listed(parents));
    ErasedOk(t, parents, lost);
    KnownKeeps(u, b, lost + Listed(parents));
    forall p | p in ParentHashes(b) ensures p in t.done { assert p in Listed(parents); }
    DeliverKeeps(Known(u, b), b, lost, Listed(parents));
  }

  lemma ErasedOk(t: Shelf, parents: seq<Hash>, lost: set<Hash>)
    requires ShelfOk(t, lost)
    ensures ShelfOk(t.(tails := t.tails - Listed(parents)), lost + t.tails * Listed(parents))
    ensures Listed(parents) <= t.done ==> ShelfOk(t.(tails := t.tails - Listed(parents)), lost + Listed(parents))
  {
    var u := t.(tails := t.tails - Listed(parents));
    forall c | c in u.done ensures Ready(u, c) { assert Ready(t, c); }
    forall h | h in t.tails ensures h in t.done { assert LeafIn(t.done, h); }
  }

  lemma FailKeeps(id: nat, t: Shelf, cmds: seq<Cmd>, parents: seq<Hash>, extra: seq<nat>, lost: set<Hash>)
    requires ShelfOk(t, lost) && parents != [] && !(Listed(parents) <= t.done)
    ensures ShelfOk(ProposeOn(id, t, cmds, parents, extra), lost + t.tails * Listed(parents))
  {
    var b := Built(id, t, cmds, parents, extra);
    var u := t.(tails := t.tails - Listed(parents));
    ErasedOk(t, parents, lost);
    KnownKeeps(u, b, lost + t.tails * Listed(parents));
    var p :| p in Listed(parents) && p !in t.done;
    assert p in ParentHashes(b) && !Ready(Known(u, b), b);
    assert b in t.done ==> Ready(t, b);
  }

  lemma ApplyKeeps(id: nat, n: Node, call: Call, lost: set<Hash>)
    requires ShelfOk(n.t, lost)
    ensures ShelfOk(Apply(id, n, call).t, lost + Drops(n, call))
  {
    assert lost + {} == lost;
    if Callable(n, call) {
      match call
      case Add(wire) => KnownKeeps(n.t, Of(wire), lost);
      case Deliver(h) => if h in n.t.done || Ready(n.t, h) { DeliverKeeps(n.t, h, lost, {}); }
      case Propose(cmds, parents, extra) =>
        if parents == [] {
        } else if Listed(parents) <= n.t.done {
          ProposeKeeps(id, n.t, cmds, parents, extra, lost);
        } else {
          FailKeeps(id, n.t, cmds, parents, extra, lost);
        }
      case Receive(_) =>
      case Timeout(_) =>
    }
  }

  /** After any sequence of calls `tails` is the delivered blocks that no delivered block lists as parent,
      but for those that failing proposals took away. */
  lemma {:induction false} TailsOverRuns(id: nat, calls: seq<Call>)
    ensures ShelfOk(Run(id, START, calls).t, Lost(id, calls))
  {
    if calls == [] {
      NewOk();
    } else {
      var before := calls[..|calls| - 1];
      TailsOverRuns(id, before);
      ApplyKeeps(id, Run(id, START, before), calls[|calls| - 1], Lost(id, before));
    }
  }

  /** At the end it is exact if and only if each of those has been extended since. */
  lemma ExactIff(id: nat, calls: seq<Call>)
    ensures var t := Run(id, START, calls).t;
      Exact(t) <==> forall h | h in Lost(id, calls) :: Extended(t.done, h)
  {
    TailsOverRuns(id, calls);
    var t := Run(id, START, calls).t;
    if Exact(t) {
      forall h | h in Lost(id, calls) ensures Extended(t.done, h) { assert !LeafIn(t.done, h); }
    }
  }

  /** No failing proposal names a tail. */
  ghost predicate Careful(id: nat, calls: seq<Call>) {
    forall k | 0 <= k < |calls| :: Drops(Run(id, START, calls[..k]), calls[k]) == {}
  }

  ghost predicate ExactAfter(id: nat, calls: seq<Call>, k: nat)
    requires k <= |calls|
  {
    Exact(Run(id, START, calls[..k]).t)
  }

  /** It is exact all along if and only if no proposal that throws names a tail among its parents. */
  lemma AlwaysExactIff(id: nat, calls: seq<Call>)
    ensures (forall k | 0 <= k <= |calls| :: ExactAfter(id, calls, k)) <==> Careful(id, calls)
  {
    if Careful(id, calls) {
      forall k | 0 <= k <= |calls| ensures ExactAfter(id, calls, k) {
        NothingLost(id, calls, k);
        ExactIff(id, calls[..k]);
      }
    }
    if forall k | 0 <= k <= |calls| :: ExactAfter(id, calls, k) {
      forall k | 0 <= k < |calls| ensures Drops(Run(id, START, calls[..k]), calls[k]) == {} {
        DropShows(id, calls, k);
      }
    }
  }

  lemma {:induction false} NothingLost(id: nat, calls: seq<Call>, k: nat)
    requires Careful(id, calls) && k <= |calls|
    ensures Lost(id, calls[..k]) == {}
  {
    if k > 0 {
      NothingLost(id, calls, k - 1);
      assert calls[..k][..k - 1] == calls[..k - 1];
    }
  }

  /** A tail taken by a failing proposal is missing right after it. */
  lemma DropShows(id: nat, calls: seq<Call>, k: nat)
    requires k < |calls| && ExactAfter(id, calls, k) && ExactAfter(id, calls, k + 1)
    ensures Drops(Run(id, START, calls[..k]), calls[k]) == {}
  {
    var n := Run(id, START, calls[..k]);
    var e := Run(id, START, calls[..k + 1]);
    assert calls[..k + 1][..k] == calls[..k] && e == Apply(id, n, calls[k]);
    TailsOverRuns(id, calls[..k]);
    if Fails(n, calls[k]) {
      FailLeaves(id, n.t, calls[k].cmds, calls[k].parents, calls[k].extra, Lost(id, calls[..k]));
      forall h ensures h !in Drops(n, calls[k]) {
        assert h in n.t.tails <==> LeafIn(n.t.done, h);
        assert h in e.t.tails <==> LeafIn(e.t.done, h);
      }
    }
  }

  lemma FailLeaves(id: nat, t: Shelf, cmds: seq<Cmd>, parents: seq<Hash>, extra: seq<nat>, lost: set<Hash>)
    requires ShelfOk(t, lost) && parents != [] && !(Listed(parents) <= t.done)
    ensures var e := ProposeOn(id, t, cmds, parents, extra); e.done == t.done && e.tails == t.tails - Listed(parents)
  {
    var b := Built(id, t, cmds, parents, extra);
    var p :| p in Listed(parents) && p !in t.done;
    assert p in ParentHashes(b);
    assert b in t.done ==> Ready(t, b);
  }

  /** A proposal over the genesis block and a block that is not delivered loses the genesis block;
      a proposal over the genesis block alone makes up for it. */
  lemma TailLostAndRegained(id: nat, wire: Wire)
    requires wire.parents != [] && forall p | p in wire.parents :: p != Genesis
    ensures var lose := [Add(wire), Propose([], [Genesis, Of(wire)], [])];
      && Run(id, START, lose).t == ProposeOn(id, Known(NEW, Of(wire)), [], [Genesis, Of(wire)], [])
      && Lost(id, lose) == {Genesis} && !Exact(Run(id, START, lose).t)
      && Exact(Run(id, START, lose + [Propose([], [Genesis], [])]).t)
  {
    var add, lose := [Add(wire)], [Add(wire), Propose([], [Genesis, Of(wire)], [])];
    var all := lose + [Propose([], [Genesis], [])];
    assert lose[..1] == add && add[..0] == [] && all[..2] == lose;
    assert Lost(id, []) == {} && Drops(START, add[0]) == {} && Lost(id, add) == {};
    var n, m, e := Run(id, START, add), Run(id, START, lose), Run(id, START, all);
    assert n == START.(t := Known(NEW, Of(wire)));
    assert Of(wire) in Listed(lose[1].parents) && Genesis in Listed(lose[1].parents);
    assert Lost(id, lose) == {Genesis};
    TailsOverRuns(id, lose);
    FailLeaves(id, n.t, [], [Genesis, Of(wire)], [], {});
    assert !Extended(m.t.done, Genesis);
    ExactIff(id, lose);
    var b := Built(id, m.t, [], [Genesis], []);
    assert Lost(id, all) == {Genesis} && b in e.t.done && Genesis in ParentHashes(b);
    ExactIff(id, all);
  }
}

/** Blocks as the wire and the hash see them, and one replica's protocol state as a value. */
module Blocks {

  type Cmd = nat

  /** An ideal hash: the hash of a block is a term that stands for the hashed content. Two blocks
      with one hash have one content, and no block is among its own ancestors. */
  datatype Hash = Genesis | Of(wire: Wire)

  datatype Wire = Wire(parents: seq<Hash>, cmds: seq<Cmd>, extra: seq<nat>, proposer: nat, height: nat)

  datatype Finality = Finality(rid: nat, decision: int, cmdIdx: nat, cmdHeight: nat, cmd: Cmd, blk: Hash)

  function ParentHashes(h: Hash): seq<Hash> {
    if h.Genesis? then [] else h.wire.parents
  }

  function Cmds(h: Hash): seq<Cmd> {
    if h.Genesis? then [] else h.wire.cmds
  }

  /** The height delivery gives a block: one more than its first parent's. */
  function Depth(h: Hash): nat {
    if h.Genesis? || h.wire.parents == [] then 0 else Depth(h.wire.parents[0]) + 1
  }

  /** The height on the wire is the one delivery would compute. */
  predicate WellHeighted(h: Hash) {
    h.Genesis? || h.wire.height == Depth(h)
  }

  /** The hash a receiver computes for a delivered block that was serialised again: delivery has
      replaced the height. */
  function Reserialized(h: Hash): Hash {
    if h.Genesis? then h else Of(h.wire.(height := Depth(h)))
  }

  lemma ForwardedUnchangedIff(h: Hash)
    ensures Reserialized(h) == h <==> WellHeighted(h)
    ensures Depth(Reserialized(h)) == Depth(h) && WellHeighted(Reserialized(h))
  {
    if h.Of? { assert Reserialized(h).wire.parents == h.wire.parents; }
  }

  lemma NotOwnParent(h: Hash)
    ensures h !in ParentHashes(h)
  {
    if h.Of? { assert forall i | 0 <= i < |h.wire.parents| :: h.wire.parents[i] < h; }
  }

  /** Walking first parents from `h` passes every height below and ends at height 0. */
  function Ancestor(h: Hash, d: nat): (a: Hash)
    requires d <= Depth(h)
    ensures Depth(a) == d
  {
    if d == Depth(h) then h else Ancestor(h.wire.parents[0], d)
  }

  function Finalities(rid: nat, b: Hash): seq<Finality> {
    seq(|Cmds(b)|, i requires 0 <= i < |Cmds(b)| => Finality(rid, 1, i, Depth(b), Cmds(b)[i], b))
  }

  /** `chain` is `ht_blk_map`, `mark` is `b_mark`, `timers` the heights with an armed commit timer in
      arming order, `decided` the blocks with decision 1, `log` the calls of `do_decide`, and `sent`
      the blocks handed to `do_broadcast_proposal`. */
  datatype Replica = Replica(
    chain: map<nat, Hash>, mark: Hash, timers: seq<nat>, decided: set<Hash>, log: seq<Finality>, sent: seq<Hash>)

  const START: Replica := Replica(map[0 := Genesis], Genesis, [], {Genesis}, [], [])

  /** `update`: store the first block seen at a height, ignore any other. */
  function Update(r: Replica, h: Hash): Replica {
    if Depth(h) in r.chain then r
    else r.(chain := r.chain[Depth(h) := h], mark := if Depth(r.mark) < Depth(h) then h else r.mark,
            timers := r.timers + [Depth(h)])
  }

  predicate Handled(r: Replica, h: Hash) {
    Depth(h) in r.chain && r.chain[Depth(h)] == h
  }

  /** `on_receive_proposal` on a delivered block. */
  function Receive(r: Replica, h: Hash): Replica {
    if Handled(r, h) then r else var u := Update(r, h); u.(sent := u.sent + [Reserialized(h)])
  }

  function NewBlock(rid: nat, parents: seq<Hash>, cmds: seq<Cmd>, extra: seq<nat>): Hash
    requires parents != []
  {
    Of(Wire(parents, cmds, extra, rid, Depth(parents[0]) + 1))
  }

  lemma NewBlockHeight(rid: nat, parents: seq<Hash>, cmds: seq<Cmd>, extra: seq<nat>)
    requires parents != []
    ensures var b := NewBlock(rid, parents, cmds, extra);
      WellHeighted(b) && Reserialized(b) == b && Depth(b) == Depth(parents[0]) + 1
  {
    ForwardedUnchangedIff(NewBlock(rid, parents, cmds, extra));
  }

  /** `on_propose` on delivered parents. */
  function Propose(r: Replica, b: Hash): Replica {
    var u := Update(r, b); u.(sent := u.sent + [b])
  }

  /** `get_parents`: the stored blocks from `b_mark`'s height down to 1, then the genesis block. */
  function ParentsFrom(chain: map<nat, Hash>, ht: nat): (p: seq<Hash>)
    requires forall i | 1 <= i <= ht :: i in chain
    ensures |p| == ht + 1 && p[ht] == Genesis && forall i | 0 <= i < ht :: p[i] == chain[ht - i]
  {
    if ht == 0 then [Genesis] else [chain[ht]] + ParentsFrom(chain, ht - 1)
  }

  /** `get_parents` finds a block at every height. */
  predicate CanPropose(r: Replica) {
    forall i | 1 <= i <= Depth(r.mark) :: i in r.chain
  }

  function DropTimer(r: Replica, i: nat): Replica
    requires i < |r.timers|
  {
    r.(timers := r.timers[..i] + r.timers[i + 1..])
  }

  /** `commit_timer_cb` as it is written: height `ht` only. */
  function Commit(rid: nat, r: Replica, ht: nat): Replica
    requires ht in r.chain
  {
    var b := r.chain[ht];
    if b in r.decided then r
    else r.(decided := r.decided + {b}, log := r.log + Finalities(rid, b))
  }

  /** A variant of `commit_timer_cb` that is not what the code does: the loop would read
      `ht_blk_map[i]` and so walk down to the first decided block. */
  function Walk(rid: nat, r: Replica, i: nat): Replica
    requires (forall k | 0 <= k <= i :: k in r.chain) && r.chain[0] in r.decided
    decreases i
  {
    if r.chain[i] in r.decided then r else Walk(rid, Commit(rid, r, i), i - 1)
  }
}

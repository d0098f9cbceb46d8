/** n replicas, a fixed correct proposer, FIFO links and timers that fire in arming order. */
module FifoNet {
  import opened Blocks

  /** The link from `from` to `to` carries what `from` broadcast, in order; `taken` counts how much of
      it has been delivered. `dequeued` is every command the proposer has taken from its queue. */
  datatype Link = Link(from: nat, to: nat)

  datatype Net = Net(reps: seq<Replica>, taken: map<Link, nat>, buffer: seq<Cmd>, dequeued: seq<Cmd>)

  datatype Config = Config(n: nat, proposer: nat, blkSize: nat)

  datatype Action = Dequeue(cmd: Cmd) | Deliver(link: Link) | Fire(rid: nat)

  ghost predicate ConfigOk(c: Config) {
    c.proposer < c.n
  }

  function Init(c: Config): Net {
    Net(seq(c.n, _ => START), map[], [], [])
  }

  function Taken(s: Net, l: Link): nat {
    if l in s.taken then s.taken[l] else 0
  }

  /** One pass of the loop over the command queue, with `on_propose(cmds, get_parents())` inside. */
  function TakeCommand(c: Config, s: Net, cmd: Cmd): Net
    requires c.proposer < |s.reps|
  {
    var s1 := s.(buffer := s.buffer + [cmd], dequeued := s.dequeued + [cmd]);
    if |s1.buffer| < c.blkSize then s1
    else
      var r := s1.reps[c.proposer];
      if CanPropose(r) then
        var b := NewBlock(c.proposer, ParentsFrom(r.chain, Depth(r.mark)), s1.buffer[..c.blkSize], []);
        s1.(buffer := s1.buffer[c.blkSize..], reps := s1.reps[c.proposer := Propose(r, b)])
      else s1
  }

  predicate Enabled(c: Config, s: Net, l: Link)
    requires |s.reps| == c.n
  {
    l.from < c.n && l.to < c.n && l.from != l.to && Taken(s, l) < |s.reps[l.from].sent|
  }

  /** The receiver of `l` becomes `r`, and one more message of `l` is delivered. */
  function Moved(s: Net, l: Link, r: Replica): Net
    requires l.to < |s.reps|
  {
    s.(reps := s.reps[l.to := r], taken := s.taken[l := Taken(s, l) + 1])
  }

  /** An action that is not enabled changes nothing. */
  function Step(c: Config, s: Net, a: Action): Net
    requires |s.reps| == c.n && ConfigOk(c)
  {
    match a
    case Dequeue(cmd) => TakeCommand(c, s, cmd)
    case Deliver(l) =>
      if Enabled(c, s, l) then Moved(s, l, Receive(s.reps[l.to], s.reps[l.from].sent[Taken(s, l)])) else s
    case Fire(j) =>
      if j < c.n && s.reps[j].timers != [] && s.reps[j].timers[0] in s.reps[j].chain then
        s.(reps := s.reps[j := FireFirst(j, s.reps[j])])
      else s
  }

  function FireFirst(rid: nat, r: Replica): Replica
    requires r.timers != [] && r.timers[0] in r.chain
  {
    Commit(rid, r.(timers := r.timers[1..]), r.timers[0])
  }

  function Play(c: Config, s: Net, acts: seq<Action>): (r: Net)
    requires |s.reps| == c.n && ConfigOk(c)
    ensures |r.reps| == c.n
    decreases |acts|
  {
    if acts == [] then s else Play(c, Step(c, s, acts[0]), acts[1..])
  }

  // ---- the invariant ----

  /** All blocks so far: the genesis block and what the proposer broadcast. */
  function AllBlocks(c: Config, s: Net): seq<Hash>
    requires c.proposer < |s.reps|
  {
    [Genesis] + s.reps[c.proposer].sent
  }

  /** Every block's parents are all the blocks below it, highest first. */
  ghost predicate Linear(blocks: seq<Hash>) {
    && blocks != [] && blocks[0] == Genesis
    && forall k {:trigger LinearAt(blocks, k)} | 0 <= k < |blocks| :: LinearAt(blocks, k)
  }

  ghost predicate LinearAt(blocks: seq<Hash>, k: nat)
    requires k < |blocks|
  {
    && Depth(blocks[k]) == k && WellHeighted(blocks[k])
    && |ParentHashes(blocks[k])| == k && forall i | 0 <= i < k :: ParentHashes(blocks[k])[i] == blocks[k - 1 - i]
  }

  function Log(rid: nat, blocks: seq<Hash>, f: nat): seq<Finality>
    requires f < |blocks|
  {
    if f == 0 then [] else Log(rid, blocks, f - 1) + Finalities(rid, blocks[f])
  }

  function UpTo(blocks: seq<Hash>, f: nat): set<Hash>
    requires f < |blocks|
  {
    if f == 0 then {blocks[0]} else UpTo(blocks, f - 1) + {blocks[f]}
  }

  lemma {:induction false} NotYet(blocks: seq<Hash>, f: nat, b: Hash)
    requires Linear(blocks) && f < |blocks| && Depth(b) > f
    ensures b !in UpTo(blocks, f)
  {
    assert LinearAt(blocks, f);
    if f > 0 { NotYet(blocks, f - 1, b); }
  }

  /** A replica that has stored the first blocks in order and committed a prefix of those. */
  ghost predicate InStep(rid: nat, r: Replica, blocks: seq<Hash>) {
    var m := |r.sent|;
    && m < |blocks| && |r.timers| <= m
    && ChainIs(r.chain, blocks, m) && r.sent == blocks[1..m + 1] && r.mark == blocks[m]
    && TimersAre(r.timers, m - |r.timers|)
    && r.decided == UpTo(blocks, m - |r.timers|) && r.log == Log(rid, blocks, m - |r.timers|)
  }

  ghost predicate ChainIs(chain: map<nat, Hash>, blocks: seq<Hash>, m: nat)
    requires m < |blocks|
  {
    (forall ht :: ht in chain <==> 0 <= ht <= m) && forall ht | 0 <= ht <= m :: chain[ht] == blocks[ht]
  }

  /** Armed are the heights from `f + 1` on. */
  ghost predicate TimersAre(timers: seq<nat>, f: nat) {
    forall i | 0 <= i < |timers| :: timers[i] == f + 1 + i
  }

  function Flatten(blocks: seq<Hash>): seq<Cmd> {
    if blocks == [] then [] else Flatten(blocks[..|blocks| - 1]) + Cmds(blocks[|blocks| - 1])
  }

  ghost predicate LinksOk(c: Config, s: Net)
    requires |s.reps| == c.n
  {
    forall l | l in s.taken :: l.from < c.n && l.to < c.n && l.from != l.to
      && s.taken[l] <= |s.reps[l.from].sent| && s.taken[l] <= |s.reps[l.to].sent|
  }

  ghost predicate BatchesOk(c: Config, blocks: seq<Hash>) {
    forall k | 1 <= k < |blocks| :: |Cmds(blocks[k])| == c.blkSize
  }

  ghost predicate Inv(c: Config, s: Net) {
    && ConfigOk(c) && |s.reps| == c.n
    && var blocks := AllBlocks(c, s);
       && Linear(blocks) && BatchesOk(c, blocks)
       && (forall j {:trigger InStep(j, s.reps[j], blocks)} | 0 <= j < c.n :: InStep(j, s.reps[j], blocks))
       && LinksOk(c, s)
       && s.dequeued == Flatten(blocks) + s.buffer
  }

  lemma InitInv(c: Config)
    requires ConfigOk(c)
    ensures Inv(c, Init(c))
  {
    var blocks := AllBlocks(c, Init(c));
    assert blocks == [Genesis] && Flatten([]) == [];
    assert [Genesis][..0] == [];
  }

  // ---- one replica ----

  lemma {:induction false} Extend(rid: nat, blocks: seq<Hash>, b: Hash, f: nat)
    requires f < |blocks|
    ensures Log(rid, blocks + [b], f) == Log(rid, blocks, f) && UpTo(blocks + [b], f) == UpTo(blocks, f)
  {
    if f > 0 { Extend(rid, blocks, b, f - 1); }
  }

  /** A new proposal does not disturb a replica that has not seen it. */
  lemma InStepExtend(rid: nat, r: Replica, blocks: seq<Hash>, b: Hash)
    requires InStep(rid, r, blocks)
    ensures InStep(rid, r, blocks + [b])
  {
    Extend(rid, blocks, b, |r.sent| - |r.timers|);
  }

  /** The state after storing and broadcasting the next block `b`. */
  function Stored(r: Replica, b: Hash): Replica {
    r.(chain := r.chain[|r.sent| + 1 := b], mark := b, timers := r.timers + [|r.sent| + 1], sent := r.sent + [b])
  }

  lemma StoredInStep(rid: nat, r: Replica, blocks: seq<Hash>)
    requires InStep(rid, r, blocks) && |r.sent| + 1 < |blocks|
    ensures InStep(rid, Stored(r, blocks[|r.sent| + 1]), blocks)
  {
    var m := |r.sent|;
    SentMore(blocks, m);
    ChainMore(r.chain, blocks, m);
    TimersMore(r.timers, m - |r.timers|, m + 1);
  }

  lemma SentMore(blocks: seq<Hash>, m: nat)
    requires m + 1 < |blocks|
    ensures blocks[1..m + 2] == blocks[1..m + 1] + [blocks[m + 1]]
  {}

  lemma ChainMore(chain: map<nat, Hash>, blocks: seq<Hash>, m: nat)
    requires m + 1 < |blocks| && ChainIs(chain, blocks, m)
    ensures ChainIs(chain[m + 1 := blocks[m + 1]], blocks, m + 1)
  {
    assert forall ht :: ht in chain[m + 1 := blocks[m + 1]] <==> ht in chain || ht == m + 1;
  }

  lemma TimersMore(timers: seq<nat>, f: nat, ht: nat)
    requires TimersAre(timers, f) && ht == f + 1 + |timers|
    ensures TimersAre(timers + [ht], f)
  {}

  lemma ReceiveStores(rid: nat, r: Replica, blocks: seq<Hash>, b: Hash)
    requires InStep(rid, r, blocks) && Depth(r.mark) == |r.sent| && Depth(b) == |r.sent| + 1 && WellHeighted(b)
    ensures Receive(r, b) == Propose(r, b) == Stored(r, b)
  {
    ForwardedUnchangedIff(b);
  }

  lemma ReceiveNext(rid: nat, r: Replica, blocks: seq<Hash>)
    requires Linear(blocks) && InStep(rid, r, blocks) && |r.sent| + 1 < |blocks|
    ensures InStep(rid, Receive(r, blocks[|r.sent| + 1]), blocks)
    ensures |Receive(r, blocks[|r.sent| + 1]).sent| == |r.sent| + 1
  {
    assert LinearAt(blocks, |r.sent|) && LinearAt(blocks, |r.sent| + 1);
    ReceiveStores(rid, r, blocks, blocks[|r.sent| + 1]);
    StoredInStep(rid, r, blocks);
  }

  lemma ReceiveAgain(rid: nat, r: Replica, blocks: seq<Hash>, k: nat)
    requires Linear(blocks) && InStep(rid, r, blocks) && k <= |r.sent|
    ensures Receive(r, blocks[k]) == r
  {
    assert LinearAt(blocks, k);
  }

  lemma FireKeeps(rid: nat, r: Replica, blocks: seq<Hash>)
    requires Linear(blocks) && InStep(rid, r, blocks) && r.timers != []
    ensures r.timers[0] in r.chain && InStep(rid, FireFirst(rid, r), blocks) && FireFirst(rid, r).sent == r.sent
  {
    var f := |r.sent| - |r.timers|;
    assert r.timers[0] == f + 1 && LinearAt(blocks, f + 1);
    NotYet(blocks, f, blocks[f + 1]);
    FireIs(rid, r, blocks[f + 1]);
  }

  lemma FireIs(rid: nat, r: Replica, b: Hash)
    requires r.timers != [] && r.timers[0] in r.chain && r.chain[r.timers[0]] == b && b !in r.decided
    ensures FireFirst(rid, r) ==
      r.(timers := r.timers[1..], decided := r.decided + {b}, log := r.log + Finalities(rid, b))
  {}

  // ---- the steps of the network ----

  /** One replica moves on; the blocks proposed so far do not change. */
  lemma Replace(c: Config, s: Net, j: nat, r: Replica, taken: map<Link, nat>)
    requires Inv(c, s) && j < c.n && InStep(j, r, AllBlocks(c, s))
    requires |r.sent| >= |s.reps[j].sent| && (j == c.proposer ==> r.sent == s.reps[j].sent)
    requires LinksOk(c, s.(reps := s.reps[j := r], taken := taken))
    ensures Inv(c, s.(reps := s.reps[j := r], taken := taken))
  {
    assert AllBlocks(c, s.(reps := s.reps[j := r], taken := taken)) == AllBlocks(c, s);
  }

  /** What a delivery does to the receiver `r`. */
  lemma Delivered(i: nat, sender: Replica, j: nat, r: Replica, blocks: seq<Hash>, t: nat)
    requires Linear(blocks) && InStep(i, sender, blocks) && InStep(j, r, blocks) && t < |sender.sent| && t <= |r.sent|
    ensures var r' := Receive(r, sender.sent[t]);
      && InStep(j, r', blocks) && |r'.sent| >= |r.sent| && |r'.sent| > t
      && (|r.sent| + 1 == |blocks| ==> r'.sent == r.sent)
  {
    SentBlock(i, sender, blocks, t);
    if t < |r.sent| {
      ReceiveAgain(j, r, blocks, t + 1);
    } else {
      assert t == |r.sent|;
      ReceiveNext(j, r, blocks);
    }
  }

  lemma SentBlock(i: nat, sender: Replica, blocks: seq<Hash>, t: nat)
    requires InStep(i, sender, blocks) && t < |sender.sent|
    ensures t + 1 < |blocks| && sender.sent[t] == blocks[t + 1]
  {
    assert sender.sent[t] == blocks[1..|sender.sent| + 1][t];
  }

  lemma MovedKeeps(c: Config, s: Net, l: Link, r: Replica)
    requires Inv(c, s) && Enabled(c, s, l) && InStep(l.to, r, AllBlocks(c, s))
    requires |r.sent| >= |s.reps[l.to].sent| && |r.sent| > Taken(s, l)
    requires l.to == c.proposer ==> r.sent == s.reps[l.to].sent
    ensures Inv(c, Moved(s, l, r))
  {
    Replace(c, s, l.to, r, s.taken[l := Taken(s, l) + 1]);
  }

  lemma DeliverKeeps(c: Config, s: Net, l: Link)
    requires Inv(c, s)
    ensures Inv(c, Step(c, s, Deliver(l)))
  {
    if Enabled(c, s, l) {
      var blocks, sender, r, t := AllBlocks(c, s), s.reps[l.from], s.reps[l.to], Taken(s, l);
      assert InStep(l.from, sender, blocks) && InStep(l.to, r, blocks);
      Delivered(l.from, sender, l.to, r, blocks, t);
      MovedKeeps(c, s, l, Receive(r, sender.sent[t]));
    }
  }

  lemma FireKeepsInv(c: Config, s: Net, j: nat)
    requires Inv(c, s)
    ensures Inv(c, Step(c, s, Fire(j)))
  {
    if j < c.n && s.reps[j].timers != [] {
      assert InStep(j, s.reps[j], AllBlocks(c, s));
      FireKeeps(j, s.reps[j], AllBlocks(c, s));
      var s' := s.(reps := s.reps[j := FireFirst(j, s.reps[j])], taken := s.taken);
      assert forall i | 0 <= i < c.n :: s'.reps[i].sent == s.reps[i].sent;
      Replace(c, s, j, FireFirst(j, s.reps[j]), s.taken);
      assert Step(c, s, Fire(j)) == s';
    }
  }

  /** The next block the proposer builds continues the line. */
  lemma NextLinear(c: Config, blocks: seq<Hash>, r: Replica, cmds: seq<Cmd>)
    requires Linear(blocks) && InStep(c.proposer, r, blocks) && |r.sent| + 1 == |blocks|
    ensures Depth(r.mark) == |r.sent| && CanPropose(r)
    ensures var b := NewBlock(c.proposer, ParentsFrom(r.chain, Depth(r.mark)), cmds, []);
      Linear(blocks + [b]) && Depth(b) == |blocks| && WellHeighted(b) && Cmds(b) == cmds
  {
    var m := |r.sent|;
    assert LinearAt(blocks, m);
    var ps := ParentsFrom(r.chain, m);
    var b := NewBlock(c.proposer, ps, cmds, []);
    NewBlockHeight(c.proposer, ps, cmds, []);
    assert ps[0] == blocks[m];
    forall k | 0 <= k < |blocks + [b]| ensures LinearAt(blocks + [b], k) {
      if k < |blocks| { assert LinearAt(blocks, k); }
    }
  }

  lemma FlattenMore(blocks: seq<Hash>, b: Hash, rest: seq<Cmd>)
    ensures Flatten(blocks + [b]) + rest == Flatten(blocks) + (Cmds(b) + rest)
  {
    assert (blocks + [b])[..|blocks|] == blocks;
  }

  /** Every replica is in step with the longer line, the proposer after storing the new block. */
  lemma AllInStep(c: Config, s: Net, b: Hash)
    requires Inv(c, s) && Depth(b) == |AllBlocks(c, s)| && WellHeighted(b) && Linear(AllBlocks(c, s) + [b])
    ensures var more, r := AllBlocks(c, s) + [b], s.reps[c.proposer];
      && (forall j | 0 <= j < c.n :: InStep(j, s.reps[j], more))
      && Propose(r, b) == Stored(r, b) && InStep(c.proposer, Stored(r, b), more)
  {
    var blocks, r := AllBlocks(c, s), s.reps[c.proposer];
    forall j | 0 <= j < c.n ensures InStep(j, s.reps[j], blocks + [b]) { InStepExtend(j, s.reps[j], blocks, b); }
    assert InStep(c.proposer, r, blocks) && LinearAt(blocks, |r.sent|);
    ReceiveStores(c.proposer, r, blocks, b);
    StoredInStep(c.proposer, r, blocks + [b]);
  }

  lemma ProposeKeeps(c: Config, s: Net, cmds: seq<Cmd>, rest: seq<Cmd>)
    requires Inv(c, s) && s.buffer == cmds + rest && |cmds| == c.blkSize
    ensures CanPropose(s.reps[c.proposer])
    ensures var r := s.reps[c.proposer];
      Inv(c, s.(buffer := rest, reps := s.reps[c.proposer :=
        Propose(r, NewBlock(c.proposer, ParentsFrom(r.chain, Depth(r.mark)), cmds, []))]))
  {
    var blocks, r := AllBlocks(c, s), s.reps[c.proposer];
    assert InStep(c.proposer, r, blocks);
    NextLinear(c, blocks, r, cmds);
    Proposed(c, s, NewBlock(c.proposer, ParentsFrom(r.chain, Depth(r.mark)), cmds, []), rest);
  }

  lemma Proposed(c: Config, s: Net, b: Hash, rest: seq<Cmd>)
    requires Inv(c, s) && Depth(b) == |AllBlocks(c, s)| && WellHeighted(b) && Linear(AllBlocks(c, s) + [b])
    requires s.buffer == Cmds(b) + rest && |Cmds(b)| == c.blkSize
    ensures Inv(c, s.(buffer := rest, reps := s.reps[c.proposer := Propose(s.reps[c.proposer], b)]))
  {
    AllInStep(c, s, b);
    Joined(c, s, Stored(s.reps[c.proposer], b), b, rest);
  }

  lemma Joined(c: Config, s: Net, r: Replica, b: Hash, rest: seq<Cmd>)
    requires Inv(c, s) && Linear(AllBlocks(c, s) + [b]) && r.sent == s.reps[c.proposer].sent + [b]
    requires forall j {:trigger InStep(j, s.reps[j], AllBlocks(c, s) + [b])} | 0 <= j < c.n ::
      InStep(j, s.reps[j], AllBlocks(c, s) + [b])
    requires InStep(c.proposer, r, AllBlocks(c, s) + [b])
    requires s.buffer == Cmds(b) + rest && |Cmds(b)| == c.blkSize
    ensures Inv(c, s.(buffer := rest, reps := s.reps[c.proposer := r]))
  {
    var more := AllBlocks(c, s) + [b];
    var s' := s.(buffer := rest, reps := s.reps[c.proposer := r]);
    assert AllBlocks(c, s') == more;
    LinksGrow(c, s, s');
    FlattenMore(AllBlocks(c, s), b, rest);
    BatchesMore(c, AllBlocks(c, s), b);
    forall j | 0 <= j < c.n ensures InStep(j, s'.reps[j], more) {
      if j != c.proposer { assert InStep(j, s.reps[j], more); }
    }
    Assemble(c, s', more);
  }

  lemma BatchesMore(c: Config, blocks: seq<Hash>, b: Hash)
    requires BatchesOk(c, blocks) && |Cmds(b)| == c.blkSize
    ensures BatchesOk(c, blocks + [b])
  {}

  lemma LinksGrow(c: Config, s: Net, s': Net)
    requires |s.reps| == |s'.reps| == c.n && s'.taken == s.taken && LinksOk(c, s)
    requires forall i | 0 <= i < c.n :: |s'.reps[i].sent| >= |s.reps[i].sent|
    ensures LinksOk(c, s')
  {}

  lemma Assemble(c: Config, s: Net, blocks: seq<Hash>)
    requires ConfigOk(c) && |s.reps| == c.n && blocks == AllBlocks(c, s) && Linear(blocks) && BatchesOk(c, blocks)
    requires (forall j | 0 <= j < c.n :: InStep(j, s.reps[j], blocks)) && LinksOk(c, s)
    requires s.dequeued == Flatten(blocks) + s.buffer
    ensures Inv(c, s)
  {}

  lemma CommandKeeps(c: Config, s: Net, cmd: Cmd)
    requires Inv(c, s)
    ensures Inv(c, Step(c, s, Dequeue(cmd)))
  {
    var s1 := s.(buffer := s.buffer + [cmd], dequeued := s.dequeued + [cmd]);
    assert AllBlocks(c, s1) == AllBlocks(c, s);
    if |s1.buffer| >= c.blkSize {
      assert s1.buffer == s1.buffer[..c.blkSize] + s1.buffer[c.blkSize..];
      ProposeKeeps(c, s1, s1.buffer[..c.blkSize], s1.buffer[c.blkSize..]);
    }
  }

  lemma StepKeeps(c: Config, s: Net, a: Action)
    requires Inv(c, s)
    ensures Inv(c, Step(c, s, a))
  {
    match a
    case Dequeue(cmd) => CommandKeeps(c, s, cmd);
    case Deliver(l) => DeliverKeeps(c, s, l);
    case Fire(j) => FireKeepsInv(c, s, j);
  }

  lemma {:induction false} PlayKeeps(c: Config, s: Net, acts: seq<Action>)
    requires Inv(c, s)
    ensures Inv(c, Play(c, s, acts))
    decreases |acts|
  {
    if acts != [] {
      StepKeeps(c, s, acts[0]);
      PlayKeeps(c, Step(c, s, acts[0]), acts[1..]);
    }
  }

  /** The state after any sequence of events. */
  ghost predicate Reachable(c: Config, s: Net) {
    ConfigOk(c) && exists acts :: s == Play(c, Init(c), acts)
  }

  lemma ReachableInv(c: Config, s: Net)
    requires Reachable(c, s)
    ensures Inv(c, s)
  {
    var acts :| s == Play(c, Init(c), acts);
    InitInv(c);
    PlayKeeps(c, Init(c), acts);
  }

  // ---- what holds in every reachable state ----

  /** The blocks `r` stores and has broadcast name replica `p` as their proposer. */
  ghost predicate OnlyBy(r: Replica, p: nat) {
    && (forall ht | ht in r.chain :: r.chain[ht].Genesis? || r.chain[ht].wire.proposer == p)
    && forall b | b in r.sent :: b.Genesis? || b.wire.proposer == p
  }

  lemma {:induction false} PlayOnlyBy(c: Config, s: Net, acts: seq<Action>)
    requires |s.reps| == c.n && ConfigOk(c) && forall j | 0 <= j < c.n :: OnlyBy(s.reps[j], c.proposer)
    ensures forall j | 0 <= j < c.n :: OnlyBy(Play(c, s, acts).reps[j], c.proposer)
    decreases |acts|
  {
    if acts != [] {
      StepOnlyBy(c, s, acts[0]);
      PlayOnlyBy(c, Step(c, s, acts[0]), acts[1..]);
    }
  }

  lemma StepOnlyBy(c: Config, s: Net, a: Action)
    requires |s.reps| == c.n && ConfigOk(c) && forall j | 0 <= j < c.n :: OnlyBy(s.reps[j], c.proposer)
    ensures forall j | 0 <= j < c.n :: OnlyBy(Step(c, s, a).reps[j], c.proposer)
  {
    match a {
      case Dequeue(_) =>
      case Deliver(l) =>
        if Enabled(c, s, l) { ReceiveOnlyBy(s.reps[l.to], s.reps[l.from].sent[Taken(s, l)], c.proposer); }
      case Fire(_) =>
    }
  }

  lemma ReceiveOnlyBy(r: Replica, h: Hash, p: nat)
    requires OnlyBy(r, p) && (h.Genesis? || h.wire.proposer == p)
    ensures OnlyBy(Receive(r, h), p)
  {}

  /** Every block a replica stores or broadcasts carries the proposer's id, which is what its receivers check. */
  lemma ProposersBlocks(c: Config, s: Net, j: nat)
    requires Reachable(c, s) && j < c.n
    ensures |s.reps| == c.n
    ensures forall ht | ht in s.reps[j].chain && ht > 0 ::
      s.reps[j].chain[ht].Of? && s.reps[j].chain[ht].wire.proposer == c.proposer
    ensures forall b | b in s.reps[j].sent :: b.Of? && b.wire.proposer == c.proposer && b.wire.height == Depth(b) > 0
  {
    var acts :| s == Play(c, Init(c), acts);
    PlayOnlyBy(c, Init(c), acts);
    ReachableInv(c, s);
    var blocks := AllBlocks(c, s);
    assert InStep(j, s.reps[j], blocks);
    WellMade(j, s.reps[j], blocks);
  }

  lemma WellMade(j: nat, r: Replica, blocks: seq<Hash>)
    requires Linear(blocks) && InStep(j, r, blocks)
    ensures forall b | b in r.sent :: b.Of? && b.wire.height == Depth(b) > 0
    ensures forall ht | ht in r.chain && ht > 0 :: r.chain[ht].Of?
  {
    forall b | b in r.sent ensures b.Of? && b.wire.height == Depth(b) > 0 {
      var k :| 0 <= k < |r.sent| && r.sent[k] == b;
      SentBlock(j, r, blocks, k);
      assert LinearAt(blocks, k + 1);
    }
    forall ht | ht in r.chain && ht > 0 ensures r.chain[ht].Of? { assert LinearAt(blocks, ht); }
  }

  /** No replica has a hole: its map covers heights 0 to that of `b_mark`, every stored block's parents
      are the stored blocks below it in descending order, and each link's history is blocks 1 to `b_mark`. */
  lemma GapFree(c: Config, s: Net, j: nat)
    requires Reachable(c, s) && j < c.n
    ensures |s.reps| == c.n && var r := s.reps[j];
      && (forall ht :: ht in r.chain <==> 0 <= ht <= Depth(r.mark)) && CanPropose(r)
      && (forall ht | ht in r.chain :: Depth(r.chain[ht]) == ht && |ParentHashes(r.chain[ht])| == ht)
      && (forall ht, i | ht in r.chain && 0 <= i < ht :: ParentHashes(r.chain[ht])[i] == r.chain[ht - 1 - i])
      && |r.sent| == Depth(r.mark) && forall k | 0 <= k < |r.sent| :: r.sent[k] == r.chain[k + 1]
  {
    ReachableInv(c, s);
    var r, blocks := s.reps[j], AllBlocks(c, s);
    assert InStep(j, r, blocks);
    forall ht | 0 <= ht <= |r.sent| ensures LinearAt(blocks, ht) && r.chain[ht] == blocks[ht] {}
  }

  function Commands(log: seq<Finality>): seq<Cmd> {
    seq(|log|, i requires 0 <= i < |log| => log[i].cmd)
  }

  lemma {:induction false} LogCommands(rid: nat, blocks: seq<Hash>, f: nat)
    requires f < |blocks| && blocks[0] == Genesis
    ensures Commands(Log(rid, blocks, f)) == Flatten(blocks[..f + 1])
  {
    assert blocks[..f + 1][..f] == blocks[..f];
    if f > 0 {
      LogCommands(rid, blocks, f - 1);
      assert Commands(Finalities(rid, blocks[f])) == Cmds(blocks[f]);
    } else {
      assert Flatten(blocks[..1]) == Flatten(blocks[..0]) + [];
    }
  }

  lemma {:induction false} FlattenPrefix(blocks: seq<Hash>, f: nat)
    requires f <= |blocks|
    ensures Flatten(blocks[..f]) <= Flatten(blocks)
    decreases |blocks| - f
  {
    if f == |blocks| {
      assert blocks[..f] == blocks;
    } else {
      FlattenPrefix(blocks, f + 1);
      assert blocks[..f + 1][..f] == blocks[..f];
    }
  }

  lemma LogPrefix(rid: nat, blocks: seq<Hash>, f: nat)
    requires f < |blocks| && blocks[0] == Genesis
    ensures Commands(Log(rid, blocks, f)) <= Flatten(blocks)
  {
    LogCommands(rid, blocks, f);
    FlattenPrefix(blocks, f + 1);
  }

  lemma InvStep(c: Config, s: Net, j: nat)
    requires Inv(c, s) && j < c.n
    ensures InStep(j, s.reps[j], AllBlocks(c, s)) && Linear(AllBlocks(c, s)) && BatchesOk(c, AllBlocks(c, s))
    ensures Flatten(AllBlocks(c, s)) <= s.dequeued
  {
    assert InStep(j, s.reps[j], AllBlocks(c, s));
  }

  /** Every replica's decided commands are a prefix of the commands the proposer took, in order. */
  lemma LogSafety(c: Config, s: Net, j: nat)
    requires Reachable(c, s) && j < c.n
    ensures |s.reps| == c.n && Commands(s.reps[j].log) <= s.dequeued
  {
    ReachableInv(c, s);
    InvStep(c, s, j);
    LogPrefix(j, AllBlocks(c, s), |s.reps[j].sent| - |s.reps[j].timers|);
  }

  /** So of any two replicas' logs one is a prefix of the other. */
  lemma LogsAgree(c: Config, s: Net, i: nat, j: nat)
    requires Reachable(c, s) && i < c.n && j < c.n
    ensures |s.reps| == c.n
    ensures Commands(s.reps[i].log) <= Commands(s.reps[j].log) || Commands(s.reps[j].log) <= Commands(s.reps[i].log)
  {
    LogSafety(c, s, i);
    LogSafety(c, s, j);
    assert forall a: seq<Cmd> :: a <= s.dequeued ==> a == s.dequeued[..|a|];
  }

  lemma {:induction false} EntryOf(c: Config, rid: nat, blocks: seq<Hash>, f: nat, k: nat, i: nat)
    requires Linear(blocks) && BatchesOk(c, blocks) && 1 <= k <= f < |blocks| && i < c.blkSize
    ensures |Log(rid, blocks, f)| == f * c.blkSize && (k - 1) * c.blkSize + i < f * c.blkSize
    ensures Log(rid, blocks, f)[(k - 1) * c.blkSize + i] == Finality(rid, 1, i, k, Cmds(blocks[k])[i], blocks[k])
    decreases f
  {
    LogSize(c, rid, blocks, f);
    LogSize(c, rid, blocks, f - 1);
    Inside(k, f, i, c.blkSize);
    if k < f {
      EntryOf(c, rid, blocks, f - 1, k, i);
    } else {
      assert LinearAt(blocks, k);
      assert Log(rid, blocks, f)[|Log(rid, blocks, f - 1)| + i] == Finalities(rid, blocks[f])[i];
    }
  }

  lemma Inside(k: nat, f: nat, i: nat, size: nat)
    requires 1 <= k <= f && i < size
    ensures 0 <= (k - 1) * size + i < f * size
  {
    assert (k - 1) * size + size == k * size;
    if k < f { Inside(k, f - 1, i, size); }
  }

  /** Entry `e` of the log of `r` is command `i` of the block stored at height `k`. */
  ghost predicate EntryAt(c: Config, rid: nat, r: Replica, e: int, k: nat, i: nat) {
    && 0 <= e < |r.log| && k in r.chain && |Cmds(r.chain[k])| == c.blkSize && i < c.blkSize
    && r.log[e] == Finality(rid, 1, i, k, Cmds(r.chain[k])[i], r.chain[k])
  }

  lemma EntryIn(c: Config, rid: nat, r: Replica, blocks: seq<Hash>, f: nat, e: int, k: nat, i: nat)
    requires Linear(blocks) && BatchesOk(c, blocks) && 1 <= k <= f < |blocks| && i < c.blkSize
    requires k in r.chain && r.chain[k] == blocks[k] && r.log == Log(rid, blocks, f) && e == (k - 1) * c.blkSize + i
    ensures EntryAt(c, rid, r, e, k, i)
  {
    EntryOf(c, rid, blocks, f, k, i);
    NotNegative(k - 1, c.blkSize);
  }

  lemma NotNegative(a: nat, b: nat)
    ensures 0 <= a * b
  {}

  lemma InStepStored(rid: nat, r: Replica, blocks: seq<Hash>, k: nat)
    requires InStep(rid, r, blocks) && 1 <= k <= |r.sent| - |r.timers|
    ensures |r.sent| - |r.timers| < |blocks| && r.log == Log(rid, blocks, |r.sent| - |r.timers|)
    ensures k in r.chain && r.chain[k] == blocks[k]
  {}

  lemma StoredEntry(c: Config, rid: nat, r: Replica, blocks: seq<Hash>, e: int, k: nat, i: nat)
    requires Linear(blocks) && BatchesOk(c, blocks) && InStep(rid, r, blocks)
    requires 1 <= k <= |r.sent| - |r.timers| && i < c.blkSize && e == (k - 1) * c.blkSize + i
    ensures EntryAt(c, rid, r, e, k, i)
  {
    InStepStored(rid, r, blocks, k);
    EntryIn(c, rid, r, blocks, |r.sent| - |r.timers|, e, k, i);
  }

  /** In every reachable state a log is made of whole blocks of `blkSize` commands, heights 1, 2, 3, ... and
      indices in order. */
  lemma LogEntry(c: Config, s: Net, j: nat, k: nat, i: nat)
    requires Reachable(c, s) && j < c.n && |s.reps| == c.n
    requires 1 <= k <= |s.reps[j].sent| - |s.reps[j].timers| && i < c.blkSize
    ensures EntryAt(c, j, s.reps[j], (k - 1) * c.blkSize + i, k, i)
  {
    ReachableInv(c, s);
    assert InStep(j, s.reps[j], AllBlocks(c, s));
    StoredEntry(c, j, s.reps[j], AllBlocks(c, s), (k - 1) * c.blkSize + i, k, i);
  }

  /** And there is nothing else in it. */
  lemma LogLength(c: Config, s: Net, j: nat)
    requires Reachable(c, s) && j < c.n && |s.reps| == c.n
    ensures |s.reps[j].timers| <= |s.reps[j].sent|
    ensures |s.reps[j].log| == (|s.reps[j].sent| - |s.reps[j].timers|) * c.blkSize
  {
    ReachableInv(c, s);
    assert InStep(j, s.reps[j], AllBlocks(c, s));
    LogSize(c, j, AllBlocks(c, s), |s.reps[j].sent| - |s.reps[j].timers|);
  }

  lemma NoBatches(entries: nat, f: nat, size: nat)
    requires f == 0 && entries == 0
    ensures entries == f * size
  {}

  lemma OneBatchMore(before: nat, after: nat, f: nat, size: nat)
    requires f > 0 && before == (f - 1) * size && after == before + size
    ensures after == f * size
  {}

  lemma LogGrows(c: Config, rid: nat, blocks: seq<Hash>, f: nat)
    requires BatchesOk(c, blocks) && 0 < f < |blocks|
    ensures |Log(rid, blocks, f)| == |Log(rid, blocks, f - 1)| + c.blkSize
  {
    assert |Cmds(blocks[f])| == c.blkSize;
  }

  lemma {:induction false} LogSize(c: Config, rid: nat, blocks: seq<Hash>, f: nat)
    requires BatchesOk(c, blocks) && f < |blocks|
    ensures |Log(rid, blocks, f)| == f * c.blkSize
  {
    if f == 0 {
      NoBatches(|Log(rid, blocks, f)|, f, c.blkSize);
    } else {
      LogSize(c, rid, blocks, f - 1);
      LogGrows(c, rid, blocks, f);
      OneBatchMore(|Log(rid, blocks, f - 1)|, |Log(rid, blocks, f)|, f, c.blkSize);
    }
  }
}

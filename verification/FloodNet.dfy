/** A fixed correct proposer over links that delay, reorder and duplicate: agreement, and flooding
    that ends with every block everywhere. */
module FloodNet {
  import opened Blocks

  datatype Msg = Msg(to: nat, blk: Hash)

  datatype Net = Net(reps: seq<Replica>, flight: multiset<Msg>)

  datatype Config = Config(n: nat, proposer: nat)

  datatype Action = ProposeNext(cmds: seq<Cmd>, extra: seq<nat>) | Arrive(msg: Msg) | Duplicate(msg: Msg)

  function Init(c: Config): Net {
    Net(seq(c.n, _ => START), multiset{})
  }

  /** One message to every replica below `n` except `j`. */
  function Broadcast(n: nat, j: nat, h: Hash): (r: multiset<Msg>)
    ensures forall m :: r[m] == if m.to < n && m.to != j && m.blk == h then 1 else 0
    ensures |r| == if j < n then n - 1 else n
  {
    if n == 0 then multiset{} else Broadcast(n - 1, j, h) + if n - 1 == j then multiset{} else multiset{Msg(n - 1, h)}
  }

  function Handle(c: Config, s: Net, j: nat, h: Hash): Net
    requires |s.reps| == c.n && j < c.n
  {
    var r := s.reps[j];
    Net(s.reps[j := Receive(r, h)],
        if Handled(r, h) then s.flight else s.flight + Broadcast(c.n, j, Reserialized(h)))
  }

  /** An action that is not enabled changes nothing. A message may arrive at any later time, in any order. */
  function Step(c: Config, s: Net, a: Action): Net
    requires |s.reps| == c.n && c.proposer < c.n
  {
    match a
    case ProposeNext(cmds, extra) =>
      var r := s.reps[c.proposer];
      if CanPropose(r) then
        var b := NewBlock(c.proposer, ParentsFrom(r.chain, Depth(r.mark)), cmds, extra);
        Net(s.reps[c.proposer := Propose(r, b)], s.flight + Broadcast(c.n, c.proposer, b))
      else s
    case Arrive(m) =>
      if m in s.flight && m.to < c.n then Handle(c, s.(flight := s.flight - multiset{m}), m.to, m.blk) else s
    case Duplicate(m) => if m in s.flight then s.(flight := s.flight + multiset{m}) else s
  }

  function Play(c: Config, s: Net, acts: seq<Action>): (r: Net)
    requires |s.reps| == c.n && c.proposer < c.n
    ensures |r.reps| == c.n
    decreases |acts|
  {
    if acts == [] then s else Play(c, Step(c, s, acts[0]), acts[1..])
  }

  // ---- the invariant ----

  /** Block `b` is the one the proposer stores at its height. */
  ghost predicate Proposed(c: Config, s: Net, b: Hash)
    requires |s.reps| == c.n && c.proposer < c.n
  {
    var p := s.reps[c.proposer];
    Depth(b) in p.chain && p.chain[Depth(b)] == b && WellHeighted(b)
  }

  /** `r` stores only proposed blocks, and has broadcast each of them but the genesis block once. */
  ghost predicate RepOk(c: Config, s: Net, r: Replica)
    requires |s.reps| == c.n && c.proposer < c.n
  {
    && 0 in r.chain && r.chain[0] == Genesis
    && (forall ht | ht in r.chain :: Depth(r.chain[ht]) == ht && Proposed(c, s, r.chain[ht]))
    && (forall b :: multiset(r.sent)[b] == if b != Genesis && Handled(r, b) then 1 else 0)
  }

  /** What a replica stores, every other one stores or is about to be sent. */
  ghost predicate Reaches(c: Config, s: Net, i: nat, j: nat)
    requires |s.reps| == c.n && i < c.n && j < c.n
  {
    forall ht | ht in s.reps[i].chain && ht > 0 && i != j ::
      ht in s.reps[j].chain || Msg(j, s.reps[i].chain[ht]) in s.flight
  }

  /** The proposer has a block at every height up to that of `b_mark`. */
  ghost predicate MarkOk(c: Config, s: Net)
    requires |s.reps| == c.n && c.proposer < c.n
  {
    var p := s.reps[c.proposer];
    (forall ht :: ht in p.chain <==> 0 <= ht <= Depth(p.mark)) && Proposed(c, s, p.mark)
  }

  ghost predicate MsgOk(c: Config, s: Net, m: Msg)
    requires |s.reps| == c.n && c.proposer < c.n
  {
    m.to < c.n && Depth(m.blk) > 0 && Proposed(c, s, m.blk)
  }

  ghost predicate Inv(c: Config, s: Net) {
    && |s.reps| == c.n && c.proposer < c.n && MarkOk(c, s)
    && (forall j {:trigger RepOk(c, s, s.reps[j])} | 0 <= j < c.n :: RepOk(c, s, s.reps[j]))
    && (forall m | m in s.flight :: MsgOk(c, s, m))
    && (forall i, j {:trigger Reaches(c, s, i, j)} | 0 <= i < c.n && 0 <= j < c.n :: Reaches(c, s, i, j))
  }

  lemma InitInv(c: Config)
    requires c.proposer < c.n
    ensures Inv(c, Init(c))
  {}

  /** Any two replicas that hold a block of one height hold the same one. */
  lemma Agreement(c: Config, s: Net, i: nat, j: nat, ht: nat)
    requires Inv(c, s) && i < c.n && j < c.n && ht in s.reps[i].chain && ht in s.reps[j].chain
    ensures s.reps[i].chain[ht] == s.reps[j].chain[ht]
  {
    assert RepOk(c, s, s.reps[i]) && RepOk(c, s, s.reps[j]);
  }

  /** When nothing is in flight, every replica holds every block the proposer proposed. */
  lemma Complete(c: Config, s: Net, j: nat)
    requires Inv(c, s) && j < c.n && s.flight == multiset{}
    ensures s.reps[j].chain == s.reps[c.proposer].chain
  {
    var p, r := s.reps[c.proposer], s.reps[j];
    assert RepOk(c, s, r) && RepOk(c, s, p) && Reaches(c, s, c.proposer, j);
    forall ht | ht in p.chain ensures ht in r.chain && r.chain[ht] == p.chain[ht] {
      if ht in r.chain { Agreement(c, s, j, c.proposer, ht); }
    }
  }

  // ---- the steps ----

  /** Enough of a later state for a replica's own record to stay right. */
  ghost predicate Extends(c: Config, s: Net, s': Net) {
    && |s.reps| == |s'.reps| == c.n && c.proposer < c.n
    && forall ht | ht in s.reps[c.proposer].chain :: ht in s'.reps[c.proposer].chain
         && s'.reps[c.proposer].chain[ht] == s.reps[c.proposer].chain[ht]
  }

  lemma RepStays(c: Config, s: Net, s': Net, r: Replica)
    requires Extends(c, s, s') && RepOk(c, s, r)
    ensures RepOk(c, s', r)
  {
    forall ht | ht in r.chain ensures Depth(r.chain[ht]) == ht && Proposed(c, s', r.chain[ht]) {
      assert Proposed(c, s, r.chain[ht]);
    }
  }

  /** Storing and broadcasting a proposed block of a new height. */
  lemma RepStores(c: Config, s: Net, r: Replica, b: Hash, r': Replica)
    requires |s.reps| == c.n && c.proposer < c.n && Depth(b) > 0 && Depth(b) !in r.chain && Proposed(c, s, b)
    requires 0 in r.chain && r.chain[0] == Genesis
    requires forall ht | ht in r.chain :: Depth(r.chain[ht]) == ht && Proposed(c, s, r.chain[ht])
    requires forall x :: multiset(r.sent)[x] == if x != Genesis && Handled(r, x) then 1 else 0
    requires r'.chain == r.chain[Depth(b) := b] && r'.sent == r.sent + [b]
    ensures RepOk(c, s, r')
  {
    assert multiset(r'.sent) == multiset(r.sent) + multiset{b};
  }

  lemma ReceiveRep(c: Config, s: Net, r: Replica, b: Hash)
    requires |s.reps| == c.n && c.proposer < c.n && RepOk(c, s, r) && Proposed(c, s, b) && Depth(b) > 0
    ensures RepOk(c, s, Receive(r, b)) && Handled(Receive(r, b), b)
    ensures Handled(r, b) ==> Receive(r, b) == r
    ensures !Handled(r, b) ==> Depth(b) !in r.chain && Receive(r, b).chain == r.chain[Depth(b) := b]
  {
    ForwardedUnchangedIff(b);
    if Depth(b) in r.chain {
      assert Proposed(c, s, r.chain[Depth(b)]);
    } else {
      RepStores(c, s, r, b, Receive(r, b));
    }
  }

  lemma ProposerHasAll(c: Config, s: Net, b: Hash)
    requires Inv(c, s) && Proposed(c, s, b)
    ensures Handled(s.reps[c.proposer], b)
  {}

  lemma ArriveReaches(c: Config, s: Net, m: Msg, i: nat, j: nat)
    requires Inv(c, s) && m in s.flight && m.to < c.n && i < c.n && j < c.n
    ensures Reaches(c, Step(c, s, Arrive(m)), i, j)
  {
    var s', r := Step(c, s, Arrive(m)), s.reps[m.to];
    assert RepOk(c, s, r) && Reaches(c, s, i, j) && RepOk(c, s, s.reps[i]) && Reaches(c, s, m.to, j) && MsgOk(c, s, m);
    ReceiveRep(c, s, r, m.blk);
    ForwardedUnchangedIff(m.blk);
    forall ht | ht in s'.reps[i].chain && ht > 0 && i != j
      ensures ht in s'.reps[j].chain || Msg(j, s'.reps[i].chain[ht]) in s'.flight
    {
      if ht in s.reps[i].chain {
        assert Proposed(c, s, s.reps[i].chain[ht]);
        if j == m.to && Msg(j, s.reps[i].chain[ht]) == m { assert Depth(m.blk) in s'.reps[j].chain; }
      } else {
        assert i == m.to && s'.reps[i].chain[ht] == m.blk;
        assert Broadcast(c.n, m.to, m.blk)[Msg(j, m.blk)] == 1;
      }
    }
  }

  lemma ArriveKeeps(c: Config, s: Net, m: Msg)
    requires Inv(c, s) && m in s.flight && m.to < c.n
    ensures Inv(c, Step(c, s, Arrive(m))) && Extends(c, s, Step(c, s, Arrive(m)))
  {
    var s', r, p := Step(c, s, Arrive(m)), s.reps[m.to], s.reps[c.proposer];
    assert RepOk(c, s, r);
    ReceiveRep(c, s, r, m.blk);
    ProposerHasAll(c, s, m.blk);
    ForwardedUnchangedIff(m.blk);
    assert s'.reps[c.proposer] == p;
    forall j | 0 <= j < c.n ensures RepOk(c, s', s'.reps[j]) {
      assert RepOk(c, s, s.reps[j]);
      RepStays(c, s, s', s'.reps[j]);
    }
    forall x | x in s'.flight ensures MsgOk(c, s', x) {
      assert x in s.flight || x in Broadcast(c.n, m.to, m.blk);
      assert MsgOk(c, s, m) && (x in s.flight ==> MsgOk(c, s, x));
    }
    forall i, j | 0 <= i < c.n && 0 <= j < c.n ensures Reaches(c, s', i, j) { ArriveReaches(c, s, m, i, j); }
  }

  /** The state after the proposer stored and broadcast `b`. */
  function Issued(c: Config, s: Net, b: Hash): Net
    requires |s.reps| == c.n && c.proposer < c.n
  {
    Net(s.reps[c.proposer := Propose(s.reps[c.proposer], b)], s.flight + Broadcast(c.n, c.proposer, b))
  }

  lemma IssuedReaches(c: Config, s: Net, b: Hash, i: nat, j: nat)
    requires |s.reps| == c.n && c.proposer < c.n && i < c.n && j < c.n && Reaches(c, s, i, j)
    requires Depth(b) !in s.reps[c.proposer].chain
    ensures Reaches(c, Issued(c, s, b), i, j)
  {
    var s' := Issued(c, s, b);
    forall ht | ht in s'.reps[i].chain && ht > 0 && i != j
      ensures ht in s'.reps[j].chain || Msg(j, s'.reps[i].chain[ht]) in s'.flight
    {
      if ht !in s.reps[i].chain { assert Broadcast(c.n, c.proposer, b)[Msg(j, b)] == 1; }
    }
  }

  lemma IssuedReps(c: Config, s: Net, b: Hash)
    requires Inv(c, s) && Depth(b) == Depth(s.reps[c.proposer].mark) + 1 && WellHeighted(b)
    ensures MsgOk(c, Issued(c, s, b), Msg(c.proposer, b)) && MarkOk(c, Issued(c, s, b))
    ensures Extends(c, s, Issued(c, s, b))
    ensures forall j {:trigger Issued(c, s, b).reps[j]} | 0 <= j < c.n ::
      RepOk(c, Issued(c, s, b), Issued(c, s, b).reps[j])
  {
    var s', p := Issued(c, s, b), s.reps[c.proposer];
    assert RepOk(c, s, p);
    assert Extends(c, s, s');
    forall j | 0 <= j < c.n ensures RepOk(c, s', s'.reps[j]) {
      assert RepOk(c, s, s.reps[j]);
      RepStays(c, s, s', s.reps[j]);
      if j == c.proposer { RepStores(c, s', p, b, s'.reps[j]); }
    }
  }

  lemma IssuedFlight(c: Config, s: Net, b: Hash, x: Msg)
    requires |s.reps| == c.n && c.proposer < c.n && Extends(c, s, Issued(c, s, b))
    requires MsgOk(c, Issued(c, s, b), Msg(c.proposer, b))
    requires x in Issued(c, s, b).flight && (x in s.flight ==> MsgOk(c, s, x))
    ensures MsgOk(c, Issued(c, s, b), x)
  {
    assert x in s.flight || x in Broadcast(c.n, c.proposer, b);
  }

  lemma IssuedKeeps(c: Config, s: Net, b: Hash)
    requires Inv(c, s) && Depth(b) == Depth(s.reps[c.proposer].mark) + 1 && WellHeighted(b)
    ensures Inv(c, Issued(c, s, b)) && Extends(c, s, Issued(c, s, b))
  {
    var s' := Issued(c, s, b);
    IssuedReps(c, s, b);
    forall x | x in s'.flight ensures MsgOk(c, s', x) { IssuedFlight(c, s, b, x); }
    forall i, j | 0 <= i < c.n && 0 <= j < c.n ensures Reaches(c, s', i, j) {
      assert Reaches(c, s, i, j);
      IssuedReaches(c, s, b, i, j);
    }
  }

  lemma ProposeKeeps(c: Config, s: Net, cmds: seq<Cmd>, extra: seq<nat>)
    requires Inv(c, s)
    ensures CanPropose(s.reps[c.proposer])
    ensures Inv(c, Step(c, s, ProposeNext(cmds, extra))) && Extends(c, s, Step(c, s, ProposeNext(cmds, extra)))
  {
    var r := s.reps[c.proposer];
    var parents := ParentsFrom(r.chain, Depth(r.mark));
    assert RepOk(c, s, r);
    assert parents[0] == r.chain[Depth(r.mark)];
    NewBlockHeight(c.proposer, parents, cmds, extra);
    IssuedKeeps(c, s, NewBlock(c.proposer, parents, cmds, extra));
  }

  lemma DuplicateKeeps(c: Config, s: Net, m: Msg)
    requires Inv(c, s)
    ensures Inv(c, Step(c, s, Duplicate(m))) && Extends(c, s, Step(c, s, Duplicate(m)))
  {
    var s' := Step(c, s, Duplicate(m));
    forall j | 0 <= j < c.n ensures RepOk(c, s', s'.reps[j]) {
      assert RepOk(c, s, s.reps[j]);
      RepStays(c, s, s', s.reps[j]);
    }
    forall i, j | 0 <= i < c.n && 0 <= j < c.n ensures Reaches(c, s', i, j) { assert Reaches(c, s, i, j); }
  }

  lemma StepKeeps(c: Config, s: Net, a: Action)
    requires Inv(c, s)
    ensures Inv(c, Step(c, s, a)) && Extends(c, s, Step(c, s, a))
  {
    match a {
      case ProposeNext(cmds, extra) => ProposeKeeps(c, s, cmds, extra);
      case Arrive(m) => if m in s.flight && m.to < c.n { ArriveKeeps(c, s, m); }
      case Duplicate(m) => DuplicateKeeps(c, s, m);
    }
  }

  lemma {:induction false} PlayKeeps(c: Config, s: Net, acts: seq<Action>)
    requires Inv(c, s)
    ensures Inv(c, Play(c, s, acts)) && Extends(c, s, Play(c, s, acts))
    decreases |acts|
  {
    if acts != [] {
      StepKeeps(c, s, acts[0]);
      PlayKeeps(c, Step(c, s, acts[0]), acts[1..]);
    }
  }

  /** Agreement over every run and across its moments: a block held now and a block held at any later
      state, by whichever replicas, are the same if they have the same height. */
  lemma AgreementOverTime(c: Config, before: seq<Action>, after: seq<Action>, i: nat, j: nat, ht: nat)
    requires c.proposer < c.n && i < c.n && j < c.n
    requires var s := Play(c, Init(c), before); ht in s.reps[i].chain && ht in Play(c, s, after).reps[j].chain
    ensures var s := Play(c, Init(c), before); s.reps[i].chain[ht] == Play(c, s, after).reps[j].chain[ht]
  {
    var s := Play(c, Init(c), before);
    InitInv(c);
    PlayKeeps(c, Init(c), before);
    PlayKeeps(c, s, after);
    var s' := Play(c, s, after);
    assert RepOk(c, s, s.reps[i]) && RepOk(c, s', s'.reps[j]);
    assert Proposed(c, s, s.reps[i].chain[ht]) && Proposed(c, s', s'.reps[j].chain[ht]);
  }

  // ---- whose blocks they are ----

  ghost predicate By(h: Hash, p: nat) {
    h.Genesis? || h.wire.proposer == p
  }

  ghost predicate ChainBy(r: Replica, p: nat) {
    forall ht | ht in r.chain :: By(r.chain[ht], p)
  }

  ghost predicate OnlyBy(s: Net, p: nat) {
    && (forall j {:trigger ChainBy(s.reps[j], p)} | 0 <= j < |s.reps| :: ChainBy(s.reps[j], p))
    && forall m | m in s.flight :: By(m.blk, p)
  }

  /** Replica `j` becomes `r` and broadcasts `h`, or nothing. */
  lemma MovedOnlyBy(c: Config, s: Net, s': Net, j: nat, r: Replica, h: Hash)
    requires OnlyBy(s, c.proposer) && j < |s.reps| && ChainBy(r, c.proposer) && By(h, c.proposer)
    requires s'.reps == s.reps[j := r] && s'.flight <= s.flight + Broadcast(c.n, j, h)
    ensures OnlyBy(s', c.proposer)
  {
    forall i | 0 <= i < |s'.reps| ensures ChainBy(s'.reps[i], c.proposer) {
      assert ChainBy(s.reps[i], c.proposer);
    }
    forall m | m in s'.flight ensures By(m.blk, c.proposer) {
      assert m in s.flight || m in Broadcast(c.n, j, h);
    }
  }

  lemma StepOnlyBy(c: Config, s: Net, a: Action)
    requires |s.reps| == c.n && c.proposer < c.n && OnlyBy(s, c.proposer)
    ensures OnlyBy(Step(c, s, a), c.proposer)
  {
    match a {
      case ProposeNext(cmds, extra) => ProposedOnlyBy(c, s, cmds, extra);
      case Arrive(m) => if m in s.flight && m.to < c.n { ArrivedOnlyBy(c, s, m); }
      case Duplicate(m) => SameReps(s, Step(c, s, a), c.proposer);
    }
  }

  lemma ProposedOnlyBy(c: Config, s: Net, cmds: seq<Cmd>, extra: seq<nat>)
    requires |s.reps| == c.n && c.proposer < c.n && OnlyBy(s, c.proposer)
    ensures OnlyBy(Step(c, s, ProposeNext(cmds, extra)), c.proposer)
  {
    var r := s.reps[c.proposer];
    if CanPropose(r) {
      var b := NewBlock(c.proposer, ParentsFrom(r.chain, Depth(r.mark)), cmds, extra);
      AddsOwn(r, Propose(r, b), b, c.proposer) by { assert ChainBy(r, c.proposer); }
      MovedOnlyBy(c, s, Step(c, s, ProposeNext(cmds, extra)), c.proposer, Propose(r, b), b);
    }
  }

  lemma ArrivedOnlyBy(c: Config, s: Net, m: Msg)
    requires |s.reps| == c.n && c.proposer < c.n && OnlyBy(s, c.proposer) && m in s.flight && m.to < c.n
    ensures OnlyBy(Step(c, s, Arrive(m)), c.proposer)
  {
    var r := s.reps[m.to];
    assert By(m.blk, c.proposer);
    AddsOwn(r, Receive(r, m.blk), m.blk, c.proposer) by { assert ChainBy(r, c.proposer); }
    MovedOnlyBy(c, s, Step(c, s, Arrive(m)), m.to, Receive(r, m.blk), Reserialized(m.blk));
  }

  lemma SameReps(s: Net, s': Net, p: nat)
    requires OnlyBy(s, p) && s'.reps == s.reps && forall m | m in s'.flight :: m in s.flight
    ensures OnlyBy(s', p)
  {}

  lemma AddsOwn(r: Replica, r': Replica, b: Hash, p: nat)
    requires ChainBy(r, p) && By(b, p) && (r'.chain == r.chain || r'.chain == r.chain[Depth(b) := b])
    ensures ChainBy(r', p) && By(Reserialized(b), p)
  {}

  lemma {:induction false} PlayOnlyBy(c: Config, s: Net, acts: seq<Action>)
    requires |s.reps| == c.n && c.proposer < c.n && OnlyBy(s, c.proposer)
    ensures OnlyBy(Play(c, s, acts), c.proposer)
    decreases |acts|
  {
    if acts != [] {
      StepOnlyBy(c, s, acts[0]);
      PlayOnlyBy(c, Step(c, s, acts[0]), acts[1..]);
    }
  }

  /** Every block stored or in flight carries the proposer's id and the right height, so the checks of
      `propose_handler` let it through at every receiver that expects this proposer. */
  lemma ProposersBlocks(c: Config, acts: seq<Action>)
    requires c.proposer < c.n
    ensures var s := Play(c, Init(c), acts);
      && (forall j, ht | 0 <= j < c.n && ht in s.reps[j].chain && ht > 0 ::
            s.reps[j].chain[ht].Of? && s.reps[j].chain[ht].wire.proposer == c.proposer)
      && forall m | m in s.flight ::
           m.blk.Of? && m.blk.wire.proposer == c.proposer && m.blk.wire.height == Depth(m.blk) > 0
  {
    InitInv(c);
    PlayKeeps(c, Init(c), acts);
    PlayOnlyBy(c, Init(c), acts);
    var s := Play(c, Init(c), acts);
    forall j, ht | 0 <= j < c.n && ht in s.reps[j].chain && ht > 0
      ensures s.reps[j].chain[ht].Of? && By(s.reps[j].chain[ht], c.proposer)
    {
      assert RepOk(c, s, s.reps[j]) && ChainBy(s.reps[j], c.proposer);
    }
    forall m | m in s.flight ensures m.blk.Of? && m.blk.wire.height == Depth(m.blk) > 0 && By(m.blk, c.proposer) {
      assert MsgOk(c, s, m);
    }
  }

  // ---- flooding ends ----

  /** How many of the proposer's blocks the replicas do not store yet. */
  function Lack(heights: set<nat>, reps: seq<Replica>): nat {
    if reps == [] then 0 else |heights - reps[0].chain.Keys| + Lack(heights, reps[1..])
  }

  ghost function Measure(c: Config, s: Net): nat
    requires |s.reps| == c.n && c.proposer < c.n
  {
    c.n * Lack(s.reps[c.proposer].chain.Keys, s.reps) + |s.flight|
  }

  lemma {:induction false} LackDrops(heights: set<nat>, reps: seq<Replica>, j: nat, r: Replica, ht: nat)
    requires j < |reps| && ht in heights && ht !in reps[j].chain && r.chain.Keys == reps[j].chain.Keys + {ht}
    ensures Lack(heights, reps[j := r]) == Lack(heights, reps) - 1
  {
    if j == 0 {
      assert reps[0 := r][1..] == reps[1..];
      assert heights - r.chain.Keys == heights - reps[0].chain.Keys - {ht};
    } else {
      assert reps[j := r][1..] == reps[1..][j - 1 := r];
      LackDrops(heights, reps[1..], j - 1, r, ht);
    }
  }

  /** The two ways a delivery brings the end nearer: storing a block puts n - 1 messages in flight and
      leaves one less block to store, a block already stored leaves one message less. */
  lemma MeasureDrops(n: nat, lack: nat, flight: nat, lack': nat, flight': nat)
    requires (lack' == lack && flight' < flight) || (lack' == lack - 1 && flight' < flight + n)
    ensures n * lack' + flight' < n * lack + flight
  {
    if lack' == lack - 1 { assert n * (lack - 1) == n * lack - n; }
  }

  lemma ArriveLack(c: Config, s: Net, m: Msg)
    requires Inv(c, s) && m in s.flight && m.to < c.n
    ensures var r, s' := s.reps[m.to], Step(c, s, Arrive(m));
      && s'.reps[c.proposer].chain == s.reps[c.proposer].chain
      && Lack(s.reps[c.proposer].chain.Keys, s'.reps) ==
           Lack(s.reps[c.proposer].chain.Keys, s.reps) - (if Handled(r, m.blk) then 0 else 1)
  {
    var r, p := s.reps[m.to], s.reps[c.proposer];
    assert RepOk(c, s, r) && MsgOk(c, s, m);
    ReceiveRep(c, s, r, m.blk);
    ReceiveRep(c, s, p, m.blk) by { assert RepOk(c, s, p); }
    if Handled(r, m.blk) {
      assert s.reps[m.to := r] == s.reps;
    } else {
      LackDrops(p.chain.Keys, s.reps, m.to, Receive(r, m.blk), Depth(m.blk));
    }
  }

  /** Every delivery brings the end nearer: it uses up a message, or stores a block for good. */
  lemma ArriveDescends(c: Config, s: Net, m: Msg)
    requires Inv(c, s) && m in s.flight
    ensures Measure(c, Step(c, s, Arrive(m))) < Measure(c, s)
  {
    var s', keys := Step(c, s, Arrive(m)), s.reps[c.proposer].chain.Keys;
    ArriveLack(c, s, m);
    assert |s.flight - multiset{m}| == |s.flight| - 1;
    MeasureDrops(c.n, Lack(keys, s.reps), |s.flight|, Lack(keys, s'.reps), |s'.flight|);
  }

  ghost predicate AllArrive(c: Config, s: Net, acts: seq<Action>)
    requires |s.reps| == c.n && c.proposer < c.n
    decreases |acts|
  {
    acts == [] || (acts[0].Arrive? && acts[0].msg in s.flight && AllArrive(c, Step(c, s, acts[0]), acts[1..]))
  }

  /** With no new proposals, a run delivers at most `Measure` messages, and when no more can be delivered
      every replica holds every block and has broadcast each exactly once. */
  lemma {:induction false} FloodingEnds(c: Config, s: Net, acts: seq<Action>)
    requires Inv(c, s) && AllArrive(c, s, acts)
    ensures |acts| <= Measure(c, s)
    ensures var e := Play(c, s, acts);
      e.flight == multiset{} ==> forall j | 0 <= j < c.n ::
        && e.reps[j].chain == e.reps[c.proposer].chain
        && forall b :: multiset(e.reps[j].sent)[b] == if b != Genesis && Handled(e.reps[c.proposer], b) then 1 else 0
    decreases |acts|
  {
    if acts == [] {
      forall j | 0 <= j < c.n && s.flight == multiset{} ensures s.reps[j].chain == s.reps[c.proposer].chain {
        Complete(c, s, j);
      }
      assert forall j | 0 <= j < c.n :: RepOk(c, s, s.reps[j]);
    } else {
      StepKeeps(c, s, acts[0]);
      ArriveDescends(c, s, acts[0].msg);
      FloodingEnds(c, Step(c, s, acts[0]), acts[1..]);
    }
  }

  /** From any reachable state on. */
  lemma FloodingEndsEverywhere(c: Config, before: seq<Action>, acts: seq<Action>)
    requires c.proposer < c.n && AllArrive(c, Play(c, Init(c), before), acts)
    ensures var s := Play(c, Init(c), before); var e := Play(c, s, acts);
      && |acts| <= Measure(c, s)
      && (e.flight == multiset{} ==> forall j | 0 <= j < c.n ::
            && e.reps[j].chain == e.reps[c.proposer].chain
            && forall b ::
                 multiset(e.reps[j].sent)[b] == if b != Genesis && Handled(e.reps[c.proposer], b) then 1 else 0)
  {
    InitInv(c);
    PlayKeeps(c, Init(c), before);
    FloodingEnds(c, Play(c, Init(c), before), acts);
  }
}

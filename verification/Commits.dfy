/** Commit timers in any order on one replica: what is committed, and in what order. */
module Commits {
  import opened Basics
  import opened Blocks

  /** `fired` is the heights whose timer has fired, in order. */
  datatype State = State(r: Replica, fired: seq<nat>)

  datatype Event = Got(blk: Hash) | Made(blk: Hash) | Timer(i: nat)

  const INIT: State := State(START, [])

  function Store(s: State, e: Event): Replica
    requires !e.Timer?
  {
    if Depth(e.blk) == 0 then s.r else if e.Got? then Receive(s.r, e.blk) else Propose(s.r, e.blk)
  }

  predicate CanFire(s: State, i: nat) {
    i < |s.r.timers| && s.r.timers[i] in s.r.chain
  }

  /** The i-th armed timer fires, whichever it is. */
  function Step(rid: nat, s: State, e: Event): State {
    if !e.Timer? then s.(r := Store(s, e))
    else if CanFire(s, e.i) then
      State(Commit(rid, DropTimer(s.r, e.i), s.r.timers[e.i]), s.fired + [s.r.timers[e.i]])
    else s
  }

  function Run(rid: nat, s: State, events: seq<Event>): State
    decreases |events|
  {
    if events == [] then s else Run(rid, Step(rid, s, events[0]), events[1..])
  }

  // ---- what the log holds ----

  ghost predicate ChainOk(chain: map<nat, Hash>) {
    0 in chain && chain[0] == Genesis && forall ht | ht in chain :: Depth(chain[ht]) == ht
  }

  predicate AllIn(hts: seq<nat>, chain: map<nat, Hash>) {
    forall ht | ht in hts :: ht in chain && ht > 0
  }

  /** The log of a replica that committed the blocks at these heights, in this order. */
  function LogOf(rid: nat, chain: map<nat, Hash>, hts: seq<nat>): seq<Finality>
    requires AllIn(hts, chain)
  {
    if hts == [] then []
    else LogOf(rid, chain, hts[..|hts| - 1]) + Finalities(rid, chain[hts[|hts| - 1]])
  }

  function DecidedOf(chain: map<nat, Hash>, hts: seq<nat>): set<Hash>
    requires AllIn(hts, chain)
  {
    {Genesis} + set ht | ht in hts :: chain[ht]
  }

  /** What is decided and logged is the blocks of the heights `hts`, in this order. */
  ghost predicate Holds(rid: nat, r: Replica, hts: seq<nat>) {
    && ChainOk(r.chain) && AllIn(hts, r.chain)
    && r.decided == DecidedOf(r.chain, hts) && r.log == LogOf(rid, r.chain, hts)
  }

  ghost predicate Timed(s: State) {
    forall ht :: multiset(s.r.timers)[ht] + multiset(s.fired)[ht] == if ht > 0 && ht in s.r.chain then 1 else 0
  }

  /** Each stored block but the genesis block has its one timer, armed or fired. */
  ghost predicate Inv(rid: nat, s: State, hts: seq<nat>) {
    Timed(s) && Holds(rid, s.r, hts)
  }

  lemma {:induction false} LogOfGrows(rid: nat, chain: map<nat, Hash>, more: map<nat, Hash>, hts: seq<nat>)
    requires AllIn(hts, chain) && forall ht | ht in chain :: ht in more && more[ht] == chain[ht]
    ensures AllIn(hts, more) && LogOf(rid, more, hts) == LogOf(rid, chain, hts)
    ensures DecidedOf(more, hts) == DecidedOf(chain, hts)
  {
    if hts != [] { LogOfGrows(rid, chain, more, hts[..|hts| - 1]); }
  }

  /** A block is stored with its timer, or nothing changes. */
  ghost predicate Stores(r: Replica, r': Replica, h: Hash) {
    && r'.decided == r.decided && r'.log == r.log
    && ((r'.chain == r.chain && r'.timers == r.timers)
        || (Depth(h) > 0 && Depth(h) !in r.chain
            && r'.chain == r.chain[Depth(h) := h] && r'.timers == r.timers + [Depth(h)]))
  }

  lemma StoreStores(s: State, e: Event)
    requires !e.Timer? && 0 in s.r.chain
    ensures Stores(s.r, Store(s, e), e.blk)
  {}

  lemma StoresKeeps(rid: nat, s: State, r': Replica, h: Hash, hts: seq<nat>)
    requires Inv(rid, s, hts) && Stores(s.r, r', h)
    ensures Inv(rid, s.(r := r'), hts)
  {
    LogOfGrows(rid, s.r.chain, r'.chain, hts);
    if r'.timers != s.r.timers { assert multiset(r'.timers) == multiset(s.r.timers) + multiset{Depth(h)}; }
  }

  lemma StoreKeeps(rid: nat, s: State, e: Event, hts: seq<nat>)
    requires Inv(rid, s, hts) && !e.Timer?
    ensures Inv(rid, s.(r := Store(s, e)), hts)
  {
    StoreStores(s, e);
    StoresKeeps(rid, s, Store(s, e), e.blk, hts);
  }

  lemma Fired(s: State, i: nat, r: Replica)
    requires Timed(s) && i < |s.r.timers| && r.chain == s.r.chain && r.timers == DropTimer(s.r, i).timers
    ensures Timed(State(r, s.fired + [s.r.timers[i]]))
    ensures s.r.timers[i] > 0 && s.r.timers[i] in s.r.chain && s.r.timers[i] !in s.fired
  {
    var ts, ht := s.r.timers, s.r.timers[i];
    assert ts == ts[..i] + [ht] + ts[i + 1..];
    assert multiset(ts) == multiset(r.timers) + multiset{ht};
    assert multiset(s.fired + [ht]) == multiset(s.fired) + multiset{ht};
    assert multiset(ts)[ht] > 0;
  }

  /** Committing a height that is not among `hts` adds it to them. */
  lemma Adds(rid: nat, r: Replica, hts: seq<nat>, ht: nat)
    requires Holds(rid, r, hts) && ht in r.chain && ht > 0 && ht !in hts
    ensures var r' := Commit(rid, r, ht); r'.chain == r.chain && r'.timers == r.timers && Holds(rid, r', hts + [ht])
  {
    assert (hts + [ht])[..|hts|] == hts;
    assert forall x | x in hts :: r.chain[x] != r.chain[ht];
  }

  /** Whatever the order, what has been committed is exactly what has fired, in firing order. */
  lemma {:induction false} RunKeeps(rid: nat, s: State, events: seq<Event>)
    requires Inv(rid, s, s.fired)
    ensures Inv(rid, Run(rid, s, events), Run(rid, s, events).fired)
    decreases |events|
  {
    if events != [] {
      var e := events[0];
      if !e.Timer? {
        StoreKeeps(rid, s, e, s.fired);
      } else if CanFire(s, e.i) {
        Fired(s, e.i, Step(rid, s, e).r);
        Adds(rid, DropTimer(s.r, e.i), s.fired, s.r.timers[e.i]);
      }
      RunKeeps(rid, Step(rid, s, e), events[1..]);
    }
  }

  // ---- exactly once ----

  /** `f` is the decision on one command of the block at height `ht`. */
  predicate Decision(rid: nat, chain: map<nat, Hash>, f: Finality) {
    && f.rid == rid && f.decision == 1 && f.cmdHeight in chain && f.blk == chain[f.cmdHeight]
    && f.cmdIdx < |Cmds(f.blk)| && f.cmd == Cmds(f.blk)[f.cmdIdx]
  }

  lemma {:induction false} FinalitiesOnce(fs: seq<Finality>, f: Finality)
    requires forall i | 0 <= i < |fs| :: fs[i].cmdIdx == i
    ensures multiset(fs)[f] == if f.cmdIdx < |fs| && fs[f.cmdIdx] == f then 1 else 0
  {
    if fs == [] {
    } else {
      var m := |fs| - 1;
      assert fs == fs[..m] + [fs[m]];
      FinalitiesOnce(fs[..m], f);
    }
  }

  lemma BlockOnce(rid: nat, chain: map<nat, Hash>, ht: nat, f: Finality)
    requires ht in chain && Depth(chain[ht]) == ht
    ensures multiset(Finalities(rid, chain[ht]))[f] == if f.cmdHeight == ht && Decision(rid, chain, f) then 1 else 0
  {
    FinalitiesOnce(Finalities(rid, chain[ht]), f);
  }

  lemma Last(hts: seq<nat>, m: nat, ht: nat)
    requires |hts| == m + 1
    ensures multiset(hts)[ht] == multiset(hts[..m])[ht] + if ht == hts[m] then 1 else 0
    ensures ht in hts <==> ht in hts[..m] || ht == hts[m]
  {
    assert hts == hts[..m] + [hts[m]];
  }

  lemma {:induction false} LogOnce(rid: nat, chain: map<nat, Hash>, hts: seq<nat>, f: Finality)
    requires ChainOk(chain) && AllIn(hts, chain) && forall ht :: multiset(hts)[ht] <= 1
    ensures multiset(LogOf(rid, chain, hts))[f] == if f.cmdHeight in hts && Decision(rid, chain, f) then 1 else 0
  {
    if hts == [] {
    } else {
      var m := |hts| - 1;
      forall ht ensures multiset(hts[..m])[ht] <= 1 { Last(hts, m, ht); }
      LogOnce(rid, chain, hts[..m], f);
      BlockOnce(rid, chain, hts[m], f);
      Last(hts, m, f.cmdHeight);
      Last(hts, m, hts[m]);
    }
  }

  /** As the code is: in every run each stored block but the genesis block has exactly one timer, armed
      or fired; once it has fired, and not before, each of the block's commands has been handed to
      `do_decide` exactly once, and nothing else ever is. */
  lemma ExactlyOnce(rid: nat, events: seq<Event>, f: Finality)
    ensures var s := Run(rid, INIT, events);
      && Timed(s)
      && multiset(s.r.log)[f] == (if f.cmdHeight in s.fired && Decision(rid, s.r.chain, f) then 1 else 0)
      && (forall ht | ht in s.r.chain :: s.r.chain[ht] in s.r.decided <==> ht == 0 || ht in s.fired)
  {
    var s := Run(rid, INIT, events);
    RunKeeps(rid, INIT, events);
    LogOnce(rid, s.r.chain, s.fired, f);
  }

  /** Within the log, blocks come in the order their timers fired and commands in index order. */
  lemma FiringOrder(rid: nat, events: seq<Event>)
    ensures var s := Run(rid, INIT, events);
      AllIn(s.fired, s.r.chain) && s.r.log == LogOf(rid, s.r.chain, s.fired)
  {
    RunKeeps(rid, INIT, events);
  }

  // ---- the ancestor walk, a variant the code does not have ----

  ghost predicate GapFree(chain: map<nat, Hash>) {
    forall ht, k | ht in chain && 0 <= k <= ht :: k in chain
  }

  predicate CanWalk(s: State, i: nat) {
    CanFire(s, i) && (forall k | 0 <= k <= s.r.timers[i] :: k in s.r.chain) && s.r.chain[0] in s.r.decided
  }

  /** As `Step`, with the walk for the commit; a block is stored only on top of stored heights. */
  function StepWalk(rid: nat, s: State, e: Event): State
    requires 0 in s.r.chain
  {
    if !e.Timer? then
      if forall k | 0 <= k < Depth(e.blk) :: k in s.r.chain then s.(r := Store(s, e)) else s
    else if CanWalk(s, e.i) then
      State(Walk(rid, DropTimer(s.r, e.i), s.r.timers[e.i]), s.fired + [s.r.timers[e.i]])
    else s
  }

  lemma {:induction false} WalkChain(rid: nat, r: Replica, i: nat)
    requires (forall k | 0 <= k <= i :: k in r.chain) && r.chain[0] in r.decided
    ensures Walk(rid, r, i).chain == r.chain
    decreases i
  {
    if r.chain[i] !in r.decided { WalkChain(rid, Commit(rid, r, i), i - 1); }
  }

  function RunWalk(rid: nat, s: State, events: seq<Event>): State
    requires 0 in s.r.chain
    decreases |events|
  {
    if events == [] then s
    else
      assert 0 in StepWalk(rid, s, events[0]).r.chain by {
        if events[0].Timer? && CanWalk(s, events[0].i) {
          WalkChain(rid, DropTimer(s.r, events[0].i), s.r.timers[events[0].i]);
        }
      }
      RunWalk(rid, StepWalk(rid, s, events[0]), events[1..])
  }

  /** The highest height in the list, or 0. */
  function Top(hts: seq<nat>): nat {
    if hts == [] then 0
    else var t := Top(hts[..|hts| - 1]); if t < hts[|hts| - 1] then hts[|hts| - 1] else t
  }

  function Down(i: nat, c: nat): seq<nat> {
    if i <= c then [] else [i] + Down(i - 1, c)
  }

  /** The order in which walks starting at these heights commit. */
  function Order(fired: seq<nat>): seq<nat> {
    if fired == [] then []
    else var rest := fired[..|fired| - 1]; Order(rest) + Down(fired[|fired| - 1], Top(rest))
  }

  lemma {:induction false} DownOnce(i: nat, c: nat, ht: nat)
    ensures multiset(Down(i, c))[ht] == if c < ht <= i then 1 else 0
  {
    if i > c {
      DownOnce(i - 1, c, ht);
      Front(i, Down(i - 1, c), ht);
    }
  }

  lemma Front(i: nat, hts: seq<nat>, ht: nat)
    ensures multiset([i] + hts)[ht] == multiset(hts)[ht] + if i == ht then 1 else 0
  {}

  lemma {:induction false} OrderOnce(fired: seq<nat>, ht: nat)
    ensures multiset(Order(fired))[ht] == if 0 < ht <= Top(fired) then 1 else 0
  {
    if fired != [] {
      var rest, i := fired[..|fired| - 1], fired[|fired| - 1];
      assert multiset(Order(fired)) == multiset(Order(rest)) + multiset(Down(i, Top(rest)));
      OrderOnce(rest, ht);
      DownOnce(i, Top(rest), ht);
    }
  }

  lemma DecidedIff(chain: map<nat, Hash>, hts: seq<nat>, i: nat)
    requires ChainOk(chain) && AllIn(hts, chain) && i in chain
    ensures chain[i] in DecidedOf(chain, hts) <==> i == 0 || i in hts
  {
    assert Depth(chain[i]) == i;
  }

  /** A walk from height `i` commits what was left below, down to the first decided block. */
  lemma {:induction false} WalkAdds(rid: nat, r: Replica, hts: seq<nat>, i: nat, c: nat, more: seq<nat>)
    requires Holds(rid, r, hts) && (forall k | 0 <= k <= i :: k in r.chain)
    requires forall k | 1 <= k <= i :: k in hts <==> k <= c
    requires more == hts + Down(i, c)
    ensures r.chain[0] in r.decided && Walk(rid, r, i).chain == r.chain && Walk(rid, r, i).timers == r.timers
    ensures Holds(rid, Walk(rid, r, i), more)
    decreases i
  {
    if i <= c {
      DecidedIff(r.chain, hts, i);
      DecidedIff(r.chain, hts, 0);
      assert more == hts;
    } else {
      WalkStep(rid, r, hts, i, c);
      assert more == hts + [i] + Down(i - 1, c);
      assert forall k | 0 <= k <= i - 1 :: k in Commit(rid, r, i).chain;
      WalkAdds(rid, Commit(rid, r, i), hts + [i], i - 1, c, more);
    }
  }

  lemma WalkStep(rid: nat, r: Replica, hts: seq<nat>, i: nat, c: nat)
    requires Holds(rid, r, hts) && (forall k | 0 <= k <= i :: k in r.chain)
    requires forall k | 1 <= k <= i :: k in hts <==> k <= c
    requires i > c
    ensures r.chain[0] in r.decided && r.chain[i] !in r.decided
    ensures Walk(rid, r, i) == Walk(rid, Commit(rid, r, i), i - 1)
    ensures var r' := Commit(rid, r, i); r'.chain == r.chain && r'.timers == r.timers && Holds(rid, r', hts + [i])
    ensures forall k | 1 <= k <= i - 1 :: k in hts + [i] <==> k <= c
  {
    DecidedIff(r.chain, hts, i);
    Adds(rid, r, hts, i);
  }

  /** Walks commit every height up to the highest one started from, each once. */
  lemma OrderAll(fired: seq<nat>)
    ensures forall ht :: ht in Order(fired) <==> 1 <= ht <= Top(fired)
    ensures forall ht :: multiset(Order(fired))[ht] <= 1
  {
    forall ht: nat ensures multiset(Order(fired))[ht] == if 0 < ht <= Top(fired) then 1 else 0 { OrderOnce(fired, ht); }
    assert forall ht :: ht in Order(fired) <==> multiset(Order(fired))[ht] > 0;
  }

  lemma TimerWalks(rid: nat, s: State, i: nat)
    requires Inv(rid, s, Order(s.fired)) && GapFree(s.r.chain) && CanFire(s, i)
    ensures CanWalk(s, i)
    ensures var s' := StepWalk(rid, s, Timer(i)); s'.r.chain == s.r.chain && Inv(rid, s', Order(s'.fired))
  {
    var ht := s.r.timers[i];
    OrderAll(s.fired);
    WalkAdds(rid, DropTimer(s.r, i), Order(s.fired), ht, Top(s.fired), Order(s.fired) + Down(ht, Top(s.fired)));
    Fired(s, i, StepWalk(rid, s, Timer(i)).r);
    assert (s.fired + [ht])[..|s.fired|] == s.fired;
  }

  ghost predicate WalkInv(rid: nat, s: State) {
    Inv(rid, s, Order(s.fired)) && GapFree(s.r.chain)
  }

  lemma StackKeeps(s: State, e: Event)
    requires GapFree(s.r.chain) && !e.Timer? && forall k | 0 <= k < Depth(e.blk) :: k in s.r.chain
    ensures GapFree(Store(s, e).chain)
  {
    assert Store(s, e).chain == s.r.chain || Store(s, e).chain == s.r.chain[Depth(e.blk) := e.blk];
  }

  lemma StepWalkKeeps(rid: nat, s: State, e: Event)
    requires WalkInv(rid, s)
    ensures WalkInv(rid, StepWalk(rid, s, e))
  {
    if !e.Timer? {
      if forall k | 0 <= k < Depth(e.blk) :: k in s.r.chain {
        StoreKeeps(rid, s, e, Order(s.fired));
        StackKeeps(s, e);
      }
    } else if CanFire(s, e.i) { TimerWalks(rid, s, e.i); }
  }

  lemma {:induction false} RunWalkKeeps(rid: nat, s: State, events: seq<Event>)
    requires WalkInv(rid, s)
    ensures WalkInv(rid, RunWalk(rid, s, events))
    decreases |events|
  {
    if events != [] {
      StepWalkKeeps(rid, s, events[0]);
      RunWalkKeeps(rid, StepWalk(rid, s, events[0]), events[1..]);
    }
  }

  lemma HoldsPrefix(rid: nat, r: Replica, hts: seq<nat>, c: nat)
    requires Holds(rid, r, hts) && forall ht :: ht in hts <==> 1 <= ht <= c
    ensures forall ht | 0 <= ht <= c :: ht in r.chain
    ensures forall ht | ht in r.chain :: r.chain[ht] in r.decided <==> ht <= c
  {
    forall ht | 0 <= ht <= c ensures ht in r.chain { assert ht > 0 ==> ht in hts; }
    forall ht | ht in r.chain ensures r.chain[ht] in r.decided <==> ht <= c { DecidedIff(r.chain, hts, ht); }
  }

  /** With the walk, the decided heights are at every moment a prefix 0..c, c the highest height whose
      timer has fired, so nothing below a decided block is ever left out; each command of a block of
      those heights has been handed over exactly once. */
  lemma WalkDecidesPrefix(rid: nat, events: seq<Event>, f: Finality)
    ensures var s := RunWalk(rid, INIT, events); var c := Top(s.fired);
      && (forall ht | 0 <= ht <= c :: ht in s.r.chain)
      && (forall ht | ht in s.r.chain :: s.r.chain[ht] in s.r.decided <==> ht <= c)
      && multiset(s.r.log)[f] == (if 1 <= f.cmdHeight <= c && Decision(rid, s.r.chain, f) then 1 else 0)
  {
    RunWalkKeeps(rid, INIT, events);
    var s := RunWalk(rid, INIT, events);
    OrderAll(s.fired);
    HoldsPrefix(rid, s.r, Order(s.fired), Top(s.fired));
    LogOnce(rid, s.r.chain, Order(s.fired), f);
  }

  // ---- the comment "commit this block and all parents", and the order of the log ----

  ghost predicate ParentsIn(b: Hash, decided: set<Hash>) {
    forall p | p in ParentHashes(b) :: p in decided
  }

  /** Every parent of a decided block is decided. */
  ghost predicate Closed(r: Replica) {
    forall b {:trigger ParentsIn(b, r.decided)} | b in r.decided :: ParentsIn(b, r.decided)
  }

  /** The timers fired for heights 1, 2, 3, ... */
  predicate InOrder(fired: seq<nat>) {
    forall k | 0 <= k < |fired| :: fired[k] == k + 1
  }

  /** The parents of the block stored at `ht` are the blocks stored at lower heights. */
  predicate StoredBelow(chain: map<nat, Hash>, ht: nat)
    requires ht in chain
  {
    forall p | p in ParentHashes(chain[ht]) :: Depth(p) < ht && Depth(p) in chain && chain[Depth(p)] == p
  }

  ghost predicate AllBelow(chain: map<nat, Hash>, hts: seq<nat>)
    requires AllIn(hts, chain)
  {
    forall ht {:trigger StoredBelow(chain, ht)} | ht in hts :: StoredBelow(chain, ht)
  }

  lemma {:induction false} RunSnoc(rid: nat, s: State, events: seq<Event>, n: nat)
    requires |events| == n + 1
    ensures Run(rid, s, events) == Step(rid, Run(rid, s, events[..n]), events[n])
    decreases |events|
  {
    if n > 0 {
      RunSnoc(rid, Step(rid, s, events[0]), events[1..], n - 1);
      assert events[1..][..n - 1] == events[..n][1..];
    }
  }

  lemma InDecided(chain: map<nat, Hash>, hts: seq<nat>, p: Hash)
    requires ChainOk(chain) && AllIn(hts, chain)
    ensures p in DecidedOf(chain, hts) <==> p == Genesis || (Depth(p) in hts && chain[Depth(p)] == p)
  {
    if p in DecidedOf(chain, hts) && p != Genesis {
      var ht :| ht in hts && chain[ht] == p;
      assert Depth(chain[ht]) == ht;
    }
  }

  /** No block is its own parent. */
  /** When the first `|fired|` heights have fired, in order. */
  lemma OrderedIn(fired: seq<nat>)
    requires InOrder(fired)
    ensures forall ht :: ht in fired <==> 1 <= ht <= |fired|
  {
    forall ht: nat | 1 <= ht <= |fired| ensures ht in fired { assert fired[ht - 1] == ht; }
  }

  lemma BelowCloses(rid: nat, r: Replica, fired: seq<nat>)
    requires Holds(rid, r, fired) && InOrder(fired) && AllBelow(r.chain, fired)
    ensures Closed(r)
  {
    OrderedIn(fired);
    forall b | b in r.decided ensures ParentsIn(b, r.decided) {
      InDecided(r.chain, fired, b);
      forall p | p in ParentHashes(b) ensures p in r.decided {
        assert b != Genesis && StoredBelow(r.chain, Depth(b));
        InDecided(r.chain, fired, p);
        assert Depth(p) == 0 ==> p == r.chain[0];
      }
    }
  }

  /** A block whose parents are all decided comes right after those that have fired. */
  lemma ClosedNext(rid: nat, r: Replica, fired: seq<nat>, ht: nat)
    requires Holds(rid, r, fired + [ht]) && InOrder(fired) && AllIn(fired, r.chain) && ht !in fired && Closed(r)
    ensures ht == |fired| + 1 && StoredBelow(r.chain, ht)
  {
    var more := fired + [ht];
    assert ht in more && Depth(r.chain[ht]) == ht;
    OrderedIn(fired);
    InDecided(r.chain, more, r.chain[ht]);
    assert ParentsIn(r.chain[ht], r.decided);
    forall p | p in ParentHashes(r.chain[ht])
      ensures p == Genesis || (Depth(p) in fired && r.chain[Depth(p)] == p)
    {
      InDecided(r.chain, more, p);
      NotOwnParent(r.chain[ht]);
    }
    assert ParentHashes(r.chain[ht])[0] in ParentHashes(r.chain[ht]) && Depth(ParentHashes(r.chain[ht])[0]) == ht - 1;
  }

  /** The timers have fired for 1, 2, 3, ..., on blocks whose parents are stored below them. */
  ghost predicate Linked(s: State)
    requires AllIn(s.fired, s.r.chain)
  {
    InOrder(s.fired) && AllBelow(s.r.chain, s.fired)
  }

  lemma LinkedPrefix(chain: map<nat, Hash>, fired: seq<nat>, ht: nat)
    requires AllIn(fired + [ht], chain)
    ensures AllIn(fired, chain)
    ensures InOrder(fired + [ht]) && AllBelow(chain, fired + [ht])
      <==> InOrder(fired) && AllBelow(chain, fired) && ht == |fired| + 1 && StoredBelow(chain, ht)
  {
    var more := fired + [ht];
    assert forall k | 0 <= k < |fired| :: more[k] == fired[k];
    assert more[|fired|] == ht;
    assert forall k :: k in more <==> k in fired || k == ht;
    assert AllBelow(chain, more) ==> StoredBelow(chain, ht);
    assert AllIn(fired, chain);
    if AllBelow(chain, more) { forall k | k in fired ensures StoredBelow(chain, k) { assert k in more; } }
  }

  lemma TimerMore(rid: nat, s: State, i: nat)
    requires Inv(rid, s, s.fired) && CanFire(s, i)
    ensures var s' := Step(rid, s, Timer(i)); AllIn(s'.fired, s'.r.chain) && (Linked(s) && Closed(s'.r) <==> Linked(s'))
  {
    var s', ht := Step(rid, s, Timer(i)), s.r.timers[i];
    Fired(s, i, s'.r);
    Adds(rid, DropTimer(s.r, i), s.fired, ht);
    LinkedPrefix(s.r.chain, s.fired, ht);
    if Linked(s') { BelowCloses(rid, s'.r, s'.fired); }
    if Linked(s) && Closed(s'.r) { ClosedNext(rid, s'.r, s.fired, ht); }
  }

  lemma BelowGrows(chain: map<nat, Hash>, more: map<nat, Hash>, fired: seq<nat>)
    requires AllIn(fired, chain) && InOrder(fired) && 0 in chain
    requires forall ht | ht in chain :: ht in more && more[ht] == chain[ht]
    ensures AllIn(fired, more) && (AllBelow(chain, fired) <==> AllBelow(more, fired))
  {
    OrderedIn(fired);
    forall ht | ht in fired ensures StoredBelow(chain, ht) <==> StoredBelow(more, ht) {
      forall k | 0 <= k < ht ensures k in chain { assert k > 0 ==> k in fired; }
    }
  }

  /** Storing more blocks does not change what is below those that have fired. */
  lemma StoreLinks(rid: nat, s: State, e: Event)
    requires Inv(rid, s, s.fired) && !e.Timer?
    ensures AllIn(s.fired, Store(s, e).chain) && (Linked(s) <==> Linked(s.(r := Store(s, e))))
  {
    StoreKeeps(rid, s, e, s.fired);
    if InOrder(s.fired) { BelowGrows(s.r.chain, Store(s, e).chain, s.fired); }
  }

  lemma OneMore(rid: nat, s: State, e: Event)
    requires Inv(rid, s, s.fired)
    ensures var s' := Step(rid, s, e); AllIn(s'.fired, s'.r.chain) && (Linked(s) && Closed(s'.r) <==> Linked(s'))
  {
    if e.Timer? && CanFire(s, e.i) {
      TimerMore(rid, s, e.i);
    } else if e.Timer? {
      if Linked(s) { BelowCloses(rid, s.r, s.fired); }
    } else {
      StoreKeeps(rid, s, e, s.fired);
      StoreLinks(rid, s, e);
      if Linked(s) { BelowCloses(rid, Store(s, e), s.fired); }
    }
  }

  ghost predicate AlwaysClosed(rid: nat, events: seq<Event>) {
    forall n {:trigger events[..n]} | 0 <= n <= |events| :: Closed(Run(rid, INIT, events[..n]).r)
  }

  lemma AlwaysClosedSnoc(rid: nat, events: seq<Event>, m: nat)
    requires |events| == m + 1
    ensures AlwaysClosed(rid, events) <==> AlwaysClosed(rid, events[..m]) && Closed(Run(rid, INIT, events).r)
  {
    assert events[..m + 1] == events;
    assert forall n | 0 <= n <= m :: events[..n] == events[..m][..n];
  }

  /** As the code is: the parents of every decided block are decided too, at every moment of a run, if and
      only if the timers fire for heights 1, 2, 3, ... in this order and the parents of each block that
      fires are the blocks stored below it. */
  lemma {:induction false} ParentsCommittedIff(rid: nat, events: seq<Event>)
    ensures var s := Run(rid, INIT, events);
      AllIn(s.fired, s.r.chain) && (AlwaysClosed(rid, events) <==> InOrder(s.fired) && AllBelow(s.r.chain, s.fired))
    decreases |events|
  {
    if events == [] {
      assert events[..0] == [] && ParentsIn(Genesis, {Genesis});
    } else {
      var m := |events| - 1;
      ParentsCommittedIff(rid, events[..m]);
      RunSnoc(rid, INIT, events, m);
      RunKeeps(rid, INIT, events[..m]);
      AlwaysClosedSnoc(rid, events, m);
      OneMore(rid, Run(rid, INIT, events[..m]), events[m]);
    }
  }

  /** Blocks are handed over lowest first. */
  ghost predicate Ascending(hts: seq<nat>) {
    forall i, j | 0 <= i < j < |hts| :: hts[i] < hts[j]
  }

  ghost predicate LogAscending(log: seq<Finality>) {
    forall i, j | 0 <= i < j < |log| :: log[i].cmdHeight <= log[j].cmdHeight
  }

  lemma {:induction false} LogHeights(rid: nat, chain: map<nat, Hash>, hts: seq<nat>)
    requires ChainOk(chain) && AllIn(hts, chain) && forall ht | ht in hts :: Cmds(chain[ht]) != []
    ensures forall f | f in LogOf(rid, chain, hts) :: f.cmdHeight in hts
    ensures forall ht | ht in hts :: exists f :: f in LogOf(rid, chain, hts) && f.cmdHeight == ht
  {
    if hts != [] {
      var m := |hts| - 1;
      LogHeights(rid, chain, hts[..m]);
      var front, fs := LogOf(rid, chain, hts[..m]), Finalities(rid, chain[hts[m]]);
      assert hts == hts[..m] + [hts[m]] && LogOf(rid, chain, hts) == front + fs;
      assert fs[0] in front + fs && fs[0].cmdHeight == hts[m];
      forall ht | ht in hts[..m] ensures exists f :: f in front + fs && f.cmdHeight == ht {
        var f :| f in front && f.cmdHeight == ht;
        assert f in front + fs;
      }
    }
  }

  lemma LogStep(rid: nat, chain: map<nat, Hash>, hts: seq<nat>, m: nat)
    requires ChainOk(chain) && AllIn(hts, chain) && forall ht | ht in hts :: Cmds(chain[ht]) != []
    requires |hts| == m + 1
    ensures LogAscending(LogOf(rid, chain, hts)) <==>
      LogAscending(LogOf(rid, chain, hts[..m])) && forall ht | ht in hts[..m] :: ht <= hts[m]
  {
    LogHeights(rid, chain, hts[..m]);
    LogJoins(LogOf(rid, chain, hts[..m]), Finalities(rid, chain[hts[m]]), hts[..m], hts[m]);
  }

  lemma {:induction false} LogAscends(rid: nat, chain: map<nat, Hash>, hts: seq<nat>)
    requires ChainOk(chain) && AllIn(hts, chain) && forall ht | ht in hts :: Cmds(chain[ht]) != []
    requires forall ht :: multiset(hts)[ht] <= 1
    ensures LogAscending(LogOf(rid, chain, hts)) <==> Ascending(hts)
  {
    if hts != [] {
      var m := |hts| - 1;
      LogStep(rid, chain, hts, m);
      AscendingLast(hts, m) by { Last(hts, m, hts[m]); }
      LogAscends(rid, chain, hts[..m]) by { forall ht ensures multiset(hts[..m])[ht] <= 1 { Last(hts, m, ht); } }
    }
  }

  lemma AscendingLast(hts: seq<nat>, m: nat)
    requires |hts| == m + 1 && hts[m] !in hts[..m]
    ensures Ascending(hts) <==> Ascending(hts[..m]) && forall ht | ht in hts[..m] :: ht <= hts[m]
  {
    assert hts == hts[..m] + [hts[m]];
    assert forall i | 0 <= i < m :: hts[i] in hts[..m];
  }

  lemma LogJoins(log: seq<Finality>, fs: seq<Finality>, hts: seq<nat>, h: nat)
    requires fs != [] && forall f | f in fs :: f.cmdHeight == h
    requires forall f | f in log :: f.cmdHeight in hts
    requires forall ht | ht in hts :: exists f :: f in log && f.cmdHeight == ht
    ensures LogAscending(log + fs) <==> LogAscending(log) && forall ht | ht in hts :: ht <= h
  {
    var all := log + fs;
    assert forall i | 0 <= i < |log| :: all[i] == log[i];
    if LogAscending(all) {
      forall ht | ht in hts ensures ht <= h {
        var f :| f in log && f.cmdHeight == ht;
        var i :| 0 <= i < |log| && log[i] == f;
        assert all[i].cmdHeight <= all[|log|].cmdHeight && all[|log|] in fs;
      }
    }
    if LogAscending(log) && forall ht | ht in hts :: ht <= h {
      forall i, j | 0 <= i < j < |all| ensures all[i].cmdHeight <= all[j].cmdHeight {
        assert if i < |log| then all[i] in log else all[i] in fs;
        assert if j < |log| then all[j] in log else all[j] in fs;
      }
    }
  }

  /** No timer fires before that of the height below its own. */
  predicate Stepwise(fired: seq<nat>) {
    forall k | 0 <= k < |fired| :: fired[k] <= Top(fired[..k]) + 1
  }

  lemma DownAscends(front: seq<nat>, i: nat, c: nat)
    requires forall ht | ht in front :: ht <= c
    ensures Ascending(front + Down(i, c)) <==> Ascending(front) && i <= c + 1
  {
    var tail := Down(i, c);
    var all := front + tail;
    assert forall k | 0 <= k < |front| :: all[k] == front[k] && front[k] in front;
    if i > c + 1 {
      assert Down(i - 1, c)[0] == i - 1 && tail == [i] + Down(i - 1, c);
      assert all[|front|] == i && all[|front| + 1] == i - 1;
    } else if i == c + 1 {
      assert tail == [i];
    } else {
      assert all == front;
    }
  }

  lemma StepwiseLast(fired: seq<nat>, m: nat)
    requires |fired| == m + 1
    ensures Stepwise(fired) <==> Stepwise(fired[..m]) && fired[m] <= Top(fired[..m]) + 1
  {
    assert forall k | 0 <= k < m :: fired[..k] == fired[..m][..k] && fired[k] == fired[..m][k];
  }

  lemma {:induction false} OrderAscends(fired: seq<nat>)
    ensures Ascending(Order(fired)) <==> Stepwise(fired)
  {
    if fired != [] {
      var m := |fired| - 1;
      var rest := fired[..m];
      OrderAscends(rest);
      OrderAll(rest);
      DownAscends(Order(rest), fired[m], Top(rest));
      StepwiseLast(fired, m);
    }
  }

  /** The heights of blocks with commands: only those leave something in the log. */
  function Filled(chain: map<nat, Hash>, hts: seq<nat>): seq<nat>
    requires AllIn(hts, chain)
  {
    if hts == [] then []
    else
      var rest, ht := Filled(chain, hts[..|hts| - 1]), hts[|hts| - 1];
      if Cmds(chain[ht]) == [] then rest else rest + [ht]
  }

  lemma FrontIn(hts: seq<nat>, chain: map<nat, Hash>)
    requires AllIn(hts, chain) && hts != []
    ensures AllIn(hts[..|hts| - 1], chain) && forall ht | ht in hts[..|hts| - 1] :: ht in hts
  {
    var front := hts[..|hts| - 1];
    forall ht | ht in front ensures ht in hts {
      var i :| 0 <= i < |front| && front[i] == ht;
      assert hts[i] == ht;
    }
  }

  lemma {:induction false} FilledOnce(chain: map<nat, Hash>, hts: seq<nat>)
    requires AllIn(hts, chain)
    ensures forall ht :: multiset(Filled(chain, hts))[ht] <= multiset(hts)[ht]
  {
    if hts != [] {
      var m := |hts| - 1;
      FrontIn(hts, chain);
      FilledOnce(chain, hts[..m]);
      assert hts == hts[..m] + [hts[m]];
    }
  }

  lemma {:induction false} FilledLog(rid: nat, chain: map<nat, Hash>, hts: seq<nat>)
    requires AllIn(hts, chain)
    ensures AllIn(Filled(chain, hts), chain) && LogOf(rid, chain, Filled(chain, hts)) == LogOf(rid, chain, hts)
    ensures forall ht | ht in Filled(chain, hts) :: Cmds(chain[ht]) != []
  {
    if hts != [] {
      var m := |hts| - 1;
      FrontIn(hts, chain);
      FilledLog(rid, chain, hts[..m]);
      assert hts == hts[..m] + [hts[m]];
      if Cmds(chain[hts[m]]) == [] {
        assert Finalities(rid, chain[hts[m]]) == [];
      } else {
        LogMore(rid, chain, Filled(chain, hts[..m]), hts[m]);
      }
    }
  }

  lemma LogMore(rid: nat, chain: map<nat, Hash>, hts: seq<nat>, ht: nat)
    requires AllIn(hts, chain) && ht in chain && ht > 0
    ensures AllIn(hts + [ht], chain)
    ensures LogOf(rid, chain, hts + [ht]) == LogOf(rid, chain, hts) + Finalities(rid, chain[ht])
  {
    assert (hts + [ht])[..|hts|] == hts;
  }

  lemma {:induction false} AllFilled(chain: map<nat, Hash>, hts: seq<nat>)
    requires AllIn(hts, chain) && forall ht | ht in hts :: Cmds(chain[ht]) != []
    ensures Filled(chain, hts) == hts
  {
    if hts != [] {
      FrontIn(hts, chain);
      AllFilled(chain, hts[..|hts| - 1]);
    }
  }

  lemma HeldAscends(rid: nat, r: Replica, hts: seq<nat>)
    requires Holds(rid, r, hts) && forall ht :: multiset(hts)[ht] <= 1
    ensures LogAscending(r.log) <==> Ascending(Filled(r.chain, hts))
  {
    FilledLog(rid, r.chain, hts);
    FilledOnce(r.chain, hts);
    LogAscends(rid, r.chain, Filled(r.chain, hts));
  }

  /** As the code is, the log has the lowest block first if and only if the timers of the blocks with commands fire in
      ascending order. */
  lemma LogOrderIff(rid: nat, events: seq<Event>)
    ensures var s := Run(rid, INIT, events);
      AllIn(s.fired, s.r.chain) && (LogAscending(s.r.log) <==> Ascending(Filled(s.r.chain, s.fired)))
  {
    RunKeeps(rid, INIT, events);
    HeldAscends(rid, Run(rid, INIT, events).r, Run(rid, INIT, events).fired);
  }

  /** The walk writes the log lowest block first if and only if it reaches the blocks with commands in ascending order;
      if all have commands, if and only if no timer fires before that of the height below. */
  lemma WalkOrderIff(rid: nat, events: seq<Event>)
    ensures var s := RunWalk(rid, INIT, events);
      && AllIn(Order(s.fired), s.r.chain) && (LogAscending(s.r.log) <==> Ascending(Filled(s.r.chain, Order(s.fired))))
      && ((forall ht | ht in s.r.chain && ht > 0 :: Cmds(s.r.chain[ht]) != []) ==>
            (LogAscending(s.r.log) <==> Stepwise(s.fired)))
  {
    var s := RunWalk(rid, INIT, events);
    RunWalkKeeps(rid, INIT, events);
    OrderAll(s.fired);
    OrderAscends(s.fired);
    HeldAscends(rid, s.r, Order(s.fired));
    if forall ht | ht in s.r.chain && ht > 0 :: Cmds(s.r.chain[ht]) != [] { AllFilled(s.r.chain, Order(s.fired)); }
  }

  // ---- write once ----

  /** Over any events, an equivocating proposer's blocks included, the block stored at a height is never replaced, nor
      is a decision taken back or the log shortened. */
  lemma {:induction false} WriteOnce(rid: nat, s: State, events: seq<Event>, ht: nat)
    requires ht in s.r.chain
    ensures var e := Run(rid, s, events);
      && ht in e.r.chain && e.r.chain[ht] == s.r.chain[ht] && s.r.decided <= e.r.decided && s.r.log <= e.r.log
    decreases |events|
  {
    if events != [] { WriteOnce(rid, Step(rid, s, events[0]), events[1..], ht); }
  }

  // ---- what is stored and broadcast ----

  /** The block of a call that stores one; height 0 is never stored. */
  function Offered(e: Event): Option<Hash> {
    if e.Timer? || Depth(e.blk) == 0 then None else Some(e.blk)
  }

  /** The first block of height `ht` offered. */
  function FirstOf(events: seq<Event>, ht: nat): Option<Hash> {
    if events == [] then None
    else
      var before, b := FirstOf(events[..|events| - 1], ht), Offered(events[|events| - 1]);
      if before.None? && b.Some? && Depth(b.value) == ht then b else before
  }

  /** A block proposed here is broadcast as it is. One received goes on, with the height delivery gave it, unless it
      is the first of its height and was offered before; also if it conflicts with that one. */
  function Broadcasts(events: seq<Event>): seq<Hash> {
    if events == [] then []
    else
      var before, e := events[..|events| - 1], events[|events| - 1];
      var b := Offered(e);
      if b.None? then Broadcasts(before)
      else if e.Made? then Broadcasts(before) + [b.value]
      else if FirstOf(before, Depth(b.value)) == b then Broadcasts(before)
      else Broadcasts(before) + [Of(b.value.wire.(height := Depth(b.value)))]
  }

  ghost predicate FirstIn(chain: map<nat, Hash>, events: seq<Event>, ht: nat) {
    match FirstOf(events, ht)
    case None => ht !in chain
    case Some(b) => ht in chain && chain[ht] == b
  }

  ghost predicate Kept(r: Replica, events: seq<Event>) {
    && (forall ht: nat {:trigger FirstIn(r.chain, events, ht)} | ht > 0 :: FirstIn(r.chain, events, ht))
    && r.sent == Broadcasts(events)
    && Depth(r.mark) in r.chain && r.chain[Depth(r.mark)] == r.mark && forall ht | ht in r.chain :: ht <= Depth(r.mark)
  }

  lemma FirstMore(chain: map<nat, Hash>, chain': map<nat, Hash>, events: seq<Event>, e: Event, ht: nat)
    requires FirstIn(chain, events, ht)
    requires match Offered(e)
             case None => chain' == chain
             case Some(b) => chain' == if Depth(b) in chain then chain else chain[Depth(b) := b]
    ensures FirstIn(chain', events + [e], ht)
  {
    assert (events + [e])[..|events|] == events;
  }

  lemma StoreKept(r: Replica, events: seq<Event>, e: Event)
    requires ChainOk(r.chain) && Kept(r, events) && !e.Timer?
    ensures Kept(Store(State(r, []), e), events + [e])
  {
    assert (events + [e])[..|events|] == events;
    var r' := Store(State(r, []), e);
    forall ht: nat | ht > 0 ensures FirstIn(r'.chain, events + [e], ht) {
      FirstMore(r.chain, r'.chain, events, e, ht);
    }
    if Depth(e.blk) > 0 {
      assert FirstIn(r.chain, events, Depth(e.blk));
      assert Handled(r, e.blk) <==> FirstOf(events, Depth(e.blk)) == Some(e.blk);
    }
  }

  lemma TimerKept(r: Replica, r': Replica, events: seq<Event>, e: Event)
    requires Kept(r, events) && e.Timer? && r'.chain == r.chain && r'.sent == r.sent && r'.mark == r.mark
    ensures Kept(r', events + [e])
  {
    assert (events + [e])[..|events|] == events;
    forall ht: nat | ht > 0 ensures FirstIn(r'.chain, events + [e], ht) {
      FirstMore(r.chain, r'.chain, events, e, ht);
    }
  }

  /** Over any events: a replica stores the first block of each height it was offered, `b_mark` is the highest of them,
      and it has broadcast what it proposed and what it received, but for the blocks it already stored. */
  lemma {:induction false} StoresFirst(rid: nat, events: seq<Event>)
    ensures Kept(Run(rid, INIT, events).r, events)
  {
    if events != [] {
      var m := |events| - 1;
      var s, e := Run(rid, INIT, events[..m]), events[m];
      StoresFirst(rid, events[..m]);
      RunSnoc(rid, INIT, events, m);
      RunKeeps(rid, INIT, events[..m]);
      assert events == events[..m] + [e];
      if e.Timer? {
        TimerKept(s.r, Step(rid, s, e).r, events[..m], e);
      } else {
        StoreKept(s.r, events[..m], e);
      }
    }
  }

  // ---- runs that fail the conditions ----

  /** The state after storing two blocks of different heights, lowest first. */
  lemma TwoStored(rid: nat, x: Hash, y: Hash)
    requires Depth(x) == 1 && Depth(y) == 2
    ensures var s := Step(rid, Step(rid, INIT, Got(x)), Got(y));
      && s.r.chain == map[0 := Genesis, 1 := x, 2 := y] && s.r.timers == [1, 2] && s.r.decided == {Genesis}
      && s.r.log == [] && s.fired == []
  {
    var s := Step(rid, INIT, Got(x));
    assert s.r.chain == map[0 := Genesis, 1 := x] && s.r.timers == [1];
  }

  lemma RunFour(rid: nat, a: Event, b: Event, c: Event, d: Event)
    ensures Run(rid, INIT, [a, b, c, d]) == Step(rid, Step(rid, Step(rid, Step(rid, INIT, a), b), c), d)
  {
    RunSnoc(rid, INIT, [a, b, c, d], 3);
    assert [a, b, c, d][..3] == [a, b, c] && [a, b, c][..2] == [a, b] && [a, b][..1] == [a] && [a][..0] == [];
    RunSnoc(rid, INIT, [a, b, c], 2);
    RunSnoc(rid, INIT, [a, b], 1);
    RunSnoc(rid, INIT, [a], 0);
  }

  /** The timer of height 2 fires before that of height 1: for a while block 2 is decided and its parent is
      not. */
  lemma OutOfOrder(rid: nat, x: Hash, y: Hash)
    requires Depth(x) == 1 && y.Of? && y.wire.parents != [] && y.wire.parents[0] == x
    ensures var events := [Got(x), Got(y), Timer(1), Timer(0)];
      Run(rid, INIT, events).fired == [2, 1] && !AlwaysClosed(rid, events)
  {
    var events := [Got(x), Got(y), Timer(1), Timer(0)];
    SecondFirst(rid, x, y);
    RunFour(rid, Got(x), Got(y), Timer(1), Timer(0));
    ParentsCommittedIff(rid, events);
    assert Run(rid, INIT, events).fired[0] == 2;
  }

  lemma SecondFirst(rid: nat, x: Hash, y: Hash)
    requires Depth(x) == 1 && Depth(y) == 2
    ensures Step(rid, Step(rid, Step(rid, Step(rid, INIT, Got(x)), Got(y)), Timer(1)), Timer(0)).fired == [2, 1]
  {
    TwoStored(rid, x, y);
    var s1 := Step(rid, Step(rid, Step(rid, INIT, Got(x)), Got(y)), Timer(1));
    assert s1.fired == [2] && s1.r.timers == [1];
  }

  /** An equivocating proposer: the timers fire in order, and the block decided at height 2 has a parent that
      is not decided, because another block of its height was stored first. */
  lemma UndecidedParent(rid: nat, x: Hash, other: Hash, y: Hash)
    requires Depth(x) == Depth(other) == 1 && x != other && y.Of? && y.wire.parents != [] && y.wire.parents[0] == other
    ensures var events := [Got(x), Got(y), Timer(0), Timer(0)]; var s := Run(rid, INIT, events);
      && InOrder(s.fired) && y in s.r.decided && other in ParentHashes(y) && other !in s.r.decided
      && !AlwaysClosed(rid, events)
  {
    var events := [Got(x), Got(y), Timer(0), Timer(0)];
    BothFired(rid, x, y);
    RunFour(rid, Got(x), Got(y), Timer(0), Timer(0));
    assert y.wire.parents[0] in ParentHashes(y);
    NotClosed(rid, events, y, other);
  }

  lemma NotClosed(rid: nat, events: seq<Event>, y: Hash, p: Hash)
    requires var r := Run(rid, INIT, events).r; y in r.decided && p in ParentHashes(y) && p !in r.decided
    ensures !AlwaysClosed(rid, events)
  {
    assert !ParentsIn(y, Run(rid, INIT, events).r.decided);
    assert events[..|events|] == events;
  }

  lemma BothFired(rid: nat, x: Hash, y: Hash)
    requires Depth(x) == 1 && Depth(y) == 2
    ensures var s := Step(rid, Step(rid, Step(rid, Step(rid, INIT, Got(x)), Got(y)), Timer(0)), Timer(0));
      s.fired == [1, 2] && s.r.decided == {Genesis, x, y}
  {
    TwoStored(rid, x, y);
    var s1 := Step(rid, Step(rid, Step(rid, INIT, Got(x)), Got(y)), Timer(0));
    assert s1.fired == [1] && s1.r.timers == [2] && s1.r.decided == {Genesis, x};
  }

  /** With the walk the same run hands over block 2 before block 1. */
  lemma WalkBackwards(rid: nat, x: Hash, y: Hash)
    requires Depth(x) == 1 && Depth(y) == 2 && Cmds(x) != [] && Cmds(y) != []
    ensures var s := RunWalk(rid, INIT, [Got(x), Got(y), Timer(1)]); s.fired == [2] && !LogAscending(s.r.log)
  {
    var s1 := StepWalk(rid, INIT, Got(x));
    var s2 := TwoWalked(rid, x, y);
    var s3 := StepWalk(rid, s2, Timer(1));
    RunWalkThree(rid, INIT, s1, s2, s3, Got(x), Got(y), Timer(1));
    BackwardsLog(rid, [Got(x), Got(y), Timer(1)], s3, x, y);
  }

  lemma BackwardsLog(rid: nat, events: seq<Event>, s: State, x: Hash, y: Hash)
    requires s == RunWalk(rid, INIT, events) && s.fired == [2] && s.r.chain == map[0 := Genesis, 1 := x, 2 := y]
    requires Cmds(x) != [] && Cmds(y) != []
    ensures !LogAscending(s.r.log)
  {
    WalkOrderIff(rid, events);
    assert s.fired[..0] == [] && s.fired[0] == 2;
  }

  lemma TwoWalked(rid: nat, x: Hash, y: Hash) returns (s: State)
    requires Depth(x) == 1 && Depth(y) == 2
    ensures 0 in StepWalk(rid, INIT, Got(x)).r.chain && s == StepWalk(rid, StepWalk(rid, INIT, Got(x)), Got(y))
    ensures 0 in s.r.chain && StepWalk(rid, s, Timer(1)).fired == [2]
    ensures StepWalk(rid, s, Timer(1)).r.chain == map[0 := Genesis, 1 := x, 2 := y]
  {
    TwoStored(rid, x, y);
    s := Step(rid, Step(rid, INIT, Got(x)), Got(y));
    assert StepWalk(rid, INIT, Got(x)) == Step(rid, INIT, Got(x));
    WalkChain(rid, DropTimer(s.r, 1), 2);
  }

  lemma RunWalkThree(rid: nat, s0: State, s1: State, s2: State, s3: State, a: Event, b: Event, c: Event)
    requires 0 in s0.r.chain && 0 in s1.r.chain && 0 in s2.r.chain && 0 in s3.r.chain
    requires s1 == StepWalk(rid, s0, a) && s2 == StepWalk(rid, s1, b) && s3 == StepWalk(rid, s2, c)
    ensures RunWalk(rid, s0, [a, b, c]) == s3
  {
    assert [a, b, c][1..] == [b, c] && [b, c][1..] == [c] && [c][1..] == [];
    assert RunWalk(rid, s3, []) == s3 && RunWalk(rid, s2, [c]) == RunWalk(rid, s3, []);
    assert RunWalk(rid, s1, [b, c]) == RunWalk(rid, s2, [c]);
  }
}

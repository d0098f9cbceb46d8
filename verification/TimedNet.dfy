/** Correct replicas on a logical clock, with a proposer that may equivocate.

    A block a correct replica broadcasts is handled by every other one within `bound`. The proposer
    is outside the model: any block may be handed to any replica at any time. */
module TimedNet {
  import opened Blocks

  datatype Msg = Msg(to: nat, blk: Hash, due: real)

  datatype At = At(rid: nat, ht: nat)

  datatype Saw = Saw(rid: nat, blk: Hash)

  /** `storedAt` is when a replica stored its block of a height, which is when it armed that height's
      commit timer; `seenAt` is when it first handled a block; `firedAt` is when a timer fired. */
  datatype Net = Net(now: real, reps: seq<Replica>, storedAt: map<At, real>, seenAt: map<Saw, real>,
                     flight: set<Msg>, firedAt: map<At, real>)

  datatype Config = Config(n: nat, delta: real, bound: real)

  datatype Action = Tick(dt: real) | Inject(rid: nat, blk: Hash) | Arrive(msg: Msg) | Fire(rid: nat, i: nat)

  ghost predicate ConfigOk(c: Config) {
    0.0 <= c.bound <= c.delta
  }

  function Init(c: Config): Net {
    Net(0.0, seq(c.n, _ => START), map[], map[], {}, map[])
  }

  /** One message to every replica below `n` except `j`. */
  function Broadcast(n: nat, j: nat, h: Hash, due: real): (r: set<Msg>)
    ensures forall m :: m in r <==> m.to < n && m.to != j && m.blk == h && m.due == due
  {
    if n == 0 then {} else Broadcast(n - 1, j, h, due) + if n - 1 == j then {} else {Msg(n - 1, h, due)}
  }

  /** `propose_handler` on a verified, delivered block; blocks of height 0 are ignored. */
  function Handle(c: Config, s: Net, j: nat, h: Hash): Net
    requires |s.reps| == c.n && j < c.n
  {
    if Depth(h) == 0 then s
    else
      var r, r' := s.reps[j], Receive(s.reps[j], h);
      s.(reps := s.reps[j := r'],
         storedAt := if Depth(h) in r.chain then s.storedAt else s.storedAt[At(j, Depth(h)) := s.now],
         seenAt := if Saw(j, h) in s.seenAt then s.seenAt else s.seenAt[Saw(j, h) := s.now],
         flight := if Handled(r, h) then s.flight else s.flight + Broadcast(c.n, j, Reserialized(h), s.now + c.bound))
  }

  /** An action that is not enabled changes nothing. Time does not pass the due time of a message, and
      a timer fires 2 * delta after it was armed or later. */
  function Step(c: Config, s: Net, a: Action): Net
    requires |s.reps| == c.n
  {
    match a
    case Tick(dt) =>
      if dt >= 0.0 && forall m | m in s.flight :: s.now + dt <= m.due then s.(now := s.now + dt) else s
    case Inject(j, h) => if j < c.n && WellHeighted(h) then Handle(c, s, j, h) else s
    case Arrive(m) => if m in s.flight && m.to < c.n then Handle(c, s.(flight := s.flight - {m}), m.to, m.blk) else s
    case Fire(j, i) =>
      if j < c.n && i < |s.reps[j].timers| && s.reps[j].timers[i] in s.reps[j].chain
        && At(j, s.reps[j].timers[i]) in s.storedAt
        && s.now >= s.storedAt[At(j, s.reps[j].timers[i])] + 2.0 * c.delta then
        var ht := s.reps[j].timers[i];
        s.(reps := s.reps[j := Commit(j, DropTimer(s.reps[j], i), ht)], firedAt := s.firedAt[At(j, ht) := s.now])
      else s
  }

  function Play(c: Config, s: Net, acts: seq<Action>): (r: Net)
    requires |s.reps| == c.n
    ensures |r.reps| == c.n
    decreases |acts|
  {
    if acts == [] then s else Play(c, Step(c, s, acts[0]), acts[1..])
  }

  /** Over any run, with conflicting blocks injected at will, no replica replaces the block it stores at a height. */
  lemma {:induction false} WriteOnce(c: Config, s: Net, acts: seq<Action>, j: nat, ht: nat)
    requires |s.reps| == c.n && j < c.n && ht in s.reps[j].chain
    ensures var r := Play(c, s, acts).reps[j]; ht in r.chain && r.chain[ht] == s.reps[j].chain[ht]
    decreases |acts|
  {
    if acts != [] {
      StepWritesOnce(c, s, acts[0], j, ht);
      WriteOnce(c, Step(c, s, acts[0]), acts[1..], j, ht);
    }
  }

  lemma StepWritesOnce(c: Config, s: Net, a: Action, j: nat, ht: nat)
    requires |s.reps| == c.n && j < c.n && ht in s.reps[j].chain
    ensures var s' := Step(c, s, a);
      |s'.reps| == c.n && ht in s'.reps[j].chain && s'.reps[j].chain[ht] == s.reps[j].chain[ht]
  {}

  // ---- the invariant ----

  /** The block replica `j` stores at height `ht` was stored, and first handled, at `storedAt`. */
  ghost predicate StoreOk(s: Net, j: nat, ht: nat)
    requires j < |s.reps| && ht in s.reps[j].chain
  {
    var x := s.reps[j].chain[ht];
    Depth(x) == ht && (ht == 0 ==> x == Genesis) && (ht > 0 ==>
      && At(j, ht) in s.storedAt && s.storedAt[At(j, ht)] <= s.now
      && Saw(j, x) in s.seenAt && s.seenAt[Saw(j, x)] == s.storedAt[At(j, ht)])
  }

  /** A block that was handled left the replica with a block of that height, and was forwarded. */
  ghost predicate SawOk(c: Config, s: Net, j: nat, h: Hash)
    requires Saw(j, h) in s.seenAt
  {
    var t := s.seenAt[Saw(j, h)];
    && j < |s.reps| && Depth(h) > 0 && WellHeighted(h) && t <= s.now && Depth(h) in s.reps[j].chain
    && At(j, Depth(h)) in s.storedAt && s.storedAt[At(j, Depth(h))] <= t
    && forall k | 0 <= k < c.n && k != j :: Spread(c, s, k, h, t)
  }

  /** Replica `k` has handled `h` within `bound` of `t`, or a message will make it do so. */
  ghost predicate Spread(c: Config, s: Net, k: nat, h: Hash, t: real) {
    Msg(k, h, t + c.bound) in s.flight || (Saw(k, h) in s.seenAt && s.seenAt[Saw(k, h)] <= t + c.bound)
  }

  ghost predicate Inv(c: Config, s: Net) {
    && ConfigOk(c) && |s.reps| == c.n
    && (forall j, ht {:trigger StoreOk(s, j, ht)} | 0 <= j < c.n && ht in s.reps[j].chain :: StoreOk(s, j, ht))
    && (forall a | a in s.storedAt :: a.rid < c.n && a.ht in s.reps[a.rid].chain)
    && (forall w {:trigger SawOk(c, s, w.rid, w.blk)} | w in s.seenAt :: SawOk(c, s, w.rid, w.blk))
    && (forall m | m in s.flight :: s.now <= m.due && WellHeighted(m.blk) && Depth(m.blk) > 0)
    && (forall a | a in s.firedAt :: a in s.storedAt && s.storedAt[a] + 2.0 * c.delta <= s.firedAt[a] <= s.now)
  }

  ghost predicate Grows(s: Net, s': Net) {
    && s'.now == s.now && |s'.reps| == |s.reps| && s.flight <= s'.flight && s'.firedAt == s.firedAt
    && (forall w | w in s.seenAt :: w in s'.seenAt && s'.seenAt[w] == s.seenAt[w])
    && (forall a | a in s.storedAt :: a in s'.storedAt && s'.storedAt[a] == s.storedAt[a])
    && forall j, ht | 0 <= j < |s.reps| && ht in s.reps[j].chain ::
         ht in s'.reps[j].chain && s'.reps[j].chain[ht] == s.reps[j].chain[ht]
  }

  lemma SawStays(c: Config, s: Net, s': Net, w: Saw)
    requires Grows(s, s') && w in s.seenAt && SawOk(c, s, w.rid, w.blk)
    ensures SawOk(c, s', w.rid, w.blk)
  {
    forall k | 0 <= k < c.n && k != w.rid ensures Spread(c, s', k, w.blk, s.seenAt[w]) {
      assert Spread(c, s, k, w.blk, s.seenAt[w]);
    }
  }

  lemma HandleGrows(c: Config, s: Net, j: nat, h: Hash)
    requires Inv(c, s) && j < c.n
    ensures Grows(s, Handle(c, s, j, h))
  {
    HandleAdds(c, s, j, h);
  }

  lemma HandleAdds(c: Config, s: Net, j: nat, h: Hash)
    requires |s.reps| == c.n && j < c.n && forall a | a in s.storedAt :: a.rid < c.n && a.ht in s.reps[a.rid].chain
    ensures Grows(s, Handle(c, s, j, h))
  {}

  /** Handling a block for the first time: it was stored, or it conflicts with the stored block. */
  lemma HandleSaw(c: Config, s: Net, j: nat, h: Hash)
    requires Inv(c, s) && j < c.n && WellHeighted(h) && Depth(h) > 0 && Saw(j, h) !in s.seenAt
    ensures SawOk(c, Handle(c, s, j, h), j, h)
  {
    var s', r := Handle(c, s, j, h), s.reps[j];
    ForwardedUnchangedIff(h);
    if Depth(h) in r.chain { assert StoreOk(s, j, Depth(h)); }
    assert !Handled(r, h);
    forall k | 0 <= k < c.n && k != j ensures Spread(c, s', k, h, s.now) {
      assert Msg(k, h, s.now + c.bound) in s'.flight;
    }
  }

  lemma HandleStore(c: Config, s: Net, j: nat, h: Hash, i: nat, ht: nat)
    requires Inv(c, s) && j < c.n && Depth(h) > 0 && i < c.n && ht in Handle(c, s, j, h).reps[i].chain
    ensures StoreOk(Handle(c, s, j, h), i, ht)
  {
    var s' := Handle(c, s, j, h);
    if ht in s.reps[i].chain {
      assert StoreOk(s, i, ht);
      HandleGrows(c, s, j, h);
    } else {
      assert i == j && ht == Depth(h) && s'.reps[j].chain[ht] == h;
      assert Saw(j, h) in s.seenAt ==> SawOk(c, s, j, h);
    }
  }

  lemma HandleKeeps(c: Config, s: Net, j: nat, h: Hash)
    requires Inv(c, s) && j < c.n && WellHeighted(h)
    ensures Inv(c, Handle(c, s, j, h))
    ensures Depth(h) > 0 ==> Saw(j, h) in Handle(c, s, j, h).seenAt
  {
    if Depth(h) > 0 {
      var s' := Handle(c, s, j, h);
      HandleGrows(c, s, j, h);
      ForwardedUnchangedIff(h);
      forall w | w in s'.seenAt ensures SawOk(c, s', w.rid, w.blk) {
        if w in s.seenAt { SawStays(c, s, s', w); } else { HandleSaw(c, s, j, h); }
      }
      forall i, ht | 0 <= i < c.n && ht in s'.reps[i].chain ensures StoreOk(s', i, ht) {
        HandleStore(c, s, j, h, i, ht);
      }
    }
  }

  /** A message whose block its receiver has handled in time is no longer needed. */
  lemma RemoveMsg(c: Config, s: Net, m: Msg)
    requires Inv(c, s) && m in s.flight && Saw(m.to, m.blk) in s.seenAt
    ensures Inv(c, s.(flight := s.flight - {m}))
  {
    var s' := s.(flight := s.flight - {m});
    forall w | w in s'.seenAt ensures SawOk(c, s', w.rid, w.blk) {
      assert SawOk(c, s, w.rid, w.blk) && SawOk(c, s, m.to, m.blk);
      forall k | 0 <= k < c.n && k != w.rid ensures Spread(c, s', k, w.blk, s.seenAt[w]) {
        assert Spread(c, s, k, w.blk, s.seenAt[w]);
      }
    }
    forall i, ht | 0 <= i < c.n && ht in s'.reps[i].chain ensures StoreOk(s', i, ht) { assert StoreOk(s, i, ht); }
  }

  lemma ArriveKeeps(c: Config, s: Net, m: Msg)
    requires Inv(c, s) && m in s.flight && m.to < c.n
    ensures Inv(c, Step(c, s, Arrive(m)))
  {
    var s2 := Handle(c, s, m.to, m.blk);
    HandleKeeps(c, s, m.to, m.blk);
    RemoveMsg(c, s2, m);
    assert Handle(c, s.(flight := s.flight - {m}), m.to, m.blk).flight == s2.flight - {m};
  }

  /** Everything but the clock and the timers as before, and the clock not past any due time. */
  lemma Later(c: Config, s: Net, s': Net)
    requires Inv(c, s) && s'.now >= s.now && |s'.reps| == c.n && s'.flight == s.flight
    requires s'.storedAt == s.storedAt && s'.seenAt == s.seenAt && (forall m | m in s.flight :: s'.now <= m.due)
    requires forall j | 0 <= j < c.n :: s'.reps[j].chain == s.reps[j].chain
    requires forall a | a in s'.firedAt :: a in s.storedAt && s.storedAt[a] + 2.0 * c.delta <= s'.firedAt[a] <= s'.now
    ensures Inv(c, s')
  {
    forall w | w in s'.seenAt ensures SawOk(c, s', w.rid, w.blk) {
      assert SawOk(c, s, w.rid, w.blk);
      forall k | 0 <= k < c.n && k != w.rid ensures Spread(c, s', k, w.blk, s.seenAt[w]) {
        assert Spread(c, s, k, w.blk, s.seenAt[w]);
      }
    }
    forall i, ht | 0 <= i < c.n && ht in s'.reps[i].chain ensures StoreOk(s', i, ht) { assert StoreOk(s, i, ht); }
  }

  lemma FireKeeps(c: Config, s: Net, j: nat, i: nat)
    requires Inv(c, s)
    ensures Inv(c, Step(c, s, Fire(j, i)))
  {
    var s' := Step(c, s, Fire(j, i));
    FireOnly(c, s, j, i);
    Later(c, s, s');
  }

  lemma FireOnly(c: Config, s: Net, j: nat, i: nat)
    requires |s.reps| == c.n
    ensures var s' := Step(c, s, Fire(j, i));
      && s'.now == s.now && |s'.reps| == c.n && s'.flight == s.flight && s'.storedAt == s.storedAt
      && s'.seenAt == s.seenAt
      && (forall k | 0 <= k < c.n :: s'.reps[k].chain == s.reps[k].chain)
      && forall a | a in s'.firedAt :: (a in s.firedAt && s'.firedAt[a] == s.firedAt[a])
           || (a in s.storedAt && s.storedAt[a] + 2.0 * c.delta <= s'.firedAt[a] == s.now)
  {}

  lemma StepKeeps(c: Config, s: Net, a: Action)
    requires Inv(c, s)
    ensures Inv(c, Step(c, s, a))
  {
    match a {
      case Tick(_) => Later(c, s, Step(c, s, a));
      case Inject(j, h) => if j < c.n && WellHeighted(h) { HandleKeeps(c, s, j, h); }
      case Arrive(m) => if m in s.flight && m.to < c.n { ArriveKeeps(c, s, m); }
      case Fire(j, i) => FireKeeps(c, s, j, i);
    }
  }

  lemma {:induction false} PlayKeeps(c: Config, s: Net, acts: seq<Action>)
    requires Inv(c, s)
    ensures Inv(c, Play(c, s, acts))
    decreases |acts|
  {
    if acts != [] {
      StepKeeps(c, s, acts[0]);
      PlayKeeps(c, Step(c, s, acts[0]), acts[1..]);
    }
  }

  ghost predicate Reachable(c: Config, s: Net) {
    ConfigOk(c) && exists acts :: s == Play(c, Init(c), acts)
  }

  lemma ReachableInv(c: Config, s: Net)
    requires Reachable(c, s)
    ensures Inv(c, s)
  {
    var acts :| s == Play(c, Init(c), acts);
    PlayKeeps(c, Init(c), acts);
  }

  /** Armed timers are those of stored blocks. */
  ghost predicate Armed(s: Net, j: nat, ht: nat)
    requires j < |s.reps|
  {
    ht > 0 && ht in s.reps[j].chain && At(j, ht) in s.storedAt
  }

  ghost predicate TimersOk(s: Net) {
    forall j, ht {:trigger Armed(s, j, ht)} | 0 <= j < |s.reps| && ht in s.reps[j].timers :: Armed(s, j, ht)
  }

  lemma {:induction false} TimersArmed(c: Config, s: Net, acts: seq<Action>)
    requires |s.reps| == c.n && TimersOk(s)
    ensures TimersOk(Play(c, s, acts))
    decreases |acts|
  {
    if acts != [] {
      var s' := Step(c, s, acts[0]);
      forall j, ht | 0 <= j < |s'.reps| && ht in s'.reps[j].timers ensures Armed(s', j, ht) {
        TimerStays(c, s, acts[0], j, ht);
      }
      TimersArmed(c, s', acts[1..]);
    }
  }

  lemma TimerStays(c: Config, s: Net, a: Action, j: nat, ht: nat)
    requires |s.reps| == c.n && j < c.n && TimersOk(s) && ht in Step(c, s, a).reps[j].timers
    ensures Armed(Step(c, s, a), j, ht)
  {
    if ht in s.reps[j].timers { assert Armed(s, j, ht); }
  }

  /** An armed timer can fire from 2 * delta after its block was stored on and not a moment before; firing decides
      that block, unless it was decided before, and uses up the timer. */
  lemma FiresIff(c: Config, s: Net, j: nat, i: nat)
    requires Reachable(c, s) && j < c.n && i < |s.reps[j].timers|
    ensures |s.reps| == c.n && var ht := s.reps[j].timers[i];
      && ht in s.reps[j].chain && At(j, ht) in s.storedAt
      && var s' := Step(c, s, Fire(j, i));
         && |s'.reps| == c.n
         && (|s'.reps[j].timers| < |s.reps[j].timers| <==> s.now - s.storedAt[At(j, ht)] >= c.delta + c.delta)
         && (s.now - s.storedAt[At(j, ht)] >= c.delta + c.delta ==>
               At(j, ht) in s'.firedAt && s'.firedAt[At(j, ht)] == s.now && s.reps[j].chain[ht] in s'.reps[j].decided)
  {
    var acts :| s == Play(c, Init(c), acts);
    TimersArmed(c, Init(c), acts);
    assert Armed(s, j, s.reps[j].timers[i]);
  }

  // ---- conflict detection ----

  ghost predicate Conflict(s: Net, p: nat, q: nat, ht: nat) {
    && p < |s.reps| && q < |s.reps| && ht in s.reps[p].chain && ht in s.reps[q].chain
    && s.reps[p].chain[ht] != s.reps[q].chain[ht]
  }

  /** Replica `p` handled `q`'s block of height `ht` while it held its own, by time `t`: that is the
      branch of `update` that reports an equivocation. */
  ghost predicate DetectedBy(s: Net, p: nat, q: nat, ht: nat, t: real) {
    Conflict(s, p, q, ht) && At(p, ht) in s.storedAt
    && var w := Saw(p, s.reps[q].chain[ht]);
       w in s.seenAt && s.storedAt[At(p, ht)] <= s.seenAt[w] <= t
  }

  /** Whatever the proposer did, two correct replicas cannot hold different blocks of one height for
      longer than twice the message bound without both having been shown the conflict. */
  lemma ConflictDetected(c: Config, s: Net, p: nat, q: nat, ht: nat)
    requires Reachable(c, s) && Conflict(s, p, q, ht)
    ensures ht > 0 && At(p, ht) in s.storedAt
    ensures s.now > s.storedAt[At(p, ht)] + 2.0 * c.bound ==>
      DetectedBy(s, p, q, ht, s.storedAt[At(p, ht)] + 2.0 * c.bound)
  {
    ReachableInv(c, s);
    var x, y := s.reps[p].chain[ht], s.reps[q].chain[ht];
    assert StoreOk(s, p, ht) && StoreOk(s, q, ht);
    assert SawOk(c, s, p, x) && SawOk(c, s, q, y);
    assert Spread(c, s, q, x, s.seenAt[Saw(p, x)]);
    assert Saw(q, x) in s.seenAt ==> SawOk(c, s, q, x);
    assert Spread(c, s, p, y, s.seenAt[Saw(q, y)]);
    assert Saw(p, y) in s.seenAt ==> SawOk(c, s, p, y);
  }

  /** Both sides know no later than their own commit timer, once it can have fired. */
  lemma BothDetect(c: Config, s: Net, p: nat, q: nat, ht: nat)
    requires Reachable(c, s) && Conflict(s, p, q, ht)
    ensures At(p, ht) in s.storedAt && At(q, ht) in s.storedAt
    ensures s.now > s.storedAt[At(p, ht)] + 2.0 * c.delta ==>
      DetectedBy(s, p, q, ht, s.storedAt[At(p, ht)] + 2.0 * c.delta)
    ensures s.now > s.storedAt[At(q, ht)] + 2.0 * c.delta ==>
      DetectedBy(s, q, p, ht, s.storedAt[At(q, ht)] + 2.0 * c.delta)
  {
    ReachableInv(c, s);
    ConflictDetected(c, s, p, q, ht);
    ConflictDetected(c, s, q, p, ht);
  }

  /** When messages take less than delta, a replica whose timer fired at a height on which another
      correct replica holds a different block had been shown the conflict before the timer fired. */
  lemma CommitKnows(c: Config, s: Net, p: nat, q: nat, ht: nat)
    requires Reachable(c, s) && c.bound < c.delta && At(p, ht) in s.firedAt && Conflict(s, p, q, ht)
    ensures exists t :: t < s.firedAt[At(p, ht)] && DetectedBy(s, p, q, ht, t)
  {
    ReachableInv(c, s);
    ConflictDetected(c, s, p, q, ht);
    assert DetectedBy(s, p, q, ht, s.storedAt[At(p, ht)] + 2.0 * c.bound);
  }
}

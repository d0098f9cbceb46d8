/** The queue handler of `Commands` inside the network of `FifoNet`: what clients call is what logs hold. */
module Batching {
  import opened Blocks
  import FifoNet
  import Commands

  /** Batches made so far, and what is left in the buffer. */
  datatype Cuts = Cuts(batches: seq<seq<Cmd>>, rest: seq<Cmd>)

  function CutMore(blkSize: nat, u: Cuts, cmd: Cmd): Cuts {
    var all := u.rest + [cmd];
    if |all| < blkSize then Cuts(u.batches, all) else Cuts(u.batches + [all[..blkSize]], all[blkSize..])
  }

  /** A sequence of commands, cut into batches from the front as they come. */
  function Cut(blkSize: nat, cmds: seq<Cmd>): Cuts {
    if cmds == [] then Cuts([], []) else CutMore(blkSize, Cut(blkSize, cmds[..|cmds| - 1]), cmds[|cmds| - 1])
  }

  lemma CutNext(blkSize: nat, cmds: seq<Cmd>, cmd: Cmd)
    ensures Cut(blkSize, cmds + [cmd]) == CutMore(blkSize, Cut(blkSize, cmds), cmd)
  {
    assert (cmds + [cmd])[..|cmds|] == cmds;
  }

  // ---- the handler ----

  /** The commands taken off the queue. */
  function Taken(p: Commands.Pool): seq<Cmd>
    requires |p.queue| <= |p.issued|
  {
    p.issued[..|p.issued| - |p.queue|]
  }

  /** What has been proposed and buffered is what was taken, cut. */
  ghost predicate PoolCut(c: Commands.Config, p: Commands.Pool) {
    && |p.queue| <= |p.issued| && Commands.QueueOk(p.queue, p.issued, |p.issued| - |p.queue|)
    && Cuts(p.proposals, p.buffer) == if c.leads then Cut(c.blkSize, Taken(p)) else Cuts([], [])
  }

  lemma EmptyCut(c: Commands.Config)
    ensures PoolCut(c, Commands.EMPTY)
  {
    assert Taken(Commands.EMPTY) == [];
  }

  lemma TakeCut(c: Commands.Config, p: Commands.Pool)
    requires PoolCut(c, p) && p.queue != []
    ensures PoolCut(c, Commands.Take(c, p))
  {
    var q := Commands.Take(c, p);
    Commands.QueueNext(p.queue, p.issued, |p.issued| - |p.queue|);
    assert Taken(q) == Taken(p) + [p.queue[0].cmd];
    CutNext(c.blkSize, Taken(p), p.queue[0].cmd);
  }

  lemma {:induction false} HandleCut(c: Commands.Config, p: Commands.Pool)
    requires PoolCut(c, p)
    ensures PoolCut(c, Commands.Handle(c, p))
    decreases |p.queue|
  {
    if p.queue != [] {
      var q := Commands.Take(c, p);
      TakeCut(c, p);
      if |q.proposals| <= |p.proposals| { HandleCut(c, q); }
    }
  }

  lemma {:induction false} RunCut(c: Commands.Config, p: Commands.Pool, events: seq<Commands.Event>)
    requires PoolCut(c, p)
    ensures PoolCut(c, Commands.Run(c, p, events))
    decreases |events|
  {
    if events != [] {
      match events[0] {
        case Exec(cmd) =>
          Commands.QueueMore(p.queue, p.issued, |p.issued| - |p.queue|, cmd);
          assert Taken(Commands.Submit(p, cmd)) == Taken(p);
        case Ready => HandleCut(c, p);
        case Decided(_, _) =>
      }
      RunCut(c, Commands.Step(c, p, events[0]), events[1..]);
    }
  }

  // ---- the network ----

  function Batches(sent: seq<Hash>): seq<seq<Cmd>> {
    seq(|sent|, i requires 0 <= i < |sent| => Cmds(sent[i]))
  }

  /** The proposer's blocks and its buffer. */
  function NetCuts(c: FifoNet.Config, s: FifoNet.Net): Cuts
    requires c.proposer < |s.reps|
  {
    Cuts(Batches(s.reps[c.proposer].sent), s.buffer)
  }

  /** A step that takes a command cuts on; no other step touches the proposer's blocks or its buffer. */
  ghost predicate CutsOn(c: FifoNet.Config, s: FifoNet.Net, a: FifoNet.Action, t: FifoNet.Net)
    requires c.proposer < |s.reps| && |t.reps| == |s.reps|
  {
    if a.Dequeue? then t.dequeued == s.dequeued + [a.cmd] && NetCuts(c, t) == CutMore(c.blkSize, NetCuts(c, s), a.cmd)
    else t.dequeued == s.dequeued && NetCuts(c, t) == NetCuts(c, s)
  }

  lemma DequeueCuts(c: FifoNet.Config, s: FifoNet.Net, cmd: Cmd)
    requires FifoNet.Inv(c, s)
    ensures CutsOn(c, s, FifoNet.Dequeue(cmd), FifoNet.Step(c, s, FifoNet.Dequeue(cmd)))
  {
    Commands.ProposesBatch(c, s, cmd);
    var t := FifoNet.TakeCommand(c, s, cmd);
    var sent, sent' := s.reps[c.proposer].sent, t.reps[c.proposer].sent;
    if |s.buffer + [cmd]| >= c.blkSize {
      var b :| sent' == sent + [b] && Cmds(b) == (s.buffer + [cmd])[..c.blkSize];
      assert Batches(sent') == Batches(sent) + [Cmds(b)];
    }
  }

  lemma DeliverCuts(c: FifoNet.Config, s: FifoNet.Net, l: FifoNet.Link)
    requires FifoNet.Inv(c, s)
    ensures CutsOn(c, s, FifoNet.Deliver(l), FifoNet.Step(c, s, FifoNet.Deliver(l)))
  {
    if FifoNet.Enabled(c, s, l) {
      var blocks, sender, r := FifoNet.AllBlocks(c, s), s.reps[l.from], s.reps[l.to];
      assert FifoNet.InStep(l.from, sender, blocks) && FifoNet.InStep(l.to, r, blocks);
      FifoNet.Delivered(l.from, sender, l.to, r, blocks, FifoNet.Taken(s, l));
    }
  }

  lemma FireCuts(c: FifoNet.Config, s: FifoNet.Net, j: nat)
    requires FifoNet.Inv(c, s)
    ensures CutsOn(c, s, FifoNet.Fire(j), FifoNet.Step(c, s, FifoNet.Fire(j)))
  {
    if j < c.n && s.reps[j].timers != [] {
      assert FifoNet.InStep(j, s.reps[j], FifoNet.AllBlocks(c, s));
      FifoNet.FireKeeps(j, s.reps[j], FifoNet.AllBlocks(c, s));
    }
  }

  /** The commands a run takes, in order. */
  function Dequeues(acts: seq<FifoNet.Action>): seq<Cmd> {
    if acts == [] then [] else (if acts[0].Dequeue? then [acts[0].cmd] else []) + Dequeues(acts[1..])
  }

  ghost predicate NetCut(c: FifoNet.Config, s: FifoNet.Net) {
    FifoNet.Inv(c, s) && NetCuts(c, s) == Cut(c.blkSize, s.dequeued)
  }

  ghost predicate CutAfter(c: FifoNet.Config, s: FifoNet.Net, t: FifoNet.Net, acts: seq<FifoNet.Action>) {
    NetCut(c, t) && t.dequeued == s.dequeued + Dequeues(acts)
  }

  lemma StepCut(c: FifoNet.Config, s: FifoNet.Net, a: FifoNet.Action)
    requires NetCut(c, s)
    ensures CutAfter(c, s, FifoNet.Step(c, s, a), [a])
  {
    FifoNet.StepKeeps(c, s, a);
    assert [a][1..] == [] && Dequeues([a]) == if a.Dequeue? then [a.cmd] else [];
    match a
    case Dequeue(cmd) => DequeueCuts(c, s, cmd); CutNext(c.blkSize, s.dequeued, cmd);
    case Deliver(l) => DeliverCuts(c, s, l);
    case Fire(j) => FireCuts(c, s, j);
  }

  lemma DequeuesSplit(acts: seq<FifoNet.Action>)
    requires acts != []
    ensures Dequeues(acts) == Dequeues(acts[..1]) + Dequeues(acts[1..])
  {
    assert acts[..1][1..] == [] && acts[..1][0] == acts[0];
  }

  lemma Associates<T>(a: seq<T>, b: seq<T>, c: seq<T>)
    ensures (a + b) + c == a + (b + c)
  {}

  lemma CutThen(c: FifoNet.Config, s: FifoNet.Net, t: FifoNet.Net, u: FifoNet.Net, acts: seq<FifoNet.Action>)
    requires acts != [] && CutAfter(c, s, t, acts[..1]) && CutAfter(c, t, u, acts[1..])
    ensures CutAfter(c, s, u, acts)
  {
    DequeuesSplit(acts);
    Associates(s.dequeued, Dequeues(acts[..1]), Dequeues(acts[1..]));
  }

  lemma {:induction false} PlayCut(c: FifoNet.Config, s: FifoNet.Net, acts: seq<FifoNet.Action>)
    requires NetCut(c, s)
    ensures CutAfter(c, s, FifoNet.Play(c, s, acts), acts)
    decreases |acts|
  {
    if acts == [] {
      assert s.dequeued + [] == s.dequeued;
    } else {
      var t := FifoNet.Step(c, s, acts[0]);
      StepCut(c, s, acts[0]);
      assert acts[..1] == [acts[0]];
      PlayCut(c, t, acts[1..]);
      CutThen(c, s, t, FifoNet.Play(c, t, acts[1..]), acts);
    }
  }

  lemma InitCut(c: FifoNet.Config)
    requires FifoNet.ConfigOk(c)
    ensures NetCut(c, FifoNet.Init(c)) && FifoNet.Init(c).dequeued == []
  {
    FifoNet.InitInv(c);
    assert Cut(c.blkSize, []) == Cuts([], []) && Batches([]) == [];
  }

  // ---- both together ----

  /** A run of the network in which the proposer's commands are those its handler has taken. */
  ghost predicate Fed(c: FifoNet.Config, acts: seq<FifoNet.Action>, p: Commands.Pool) {
    FifoNet.ConfigOk(c) && |p.queue| <= |p.issued| && Dequeues(acts) == Taken(p)
  }

  function Leader(c: FifoNet.Config): Commands.Config {
    Commands.Config(true, c.blkSize)
  }

  /** Whatever the interleaving, the blocks the network's proposer has broadcast carry exactly the handler's
      proposals, and the buffers are the same. */
  lemma SameProposals(c: FifoNet.Config, acts: seq<FifoNet.Action>, events: seq<Commands.Event>)
    requires var p := Commands.Run(Leader(c), Commands.EMPTY, events); Fed(c, acts, p)
    ensures var p, s := Commands.Run(Leader(c), Commands.EMPTY, events), FifoNet.Play(c, FifoNet.Init(c), acts);
      Batches(s.reps[c.proposer].sent) == p.proposals && s.buffer == p.buffer && s.dequeued == Taken(p)
  {
    EmptyCut(Leader(c));
    RunCut(Leader(c), Commands.EMPTY, events);
    InitCut(c);
    PlayCut(c, FifoNet.Init(c), acts);
    assert [] + Dequeues(acts) == Dequeues(acts);
  }

  /** From call to log: the commands any replica has decided are, in order, the first ones `exec_command` was
      called with at the proposer. */
  lemma DecidedInCallOrder(c: FifoNet.Config, acts: seq<FifoNet.Action>, events: seq<Commands.Event>, j: nat)
    requires var p := Commands.Run(Leader(c), Commands.EMPTY, events); Fed(c, acts, p)
    requires j < c.n
    ensures var p, s := Commands.Run(Leader(c), Commands.EMPTY, events), FifoNet.Play(c, FifoNet.Init(c), acts);
      FifoNet.Commands(s.reps[j].log) <= p.issued
  {
    SameProposals(c, acts, events);
    FifoNet.LogSafety(c, FifoNet.Play(c, FifoNet.Init(c), acts), j);
  }

  /** And every run of the handler has such a run of the network. */
  lemma Feedable(c: FifoNet.Config, events: seq<Commands.Event>) returns (acts: seq<FifoNet.Action>)
    requires FifoNet.ConfigOk(c)
    ensures Fed(c, acts, Commands.Run(Leader(c), Commands.EMPTY, events))
  {
    EmptyCut(Leader(c));
    RunCut(Leader(c), Commands.EMPTY, events);
    acts := AsActions(Taken(Commands.Run(Leader(c), Commands.EMPTY, events)));
  }

  lemma {:induction false} AsActions(cmds: seq<Cmd>) returns (acts: seq<FifoNet.Action>)
    ensures Dequeues(acts) == cmds
  {
    acts := [];
    if cmds != [] {
      var rest := AsActions(cmds[1..]);
      acts := [FifoNet.Dequeue(cmds[0])] + rest;
      assert acts[1..] == rest;
    }
  }
}

/** The path of a client command: queueing, batching by the proposer, and the one answer it gets. */
module Commands {
  import opened Basics
  import opened Blocks
  import FifoNet

  /** `tag` stands for the callback given to `exec_command`: calls are numbered. */
  datatype Request = Request(cmd: Cmd, tag: nat)

  datatype Reply = Reply(tag: nat, cmd: Cmd, decision: int)

  /** `queue` is `cmd_pending`, `waiting` is `decision_waiting`, `buffer` is `cmd_pending_buffer`;
      `replies` are the callbacks called so far, `proposals` the command lists given to `on_propose`,
      `issued` the commands of all calls of `exec_command`. */
  datatype Pool = Pool(queue: seq<Request>, waiting: map<Cmd, nat>, buffer: seq<Cmd>,
                       replies: seq<Reply>, proposals: seq<seq<Cmd>>, issued: seq<Cmd>)

  /** `leads`: the pacemaker names this replica as the proposer. */
  datatype Config = Config(leads: bool, blkSize: nat)

  const EMPTY: Pool := Pool([], map[], [], [], [], [])

  function Submit(p: Pool, cmd: Cmd): Pool {
    p.(queue := p.queue + [Request(cmd, |p.issued|)], issued := p.issued + [cmd])
  }

  /** A command whose earlier request is unanswered is answered with decision 0 at once. */
  function Admit(p: Pool): Pool
    requires p.queue != []
  {
    var e := p.queue[0];
    if e.cmd in p.waiting then p.(queue := p.queue[1..], replies := p.replies + [Reply(e.tag, e.cmd, 0)])
    else p.(queue := p.queue[1..], waiting := p.waiting[e.cmd := e.tag])
  }

  /** The proposer batches the command, a repeated one too. */
  function Batch(c: Config, p: Pool, cmd: Cmd): Pool {
    var q := p.(buffer := p.buffer + [cmd]);
    if |q.buffer| < c.blkSize then q
    else q.(buffer := q.buffer[c.blkSize..], proposals := q.proposals + [q.buffer[..c.blkSize]])
  }

  function Take(c: Config, p: Pool): Pool
    requires p.queue != []
  {
    if c.leads then Batch(c, Admit(p), p.queue[0].cmd) else Admit(p)
  }

  /** The queue handler: it stops after a proposal. */
  function Handle(c: Config, p: Pool): Pool
    decreases |p.queue|
  {
    if p.queue == [] then p
    else var q := Take(c, p); if |q.proposals| > |p.proposals| then q else Handle(c, q)
  }

  /** `do_decide` */
  function Decide(p: Pool, cmd: Cmd, decision: int): Pool {
    if cmd in p.waiting then
      p.(replies := p.replies + [Reply(p.waiting[cmd], cmd, decision)], waiting := p.waiting - {cmd})
    else p
  }

  /** `E2CBase`, the part that deals with commands. */
  class CommandPool {
    const id: nat
    const blkSize: nat
    var proposer: nat
    var queue: seq<Request>
    var waiting: map<Cmd, nat>
    var buffer: seq<Cmd>
    var replies: seq<Reply>
    var proposals: seq<seq<Cmd>>
    var issued: seq<Cmd>

    ghost function Abs(): Pool
      reads this
    {
      Pool(queue, waiting, buffer, replies, proposals, issued)
    }

    ghost function Conf(): Config
      reads this`proposer
    {
      Config(proposer == id, blkSize)
    }

    constructor (id: nat, blkSize: nat, proposer: nat)
      ensures Abs() == EMPTY && Conf() == Config(proposer == id, blkSize)
    {
      this.id, this.blkSize, this.proposer := id, blkSize, proposer;
      queue, waiting, buffer, replies, proposals, issued := [], map[], [], [], [], [];
    }

    method ExecCommand(cmd: Cmd)
      modifies this`queue, this`issued
      ensures Abs() == Submit(old(Abs()), cmd)
    {
      queue := queue + [Request(cmd, |issued|)];
      issued := issued + [cmd];
    }

    /** The inner loop: move the first `blkSize` commands out of the buffer. */
    method PopBatch() returns (cmds: seq<Cmd>)
      requires |buffer| >= blkSize
      modifies this`buffer
      ensures cmds == old(buffer)[..blkSize] && buffer == old(buffer)[blkSize..]
    {
      cmds := [];
      for i := 0 to blkSize
        invariant cmds == old(buffer)[..i] && buffer == old(buffer)[i..]
      {
        cmds := cmds + [buffer[0]];
        buffer := buffer[1..];
      }
    }

    /** The handler of `cmd_pending`; `again` asks to be called again. */
    method HandleQueue() returns (again: bool)
      modifies this`queue, this`waiting, this`buffer, this`replies, this`proposals
      ensures Abs() == Handle(old(Conf()), old(Abs()))
      ensures again <==> |proposals| > |old(proposals)|
    {
      while queue != []
        invariant proposals == old(proposals) && issued == old(issued)
        invariant Handle(Conf(), Abs()) == Handle(old(Conf()), old(Abs()))
        decreases |queue|
      {
        ghost var p := Abs();
        var e := queue[0];
        queue := queue[1..];
        if e.cmd in waiting {
          replies := replies + [Reply(e.tag, e.cmd, 0)];
        } else {
          waiting := waiting[e.cmd := e.tag];
        }
        assert Abs() == Admit(p);
        if proposer != id { continue; }
        buffer := buffer + [e.cmd];
        if |buffer| >= blkSize {
          var cmds := PopBatch();
          // the pacemaker's promise is already resolved, so the proposal is made here
          proposals := proposals + [cmds];
          assert Abs() == Take(Conf(), p);
          return true;
        }
        assert Abs() == Take(Conf(), p);
      }
      return false;
    }

    method DoDecide(cmd: Cmd, decision: int)
      modifies this`waiting, this`replies
      ensures Abs() == Decide(old(Abs()), cmd, decision)
      ensures waiting == old(waiting) - {cmd}
      ensures cmd in old(waiting) ==> replies == old(replies) + [Reply(old(waiting)[cmd], cmd, decision)]
    {
      if cmd in waiting {
        replies := replies + [Reply(waiting[cmd], cmd, decision)];
        waiting := waiting - {cmd};
      }
    }
  }

  // ---- runs ----

  datatype Event = Exec(cmd: Cmd) | Ready | Decided(cmd: Cmd, decision: int)

  function Step(c: Config, p: Pool, e: Event): Pool {
    match e
    case Exec(cmd) => Submit(p, cmd)
    case Ready => Handle(c, p)
    case Decided(cmd, decision) => Decide(p, cmd, decision)
  }

  function Run(c: Config, p: Pool, events: seq<Event>): Pool
    decreases |events|
  {
    if events == [] then p else Run(c, Step(c, p, events[0]), events[1..])
  }

  /** Where call `t` of `exec_command` is. */
  ghost predicate Queued(p: Pool, t: nat) {
    exists i :: 0 <= i < |p.queue| && p.queue[i].tag == t
  }

  function Awaited(waiting: map<Cmd, nat>): set<nat> {
    set cmd | cmd in waiting :: waiting[cmd]
  }

  function Answered(replies: seq<Reply>): seq<nat> {
    seq(|replies|, i requires 0 <= i < |replies| => replies[i].tag)
  }

  /** Calls leave the queue in order: those below `n` have been taken. */
  ghost predicate QueueOk(queue: seq<Request>, issued: seq<Cmd>, n: nat) {
    |issued| == n + |queue| && forall i | 0 <= i < |queue| :: queue[i] == Request(issued[n + i], n + i)
  }

  /** Those taken are awaited or have been answered, once. */
  ghost predicate AnswersOk(waiting: map<Cmd, nat>, replies: seq<Reply>, issued: seq<Cmd>, n: nat) {
    && n <= |issued|
    && (forall cmd | cmd in waiting :: waiting[cmd] < n && issued[waiting[cmd]] == cmd)
    && (forall r | r in replies :: r.tag < n && issued[r.tag] == r.cmd)
    && (forall t ::
          multiset(Answered(replies))[t] + (if t in Awaited(waiting) then 1 else 0) == if 0 <= t < n then 1 else 0)
  }

  lemma AnsweredMore(replies: seq<Reply>, r: Reply, t: int)
    ensures multiset(Answered(replies + [r]))[t] == multiset(Answered(replies))[t] + if t == r.tag then 1 else 0
  {
    assert Answered(replies + [r]) == Answered(replies) + [r.tag];
  }

  function Concat(parts: seq<seq<Cmd>>): seq<Cmd> {
    if parts == [] then [] else Concat(parts[..|parts| - 1]) + parts[|parts| - 1]
  }

  /** The proposer has proposed or buffered every command taken, in order, in full batches. */
  ghost predicate Flow(c: Config, proposals: seq<seq<Cmd>>, buffer: seq<Cmd>, taken: seq<Cmd>) {
    && (forall b | b in proposals :: |b| == c.blkSize)
    && (c.blkSize > 0 ==> |buffer| < c.blkSize)
    && Concat(proposals) + buffer == if c.leads then taken else []
  }

  ghost predicate Inv(c: Config, p: Pool, n: nat) {
    && QueueOk(p.queue, p.issued, n)
    && AnswersOk(p.waiting, p.replies, p.issued, n)
    && Flow(c, p.proposals, p.buffer, p.issued[..n])
  }

  lemma QueueNext(queue: seq<Request>, issued: seq<Cmd>, n: nat)
    requires QueueOk(queue, issued, n) && queue != []
    ensures queue[0] == Request(issued[n], n) && QueueOk(queue[1..], issued, n + 1)
    ensures issued[..n + 1] == issued[..n] + [issued[n]]
  {}

  lemma QueueMore(queue: seq<Request>, issued: seq<Cmd>, n: nat, cmd: Cmd)
    requires QueueOk(queue, issued, n)
    ensures QueueOk(queue + [Request(cmd, |issued|)], issued + [cmd], n) && (issued + [cmd])[..n] == issued[..n]
  {}

  lemma AnswersMore(waiting: map<Cmd, nat>, replies: seq<Reply>, issued: seq<Cmd>, n: nat, cmd: Cmd)
    requires AnswersOk(waiting, replies, issued, n)
    ensures AnswersOk(waiting, replies, issued + [cmd], n)
  {}

  lemma Refuse(waiting: map<Cmd, nat>, replies: seq<Reply>, issued: seq<Cmd>, n: nat)
    requires AnswersOk(waiting, replies, issued, n) && n < |issued|
    ensures AnswersOk(waiting, replies + [Reply(n, issued[n], 0)], issued, n + 1)
  {
    var more := replies + [Reply(n, issued[n], 0)];
    forall t
      ensures multiset(Answered(more))[t] + (if t in Awaited(waiting) then 1 else 0) == if 0 <= t < n + 1 then 1 else 0
    {
      AnsweredMore(replies, Reply(n, issued[n], 0), t);
    }
  }

  lemma Await(waiting: map<Cmd, nat>, replies: seq<Reply>, issued: seq<Cmd>, n: nat)
    requires AnswersOk(waiting, replies, issued, n) && n < |issued| && issued[n] !in waiting
    ensures AnswersOk(waiting[issued[n] := n], replies, issued, n + 1)
  {
    var more := waiting[issued[n] := n];
    forall t ensures t in Awaited(more) <==> t in Awaited(waiting) || t == n {
      if t == n { assert more[issued[n]] == t; }
      if t in Awaited(waiting) {
        var x :| x in waiting && waiting[x] == t;
        assert more[x] == t;
      }
    }
  }

  lemma Answer(waiting: map<Cmd, nat>, replies: seq<Reply>, issued: seq<Cmd>, n: nat, cmd: Cmd, decision: int)
    requires AnswersOk(waiting, replies, issued, n) && cmd in waiting
    ensures AnswersOk(waiting - {cmd}, replies + [Reply(waiting[cmd], cmd, decision)], issued, n)
  {
    var less, more := waiting - {cmd}, replies + [Reply(waiting[cmd], cmd, decision)];
    forall t ensures t in Awaited(waiting) <==> t in Awaited(less) || t == waiting[cmd] {
      if t in Awaited(waiting) {
        var x :| x in waiting && waiting[x] == t;
        assert x != cmd ==> x in less && less[x] == t;
      }
    }
    forall t
      ensures multiset(Answered(more))[t] + (if t in Awaited(less) then 1 else 0) == if 0 <= t < n then 1 else 0
    {
      AnsweredMore(replies, Reply(waiting[cmd], cmd, decision), t);
    }
  }

  lemma ConcatMore(parts: seq<seq<Cmd>>, b: seq<Cmd>)
    ensures Concat(parts + [b]) == Concat(parts) + b
  {
    assert (parts + [b])[..|parts|] == parts;
  }

  lemma BatchConcat(c: Config, p: Pool, cmd: Cmd)
    ensures var q := Batch(c, p, cmd);
      && Concat(q.proposals) + q.buffer == Concat(p.proposals) + p.buffer + [cmd]
      && (q.proposals == p.proposals ||
          (|q.proposals| == |p.proposals| + 1 && p.proposals <= q.proposals &&
           |q.proposals[|p.proposals|]| == c.blkSize))
      && (c.blkSize > 0 && |p.buffer| < c.blkSize ==> |q.buffer| < c.blkSize)
  {
    var all := p.buffer + [cmd];
    if |all| >= c.blkSize {
      ConcatMore(p.proposals, all[..c.blkSize]);
      assert all == all[..c.blkSize] + all[c.blkSize..];
    }
  }

  lemma BatchFlows(c: Config, p: Pool, cmd: Cmd, taken: seq<Cmd>)
    requires c.leads && Flow(c, p.proposals, p.buffer, taken)
    ensures Flow(c, Batch(c, p, cmd).proposals, Batch(c, p, cmd).buffer, taken + [cmd])
  {
    BatchConcat(c, p, cmd);
  }

  lemma AdmitKeeps(p: Pool, n: nat)
    requires QueueOk(p.queue, p.issued, n) && AnswersOk(p.waiting, p.replies, p.issued, n) && p.queue != []
    ensures AnswersOk(Admit(p).waiting, Admit(p).replies, p.issued, n + 1)
  {
    QueueNext(p.queue, p.issued, n);
    if p.queue[0].cmd in p.waiting {
      Refuse(p.waiting, p.replies, p.issued, n);
    } else {
      Await(p.waiting, p.replies, p.issued, n);
    }
  }

  lemma TakeKeeps(c: Config, p: Pool, n: nat)
    requires Inv(c, p, n) && p.queue != []
    ensures Inv(c, Take(c, p), n + 1) && |p.proposals| <= |Take(c, p).proposals| <= |p.proposals| + 1
    ensures p.proposals <= Take(c, p).proposals
  {
    AdmitKeeps(p, n);
    QueueNext(p.queue, p.issued, n);
    if c.leads {
      BatchFlows(c, Admit(p), p.queue[0].cmd, p.issued[..n]);
      BatchConcat(c, Admit(p), p.queue[0].cmd);
    }
  }

  /** At most one more block is proposed, and none only if the queue is empty. */
  ghost predicate OneAtMost(p: Pool, q: Pool) {
    && p.proposals <= q.proposals && |q.proposals| <= |p.proposals| + 1
    && (q.proposals == p.proposals ==> q.queue == [])
  }

  lemma {:induction false} HandleInv(c: Config, p: Pool, n: nat) returns (m: nat)
    requires Inv(c, p, n)
    ensures Inv(c, Handle(c, p), m)
    decreases |p.queue|
  {
    if p.queue == [] {
      m := n;
    } else {
      var q := Take(c, p);
      TakeKeeps(c, p, n);
      if |q.proposals| > |p.proposals| {
        m := n + 1;
        assert Handle(c, p) == q;
      } else {
        m := HandleInv(c, q, n + 1);
        assert Handle(c, p) == Handle(c, q);
      }
    }
  }

  /** One call of the handler proposes at most one block, and proposes none only if the queue is empty. */
  lemma HandleKeeps(c: Config, p: Pool, n: nat) returns (m: nat)
    requires Inv(c, p, n)
    ensures Inv(c, Handle(c, p), m) && OneAtMost(p, Handle(c, p))
  {
    HandleProposes(c, p);
    m := HandleInv(c, p, n);
  }

  lemma TakeProposes(c: Config, p: Pool)
    requires p.queue != []
    ensures var q := Take(c, p);
      q.proposals == p.proposals || (p.proposals <= q.proposals && |q.proposals| == |p.proposals| + 1)
  {
    BatchConcat(c, Admit(p), p.queue[0].cmd);
  }

  lemma {:induction false} HandleProposes(c: Config, p: Pool)
    ensures OneAtMost(p, Handle(c, p))
    decreases |p.queue|
  {
    if p.queue != [] {
      var q := Take(c, p);
      TakeProposes(c, p);
      if |q.proposals| == |p.proposals| { HandleProposes(c, q); }
    }
  }

  lemma StepKeeps(c: Config, p: Pool, n: nat, e: Event) returns (m: nat)
    requires Inv(c, p, n)
    ensures Inv(c, Step(c, p, e), m)
  {
    m := n;
    match e {
      case Exec(cmd) =>
        QueueMore(p.queue, p.issued, n, cmd);
        AnswersMore(p.waiting, p.replies, p.issued, n, cmd);
      case Ready =>
        m := HandleKeeps(c, p, n);
      case Decided(cmd, decision) =>
        if cmd in p.waiting { Answer(p.waiting, p.replies, p.issued, n, cmd, decision); }
    }
  }

  lemma {:induction false} RunKeeps(c: Config, p: Pool, n: nat, events: seq<Event>) returns (m: nat)
    requires Inv(c, p, n)
    ensures Inv(c, Run(c, p, events), m)
    decreases |events|
  {
    m := n;
    if events != [] {
      m := StepKeeps(c, p, n, events[0]);
      m := RunKeeps(c, Step(c, p, events[0]), m, events[1..]);
    }
  }

  lemma EmptyOk(c: Config)
    ensures Inv(c, EMPTY, 0)
  {
    assert Answered([]) == [];
  }

  /** In every run each call of `exec_command` is answered at most once, with its own command, and is
      otherwise still queued or awaiting a decision. */
  lemma AnsweredOnce(c: Config, events: seq<Event>, t: nat)
    ensures var p := Run(c, EMPTY, events);
      && multiset(Answered(p.replies))[t] + (if t in Awaited(p.waiting) then 1 else 0) + (if Queued(p, t) then 1 else 0)
         == (if t < |p.issued| then 1 else 0)
      && forall r | r in p.replies && r.tag == t :: t < |p.issued| && r.cmd == p.issued[t]
  {
    EmptyOk(c);
    var n := RunKeeps(c, EMPTY, 0, events);
    var p := Run(c, EMPTY, events);
    if n <= t < |p.issued| { assert p.queue[t - n].tag == t; }
  }

  // ---- what each call is answered with ----

  /** No decision on `cmd` strictly between these events. */
  ghost predicate NoneBetween(events: seq<Event>, cmd: Cmd, a: nat, b: nat) {
    forall e | a < e < b && e < |events| :: !(events[e].Decided? && events[e].cmd == cmd)
  }

  /** The first decision on `cmd` from event `e` on. */
  function FirstDecision(events: seq<Event>, cmd: Cmd, e: nat): Option<int>
    decreases |events| - e
  {
    if e >= |events| then None
    else if events[e].Decided? && events[e].cmd == cmd then Some(events[e].decision)
    else FirstDecision(events, cmd, e + 1)
  }

  /** An earlier call for the same command was taken, and no decision on it has come since, when call `t` is taken. */
  ghost predicate Refused(events: seq<Event>, issued: seq<Cmd>, when: seq<nat>, t: nat)
    requires t < |when| <= |issued|
  {
    exists u :: 0 <= u < t && issued[u] == issued[t] && NoneBetween(events, issued[t], when[u], when[t])
  }

  /** What call `t` is answered with: 0 if it is refused, else the first decision after it was taken. */
  ghost function Due(events: seq<Event>, issued: seq<Cmd>, when: seq<nat>, t: nat): Option<int>
    requires t < |when| <= |issued|
  {
    if Refused(events, issued, when, t) then Some(0) else FirstDecision(events, issued[t], when[t] + 1)
  }

  /** A call for `cmd` was taken and no decision has come since. */
  ghost predicate Busy(events: seq<Event>, issued: seq<Cmd>, when: seq<nat>, cmd: Cmd)
    requires |when| <= |issued|
  {
    exists u :: 0 <= u < |when| && issued[u] == cmd && NoneBetween(events, cmd, when[u], |events|)
  }

  ghost predicate ReplyDue(events: seq<Event>, issued: seq<Cmd>, when: seq<nat>, r: Reply)
    requires |when| <= |issued|
  {
    r.tag < |when| && r.cmd == issued[r.tag] && Due(events, issued, when, r.tag) == Some(r.decision)
  }

  ghost predicate AwaitDue(events: seq<Event>, issued: seq<Cmd>, when: seq<nat>, waiting: map<Cmd, nat>, cmd: Cmd)
    requires |when| <= |issued|
  {
    && (cmd in waiting <==> Busy(events, issued, when, cmd))
    && (cmd in waiting ==>
          waiting[cmd] < |when| && issued[waiting[cmd]] == cmd && Due(events, issued, when, waiting[cmd]) == None)
  }

  /** `when` is the event that took each call. */
  ghost predicate AllDue(events: seq<Event>, issued: seq<Cmd>, when: seq<nat>, waiting: map<Cmd, nat>,
      replies: seq<Reply>)
  {
    && |when| <= |issued| && (forall t | 0 <= t < |when| :: when[t] < |events|)
    && (forall r {:trigger ReplyDue(events, issued, when, r)} | r in replies :: ReplyDue(events, issued, when, r))
    && forall cmd {:trigger AwaitDue(events, issued, when, waiting, cmd)} ::
         AwaitDue(events, issued, when, waiting, cmd)
  }

  lemma {:induction false} FirstDecisionMore(events: seq<Event>, more: seq<Event>, cmd: Cmd, e: nat)
    requires |more| == |events| + 1 && more[..|events|] == events && e <= |events|
    ensures FirstDecision(more, cmd, e) ==
      if FirstDecision(events, cmd, e).Some? then FirstDecision(events, cmd, e)
      else if more[|events|].Decided? && more[|events|].cmd == cmd then Some(more[|events|].decision) else None
    decreases |events| - e
  {
    if e < |events| {
      assert more[e] == more[..|events|][e];
      FirstDecisionMore(events, more, cmd, e + 1);
    }
  }

  lemma RefusedMore(events: seq<Event>, more: seq<Event>, issued: seq<Cmd>, issued': seq<Cmd>, when: seq<nat>, t: nat)
    requires |more| == |events| + 1 && more[..|events|] == events && t < |when| <= |issued| && issued <= issued'
    requires when[t] < |events|
    ensures Refused(more, issued', when, t) <==> Refused(events, issued, when, t)
  {
    forall u | 0 <= u < t
      ensures NoneBetween(more, issued[t], when[u], when[t]) <==> NoneBetween(events, issued[t], when[u], when[t])
    {
      assert forall e | 0 <= e < |events| :: more[e] == more[..|events|][e];
    }
  }

  /** One more event leaves what is due to a call, but for a first decision. */
  lemma DueMore(events: seq<Event>, more: seq<Event>, issued: seq<Cmd>, issued': seq<Cmd>, when: seq<nat>, t: nat)
    requires |more| == |events| + 1 && more[..|events|] == events && t < |when| <= |issued| && issued <= issued'
    requires when[t] < |events|
    ensures var due, last := Due(events, issued, when, t), more[|events|];
      Due(more, issued', when, t) ==
        if due.None? && last.Decided? && last.cmd == issued[t] then Some(last.decision) else due
  {
    RefusedMore(events, more, issued, issued', when, t);
    FirstDecisionMore(events, more, issued[t], when[t] + 1);
  }

  lemma BusyMore(events: seq<Event>, more: seq<Event>, issued: seq<Cmd>, issued': seq<Cmd>, when: seq<nat>, cmd: Cmd)
    requires |more| == |events| + 1 && more[..|events|] == events && |when| <= |issued| && issued <= issued'
    requires forall t | 0 <= t < |when| :: when[t] < |events|
    ensures var last := more[|events|];
      Busy(more, issued', when, cmd) <==> Busy(events, issued, when, cmd) && !(last.Decided? && last.cmd == cmd)
  {
    assert forall e | 0 <= e < |events| :: more[e] == more[..|events|][e];
    if Busy(events, issued, when, cmd) && !(more[|events|].Decided? && more[|events|].cmd == cmd) {
      var u :| 0 <= u < |when| && issued[u] == cmd && NoneBetween(events, cmd, when[u], |events|);
      assert NoneBetween(more, cmd, when[u], |more|);
    }
    if Busy(more, issued', when, cmd) {
      var u :| 0 <= u < |when| && issued'[u] == cmd && NoneBetween(more, cmd, when[u], |more|);
      assert NoneBetween(events, cmd, when[u], |events|) && when[u] < |events| < |more|;
    }
  }

  /** A new call, or the handler about to run, changes nothing yet. */
  lemma EventDue(events: seq<Event>, more: seq<Event>, issued: seq<Cmd>, issued': seq<Cmd>, when: seq<nat>,
      waiting: map<Cmd, nat>, replies: seq<Reply>)
    requires AllDue(events, issued, when, waiting, replies) && issued <= issued'
    requires |more| == |events| + 1 && more[..|events|] == events && !more[|events|].Decided?
    ensures AllDue(more, issued', when, waiting, replies)
  {
    forall r | r in replies ensures ReplyDue(more, issued', when, r) {
      assert ReplyDue(events, issued, when, r);
      DueMore(events, more, issued, issued', when, r.tag);
    }
    forall cmd ensures AwaitDue(more, issued', when, waiting, cmd) {
      assert AwaitDue(events, issued, when, waiting, cmd);
      BusyMore(events, more, issued, issued', when, cmd);
      if cmd in waiting { DueMore(events, more, issued, issued', when, waiting[cmd]); }
    }
  }

  lemma DecisionDue(events: seq<Event>, more: seq<Event>, issued: seq<Cmd>, when: seq<nat>, p: Pool)
    requires AllDue(events, issued, when, p.waiting, p.replies)
    requires |more| == |events| + 1 && more[..|events|] == events && more[|events|].Decided?
    ensures var q := Decide(p, more[|events|].cmd, more[|events|].decision);
      AllDue(more, issued, when, q.waiting, q.replies)
  {
    var x, q := more[|events|].cmd, Decide(p, more[|events|].cmd, more[|events|].decision);
    assert AwaitDue(events, issued, when, p.waiting, x);
    forall r | r in q.replies ensures ReplyDue(more, issued, when, r) {
      if r in p.replies { assert ReplyDue(events, issued, when, r); }
      DueMore(events, more, issued, issued, when, r.tag);
    }
    forall cmd ensures AwaitDue(more, issued, when, q.waiting, cmd) {
      assert AwaitDue(events, issued, when, p.waiting, cmd);
      BusyMore(events, more, issued, issued, when, cmd);
      if cmd in q.waiting { DueMore(events, more, issued, issued, when, p.waiting[cmd]); }
    }
  }

  /** The call taken by the last event does not bear on what earlier ones are due. */
  lemma EarlierDue(events: seq<Event>, issued: seq<Cmd>, when: seq<nat>, e: nat, t: nat)
    requires t < |when| < |issued|
    ensures Due(events, issued, when + [e], t) == Due(events, issued, when, t)
  {
    var w := when + [e];
    assert forall u | 0 <= u <= t :: w[u] == when[u];
    if Refused(events, issued, w, t) {
      var u :| 0 <= u < t && issued[u] == issued[t] && NoneBetween(events, issued[t], w[u], w[t]);
      assert NoneBetween(events, issued[t], when[u], when[t]);
    }
    if Refused(events, issued, when, t) {
      var u :| 0 <= u < t && issued[u] == issued[t] && NoneBetween(events, issued[t], when[u], when[t]);
      assert NoneBetween(events, issued[t], w[u], w[t]);
    }
  }

  lemma TakenBusy(events: seq<Event>, issued: seq<Cmd>, when: seq<nat>, cmd: Cmd)
    requires events != [] && !events[|events| - 1].Decided? && |when| < |issued|
    requires forall t | 0 <= t < |when| :: when[t] < |events|
    ensures var e, n := |events| - 1, |when|; var w := when + [e];
      && (Busy(events, issued, w, cmd) <==> Busy(events, issued, when, cmd) || cmd == issued[n])
      && (Refused(events, issued, w, n) <==> Busy(events, issued, when, issued[n]))
  {
    var e, n := |events| - 1, |when|;
    var w := when + [e];
    assert forall u | 0 <= u < n :: w[u] == when[u];
    forall u, x | 0 <= u < n
      ensures NoneBetween(events, x, when[u], e) <==> NoneBetween(events, x, when[u], |events|)
    {}
    if Busy(events, issued, when, cmd) {
      var u :| 0 <= u < n && issued[u] == cmd && NoneBetween(events, cmd, when[u], |events|);
      assert NoneBetween(events, cmd, w[u], |events|);
    }
    if cmd == issued[n] { assert NoneBetween(events, cmd, w[n], |events|); }
    if Busy(events, issued, w, cmd) && cmd != issued[n] {
      var u :| 0 <= u < |w| && issued[u] == cmd && NoneBetween(events, cmd, w[u], |events|);
      assert NoneBetween(events, cmd, when[u], |events|);
    }
    if Busy(events, issued, when, issued[n]) {
      var u :| 0 <= u < n && issued[u] == issued[n] && NoneBetween(events, issued[n], when[u], |events|);
      assert NoneBetween(events, issued[n], w[u], w[n]);
    }
    if Refused(events, issued, w, n) {
      var u :| 0 <= u < n && issued[u] == issued[n] && NoneBetween(events, issued[n], w[u], w[n]);
      assert NoneBetween(events, issued[n], when[u], |events|);
    }
  }

  /** The handler takes the next call. */
  lemma AdmitDue(events: seq<Event>, when: seq<nat>, p: Pool)
    requires AllDue(events, p.issued, when, p.waiting, p.replies) && QueueOk(p.queue, p.issued, |when|) && p.queue != []
    requires events != [] && !events[|events| - 1].Decided?
    ensures var q := Admit(p); AllDue(events, q.issued, when + [|events| - 1], q.waiting, q.replies)
  {
    var n, e, q := |when|, |events| - 1, Admit(p);
    var x, w := p.issued[n], when + [e];
    QueueNext(p.queue, p.issued, n);
    TakenBusy(events, p.issued, when, x);
    assert AwaitDue(events, p.issued, when, p.waiting, x);
    assert FirstDecision(events, x, e + 1) == None;
    forall r | r in q.replies ensures ReplyDue(events, q.issued, w, r) {
      if r in p.replies {
        assert ReplyDue(events, p.issued, when, r);
        EarlierDue(events, p.issued, when, e, r.tag);
      }
    }
    forall cmd ensures AwaitDue(events, q.issued, w, q.waiting, cmd) {
      assert AwaitDue(events, p.issued, when, p.waiting, cmd);
      TakenBusy(events, p.issued, when, cmd);
      if cmd in p.waiting { EarlierDue(events, p.issued, when, e, p.waiting[cmd]); }
    }
  }

  lemma TakeDue(c: Config, events: seq<Event>, when: seq<nat>, p: Pool)
    requires AllDue(events, p.issued, when, p.waiting, p.replies) && QueueOk(p.queue, p.issued, |when|) && p.queue != []
    requires events != [] && !events[|events| - 1].Decided?
    ensures var q := Take(c, p);
      && AllDue(events, q.issued, when + [|events| - 1], q.waiting, q.replies)
      && q.queue == p.queue[1..] && q.issued == p.issued
  {
    AdmitDue(events, when, p);
  }

  /** All calls the handler takes are taken by this event. */
  lemma {:induction false} HandleDue(c: Config, events: seq<Event>, when: seq<nat>, p: Pool) returns (w: seq<nat>)
    requires AllDue(events, p.issued, when, p.waiting, p.replies) && QueueOk(p.queue, p.issued, |when|)
    requires events != [] && !events[|events| - 1].Decided?
    ensures var q := Handle(c, p);
      && AllDue(events, q.issued, w, q.waiting, q.replies) && QueueOk(q.queue, q.issued, |w|) && q.issued == p.issued
      && when <= w && forall t | |when| <= t < |w| :: w[t] == |events| - 1
    decreases |p.queue|
  {
    w := when;
    if p.queue != [] {
      var q := Take(c, p);
      TakeDue(c, events, when, p);
      QueueNext(p.queue, p.issued, |when|);
      w := when + [|events| - 1];
      if |q.proposals| <= |p.proposals| { w := HandleDue(c, events, w, q); }
    }
  }

  lemma {:induction false} RunSnoc(c: Config, p: Pool, events: seq<Event>, m: nat)
    requires |events| == m + 1
    ensures Run(c, p, events) == Step(c, Run(c, p, events[..m]), events[m])
    decreases |events|
  {
    if m > 0 {
      RunSnoc(c, Step(c, p, events[0]), events[1..], m - 1);
      assert events[1..][..m - 1] == events[..m][1..];
    } else {
      assert events[1..] == [] && events[..0] == [];
    }
  }

  /** How many calls have left the queue after the first `e` events. */
  function TakenBy(c: Config, events: seq<Event>, e: nat): int
    requires e <= |events|
  {
    var p := Run(c, EMPTY, events[..e]); |p.issued| - |p.queue|
  }

  /** `when` is, for each call that has left the queue, the event in which it did. */
  ghost predicate TakenWhen(c: Config, events: seq<Event>, when: seq<nat>) {
    && |when| == TakenBy(c, events, |events|)
    && forall t | 0 <= t < |when| ::
         when[t] < |events| && TakenBy(c, events, when[t]) <= t < TakenBy(c, events, when[t] + 1)
  }

  lemma TakenMore(c: Config, events: seq<Event>, m: nat, when: seq<nat>, w: seq<nat>)
    requires |events| == m + 1 && TakenWhen(c, events[..m], when) && when <= w && |w| == TakenBy(c, events, m + 1)
    requires forall t | |when| <= t < |w| :: w[t] == m
    ensures TakenWhen(c, events, w)
  {
    assert forall e | 0 <= e <= m :: events[..m][..e] == events[..e];
    assert TakenBy(c, events, m) == |when|;
    forall t | 0 <= t < |w| ensures w[t] < |events| && TakenBy(c, events, w[t]) <= t < TakenBy(c, events, w[t] + 1) {
      if t < |when| {
        assert w[t] == when[t] && TakenBy(c, events[..m], when[t]) == TakenBy(c, events, when[t]);
        assert TakenBy(c, events[..m], when[t] + 1) == TakenBy(c, events, when[t] + 1);
      }
    }
  }

  lemma {:induction false} RunDue(c: Config, events: seq<Event>) returns (when: seq<nat>)
    ensures var p := Run(c, EMPTY, events);
      && AllDue(events, p.issued, when, p.waiting, p.replies) && QueueOk(p.queue, p.issued, |when|)
      && TakenWhen(c, events, when)
    decreases |events|
  {
    if events == [] {
      when := [];
      assert events[..0] == [];
    } else {
      var m := |events| - 1;
      var before := RunDue(c, events[..m]);
      var p := Run(c, EMPTY, events[..m]);
      RunSnoc(c, EMPTY, events, m);
      when := StepDue(c, events, m, before, p);
      assert events[..|events|] == events;
      TakenMore(c, events, m, before, when);
    }
  }

  lemma StepDue(c: Config, events: seq<Event>, m: nat, when: seq<nat>, p: Pool) returns (w: seq<nat>)
    requires |events| == m + 1 && AllDue(events[..m], p.issued, when, p.waiting, p.replies)
    requires QueueOk(p.queue, p.issued, |when|)
    ensures var q := Step(c, p, events[m]);
      && AllDue(events, q.issued, w, q.waiting, q.replies) && QueueOk(q.queue, q.issued, |w|)
      && when <= w && forall t | |when| <= t < |w| :: w[t] == m
  {
    w := when;
    match events[m] {
      case Exec(cmd) =>
        QueueMore(p.queue, p.issued, |when|, cmd);
        EventDue(events[..m], events, p.issued, p.issued + [cmd], when, p.waiting, p.replies);
      case Ready =>
        EventDue(events[..m], events, p.issued, p.issued, when, p.waiting, p.replies);
        w := HandleDue(c, events, when, p);
      case Decided(_, _) =>
        DecisionDue(events[..m], events, p.issued, when, p);
    }
  }

  /** Every call that has left the queue is answered with what is due to it, once: with 0 if an earlier call for its
      command was taken and no decision on that command came in between, else with the first decision on its command
      after it was taken. It waits, and is not answered, as long as there is none. */
  lemma AnsweredWithDue(c: Config, events: seq<Event>) returns (when: seq<nat>)
    ensures TakenWhen(c, events, when)
    ensures var p := Run(c, EMPTY, events);
      && |when| <= |p.issued|
      && (forall r | r in p.replies ::
            r.tag < |when| && r.cmd == p.issued[r.tag] && Due(events, p.issued, when, r.tag) == Some(r.decision))
      && forall t | 0 <= t < |when| ::
           multiset(Answered(p.replies))[t] == (if Due(events, p.issued, when, t).Some? then 1 else 0)
           && (Due(events, p.issued, when, t).None? <==> p.issued[t] in p.waiting && p.waiting[p.issued[t]] == t)
  {
    when := RunDue(c, events);
    var p := Run(c, EMPTY, events);
    forall r | r in p.replies
      ensures r.tag < |when| && r.cmd == p.issued[r.tag] && Due(events, p.issued, when, r.tag) == Some(r.decision)
    {
      assert ReplyDue(events, p.issued, when, r);
    }
    forall t | 0 <= t < |when|
      ensures multiset(Answered(p.replies))[t] == (if Due(events, p.issued, when, t).Some? then 1 else 0)
      ensures Due(events, p.issued, when, t).None? <==> p.issued[t] in p.waiting && p.waiting[p.issued[t]] == t
    {
      OnceDue(c, events, when, t);
    }
  }

  lemma OnceDue(c: Config, events: seq<Event>, when: seq<nat>, t: nat)
    requires var p := Run(c, EMPTY, events);
      AllDue(events, p.issued, when, p.waiting, p.replies) && QueueOk(p.queue, p.issued, |when|)
    requires t < |when|
    ensures var p := Run(c, EMPTY, events);
      && multiset(Answered(p.replies))[t] == (if Due(events, p.issued, when, t).Some? then 1 else 0)
      && (Due(events, p.issued, when, t).None? <==> p.issued[t] in p.waiting && p.waiting[p.issued[t]] == t)
  {
    var p := Run(c, EMPTY, events);
    EmptyOk(c);
    var n := RunKeeps(c, EMPTY, 0, events);
    assert n == |when|;
    if t in Awaited(p.waiting) {
      var cmd :| cmd in p.waiting && p.waiting[cmd] == t;
      assert AwaitDue(events, p.issued, when, p.waiting, cmd);
    } else {
      assert t in Answered(p.replies);
      var i :| 0 <= i < |p.replies| && p.replies[i].tag == t;
      assert ReplyDue(events, p.issued, when, p.replies[i]);
    }
  }

  /** A decision answers the call that waits for its command, and it alone, with itself; nothing waits for that command
      afterwards, and nothing else changes. */
  lemma DecisionAnswers(c: Config, events: seq<Event>, cmd: Cmd, decision: int)
    ensures var p, q := Run(c, EMPTY, events), Run(c, EMPTY, events + [Decided(cmd, decision)]);
      && q.waiting == p.waiting - {cmd}
      && q.replies == (if cmd in p.waiting then p.replies + [Reply(p.waiting[cmd], cmd, decision)] else p.replies)
      && q.queue == p.queue && q.buffer == p.buffer && q.proposals == p.proposals && q.issued == p.issued
  {
    var more := events + [Decided(cmd, decision)];
    RunSnoc(c, EMPTY, more, |events|);
    assert more[..|events|] == events;
    var p := Run(c, EMPTY, events);
    if cmd !in p.waiting { assert p.waiting - {cmd} == p.waiting; }
  }

  /** In every run the proposer's blocks are the commands in the order of the calls, cut into batches of
      `blk_size`; what is left over is less than one batch. Any other replica proposes nothing. */
  lemma BatchedInOrder(c: Config, events: seq<Event>)
    ensures var p := Run(c, EMPTY, events);
      && Concat(p.proposals) + p.buffer <= p.issued
      && (c.leads ==> |Concat(p.proposals) + p.buffer| + |p.queue| == |p.issued|)
      && (!c.leads ==> Concat(p.proposals) == [] && p.buffer == [])
      && (forall b | b in p.proposals :: |b| == c.blkSize)
      && (c.blkSize > 0 ==> |p.buffer| < c.blkSize)
  {
    EmptyOk(c);
    var n := RunKeeps(c, EMPTY, 0, events);
  }

  /** The network's proposer broadcasts a block with exactly the commands of a full batch. */
  lemma ProposesBatch(nc: FifoNet.Config, s: FifoNet.Net, cmd: Cmd)
    requires FifoNet.Inv(nc, s)
    ensures var s', all := FifoNet.TakeCommand(nc, s, cmd), s.buffer + [cmd];
      && |s'.reps| == |s.reps| && s'.dequeued == s.dequeued + [cmd]
      && var sent, sent' := s.reps[nc.proposer].sent, s'.reps[nc.proposer].sent;
         if |all| < nc.blkSize then sent' == sent && s'.buffer == all
         else s'.buffer == all[nc.blkSize..] && exists b :: sent' == sent + [b] && Cmds(b) == all[..nc.blkSize]
  {
    var all := s.buffer + [cmd];
    var s1 := s.(buffer := all, dequeued := s.dequeued + [cmd]);
    assert FifoNet.AllBlocks(nc, s1) == FifoNet.AllBlocks(nc, s);
    if |all| >= nc.blkSize {
      assert all == all[..nc.blkSize] + all[nc.blkSize..];
      FifoNet.ProposeKeeps(nc, s1, all[..nc.blkSize], all[nc.blkSize..]);
      var r := s.reps[nc.proposer];
      var b := NewBlock(nc.proposer, ParentsFrom(r.chain, Depth(r.mark)), all[..nc.blkSize], []);
      assert Propose(r, b).sent == r.sent + [b] && Cmds(b) == all[..nc.blkSize];
    }
  }
}

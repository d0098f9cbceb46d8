/** The verification worker pool: tasks are neither lost nor done twice, however the threads interleave. */
module VeriPool {
  import opened Basics

  /** What there is to verify; `verify` is an oracle on it. */
  type Job = nat

  datatype Settled = Settled(tag: nat, result: bool)

  /** `input` and `output` are the queues of task pointers, `hands` what each worker is working on,
      `settling` the task whose promise is being resolved, `result` the field of each task, and `pms` maps
      a pointer to its promise, here the number of the call of `verify` that made it. `jobs` are the jobs
      of all calls and `settled` the promises resolved so far. */
  datatype Pool = Pool(input: seq<nat>, hands: seq<Option<nat>>, output: seq<nat>, settling: Option<nat>,
                       pms: map<nat, nat>, result: map<nat, bool>, jobs: seq<Job>, settled: seq<Settled>)

  function Init(nworker: nat): Pool {
    Pool([], seq(nworker, _ => None), [], None, map[], map[], [], [])
  }

  function Drop(s: seq<nat>, i: nat): seq<nat>
    requires i < |s|
  {
    s[..i] + s[i + 1..]
  }

  datatype Event =
    | Submit(ptr: nat, job: Job)
    | Grab(worker: nat, i: nat)
    | Finish(worker: nat)
    | Resolve(i: nat)
    | Erase

  /** A new task has an address that no live task has. A queue may hand out any of its entries. Callbacks
      run between `Resolve` and `Erase` and may submit more. */
  function Step(verify: Job -> bool, p: Pool, e: Event): Pool {
    match e
    case Submit(ptr, job) =>
      if ptr in p.pms then p
      else p.(input := p.input + [ptr], pms := p.pms[ptr := |p.jobs|], jobs := p.jobs + [job])
    case Grab(w, i) =>
      if w < |p.hands| && p.hands[w] == None && i < |p.input| then
        p.(input := Drop(p.input, i), hands := p.hands[w := Some(p.input[i])])
      else p
    case Finish(w) =>
      if w < |p.hands| && p.hands[w].Some? && p.hands[w].value in p.pms && p.pms[p.hands[w].value] < |p.jobs| then
        var ptr := p.hands[w].value;
        p.(hands := p.hands[w := None], output := p.output + [ptr],
           result := p.result[ptr := verify(p.jobs[p.pms[ptr]])])
      else p
    case Resolve(i) =>
      if p.settling == None && i < |p.output| && p.output[i] in p.pms && p.output[i] in p.result then
        var ptr := p.output[i];
        p.(output := Drop(p.output, i), settling := Some(ptr),
           settled := p.settled + [Settled(p.pms[ptr], p.result[ptr])])
      else p
    case Erase =>
      if p.settling.Some? then p.(pms := p.pms - {p.settling.value}, settling := None) else p
  }

  function Run(verify: Job -> bool, p: Pool, events: seq<Event>): Pool
    decreases |events|
  {
    if events == [] then p else Run(verify, Step(verify, p, events[0]), events[1..])
  }

  // ---- the invariant ----

  function Places(input: seq<nat>, hands: seq<Option<nat>>, output: seq<nat>, settling: Option<nat>, ptr: nat): nat {
    multiset(input)[ptr] + multiset(hands)[Some(ptr)] + multiset(output)[ptr] + if settling == Some(ptr) then 1 else 0
  }

  /** A live task is in one queue, or one worker's hands, or being settled; any other in none. */
  ghost predicate PlaceOk(input: seq<nat>, hands: seq<Option<nat>>, output: seq<nat>, settling: Option<nat>,
      pms: map<nat, nat>, ptr: nat)
  {
    Places(input, hands, output, settling, ptr) == if ptr in pms then 1 else 0
  }

  ghost predicate PlacesOk(input: seq<nat>, hands: seq<Option<nat>>, output: seq<nat>, settling: Option<nat>,
      pms: map<nat, nat>)
  {
    forall ptr {:trigger PlaceOk(input, hands, output, settling, pms, ptr)} ::
      PlaceOk(input, hands, output, settling, pms, ptr)
  }

  /** A task that has left its worker carries its own answer. */
  ghost predicate ResultsOk(verify: Job -> bool, output: seq<nat>, pms: map<nat, nat>, result: map<nat, bool>,
      jobs: seq<Job>)
  {
    forall ptr | ptr in output && ptr in pms ::
      ptr in result && pms[ptr] < |jobs| && result[ptr] == verify(jobs[pms[ptr]])
  }

  /** Call `t` has been answered. */
  function Answers(settled: seq<Settled>, t: nat): nat {
    if settled == [] then 0 else Answers(settled[..|settled| - 1], t) + if settled[|settled| - 1].tag == t then 1 else 0
  }

  /** Some task not being settled belongs to call `t`. */
  ghost predicate Open(pms: map<nat, nat>, settling: Option<nat>, t: nat) {
    exists ptr :: ptr in pms && settling != Some(ptr) && pms[ptr] == t
  }

  /** Every call has been answered once or is open, and the answers are right. */
  ghost predicate CallOk(pms: map<nat, nat>, settling: Option<nat>, settled: seq<Settled>, n: nat, t: nat) {
    Answers(settled, t) + (if Open(pms, settling, t) then 1 else 0) == if t < n then 1 else 0
  }

  ghost predicate CallsOk(verify: Job -> bool, pms: map<nat, nat>, settling: Option<nat>, settled: seq<Settled>,
      jobs: seq<Job>)
  {
    && (forall p, q | p in pms && q in pms && pms[p] == pms[q] :: p == q)
    && (forall ptr | ptr in pms :: pms[ptr] < |jobs|)
    && (forall x | x in settled :: x.tag < |jobs| && x.result == verify(jobs[x.tag]))
    && (forall t {:trigger CallOk(pms, settling, settled, |jobs|, t)} :: CallOk(pms, settling, settled, |jobs|, t))
  }

  ghost predicate Inv(verify: Job -> bool, p: Pool) {
    && PlacesOk(p.input, p.hands, p.output, p.settling, p.pms)
    && ResultsOk(verify, p.output, p.pms, p.result, p.jobs)
    && CallsOk(verify, p.pms, p.settling, p.settled, p.jobs)
    && (p.settling.Some? ==> p.settling.value in p.pms)
  }

  lemma DropCount(s: seq<nat>, i: nat, x: nat)
    requires i < |s|
    ensures multiset(s)[x] == multiset(Drop(s, i))[x] + if s[i] == x then 1 else 0
  {
    assert s == s[..i] + [s[i]] + s[i + 1..];
  }

  lemma AddCount(s: seq<nat>, y: nat, x: nat)
    ensures multiset(s + [y])[x] == multiset(s)[x] + if y == x then 1 else 0
  {}

  lemma HandCount(hands: seq<Option<nat>>, w: nat, v: Option<nat>, x: Option<nat>)
    requires w < |hands|
    ensures multiset(hands[w := v])[x] ==
      multiset(hands)[x] - (if hands[w] == x then 1 else 0) + if v == x then 1 else 0
    ensures hands[w] == x ==> multiset(hands)[x] > 0
  {
    assert hands == hands[..w] + [hands[w]] + hands[w + 1..];
    assert hands[w := v] == hands[..w] + [v] + hands[w + 1..];
  }

  lemma AnswersMore(settled: seq<Settled>, x: Settled, t: nat)
    ensures Answers(settled + [x], t) == Answers(settled, t) + if x.tag == t then 1 else 0
  {
    assert (settled + [x])[..|settled|] == settled;
  }

  lemma SubmitKeeps(verify: Job -> bool, p: Pool, ptr: nat, job: Job)
    requires Inv(verify, p) && ptr !in p.pms
    ensures Inv(verify, Step(verify, p, Submit(ptr, job)))
  {
    var q, n := Step(verify, p, Submit(ptr, job)), |p.jobs|;
    forall x: nat ensures PlaceOk(q.input, q.hands, q.output, q.settling, q.pms, x) {
      assert PlaceOk(p.input, p.hands, p.output, p.settling, p.pms, x);
      AddCount(p.input, ptr, x);
    }
    assert PlaceOk(p.input, p.hands, p.output, p.settling, p.pms, ptr);
    forall t: nat ensures CallOk(q.pms, q.settling, q.settled, |q.jobs|, t) {
      assert CallOk(p.pms, p.settling, p.settled, n, t);
      OpenMore(p.pms, p.settling, ptr, n, t);
    }
  }

  lemma OpenMore(pms: map<nat, nat>, settling: Option<nat>, ptr: nat, n: nat, t: nat)
    requires ptr !in pms && settling != Some(ptr)
    ensures Open(pms[ptr := n], settling, t) <==> Open(pms, settling, t) || t == n
  {
    var more := pms[ptr := n];
    if Open(pms, settling, t) {
      var x :| x in pms && settling != Some(x) && pms[x] == t;
      assert x in more && more[x] == t;
    }
    if t == n { assert ptr in more && more[ptr] == t; }
  }

  lemma GrabKeeps(verify: Job -> bool, p: Pool, w: nat, i: nat)
    requires Inv(verify, p) && w < |p.hands| && p.hands[w] == None && i < |p.input|
    ensures Inv(verify, Step(verify, p, Grab(w, i)))
  {
    var q := Step(verify, p, Grab(w, i));
    forall x: nat ensures PlaceOk(q.input, q.hands, q.output, q.settling, q.pms, x) {
      assert PlaceOk(p.input, p.hands, p.output, p.settling, p.pms, x);
      DropCount(p.input, i, x);
      HandCount(p.hands, w, Some(p.input[i]), Some(x));
    }
  }

  /** What a worker holds is live. */
  lemma HandLive(p: Pool, w: nat)
    requires PlacesOk(p.input, p.hands, p.output, p.settling, p.pms) && w < |p.hands| && p.hands[w].Some?
    ensures p.hands[w].value in p.pms && p.hands[w].value !in p.output
  {
    var ptr := p.hands[w].value;
    assert PlaceOk(p.input, p.hands, p.output, p.settling, p.pms, ptr);
    assert p.hands[w] in multiset(p.hands);
  }

  lemma FinishResults(verify: Job -> bool, p: Pool, ptr: nat)
    requires ResultsOk(verify, p.output, p.pms, p.result, p.jobs) && ptr in p.pms && p.pms[ptr] < |p.jobs|
    ensures ResultsOk(verify, p.output + [ptr], p.pms, p.result[ptr := verify(p.jobs[p.pms[ptr]])], p.jobs)
  {}

  lemma FinishKeeps(verify: Job -> bool, p: Pool, w: nat)
    requires Inv(verify, p) && w < |p.hands| && p.hands[w].Some?
    ensures Inv(verify, Step(verify, p, Finish(w)))
  {
    HandLive(p, w);
    var q, ptr := Step(verify, p, Finish(w)), p.hands[w].value;
    FinishResults(verify, p, ptr);
    forall x: nat ensures PlaceOk(q.input, q.hands, q.output, q.settling, q.pms, x) {
      assert PlaceOk(p.input, p.hands, p.output, p.settling, p.pms, x);
      AddCount(p.output, ptr, x);
      HandCount(p.hands, w, None, Some(x));
    }
  }

  /** What is in the output queue is live. */
  lemma OutputLive(verify: Job -> bool, p: Pool, i: nat)
    requires Inv(verify, p) && i < |p.output|
    ensures p.output[i] in p.pms && p.output[i] in p.result && p.pms[p.output[i]] < |p.jobs|
    ensures p.result[p.output[i]] == verify(p.jobs[p.pms[p.output[i]]]) && p.settling != Some(p.output[i])
  {
    var ptr := p.output[i];
    assert PlaceOk(p.input, p.hands, p.output, p.settling, p.pms, ptr);
    assert ptr in multiset(p.output);
  }

  lemma ResolveKeeps(verify: Job -> bool, p: Pool, i: nat)
    requires Inv(verify, p) && p.settling == None && i < |p.output|
    ensures Inv(verify, Step(verify, p, Resolve(i)))
  {
    OutputLive(verify, p, i);
    var q, ptr := Step(verify, p, Resolve(i)), p.output[i];
    var done := Settled(p.pms[ptr], p.result[ptr]);
    forall x: nat ensures PlaceOk(q.input, q.hands, q.output, q.settling, q.pms, x) {
      assert PlaceOk(p.input, p.hands, p.output, p.settling, p.pms, x);
      DropCount(p.output, i, x);
    }
    forall t: nat ensures CallOk(q.pms, q.settling, q.settled, |p.jobs|, t) {
      assert CallOk(p.pms, p.settling, p.settled, |p.jobs|, t);
      AnswersMore(p.settled, done, t);
      Closes(p.pms, ptr, t);
    }
    assert forall x | x in q.output :: x in p.output;
  }

  lemma Closes(pms: map<nat, nat>, ptr: nat, t: nat)
    requires ptr in pms && forall p, q | p in pms && q in pms && pms[p] == pms[q] :: p == q
    ensures Open(pms, None, t) <==> Open(pms, Some(ptr), t) || t == pms[ptr]
    ensures !Open(pms, Some(ptr), pms[ptr])
  {
    if Open(pms, Some(ptr), t) {
      var x :| x in pms && Some(ptr) != Some(x) && pms[x] == t;
      assert x in pms && None != Some(x);
    }
    if t == pms[ptr] { assert ptr in pms && None != Some(ptr) && pms[ptr] == t; }
  }

  /** Both steps of a round of the result loop. */
  lemma RoundKeeps(verify: Job -> bool, p: Pool)
    requires Inv(verify, p) && p.settling == None && p.output != []
    ensures Inv(verify, Step(verify, Step(verify, p, Resolve(0)), Erase))
  {
    OutputLive(verify, p, 0);
    ResolveKeeps(verify, p, 0);
    EraseKeeps(verify, Step(verify, p, Resolve(0)));
  }

  lemma EraseKeeps(verify: Job -> bool, p: Pool)
    requires Inv(verify, p) && p.settling.Some?
    ensures Inv(verify, Step(verify, p, Erase))
  {
    var q, ptr := Step(verify, p, Erase), p.settling.value;
    forall x: nat ensures PlaceOk(q.input, q.hands, q.output, q.settling, q.pms, x) {
      assert PlaceOk(p.input, p.hands, p.output, p.settling, p.pms, x);
    }
    forall t: nat ensures CallOk(q.pms, q.settling, q.settled, |p.jobs|, t) {
      assert CallOk(p.pms, p.settling, p.settled, |p.jobs|, t);
      if Open(p.pms, Some(ptr), t) {
        var x :| x in p.pms && Some(ptr) != Some(x) && p.pms[x] == t;
        assert x in q.pms && None != Some(x) && q.pms[x] == t;
      }
    }
  }

  lemma StepKeeps(verify: Job -> bool, p: Pool, e: Event)
    requires Inv(verify, p)
    ensures Inv(verify, Step(verify, p, e))
  {
    match e {
      case Submit(ptr, job) => if ptr !in p.pms { SubmitKeeps(verify, p, ptr, job); }
      case Grab(w, i) => if w < |p.hands| && p.hands[w] == None && i < |p.input| { GrabKeeps(verify, p, w, i); }
      case Finish(w) => if w < |p.hands| && p.hands[w].Some? { FinishKeeps(verify, p, w); }
      case Resolve(i) => if p.settling == None && i < |p.output| { ResolveKeeps(verify, p, i); }
      case Erase => if p.settling.Some? { EraseKeeps(verify, p); }
    }
  }

  lemma InitInv(verify: Job -> bool, nworker: nat)
    ensures Inv(verify, Init(nworker))
  {
    var p := Init(nworker);
    forall x: nat ensures PlaceOk(p.input, p.hands, p.output, p.settling, p.pms, x) {
      assert forall o | o in p.hands :: o == None;
      assert Some(x) !in multiset(p.hands);
    }
    forall t: nat ensures CallOk(p.pms, p.settling, p.settled, |p.jobs|, t) {}
  }

  lemma {:induction false} RunKeeps(verify: Job -> bool, p: Pool, events: seq<Event>)
    requires Inv(verify, p)
    ensures Inv(verify, Run(verify, p, events))
    decreases |events|
  {
    if events != [] {
      StepKeeps(verify, p, events[0]);
      RunKeeps(verify, Step(verify, p, events[0]), events[1..]);
    }
  }

  ghost predicate Reaches(verify: Job -> bool, nworker: nat, p: Pool) {
    exists events :: p == Run(verify, Init(nworker), events)
  }

  lemma ReachesInv(verify: Job -> bool, nworker: nat, p: Pool)
    requires Reaches(verify, nworker, p)
    ensures Inv(verify, p)
  {
    var events :| p == Run(verify, Init(nworker), events);
    InitInv(verify, nworker);
    RunKeeps(verify, Init(nworker), events);
  }

  // ---- what holds in every reachable state ----

  /** Conservation: a task with an entry in `pms` is in exactly one place, and any other pointer in none. */
  lemma Conservation(verify: Job -> bool, nworker: nat, p: Pool, ptr: nat)
    requires Reaches(verify, nworker, p)
    ensures Places(p.input, p.hands, p.output, p.settling, ptr) == if ptr in p.pms then 1 else 0
  {
    ReachesInv(verify, nworker, p);
    assert PlaceOk(p.input, p.hands, p.output, p.settling, p.pms, ptr);
  }

  /** The result loop finds every task it takes, with the answer of that task's own job. */
  lemma LookupSucceeds(verify: Job -> bool, nworker: nat, p: Pool, i: nat)
    requires Reaches(verify, nworker, p) && i < |p.output|
    ensures var ptr := p.output[i];
      ptr in p.pms && ptr in p.result && p.pms[ptr] < |p.jobs| && p.result[ptr] == verify(p.jobs[p.pms[ptr]])
  {
    ReachesInv(verify, nworker, p);
    OutputLive(verify, p, i);
  }

  /** Each call's promise is settled at most once, and then with the answer of its job; a call whose
      promise is not settled still has its task in the pool. */
  lemma SettledOnce(verify: Job -> bool, nworker: nat, p: Pool, t: nat)
    requires Reaches(verify, nworker, p)
    ensures Answers(p.settled, t) + (if Open(p.pms, p.settling, t) then 1 else 0) == if t < |p.jobs| then 1 else 0
    ensures forall x | x in p.settled && x.tag == t :: t < |p.jobs| && x.result == verify(p.jobs[t])
  {
    ReachesInv(verify, nworker, p);
    assert CallOk(p.pms, p.settling, p.settled, |p.jobs|, t);
  }

  /** So once the queues, the hands and the result loop are empty, every call has its answer. */
  lemma AllSettled(verify: Job -> bool, nworker: nat, p: Pool, t: nat)
    requires Reaches(verify, nworker, p) && p.input == [] && p.output == [] && p.settling == None
    requires (forall w | 0 <= w < |p.hands| :: p.hands[w] == None) && t < |p.jobs|
    ensures p.pms == map[] && Answers(p.settled, t) == 1
  {
    SettledOnce(verify, nworker, p, t);
    forall ptr: nat ensures ptr !in p.pms {
      Conservation(verify, nworker, p, ptr);
      assert Some(ptr) !in p.hands;
    }
  }

  // ---- the code ----

  /** `k` rounds of a worker, or of the result loop, when nothing comes between. */
  function Rounds(a: Event, b: Event, k: nat): seq<Event> {
    if k == 0 then [] else Rounds(a, b, k - 1) + [a, b]
  }

  lemma {:induction false} RunSnoc(verify: Job -> bool, p: Pool, events: seq<Event>, a: Event, b: Event)
    ensures Run(verify, p, events + [a, b]) == Step(verify, Step(verify, Run(verify, p, events), a), b)
    decreases |events|
  {
    if events == [] {
      assert [] + [a, b] == [a, b] && [a, b][1..] == [b] && [b][1..] == [];
      assert Run(verify, p, [a, b]) == Run(verify, Step(verify, p, a), [b]);
    } else {
      assert (events + [a, b])[1..] == events[1..] + [a, b];
      RunSnoc(verify, Step(verify, p, events[0]), events[1..], a, b);
    }
  }

  const SIZE_LIMIT := 0x1_0000_0000_0000_0000

  /** How many rounds a burst of `burst` allows: the counter is decremented before it is tested, so from 0
      it wraps around. */
  function Rounded(burst: nat): nat {
    if burst == 0 then SIZE_LIMIT else burst
  }

  class Pooled {
    const verify: Job -> bool
    var input: seq<nat>
    var hands: seq<Option<nat>>
    var output: seq<nat>
    var settling: Option<nat>
    var pms: map<nat, nat>
    var result: map<nat, bool>
    var jobs: seq<Job>
    var settled: seq<Settled>

    ghost function Abs(): Pool
      reads this
    {
      Pool(input, hands, output, settling, pms, result, jobs, settled)
    }

    constructor (verify: Job -> bool, nworker: nat)
      ensures this.verify == verify && Abs() == Init(nworker)
    {
      this.verify := verify;
      input, hands, output, settling := [], seq(nworker, _ => None), [], None;
      pms, result, jobs, settled := map[], map[], [], [];
    }

    method Verify(ptr: nat, job: Job) returns (promise: nat)
      requires ptr !in pms
      modifies this
      ensures Abs() == Step(verify, old(Abs()), Submit(ptr, job)) && promise == |old(jobs)|
    {
      promise := |jobs|;
      pms := pms[ptr := promise];
      jobs := jobs + [job];
      input := input + [ptr];
    }

    method WorkerRound(w: nat, ghost start: Pool, ghost k: nat)
      requires Inv(verify, Abs()) && w < |hands| && hands[w] == None && input != []
      requires Abs() == Run(verify, start, Rounds(Grab(w, 0), Finish(w), k))
      modifies this
      ensures Abs() == Run(verify, start, Rounds(Grab(w, 0), Finish(w), k + 1))
      ensures Inv(verify, Abs()) && input == old(input)[1..] && |hands| == |old(hands)| && hands[w] == None
    {
      RunSnoc(verify, start, Rounds(Grab(w, 0), Finish(w), k), Grab(w, 0), Finish(w));
      GrabKeeps(verify, Abs(), w, 0);
      var task := input[0];
      input := input[1..];
      hands := hands[w := Some(task)];
      assert Abs() == Step(verify, old(Abs()), Grab(w, 0));
      HandLive(Abs(), w);
      FinishKeeps(verify, Abs(), w);
      result := result[task := verify(jobs[pms[task]])];
      output := output + [task];
      hands := hands[w := None];
    }

    method WorkerLoop(w: nat, burst: nat) returns (again: bool, ghost k: nat)
      requires Inv(verify, Abs()) && w < |hands| && hands[w] == None && burst < SIZE_LIMIT
      modifies this
      ensures Inv(verify, Abs()) && Abs() == Run(verify, old(Abs()), Rounds(Grab(w, 0), Finish(w), k))
      ensures again <==> |old(input)| >= Rounded(burst)
      ensures k == if again then Rounded(burst) else |old(input)|
    {
      var cnt := burst;
      ghost var start, n := Abs(), |input|;
      k := 0;
      while input != []
        invariant Inv(verify, Abs()) && w < |hands| && hands[w] == None
        invariant Abs() == Run(verify, start, Rounds(Grab(w, 0), Finish(w), k))
        invariant k + |input| == n && CountOk(burst, k, cnt)
        decreases |input|
      {
        WorkerRound(w, start, k);
        var stop;
        stop, cnt := CountDown(burst, k, cnt);
        k := k + 1;
        if stop { return true, k; }
      }
      return false, k;
    }

    method ResultRound(ghost start: Pool, ghost k: nat)
      requires Inv(verify, Abs()) && settling == None && output != []
      requires Abs() == Run(verify, start, Rounds(Resolve(0), Erase, k))
      modifies this
      ensures Abs() == Run(verify, start, Rounds(Resolve(0), Erase, k + 1))
      ensures Inv(verify, Abs()) && output == old(output)[1..] && settling == None
    {
      RunSnoc(verify, start, Rounds(Resolve(0), Erase, k), Resolve(0), Erase);
      OutputLive(verify, Abs(), 0);
      RoundKeeps(verify, Abs());
      var task := output[0];
      output := output[1..];
      settling := Some(task);
      settled := settled + [Settled(pms[task], result[task])];
      assert Abs() == Step(verify, old(Abs()), Resolve(0));
      pms := pms - {task};
      settling := None;
    }

    method ResultLoop(burst: nat) returns (again: bool, ghost k: nat)
      requires Inv(verify, Abs()) && settling == None && burst < SIZE_LIMIT
      modifies this
      ensures Inv(verify, Abs()) && Abs() == Run(verify, old(Abs()), Rounds(Resolve(0), Erase, k))
      ensures again <==> |old(output)| >= Rounded(burst)
      ensures k == if again then Rounded(burst) else |old(output)|
    {
      var cnt := burst;
      ghost var start, n := Abs(), |output|;
      k := 0;
      while output != []
        invariant Inv(verify, Abs()) && settling == None
        invariant Abs() == Run(verify, start, Rounds(Resolve(0), Erase, k))
        invariant k + |output| == n && CountOk(burst, k, cnt)
        decreases |output|
      {
        ResultRound(start, k);
        var stop;
        stop, cnt := CountDown(burst, k, cnt);
        k := k + 1;
        if stop { return true, k; }
      }
      return false, k;
    }
  }

  /** The counter after `k` rounds that did not stop. */
  ghost predicate CountOk(burst: nat, k: nat, cnt: nat) {
    k < Rounded(burst) && cnt == if k == 0 then burst else Rounded(burst) - k
  }

  /** `if (!--cnt)`, on a 64-bit counter. */
  method CountDown(burst: nat, ghost k: nat, cnt: nat) returns (stop: bool, left: nat)
    requires burst < SIZE_LIMIT && CountOk(burst, k, cnt)
    ensures stop <==> k + 1 == Rounded(burst)
    ensures !stop ==> CountOk(burst, k + 1, left)
  {
    left := if cnt == 0 then SIZE_LIMIT - 1 else cnt - 1;
    stop := left == 0;
  }
}

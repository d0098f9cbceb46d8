/** Quorum certificates: who signed, what acceptance means, and the promise-based check. */
module QuorumCert {
  import opened Basics
  import opened PromiseMachine
  import opened PromiseInvariant
  import opened PromiseOrder
  import opened PromiseConfluence

  type Sig = nat

  datatype Error = WrongHash | NoSuchReplica | TooFewBytes | NoSignature | EmptyList

  datatype Result<T> = Ok(value: T) | Err(error: Error)

  /** `bits` is `rids`. */
  datatype Cert = Cert(objHash: nat, bits: seq<bool>, sigs: map<nat, Sig>)

  /** Replicas are numbered below `nreplicas`; `good` is signature verification with a replica's key. */
  datatype Config = Config(nreplicas: nat, nmajority: nat, good: (nat, nat, Sig) -> bool)

  /** The signature a map lookup creates when there is none. */
  const BLANK: Sig := 0

  function Signers(c: Cert): set<nat> {
    set i | 0 <= i < |c.bits| && c.bits[i]
  }

  /** The set bits are exactly the keys of the signatures. */
  ghost predicate Match(c: Cert) {
    c.sigs.Keys == Signers(c)
  }

  function SigAt(c: Cert, i: nat): Sig {
    if i in c.sigs then c.sigs[i] else BLANK
  }

  // ---- building and moving certificates ----

  function Empty(n: nat, h: nat): Cert {
    Cert(h, seq(n, _ => false), map[])
  }

  /** `add_part`: the first signature of a replica stays. */
  function AddPart(c: Cert, rid: nat, h: nat, sig: Sig): Result<Cert>
    requires rid < |c.bits|
  {
    if h != c.objHash then Err(WrongHash)
    else Ok(Cert(c.objHash, c.bits[rid := true], if rid in c.sigs then c.sigs else c.sigs[rid := sig]))
  }

  lemma AddPartKeeps(c: Cert, rid: nat, h: nat, sig: Sig)
    requires Match(c) && rid < |c.bits| && h == c.objHash
    ensures var r := AddPart(c, rid, h, sig); r.Ok? && Match(r.value) && Signers(r.value) == Signers(c) + {rid}
  {
    var r := AddPart(c, rid, h, sig).value;
    forall i ensures i in Signers(r) <==> i in Signers(c) || i == rid {}
  }

  /** The signatures of the set bits below `n`, in order: what follows the hash and the bits on the wire. */
  function Written(c: Cert, n: nat): Result<seq<Sig>>
    requires n <= |c.bits|
  {
    if n == 0 then Ok([])
    else
      match Written(c, n - 1)
      case Err(e) => Err(e)
      case Ok(s) =>
        if !c.bits[n - 1] then Ok(s) else if n - 1 !in c.sigs then Err(NoSignature) else Ok(s + [c.sigs[n - 1]])
  }

  /** Read the signatures of the set bits below `n` over those the object already has. */
  function Read(sigs: map<nat, Sig>, bits: seq<bool>, n: nat, stream: seq<Sig>): Result<(map<nat, Sig>, seq<Sig>)>
    requires n <= |bits|
  {
    if n == 0 then Ok((sigs, stream))
    else
      match Read(sigs, bits, n - 1, stream)
      case Err(e) => Err(e)
      case Ok((m, s)) =>
        if !bits[n - 1] then Ok((m, s)) else if s == [] then Err(TooFewBytes) else Ok((m[n - 1 := s[0]], s[1..]))
  }

  /** `unserialize` into an object that holds `prior`. */
  function Parse(prior: Cert, h: nat, bits: seq<bool>, stream: seq<Sig>): Result<(Cert, seq<Sig>)> {
    match Read(prior.sigs, bits, |bits|, stream)
    case Err(e) => Err(e)
    case Ok((m, rest)) => Ok((Cert(h, bits, m), rest))
  }

  lemma {:induction false} ReadKeys(sigs: map<nat, Sig>, bits: seq<bool>, n: nat, stream: seq<Sig>)
    requires n <= |bits| && Read(sigs, bits, n, stream).Ok?
    ensures forall i :: i in Read(sigs, bits, n, stream).value.0 <==> i in sigs || (0 <= i < n && bits[i])
  {
    if n > 0 { ReadKeys(sigs, bits, n - 1, stream); }
  }

  /** Parsing leaves the bits and the signatures matching if and only if every signature the object had
      before is among the set bits; a fresh object has none. */
  lemma ParseMatchIff(prior: Cert, h: nat, bits: seq<bool>, stream: seq<Sig>)
    requires Parse(prior, h, bits, stream).Ok?
    ensures var c := Parse(prior, h, bits, stream).value.0; Match(c) <==> prior.sigs.Keys <= Signers(c)
  {
    ReadKeys(prior.sigs, bits, |bits|, stream);
    var c := Parse(prior, h, bits, stream).value.0;
    forall i ensures i in c.sigs <==> i in prior.sigs || i in Signers(c) {}
  }

  lemma {:induction false} ReadWritten(c: Cert, n: nat, rest: seq<Sig>)
    requires n <= |c.bits| && Written(c, n).Ok?
    ensures var r := Read(map[], c.bits, n, Written(c, n).value + rest);
      r.Ok? && r.value.1 == rest && r.value.0 == map i | i in c.sigs && i < n && c.bits[i] :: c.sigs[i]
  {
    var s := Written(c, n).value;
    if n == 0 {
      assert s + rest == rest;
    } else if c.bits[n - 1] {
      var s', sig := Written(c, n - 1).value, c.sigs[n - 1];
      ReadWritten(c, n - 1, [sig] + rest);
      assert s + rest == s' + ([sig] + rest);
      assert ([sig] + rest)[1..] == rest;
    } else {
      ReadWritten(c, n - 1, rest);
    }
  }

  /** The signatures are written in the order of the replicas' ids: `ids` are the set bits, ascending. */
  lemma WrittenInOrder(c: Cert, n: nat) returns (ids: seq<nat>)
    requires n <= |c.bits| && Written(c, n).Ok?
    ensures (forall i :: i in ids <==> 0 <= i < n && c.bits[i]) && forall i, j | 0 <= i < j < |ids| :: ids[i] < ids[j]
    ensures var s := Written(c, n).value;
      |s| == |ids| && forall k | 0 <= k < |ids| :: ids[k] in c.sigs && s[k] == c.sigs[ids[k]]
  {
    ids := Tasks(c, n);
    TasksAscend(c, n);
    WrittenTasks(c, n);
  }

  lemma {:induction false} WrittenTasks(c: Cert, n: nat)
    requires n <= |c.bits| && Written(c, n).Ok?
    ensures var s, ids := Written(c, n).value, Tasks(c, n);
      |s| == |ids| && forall k | 0 <= k < |ids| :: ids[k] in c.sigs && s[k] == c.sigs[ids[k]]
  {
    if n > 0 { WrittenTasks(c, n - 1); }
  }

  lemma {:induction false} WrittenOk(c: Cert, n: nat)
    requires n <= |c.bits| && Match(c)
    ensures Written(c, n).Ok?
  {
    if n > 0 {
      WrittenOk(c, n - 1);
      assert c.bits[n - 1] ==> n - 1 in Signers(c);
    }
  }

  /** A matching certificate can be written, and read into a fresh object it comes back as it was. */
  lemma CertRoundTrip(c: Cert, blank: Cert, rest: seq<Sig>)
    requires Match(c) && blank.sigs == map[]
    ensures Written(c, |c.bits|).Ok?
    ensures Parse(blank, c.objHash, c.bits, Written(c, |c.bits|).value + rest) == Ok((c, rest))
  {
    WrittenOk(c, |c.bits|);
    ReadWritten(c, |c.bits|, rest);
    var m := map i | i in c.sigs && i < |c.bits| && c.bits[i] :: c.sigs[i];
    assert m == c.sigs by { assert forall i | i in c.sigs :: i in Signers(c); }
  }

  // ---- verification ----

  /** The loop of `verify` from bit `i` on. */
  function Scan(c: Cert, cfg: Config, i: nat): Result<bool>
    decreases |c.bits| - i
  {
    if i >= |c.bits| then Ok(true)
    else if !c.bits[i] then Scan(c, cfg, i + 1)
    else if i >= cfg.nreplicas then Err(NoSuchReplica)
    else if !cfg.good(i, c.objHash, SigAt(c, i)) then Ok(false)
    else Scan(c, cfg, i + 1)
  }

  function Verdict(c: Cert, cfg: Config): Result<bool> {
    if |c.sigs| < cfg.nmajority then Ok(false) else Scan(c, cfg, 0)
  }

  predicate Fine(c: Cert, cfg: Config, i: nat) {
    i < cfg.nreplicas && cfg.good(i, c.objHash, SigAt(c, i))
  }

  lemma {:induction false} ScanMeans(c: Cert, cfg: Config, i: nat)
    ensures Scan(c, cfg, i) == Ok(true) <==> forall k | k in Signers(c) && k >= i :: Fine(c, cfg, k)
    decreases |c.bits| - i
  {
    if i < |c.bits| {
      ScanMeans(c, cfg, i + 1);
      assert c.bits[i] ==> i in Signers(c);
    }
  }

  /** A matching certificate is accepted if and only if at least `nmajority` distinct replicas signed it
      and every one of their signatures is valid. */
  lemma AcceptedIff(c: Cert, cfg: Config)
    requires Match(c)
    ensures Verdict(c, cfg) == Ok(true) <==>
      |Signers(c)| >= cfg.nmajority && forall k | k in Signers(c) :: Fine(c, cfg, k)
  {
    ScanMeans(c, cfg, 0);
    assert |c.sigs| == |c.sigs.Keys|;
  }

  /** A certificate parsed over old signatures can be accepted with no signer at all. */
  lemma StaleAccepted(cfg: Config, h: nat, sig: Sig)
    requires cfg.nmajority == 1
    ensures var c := Cert(h, [], map[0 := sig]);
      && Parse(c, h, [], []) == Ok((c, [])) && !Match(c) && Verdict(c, cfg) == Ok(true) && Signers(c) == {}
  {
    var c := Cert(h, [], map[0 := sig]);
    assert 0 in c.sigs && 0 !in Signers(c);
    assert c.sigs.Keys == {0};
  }

  // ---- what the parts given to a certificate make of it ----

  /** An argument of `add_part`. */
  datatype Part = Part(rid: nat, hash: nat, sig: Sig)

  ghost predicate Known(parts: seq<Part>, n: nat) {
    forall p | p in parts :: p.rid < n
  }

  /** A part for another hash throws and leaves the certificate as it was. */
  function Given(c: Cert, parts: seq<Part>): (d: Cert)
    requires Known(parts, |c.bits|)
    ensures |d.bits| == |c.bits|
  {
    if parts == [] then c
    else
      var d, p := Given(c, parts[..|parts| - 1]), parts[|parts| - 1];
      match AddPart(d, p.rid, p.hash, p.sig)
      case Ok(e) => e
      case Err(_) => d
  }

  /** The first signature of replica `rid` for hash `h`. */
  function FirstSig(parts: seq<Part>, h: nat, rid: nat): Option<Sig>
    decreases |parts|
  {
    if parts == [] then None
    else if parts[0].rid == rid && parts[0].hash == h then Some(parts[0].sig)
    else FirstSig(parts[1..], h, rid)
  }

  lemma {:induction false} FirstSigLast(parts: seq<Part>, p: Part, h: nat, rid: nat)
    ensures FirstSig(parts + [p], h, rid) ==
      if FirstSig(parts, h, rid).None? && p.rid == rid && p.hash == h then Some(p.sig) else FirstSig(parts, h, rid)
    decreases |parts|
  {
    if parts == [] {
      assert FirstSig([p][1..], h, rid) == None;
    } else {
      assert (parts + [p])[1..] == parts[1..] + [p];
      FirstSigLast(parts[1..], p, h, rid);
    }
  }

  /** `c` is a certificate for `h` with exactly the first signatures in `parts`. */
  ghost predicate Holds(c: Cert, h: nat, parts: seq<Part>) {
    && c.objHash == h && Match(c)
    && forall rid :: match FirstSig(parts, h, rid)
                     case None => rid !in c.sigs
                     case Some(sig) => rid in c.sigs && c.sigs[rid] == sig
  }

  /** Whatever parts a new certificate is given, its bits and its signatures are the replicas that signed its hash,
      each with the first signature it gave. */
  lemma {:induction false} FirstSigStays(n: nat, h: nat, parts: seq<Part>)
    requires Known(parts, n)
    ensures Holds(Given(Empty(n, h), parts), h, parts)
  {
    if parts == [] {
      assert Signers(Empty(n, h)) == {};
    } else {
      var m := |parts| - 1;
      var c, p := Given(Empty(n, h), parts[..m]), parts[m];
      FirstSigStays(n, h, parts[..m]);
      assert parts == parts[..m] + [p];
      forall rid ensures FirstSig(parts, h, rid) ==
        if FirstSig(parts[..m], h, rid).None? && p.rid == rid && p.hash == h then Some(p.sig)
        else FirstSig(parts[..m], h, rid)
      {
        FirstSigLast(parts[..m], p, h, rid);
      }
      if p.hash == h { AddPartKeeps(c, p.rid, p.hash, p.sig); }
    }
  }

  function Signed(parts: seq<Part>, n: nat, h: nat): set<nat> {
    set rid | 0 <= rid < n && FirstSig(parts, h, rid).Some?
  }

  /** So a certificate made of parts is accepted if and only if at least `nmajority` distinct replicas gave one for
      its hash and the first one each gave is valid; parts for other hashes and later ones do not matter. */
  lemma PartsAcceptedIff(cfg: Config, h: nat, parts: seq<Part>)
    requires Known(parts, cfg.nreplicas)
    ensures Verdict(Given(Empty(cfg.nreplicas, h), parts), cfg) == Ok(true) <==>
      && |Signed(parts, cfg.nreplicas, h)| >= cfg.nmajority
      && forall rid | rid in Signed(parts, cfg.nreplicas, h) :: cfg.good(rid, h, FirstSig(parts, h, rid).value)
  {
    var c, n := Given(Empty(cfg.nreplicas, h), parts), cfg.nreplicas;
    FirstSigStays(n, h, parts);
    AcceptedIff(c, cfg);
    forall rid ensures rid in Signers(c) <==> rid in Signed(parts, n, h) {
      assert rid in Signers(c) <==> rid in c.sigs.Keys;
    }
    assert Signers(c) == Signed(parts, n, h);
    forall rid | rid in Signers(c)
      ensures Fine(c, cfg, rid) <==> cfg.good(rid, h, FirstSig(parts, h, rid).value)
    {
      assert FirstSig(parts, h, rid).Some?;
    }
  }

  // ---- quorums ----

  /** `start` and `on_init`: every replica but this one is a peer. */
  function Faulty(n: nat): nat
    requires n >= 2
  {
    (n - 1 - 1) / 2
  }

  function Majority(n: nat): nat
    requires n >= 2
  {
    n - Faulty(n)
  }

  /** `nfaulty` is the greatest f for which n is at least 2f + 2, and a quorum is all but that many. */
  lemma QuorumSize(n: nat, f: nat)
    requires n >= 2
    ensures (f <= Faulty(n) <==> 2 * f + 2 <= n) && Majority(n) + Faulty(n) == n
  {}

  /** Two accepted certificates of an n-replica configuration share at least n - 2 * nfaulty signers, and
      that is at least two. */
  lemma QuorumsMeet(c: Cert, d: Cert, cfg: Config)
    requires cfg.nreplicas >= 2 && cfg.nmajority == Majority(cfg.nreplicas)
    requires Match(c) && Match(d) && Verdict(c, cfg) == Ok(true) && Verdict(d, cfg) == Ok(true)
    ensures |Signers(c) * Signers(d)| >= cfg.nreplicas - 2 * Faulty(cfg.nreplicas) >= 2
  {
    AcceptedIff(c, cfg);
    AcceptedIff(d, cfg);
    var a, b := Signers(c), Signers(d);
    SubsetCard(a + b, Below(cfg.nreplicas));
    assert |a + b| == |a| + |b| - |a * b|;
  }

  // ---- the promise-based check ----

  /** The set bits below `n`, in order: one verification task each. */
  function Tasks(c: Cert, n: nat): (ts: seq<nat>)
    requires n <= |c.bits|
    ensures forall i :: i in ts <==> 0 <= i < n && c.bits[i]
  {
    if n == 0 then [] else if c.bits[n - 1] then Tasks(c, n - 1) + [n - 1] else Tasks(c, n - 1)
  }

  lemma {:induction false} TasksAscend(c: Cert, n: nat)
    requires n <= |c.bits|
    ensures forall i, j | 0 <= i < j < |Tasks(c, n)| :: Tasks(c, n)[i] < Tasks(c, n)[j]
  {
    if n > 0 {
      TasksAscend(c, n - 1);
      var front := Tasks(c, n - 1);
      forall i | 0 <= i < |front| ensures front[i] < n - 1 { assert front[i] in front; }
    }
  }

  function Truth(b: bool): Value {
    Atom(if b then 1 else 0)
  }

  /** The callback on the values: all of them are true. */
  function Conjunction(v: Value): Ret {
    Return(Truth(v.Vec? && forall x | x in v.vs :: x == Truth(true)))
  }

  /** `all(vpm).then(...)` over the promises of `m` tasks. */
  function CheckGraph(m: nat): (g: Graph)
    ensures |g| == m + 2 && g[m] == All(seq(m, i => i)) && g[m + 1] == ThenOnly(m, Conjunction)
    ensures forall k | 0 <= k < m :: g[k] == Root
    ensures m > 0 ==> GraphOk(g)
  {
    var g: Graph := seq(m, _ => Root) + [All(seq(m, i => i)), ThenOnly(m, Conjunction)];
    assert m > 0 ==> forall k | 0 <= k < |g| :: DefOk(g[k], k);
    g
  }

  /** While a task's promise is open so is the check; when all are settled with their answers it is settled
      with the conjunction. */
  lemma CheckSettles(m: nat, w: World, answers: seq<bool>)
    requires m > 0 && |answers| == m && WorldOk(CheckGraph(m), w) && m in w.wired && m + 1 in w.wired
    requires forall i | 0 <= i < m :: StatusAt(w, i) in {Pending, Fulfilled(Truth(answers[i]))}
    ensures if exists i :: 0 <= i < m && StatusAt(w, i) == Pending then StatusAt(w, m + 1) == Pending
      else StatusAt(w, m + 1) == Fulfilled(Truth(false !in answers))
  {
    var g, ss := CheckGraph(m), seq(m, i => i);
    AllSettles(g, w, m);
    ThenMeaning(g, w, m + 1);
    assert AllMeaning(w, ss, StatusAt(w, m));
    assert forall i | 0 <= i < m :: ss[i] == i;
    if StatusAt(w, m).Fulfilled? {
      AllTruths(StatusAt(w, m).value.vs, answers);
    }
  }

  lemma AllTruths(vs: seq<Value>, answers: seq<bool>)
    requires |vs| == |answers| && forall i | 0 <= i < |vs| :: vs[i] == Truth(answers[i])
    ensures Conjunction(Vec(vs)) == Return(Truth(false !in answers))
  {
    if false in answers {
      var i :| 0 <= i < |answers| && !answers[i];
      assert vs[i] in vs;
    }
  }

  /** The pool settles the promise of task `k` with `answers[k]`. */
  function Answer(answers: seq<bool>, k: nat): Op
    requires k < |answers|
  {
    SettleRoot(k, Fulfilled(Truth(answers[k])))
  }

  /** The events of a check: its two promises are made, and tasks get their answers. */
  ghost predicate CheckEvents(ops: seq<Op>, answers: seq<bool>) {
    var m := |answers|;
    && Wire(m) in ops && Wire(m + 1) in ops
    && forall op | op in ops :: if op.Wire? then op.k in {m, m + 1} else op.k < m && op == Answer(answers, op.k)
  }

  lemma {:induction false} OfferedAnswers(roots: map<nat, Status>, ops: seq<Op>, answers: seq<bool>)
    requires forall op | op in ops && op.SettleRoot? :: op.k < |answers| && op == Answer(answers, op.k)
    requires forall k | k in roots :: k < |answers| && roots[k] == Answer(answers, k).outcome
    ensures var r := Offered(roots, ops);
      && (forall k | k in r :: k < |answers| && r[k] == Answer(answers, k).outcome)
      && forall k | 0 <= k < |answers| :: k in r <==> k in roots || Answer(answers, k) in ops
    decreases |ops|
  {
    if ops != [] {
      var next := if ops[0].Wire? || ops[0].k in roots then roots else roots[ops[0].k := ops[0].outcome];
      assert ops[0] in ops && forall op :: op in ops <==> op == ops[0] || op in ops[1..];
      OfferedAnswers(next, ops[1..], answers);
    }
  }

  lemma CheckOps(ops: seq<Op>, answers: seq<bool>)
    requires CheckEvents(ops, answers)
    ensures var g := CheckGraph(|answers|); forall op | op in ops :: OpOk(g, op)
  {}

  lemma CheckWorld(ops: seq<Op>, answers: seq<bool>, g: Graph, w: World)
    requires answers != [] && CheckEvents(ops, answers) && g == CheckGraph(|answers|)
    requires (forall op | op in ops :: OpOk(g, op)) && w == Play(g, Init(g), ops)
    ensures WorldOk(g, w) && |answers| in w.wired && |answers| + 1 in w.wired && w.roots == Offered(map[], ops)
  {
    InitOk(g);
    PlayKeeps(g, Init(g), ops);
    PlayInputs(g, Init(g), ops);
    BothWired(ops, |answers|);
  }

  lemma BothWired(ops: seq<Op>, m: nat)
    requires Wire(m) in ops && Wire(m + 1) in ops
    ensures m in Wires(ops) && m + 1 in Wires(ops)
  {
    assert Wire(m).k in Wires(ops) && Wire(m + 1).k in Wires(ops);
  }

  lemma TaskStatus(ops: seq<Op>, answers: seq<bool>, g: Graph, w: World, k: nat)
    requires CheckEvents(ops, answers) && k < |answers| && g == CheckGraph(|answers|)
    requires WorldOk(g, w) && w.roots == Offered(map[], ops)
    ensures StatusAt(w, k) == if Answer(answers, k) in ops then Answer(answers, k).outcome else Pending
  {
    OfferedAnswers(map[], ops, answers);
    assert g[k].Root?;
  }

  ghost predicate AllAnswered(ops: seq<Op>, answers: seq<bool>) {
    forall k | 0 <= k < |answers| :: Answer(answers, k) in ops
  }

  lemma CheckEnds(ops: seq<Op>, answers: seq<bool>, g: Graph, w: World)
    requires answers != [] && CheckEvents(ops, answers) && g == CheckGraph(|answers|)
    requires WorldOk(g, w) && |answers| in w.wired && |answers| + 1 in w.wired && w.roots == Offered(map[], ops)
    ensures StatusAt(w, |answers| + 1) ==
      if AllAnswered(ops, answers) then Fulfilled(Truth(false !in answers)) else Pending
  {
    forall k | 0 <= k < |answers|
      ensures StatusAt(w, k) == if Answer(answers, k) in ops then Fulfilled(Truth(answers[k])) else Pending
    {
      TaskStatus(ops, answers, g, w, k);
    }
    CheckSettles(|answers|, w, answers);
    if !AllAnswered(ops, answers) {
      var k :| 0 <= k < |answers| && Answer(answers, k) !in ops;
      assert StatusAt(w, k) == Pending;
    }
  }

  /** In every run, whatever the order: with all answers in, the check is settled with their conjunction;
      before that it is pending. */
  lemma CheckRuns(ops: seq<Op>, answers: seq<bool>)
    requires answers != [] && CheckEvents(ops, answers)
    ensures var g := CheckGraph(|answers|);
      && (forall op | op in ops :: OpOk(g, op))
      && StatusAt(Play(g, Init(g), ops), |answers| + 1) ==
           if AllAnswered(ops, answers) then Fulfilled(Truth(false !in answers)) else Pending
  {
    CheckOps(ops, answers);
    var g := CheckGraph(|answers|);
    CheckWorld(ops, answers, g, Play(g, Init(g), ops));
    CheckEnds(ops, answers, g, Play(g, Init(g), ops));
  }

  /** A set bit has no replica: looking its key up throws. */
  predicate Unknown(c: Cert, cfg: Config) {
    exists i | 0 <= i < |c.bits| :: c.bits[i] && i >= cfg.nreplicas
  }

  predicate Good(c: Cert, cfg: Config, i: nat) {
    cfg.good(i, c.objHash, SigAt(c, i))
  }

  /** The loop that makes the tasks, up to bit `n`. */
  function Submitted(c: Cert, cfg: Config, n: nat): Result<seq<nat>>
    requires n <= |c.bits|
  {
    if exists i | 0 <= i < n :: c.bits[i] && i >= cfg.nreplicas then Err(NoSuchReplica) else Ok(Tasks(c, n))
  }

  /** What the promise-based `verify` comes to: an unknown replica throws, and so does `all` of no promise. */
  function Checked(c: Cert, cfg: Config): Result<bool> {
    if |c.sigs| < cfg.nmajority then Ok(false)
    else
      match Submitted(c, cfg, |c.bits|)
      case Err(e) => Err(e)
      case Ok(ts) => if ts == [] then Err(EmptyList) else Ok(forall i | i in ts :: Good(c, cfg, i))
  }

  /** And so it does: when tasks are made, every run in which all of them are answered settles the check with
      that value. */
  lemma CheckedSettles(c: Cert, cfg: Config, ops: seq<Op>, answers: seq<bool>)
    requires |c.sigs| >= cfg.nmajority && Submitted(c, cfg, |c.bits|).Ok? && answers != []
    requires |Tasks(c, |c.bits|)| == |answers|
    requires forall k | 0 <= k < |answers| :: answers[k] == Good(c, cfg, Tasks(c, |c.bits|)[k])
    requires CheckEvents(ops, answers) && AllAnswered(ops, answers)
    ensures var g := CheckGraph(|answers|);
      && (forall op | op in ops :: OpOk(g, op)) && Checked(c, cfg).Ok?
      && StatusAt(Play(g, Init(g), ops), |answers| + 1) == Fulfilled(Truth(Checked(c, cfg).value))
  {
    CheckRuns(ops, answers);
    AllTrue(c, cfg, Tasks(c, |c.bits|), answers);
  }

  lemma AllTrue(c: Cert, cfg: Config, ts: seq<nat>, answers: seq<bool>)
    requires |answers| == |ts| && forall k | 0 <= k < |ts| :: answers[k] == Good(c, cfg, ts[k])
    ensures false !in answers <==> forall i | i in ts :: Good(c, cfg, i)
  {
    if false in answers {
      var k :| 0 <= k < |ts| && !answers[k];
      assert ts[k] in ts;
    } else {
      forall i | i in ts ensures Good(c, cfg, i) {
        var k :| 0 <= k < |ts| && ts[k] == i;
        assert answers[k] in answers;
      }
    }
  }

  /** The loop ends in three ways: a bad signature of a known replica comes before any unknown one. */
  lemma {:induction false} ScanCases(c: Cert, cfg: Config, i: nat)
    ensures var r := Scan(c, cfg, i);
      if exists k :: k in Signers(c) && i <= k < cfg.nreplicas && !Good(c, cfg, k) then r == Ok(false)
      else if exists k :: k in Signers(c) && k >= i && k >= cfg.nreplicas then r == Err(NoSuchReplica)
      else r == Ok(true)
    decreases |c.bits| - i
  {
    if i < |c.bits| {
      ScanCases(c, cfg, i + 1);
      if c.bits[i] { assert i in Signers(c); }
    }
  }

  ghost predicate KnownGood(c: Cert, cfg: Config) {
    forall k | k in Signers(c) && k < cfg.nreplicas :: Good(c, cfg, k)
  }

  /** The promise-based check and the loop agree if and only if there are too few signatures, or a replica is
      unknown and no signature of a known one is bad, or all are known and a bit is set. */
  lemma ChecksAgreeIff(c: Cert, cfg: Config)
    ensures Checked(c, cfg) == Verdict(c, cfg) <==>
      |c.sigs| < cfg.nmajority || if Unknown(c, cfg) then KnownGood(c, cfg) else Signers(c) != {}
  {
    ScanCases(c, cfg, 0);
    var ts := Tasks(c, |c.bits|);
    assert forall i :: i in ts <==> i in Signers(c);
    assert Unknown(c, cfg) <==> exists k :: k in Signers(c) && k >= cfg.nreplicas;
    if ts == [] {
      assert Signers(c) == {};
    } else {
      assert ts[0] in Signers(c);
    }
  }

  /** For a matching certificate of known replicas that is so with `nmajority` at least 1. */
  lemma KnownAgreeIff(c: Cert, cfg: Config)
    requires Match(c) && !Unknown(c, cfg)
    ensures Checked(c, cfg) == Verdict(c, cfg) <==> cfg.nmajority >= 1 || c.sigs != map[]
  {
    ChecksAgreeIff(c, cfg);
    assert c.sigs == map[] <==> c.sigs.Keys == {};
  }

  // ---- the code ----

  /** `QuorumCertSecp256k1` */
  class Certificate {
    var objHash: nat
    var rids: seq<bool>
    var sigs: map<nat, Sig>

    ghost function Abs(): Cert
      reads this
    {
      Cert(objHash, rids, sigs)
    }

    constructor Default()
      ensures Match(Abs()) && sigs == map[]
    {
      objHash, rids, sigs := 0, [], map[];
      new;
      assert Signers(Abs()) == {};
    }

    constructor (cfg: Config, h: nat)
      ensures Abs() == Empty(cfg.nreplicas, h) && Match(Abs())
    {
      objHash, rids, sigs := h, seq(cfg.nreplicas, _ => false), map[];
      new;
      assert Signers(Abs()) == {};
    }

    method Add(rid: nat, h: nat, sig: Sig) returns (r: Result<()>)
      requires rid < |rids|
      modifies this
      ensures match AddPart(old(Abs()), rid, h, sig)
              case Err(e) => r == Err(e) && Abs() == old(Abs())
              case Ok(c) => r.Ok? && Abs() == c
      ensures r.Ok? ==> sigs == if rid in old(sigs) then old(sigs) else old(sigs)[rid := sig]
      ensures old(Match(Abs())) ==> Match(Abs())
    {
      if old(Match(Abs())) && h == objHash { AddPartKeeps(Abs(), rid, h, sig); }
      if h != objHash { return Err(WrongHash); }
      if rid !in sigs { sigs := sigs[rid := sig]; }
      rids := rids[rid := true];
      return Ok(());
    }

    method Serialize() returns (r: Result<seq<Sig>>)
      ensures r == Written(Abs(), |rids|)
    {
      var out: seq<Sig> := [];
      for i := 0 to |rids|
        invariant Written(Abs(), i) == Ok(out)
      {
        if rids[i] {
          if i !in sigs {
            WrittenStops(Abs(), i + 1, |rids|);
            return Err(NoSignature);
          }
          out := out + [sigs[i]];
        }
      }
      return Ok(out);
    }

    method Unserialize(h: nat, bits: seq<bool>, stream: seq<Sig>) returns (r: Result<seq<Sig>>)
      modifies this
      ensures match Parse(old(Abs()), h, bits, stream)
              case Err(e) => r == Err(e)
              case Ok((c, rest)) => r == Ok(rest) && Abs() == c
      ensures r.Ok? ==> (Match(Abs()) <==> old(sigs).Keys <= Signers(Abs()))
    {
      if Parse(old(Abs()), h, bits, stream).Ok? { ParseMatchIff(old(Abs()), h, bits, stream); }
      objHash, rids := h, bits;
      var rest := stream;
      for i := 0 to |bits|
        invariant objHash == h && rids == bits && Read(old(sigs), bits, i, stream) == Ok((sigs, rest))
      {
        if bits[i] {
          if rest == [] {
            ReadStops(old(sigs), bits, i + 1, |bits|, stream);
            return Err(TooFewBytes);
          }
          sigs := sigs[i := rest[0]];
          rest := rest[1..];
        }
      }
      return Ok(rest);
    }

    /** The synchronous check; looking up a missing signature creates a blank one. */
    method Verify(cfg: Config) returns (r: Result<bool>)
      modifies this`sigs
      ensures r == Verdict(old(Abs()), cfg)
      ensures old(Match(Abs())) ==> Abs() == old(Abs())
    {
      if |sigs| < cfg.nmajority { return Ok(false); }
      ghost var c := Abs();
      for i := 0 to |rids|
        invariant Scan(c, cfg, i) == Scan(c, cfg, 0)
        invariant (forall k | k >= i :: SigAt(Abs(), k) == SigAt(c, k)) && (Match(c) ==> sigs == c.sigs)
      {
        if rids[i] {
          assert i in Signers(c);
          assert SigAt(Abs(), i) == SigAt(c, i);
          if i !in sigs { sigs := sigs[i := BLANK]; }
          if i >= cfg.nreplicas { return Err(NoSuchReplica); }
          if !cfg.good(i, objHash, sigs[i]) { return Ok(false); }
        }
      }
      return Ok(true);
    }

    /** The loop of the promise-based check: one task for each set bit, or an exception for a replica that is
        not known. Looking up a missing signature creates a blank one here too. */
    method SubmitTasks(cfg: Config) returns (r: Result<seq<nat>>)
      modifies this`sigs
      ensures r == Submitted(old(Abs()), cfg, |rids|)
      ensures r.Ok? ==> sigs.Keys == old(sigs).Keys + Signers(Abs())
      ensures r.Ok? ==> forall k :: SigAt(Abs(), k) == SigAt(old(Abs()), k)
      ensures old(Match(Abs())) ==> Abs() == old(Abs())
    {
      ghost var c := Abs();
      var ts: seq<nat> := [];
      for i := 0 to |rids|
        invariant Submitted(c, cfg, i) == Ok(ts)
        invariant forall k :: k in sigs <==> k in c.sigs || (0 <= k < i && rids[k])
        invariant (forall k :: SigAt(Abs(), k) == SigAt(c, k)) && (Match(c) ==> sigs == c.sigs)
      {
        if rids[i] {
          if i >= cfg.nreplicas { return Err(NoSuchReplica); }
          assert i in Signers(c);
          if i !in sigs { sigs := sigs[i := BLANK]; }
          ts := ts + [i];
        }
      }
      return Ok(ts);
    }
  }

  lemma {:induction false} WrittenStops(c: Cert, i: nat, n: nat)
    requires i <= n <= |c.bits| && Written(c, i) == Err(NoSignature)
    ensures Written(c, n) == Err(NoSignature)
    decreases n
  {
    if i < n { WrittenStops(c, i, n - 1); }
  }

  lemma {:induction false} ReadStops(sigs: map<nat, Sig>, bits: seq<bool>, i: nat, n: nat, stream: seq<Sig>)
    requires i <= n <= |bits| && Read(sigs, bits, i, stream) == Err(TooFewBytes)
    ensures Read(sigs, bits, n, stream) == Err(TooFewBytes)
    decreases n
  {
    if i < n { ReadStops(sigs, bits, i, n - 1, stream); }
  }
}

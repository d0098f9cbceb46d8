/** Promise handles: reference counts over copies, moves, swaps, assignments and destructions. */
module Handles {
  import opened Basics

  /** A handle's two pointers: the promise, null once moved from, and the counter that came with it. */
  datatype Handle = Handle(pm: Option<nat>, ref: nat)

  /** `counts` are the live counters, by promise; `freed` counts deletions; `next` numbers new promises;
      `wild` says that a deleted counter was touched. */
  datatype State = State(handles: map<nat, Handle>, counts: map<nat, nat>, freed: multiset<nat>, next: nat, wild: bool)

  const EMPTY: State := State(map[], map[], multiset{}, 0, false)

  /** `tmp` is the temporary of the copy-and-swap in the assignments. */
  datatype Op = New(h: nat) | Copy(h: nat, from: nat) | Move(h: nat, from: nat) | Swap(a: nat, b: nat)
              | CopyAssign(a: nat, from: nat, tmp: nat) | MoveAssign(a: nat, from: nat, tmp: nat) | Destroy(h: nat)

  /** The C++ object rules: a constructor makes a new object, everything else works on live ones. */
  predicate Legal(s: State, op: Op) {
    match op
    case New(h) => h !in s.handles
    case Copy(h, from) => h !in s.handles && from in s.handles
    case Move(h, from) => h !in s.handles && from in s.handles
    case Swap(a, b) => a in s.handles && b in s.handles
    case CopyAssign(a, from, tmp) => a in s.handles && from in s.handles && tmp !in s.handles
    case MoveAssign(a, from, tmp) => a in s.handles && from in s.handles && tmp !in s.handles
    case Destroy(h) => h in s.handles
  }

  function MakeNew(s: State, h: nat): State {
    s.(handles := s.handles[h := Handle(Some(s.next), s.next)], counts := s.counts[s.next := 1], next := s.next + 1)
  }

  /** The copy constructor counts up whatever the promise pointer is. */
  function MakeCopy(s: State, h: nat, x: Handle): State {
    if x.ref in s.counts then s.(handles := s.handles[h := x], counts := s.counts[x.ref := s.counts[x.ref] + 1])
    else s.(handles := s.handles[h := x], wild := true)
  }

  function MakeMove(s: State, h: nat, from: nat): State
    requires from in s.handles
  {
    var x := s.handles[from];
    s.(handles := s.handles[from := Handle(None, x.ref)][h := x])
  }

  function SwapThem(s: State, a: nat, b: nat): State
    requires a in s.handles && b in s.handles
  {
    s.(handles := s.handles[a := s.handles[b]][b := s.handles[a]])
  }

  /** The destructor. */
  function Unmake(s: State, h: nat): State
    requires h in s.handles
  {
    var x, t := s.handles[h], s.(handles := s.handles - {h});
    if x.pm == None then t
    else if x.ref !in s.counts || s.counts[x.ref] == 0 then t.(wild := true)
    else if s.counts[x.ref] > 1 then t.(counts := s.counts[x.ref := s.counts[x.ref] - 1])
    else t.(counts := s.counts - {x.ref}, freed := s.freed + multiset{x.ref})
  }

  function Step(s: State, op: Op): State
    requires Legal(s, op)
  {
    match op
    case New(h) => MakeNew(s, h)
    case Copy(h, from) => MakeCopy(s, h, s.handles[from])
    case Move(h, from) => MakeMove(s, h, from)
    case Swap(a, b) => SwapThem(s, a, b)
    case CopyAssign(a, from, tmp) =>
      if a == from then s else Unmake(SwapThem(MakeCopy(s, tmp, s.handles[from]), tmp, a), tmp)
    case MoveAssign(a, from, tmp) => if a == from then s else Unmake(SwapThem(MakeMove(s, tmp, from), tmp, a), tmp)
    case Destroy(h) => Unmake(s, h)
  }

  // ---- the invariant ----

  /** The live handles to promise `id`. */
  function Holders(handles: map<nat, Handle>, id: nat): set<nat> {
    set h | h in handles && handles[h].pm == Some(id)
  }

  /** The counter of a live promise is the number of its handles, and that is not zero; any other promise
      made so far has no handle and was freed once. */
  ghost predicate CountOk(handles: map<nat, Handle>, counts: map<nat, nat>, freed: multiset<nat>, next: nat, id: nat) {
    && (if id in counts then counts[id] == |Holders(handles, id)| > 0 else Holders(handles, id) == {})
    && (id in counts ==> id < next)
    && freed[id] == if id < next && id !in counts then 1 else 0
  }

  ghost predicate Inv(s: State) {
    && !s.wild
    && (forall h | h in s.handles && s.handles[h].pm.Some? :: s.handles[h].ref == s.handles[h].pm.value)
    && forall id {:trigger CountOk(s.handles, s.counts, s.freed, s.next, id)} ::
         CountOk(s.handles, s.counts, s.freed, s.next, id)
  }

  /** No moved-from handle is copied. */
  predicate Careful(s: State, op: Op)
    requires Legal(s, op)
  {
    match op
    case Copy(_, from) => s.handles[from].pm.Some?
    case CopyAssign(a, from, _) => a == from || s.handles[from].pm.Some?
    case _ => true
  }

  // ---- the parts of the operations ----

  /** One handle set to `x`: its promise has one holder more, the one it held before one less. */
  lemma PutCount(handles: map<nat, Handle>, h: nat, x: Handle, id: nat)
    ensures |Holders(handles[h := x], id)| == |Holders(handles, id)|
      - (if h in handles && handles[h].pm == Some(id) then 1 else 0) + if x.pm == Some(id) then 1 else 0
    ensures h in handles && handles[h].pm == Some(id) ==> |Holders(handles, id)| >= 1
  {
    var before, after := Holders(handles, id), Holders(handles[h := x], id);
    if x.pm == Some(id) {
      assert after == before + {h};
    } else {
      assert after == before - {h};
    }
    assert h in before <==> h in handles && handles[h].pm == Some(id);
  }

  lemma NewKeeps(s: State, h: nat)
    requires Inv(s) && h !in s.handles
    ensures Inv(MakeNew(s, h))
  {
    var t := MakeNew(s, h);
    forall id: nat ensures CountOk(t.handles, t.counts, t.freed, t.next, id) {
      assert CountOk(s.handles, s.counts, s.freed, s.next, id);
      PutCount(s.handles, h, t.handles[h], id);
    }
  }

  lemma CopyKeeps(s: State, h: nat, x: Handle)
    requires Inv(s) && h !in s.handles && x in s.handles.Values && x.pm.Some?
    ensures x.ref == x.pm.value && Inv(MakeCopy(s, h, x))
  {
    var from :| from in s.handles && s.handles[from] == x;
    assert from in Holders(s.handles, x.ref) && CountOk(s.handles, s.counts, s.freed, s.next, x.ref);
    var t := MakeCopy(s, h, x);
    forall id: nat ensures CountOk(t.handles, t.counts, t.freed, t.next, id) {
      assert CountOk(s.handles, s.counts, s.freed, s.next, id);
      PutCount(s.handles, h, x, id);
    }
  }

  lemma MoveKeeps(s: State, h: nat, from: nat)
    requires Inv(s) && h !in s.handles && from in s.handles
    ensures Inv(MakeMove(s, h, from))
  {
    var t := MakeMove(s, h, from);
    forall id: nat ensures CountOk(t.handles, t.counts, t.freed, t.next, id) {
      assert CountOk(s.handles, s.counts, s.freed, s.next, id);
      PutCount(s.handles, from, t.handles[from], id);
      PutCount(s.handles[from := t.handles[from]], h, s.handles[from], id);
    }
  }

  lemma SwapKeeps(s: State, a: nat, b: nat)
    requires Inv(s) && a in s.handles && b in s.handles
    ensures Inv(SwapThem(s, a, b))
  {
    var t := SwapThem(s, a, b);
    forall id: nat ensures CountOk(t.handles, t.counts, t.freed, t.next, id) {
      assert CountOk(s.handles, s.counts, s.freed, s.next, id);
      PutCount(s.handles, a, s.handles[b], id);
      PutCount(s.handles[a := s.handles[b]], b, s.handles[a], id);
    }
  }

  lemma DestroyKeeps(s: State, h: nat)
    requires Inv(s) && h in s.handles
    ensures Inv(Unmake(s, h))
  {
    var t, x := Unmake(s, h), s.handles[h];
    if x.pm.Some? {
      assert h in Holders(s.handles, x.ref) && CountOk(s.handles, s.counts, s.freed, s.next, x.ref);
    }
    forall id: nat ensures CountOk(t.handles, t.counts, t.freed, t.next, id) {
      assert CountOk(s.handles, s.counts, s.freed, s.next, id);
      assert Holders(t.handles, id) == Holders(s.handles, id) - if x.pm == Some(id) then {h} else {};
    }
  }

  lemma StepKeeps(s: State, op: Op)
    requires Inv(s) && Legal(s, op) && Careful(s, op)
    ensures Inv(Step(s, op))
  {
    match op {
      case New(h) => NewKeeps(s, h);
      case Copy(h, from) => CopyKeeps(s, h, s.handles[from]);
      case Move(h, from) => MoveKeeps(s, h, from);
      case Swap(a, b) => SwapKeeps(s, a, b);
      case CopyAssign(a, from, tmp) =>
        if a != from {
          CopyKeeps(s, tmp, s.handles[from]);
          var t := MakeCopy(s, tmp, s.handles[from]);
          SwapKeeps(t, tmp, a);
          DestroyKeeps(SwapThem(t, tmp, a), tmp);
        }
      case MoveAssign(a, from, tmp) =>
        if a != from {
          MoveKeeps(s, tmp, from);
          var t := MakeMove(s, tmp, from);
          SwapKeeps(t, tmp, a);
          DestroyKeeps(SwapThem(t, tmp, a), tmp);
        }
      case Destroy(h) => DestroyKeeps(s, h);
    }
  }

  // ---- runs ----

  ghost predicate AllLegal(s: State, ops: seq<Op>)
    decreases |ops|
  {
    ops == [] || (Legal(s, ops[0]) && AllLegal(Step(s, ops[0]), ops[1..]))
  }

  function Run(s: State, ops: seq<Op>): State
    requires AllLegal(s, ops)
    decreases |ops|
  {
    if ops == [] then s else Run(Step(s, ops[0]), ops[1..])
  }

  ghost predicate AllCareful(s: State, ops: seq<Op>)
    requires AllLegal(s, ops)
    decreases |ops|
  {
    ops == [] || (Careful(s, ops[0]) && AllCareful(Step(s, ops[0]), ops[1..]))
  }

  lemma {:induction false} RunKeeps(s: State, ops: seq<Op>)
    requires Inv(s) && AllLegal(s, ops) && AllCareful(s, ops)
    ensures Inv(Run(s, ops))
    decreases |ops|
  {
    if ops != [] {
      StepKeeps(s, ops[0]);
      RunKeeps(Step(s, ops[0]), ops[1..]);
    }
  }

  /** As long as no moved-from handle is copied, a promise's counter is the number of its live handles, it
      is freed when and only when the last of them goes, and then once; nothing deleted is touched. */
  lemma CountsRight(ops: seq<Op>, id: nat)
    requires AllLegal(EMPTY, ops) && AllCareful(EMPTY, ops)
    ensures var s := Run(EMPTY, ops);
      && !s.wild
      && (id in s.counts <==> Holders(s.handles, id) != {})
      && (id in s.counts ==> s.counts[id] == |Holders(s.handles, id)|)
      && s.freed[id] == (if id < s.next && Holders(s.handles, id) == {} then 1 else 0)
  {
    assert Inv(EMPTY) by {
      forall id: nat ensures CountOk(EMPTY.handles, EMPTY.counts, EMPTY.freed, EMPTY.next, id) {
        assert Holders(EMPTY.handles, id) == {};
      }
    }
    RunKeeps(EMPTY, ops);
    var s := Run(EMPTY, ops);
    assert CountOk(s.handles, s.counts, s.freed, s.next, id);
  }

  /** That condition is exact: copying a moved-from handle always breaks the counts, by touching a deleted
      counter or by making a live one too high. */
  lemma KeepsIffCareful(s: State, op: Op)
    requires Inv(s) && Legal(s, op)
    ensures Inv(Step(s, op)) <==> Careful(s, op)
  {
    if Careful(s, op) {
      StepKeeps(s, op);
    } else {
      var x := s.handles[op.from];
      if op.Copy? { NullCopy(s, op.h, x); } else { NullAssign(s, op.a, op.from, op.tmp); }
    }
  }

  lemma NullCopy(s: State, h: nat, x: Handle)
    requires Inv(s) && h !in s.handles && x.pm == None
    ensures !Inv(MakeCopy(s, h, x))
  {
    var t := MakeCopy(s, h, x);
    assert CountOk(s.handles, s.counts, s.freed, s.next, x.ref);
    assert Holders(t.handles, x.ref) == Holders(s.handles, x.ref);
    if !t.wild { assert !CountOk(t.handles, t.counts, t.freed, t.next, x.ref); }
  }

  lemma NullAssign(s: State, a: nat, from: nat, tmp: nat)
    requires Inv(s) && a in s.handles && from in s.handles && a != from && tmp !in s.handles
    requires s.handles[from].pm == None
    ensures !Inv(Step(s, CopyAssign(a, from, tmp)))
  {
    var x, y := s.handles[from], s.handles[a];
    var t := SwapThem(MakeCopy(s, tmp, x), tmp, a);
    var u := Unmake(t, tmp);
    assert CountOk(s.handles, s.counts, s.freed, s.next, x.ref);
    assert t.handles[tmp] == y && t.handles[a] == x;
    if !t.wild {
      var before, after := Holders(s.handles, x.ref), Holders(u.handles, x.ref);
      if y.pm == Some(x.ref) {
        assert a in before && after == before - {a};
      } else {
        assert after == before;
      }
      assert !u.wild ==> !CountOk(u.handles, u.counts, u.freed, u.next, x.ref);
    }
  }

  // ---- which promise a handle holds ----

  /** The promise each live handle holds. */
  function Pointers(s: State): map<nat, Option<nat>> {
    map h | h in s.handles :: s.handles[h].pm
  }

  /** What each operation means for plain variables, one promise a variable; `made` numbers new promises. */
  function Assigned(m: map<nat, Option<nat>>, made: nat, op: Op): map<nat, Option<nat>> {
    match op
    case New(h) => m[h := Some(made)]
    case Copy(h, from) => if from in m then m[h := m[from]] else m
    case Move(h, from) => if from in m then m[from := None][h := m[from]] else m
    case Swap(a, b) => if a in m && b in m then m[a := m[b]][b := m[a]] else m
    case CopyAssign(a, from, _) => if from in m then m[a := m[from]] else m
    case MoveAssign(a, from, _) => if from in m then m[from := None][a := m[from]] else m
    case Destroy(h) => m - {h}
  }

  /** A program of such operations over plain variables, and how many promises it has made. */
  function Plain(ops: seq<Op>): (map<nat, Option<nat>>, nat) {
    if ops == [] then (map[], 0)
    else
      var (m, made) := Plain(ops[..|ops| - 1]);
      var op := ops[|ops| - 1];
      (Assigned(m, made, op), if op.New? then made + 1 else made)
  }

  lemma CopyPoints(s: State, h: nat, x: Handle)
    ensures Pointers(MakeCopy(s, h, x)) == Pointers(s)[h := x.pm]
  {}

  lemma MovePoints(s: State, h: nat, from: nat)
    requires from in s.handles && h != from
    ensures Pointers(MakeMove(s, h, from)) == Pointers(s)[from := None][h := Pointers(s)[from]]
  {}

  lemma SwapPoints(s: State, a: nat, b: nat)
    requires a in s.handles && b in s.handles
    ensures Pointers(SwapThem(s, a, b)) == Pointers(s)[a := Pointers(s)[b]][b := Pointers(s)[a]]
  {}

  lemma UnmakePoints(s: State, h: nat)
    requires h in s.handles
    ensures Pointers(Unmake(s, h)) == Pointers(s) - {h} && Unmake(s, h).next == s.next
  {}

  /** The temporary of an assignment comes and goes. */
  lemma Temporary<T>(m: map<nat, T>, a: nat, tmp: nat, x: T)
    requires a in m && tmp !in m
    ensures var t := m[tmp := x]; t[tmp := t[a]][a := t[tmp]] - {tmp} == m[a := x]
  {}

  lemma CopyAssigns(s: State, a: nat, from: nat, tmp: nat)
    requires Legal(s, CopyAssign(a, from, tmp))
    ensures Pointers(Step(s, CopyAssign(a, from, tmp))) == Pointers(s)[a := Pointers(s)[from]]
  {
    if a == from {
      assert Pointers(s)[a := Pointers(s)[a]] == Pointers(s);
    } else {
      var t := MakeCopy(s, tmp, s.handles[from]);
      CopyPoints(s, tmp, s.handles[from]);
      SwapPoints(t, tmp, a);
      UnmakePoints(SwapThem(t, tmp, a), tmp);
      Temporary(Pointers(s), a, tmp, Pointers(s)[from]);
    }
  }

  lemma MoveAssigns(s: State, a: nat, from: nat, tmp: nat)
    requires Legal(s, MoveAssign(a, from, tmp))
    ensures Pointers(Step(s, MoveAssign(a, from, tmp))) == Pointers(s)[from := None][a := Pointers(s)[from]]
  {
    if a == from {
      assert Pointers(s)[a := None][a := Pointers(s)[a]] == Pointers(s);
    } else {
      var t := MakeMove(s, tmp, from);
      MovePoints(s, tmp, from);
      SwapPoints(t, tmp, a);
      UnmakePoints(SwapThem(t, tmp, a), tmp);
      Temporary(Pointers(s)[from := None], a, tmp, Pointers(s)[from]);
    }
  }

  lemma StepAssigns(s: State, op: Op)
    requires Legal(s, op)
    ensures Pointers(Step(s, op)) == Assigned(Pointers(s), s.next, op)
    ensures Step(s, op).next == if op.New? then s.next + 1 else s.next
  {
    match op {
      case New(h) =>
      case Copy(h, from) => CopyPoints(s, h, s.handles[from]);
      case Move(h, from) => MovePoints(s, h, from);
      case Swap(a, b) => SwapPoints(s, a, b);
      case CopyAssign(a, from, tmp) => CopyAssigns(s, a, from, tmp);
      case MoveAssign(a, from, tmp) => MoveAssigns(s, a, from, tmp);
      case Destroy(h) => UnmakePoints(s, h);
    }
  }

  lemma {:induction false} RunAssigns(s: State, before: seq<Op>, ops: seq<Op>)
    requires AllLegal(s, ops) && Plain(before) == (Pointers(s), s.next)
    ensures Plain(before + ops) == (Pointers(Run(s, ops)), Run(s, ops).next)
    decreases |ops|
  {
    if ops == [] {
      assert before + ops == before;
    } else {
      var more := before + [ops[0]];
      assert more[..|before|] == before && more + ops[1..] == before + ops;
      StepAssigns(s, ops[0]);
      RunAssigns(Step(s, ops[0]), more, ops[1..]);
    }
  }

  /** Counts, temporaries and moved-from pointers aside, handles are plain variables: over any legal run each holds
      the promise that plain assignment gives it. */
  lemma HandlesArePlain(ops: seq<Op>)
    requires AllLegal(EMPTY, ops)
    ensures Pointers(Run(EMPTY, ops)) == Plain(ops).0
  {
    assert Pointers(EMPTY) == map[];
    RunAssigns(EMPTY, [], ops);
    assert [] + ops == ops;
  }

  /** So after `ops` and then `a = b` handle `a` holds what `b` held, `b` still holds it unless it was moved from,
      and all others hold what they held, as with `swap`; and `a = a` changes nothing. */
  lemma AssignmentHolds(ops: seq<Op>, op: Op, h: nat)
    requires AllLegal(EMPTY, ops) && Legal(Run(EMPTY, ops), op)
    ensures var m, n := Pointers(Run(EMPTY, ops)), Pointers(Step(Run(EMPTY, ops), op));
      match op
      case New(a) => n.Keys == m.Keys + {a} && n[a].Some? && (h in m ==> n[h] == m[h] != n[a])
      case Copy(a, b) => n.Keys == m.Keys + {a} && n[a] == n[b] == m[b] && (h in m ==> n[h] == m[h])
      case Move(a, b) => n.Keys == m.Keys + {a} && n[a] == m[b] && n[b] == None && (h in m && h != b ==> n[h] == m[h])
      case Swap(a, b) =>
        n.Keys == m.Keys && n[a] == m[b] && n[b] == m[a] && (h in m && h != a && h != b ==> n[h] == m[h])
      case CopyAssign(a, b, _) =>
        n.Keys == m.Keys && n[a] == n[b] == m[b] && (h in m && h != a ==> n[h] == m[h]) && (a == b ==> n == m)
      case MoveAssign(a, b, _) =>
        n.Keys == m.Keys && n[a] == m[b] && (h in m && h != a && h != b ==> n[h] == m[h])
        && if a == b then n == m else n[b] == None
      case Destroy(a) => n.Keys == m.Keys - {a} && (h in m && h != a ==> n[h] == m[h])
  {
    StepAssigns(Run(EMPTY, ops), op);
    MadeBefore(EMPTY, ops);
  }

  /** No handle holds a promise that is not made yet. */
  ghost predicate AllMade(m: map<nat, Option<nat>>, made: nat) {
    forall h | h in m && m[h].Some? :: m[h].value < made
  }

  lemma {:induction false} MadeBefore(s: State, ops: seq<Op>)
    requires AllLegal(s, ops) && AllMade(Pointers(s), s.next)
    ensures AllMade(Pointers(Run(s, ops)), Run(s, ops).next)
    decreases |ops|
  {
    if ops != [] {
      StepAssigns(s, ops[0]);
      AssignedMade(Pointers(s), s.next, ops[0]);
      MadeBefore(Step(s, ops[0]), ops[1..]);
    }
  }

  lemma AssignedMade(m: map<nat, Option<nat>>, made: nat, op: Op)
    requires AllMade(m, made)
    ensures AllMade(Assigned(m, made, op), if op.New? then made + 1 else made)
  {}

  // ---- the code ----

  /** Handles and the promises they own. */
  class Arena {
    var handles: map<nat, Handle>
    var counts: map<nat, nat>
    var freed: multiset<nat>
    var next: nat
    var wild: bool

    ghost function Abs(): State
      reads this
    {
      State(handles, counts, freed, next, wild)
    }

    constructor ()
      ensures Abs() == EMPTY
    {
      handles, counts, freed, next, wild := map[], map[], multiset{}, 0, false;
    }

    method Create(h: nat)
      requires h !in handles
      modifies this
      ensures Abs() == Step(old(Abs()), New(h))
    {
      counts := counts[next := 1];
      handles := handles[h := Handle(Some(next), next)];
      next := next + 1;
    }

    method CopyFrom(h: nat, other: nat)
      requires h !in handles && other in handles
      modifies this
      ensures Abs() == Step(old(Abs()), Copy(h, other))
    {
      var x := handles[other];
      handles := handles[h := x];
      if x.ref in counts { counts := counts[x.ref := counts[x.ref] + 1]; } else { wild := true; }
    }

    method MoveFrom(h: nat, other: nat)
      requires h !in handles && other in handles
      modifies this
      ensures Abs() == Step(old(Abs()), Move(h, other))
    {
      var x := handles[other];
      handles := handles[other := Handle(None, x.ref)];
      handles := handles[h := x];
    }

    method SwapWith(a: nat, b: nat)
      requires a in handles && b in handles
      modifies this
      ensures Abs() == Step(old(Abs()), Swap(a, b))
      ensures handles[a] == old(handles[b]) && handles[b] == old(handles[a])
    {
      var x, y := handles[a], handles[b];
      handles := handles[a := y];
      handles := handles[b := x];
    }

    method Destruct(h: nat)
      requires h in handles
      modifies this
      ensures Abs() == Step(old(Abs()), Destroy(h))
    {
      var x := handles[h];
      handles := handles - {h};
      if x.pm.Some? {
        if x.ref !in counts || counts[x.ref] == 0 {
          wild := true;
        } else {
          counts := counts[x.ref := counts[x.ref] - 1];
          if counts[x.ref] == 0 {
            counts := counts - {x.ref};
            freed := freed + multiset{x.ref};
          }
          assert counts == Step(old(Abs()), Destroy(h)).counts;
        }
      }
    }

    method AssignCopy(a: nat, other: nat, tmp: nat)
      requires a in handles && other in handles && tmp !in handles
      modifies this
      ensures Abs() == Step(old(Abs()), CopyAssign(a, other, tmp))
      ensures Pointers(Abs()) == old(Pointers(Abs()))[a := old(handles[other].pm)]
    {
      CopyAssigns(Abs(), a, other, tmp);
      if a != other {
        CopyFrom(tmp, other);
        SwapWith(tmp, a);
        Destruct(tmp);
      }
    }

    method AssignMove(a: nat, other: nat, tmp: nat)
      requires a in handles && other in handles && tmp !in handles
      modifies this
      ensures Abs() == Step(old(Abs()), MoveAssign(a, other, tmp))
      ensures Pointers(Abs()) == old(Pointers(Abs()))[other := None][a := old(handles[other].pm)]
    {
      MoveAssigns(Abs(), a, other, tmp);
      if a != other {
        MoveFrom(tmp, other);
        SwapWith(tmp, a);
        Destruct(tmp);
      }
    }
  }
}

/** Block delivery: a block is delivered once it is fetched, verified, and all its parents are. */
module Delivery {
  import opened Blocks

  /** Who is called when a block is delivered: the join of a child block, or the handler of a proposal. */
  datatype Sub = Child(blk: Hash) | Prop(blk: Hash)

  /** A block that is fetched and verified (or not), with the number of parent promises still pending. */
  datatype Join = Join(missing: nat, valid: bool)

  /** Every block down to the genesis block has a parent. */
  predicate Rooted(h: Hash) {
    h.Genesis? || (h.wire.parents != [] && forall i | 0 <= i < |h.wire.parents| :: Rooted(h.wire.parents[i]))
  }

  /** `a` is `h` or one of its ancestors. */
  predicate Under(a: Hash, h: Hash) {
    a == h || (h.Of? && exists i | 0 <= i < |h.wire.parents| :: Under(a, h.wire.parents[i]))
  }

  /** All of `h` and its ancestors pass verification; the genesis block always does. */
  ghost predicate Sound(ok: Hash -> bool, h: Hash) {
    h.Genesis? || (ok(h) && forall i | 0 <= i < |h.wire.parents| :: Sound(ok, h.wire.parents[i]))
  }

  ghost predicate Below(roots: set<Hash>, a: Hash) {
    exists r :: r in roots && Under(a, r)
  }

  /** How many of the parents are not delivered. */
  function Missing(ps: seq<Hash>, delivered: set<Hash>): nat {
    if ps == [] then 0 else Missing(ps[..|ps| - 1], delivered) + if ps[|ps| - 1] in delivered then 0 else 1
  }

  lemma {:induction false} MissingDrops(ps: seq<Hash>, delivered: set<Hash>, h: Hash)
    requires h !in delivered
    ensures Missing(ps, delivered) == Missing(ps, delivered + {h}) + multiset(ps)[h]
  {
    if ps != [] {
      var m := |ps| - 1;
      assert ps == ps[..m] + [ps[m]];
      MissingDrops(ps[..m], delivered, h);
    }
  }

  lemma {:induction false} MissingNone(ps: seq<Hash>, delivered: set<Hash>)
    ensures Missing(ps, delivered) == 0 <==> forall p | p in ps :: p in delivered
  {
    if ps != [] {
      var m := |ps| - 1;
      assert ps == ps[..m] + [ps[m]];
      MissingNone(ps[..m], delivered);
    }
  }

  /** `all` subscribes the join of `h` to each parent promise that is pending. */
  function Attach(waiting: map<Hash, seq<Sub>>, ps: seq<Hash>, h: Hash, delivered: set<Hash>): (w: map<Hash, seq<Sub>>)
    ensures w.Keys == waiting.Keys
  {
    if ps == [] then waiting
    else
      var w, p := Attach(waiting, ps[..|ps| - 1], h, delivered), ps[|ps| - 1];
      if p in delivered || p !in w then w else w[p := w[p] + [Child(h)]]
  }

  lemma {:induction false} AttachNone(waiting: map<Hash, seq<Sub>>, ps: seq<Hash>, h: Hash, delivered: set<Hash>)
    requires Missing(ps, delivered) == 0
    ensures Attach(waiting, ps, h, delivered) == waiting
  {
    if ps != [] { AttachNone(waiting, ps[..|ps| - 1], h, delivered); }
  }

  lemma {:induction false} Attached(waiting: map<Hash, seq<Sub>>, ps: seq<Hash>, h: Hash, delivered: set<Hash>,
      p: Hash, s: Sub)
    requires p in waiting
    ensures multiset(Attach(waiting, ps, h, delivered)[p])[s]
      == multiset(waiting[p])[s] + if s == Child(h) && p !in delivered then multiset(ps)[p] else 0
  {
    if ps != [] {
      var m := |ps| - 1;
      assert ps == ps[..m] + [ps[m]];
      Attached(waiting, ps[..m], h, delivered, p, s);
    }
  }

  // ---- the machine ----

  /** `heights` is the heights delivery gave; `fetching` maps a hash with an open fetch entry to whether
      delivery continues when it is answered;
      `waiting` is `blk_delivery_waiting` with the callbacks of each promise; `handled` is the calls of
      `on_receive_proposal`; `alarm` says that "all parents must be delivered" has failed somewhere. */
  datatype State = State(stored: set<Hash>, delivered: set<Hash>, heights: map<Hash, nat>, fetching: map<Hash, bool>,
                         waiting: map<Hash, seq<Sub>>, joins: map<Hash, Join>, handled: seq<Hash>, alarm: bool)

  const EMPTY: State := State({Genesis}, {Genesis}, map[Genesis := 0], map[], map[], map[], [], false)

  /** What can still be delivered to waiting callbacks. */
  function Left(s: State): set<Hash> {
    s.waiting.Keys - s.delivered
  }

  /** `parents[0]->height + 1` */
  function HeightFor(heights: map<Hash, nat>, h: Hash): nat {
    if ParentHashes(h) == [] || ParentHashes(h)[0] !in heights then 0 else heights[ParentHashes(h)[0]] + 1
  }

  function Marked(s: State, h: Hash): State {
    s.(delivered := s.delivered + {h}, heights := s.heights[h := HeightFor(s.heights, h)],
       alarm := s.alarm || exists p | p in ParentHashes(h) :: p !in s.delivered)
  }

  function Erased(s: State, h: Hash): State {
    s.(waiting := s.waiting - {h})
  }

  lemma MarkedLeft(s: State, h: Hash)
    requires h !in s.delivered
    ensures if h in s.waiting then Left(Marked(s, h)) < Left(s) else Left(Marked(s, h)) == Left(s)
  {
    assert Left(Marked(s, h)) == Left(s) - {h};
  }

  lemma ErasedLeft(s: State, h: Hash)
    ensures Left(Erased(s, h)) <= Left(s)
  {}

  /** `E2CBase::on_deliver_blk`. A block that is already delivered has its promise rejected, which ends
      the joins that wait for it without a call. */
  function OnDeliver(s: State, h: Hash): (t: State)
    ensures Left(t) <= Left(s)
    decreases Left(s), 1, 0
  {
    if h in s.delivered then
      // its parents were delivered before it
      ErasedLeft(s, h);
      Erased(s, h)
    else if h !in s.waiting then
      MarkedLeft(s, h);
      Marked(s, h)
    else
      MarkedLeft(s, h);
      var t := CallAll(Marked(s, h), s.waiting[h]);
      ErasedLeft(t, h);
      Erased(t, h)
  }

  /** The callbacks of a promise run in the order they were attached. */
  function CallAll(s: State, subs: seq<Sub>): (t: State)
    ensures Left(t) <= Left(s)
    decreases Left(s), 3, |subs|
  {
    if subs == [] then s else CallAll(Call(s, subs[0]), subs[1..])
  }

  /** One parent less for a join; the last one delivers a block that passed verification. */
  function Call(s: State, sub: Sub): (t: State)
    ensures Left(t) <= Left(s)
    decreases Left(s), 2, 0
  {
    match sub
    case Prop(h) => s.(handled := s.handled + [h])
    case Child(c) =>
      if c !in s.joins || s.joins[c].missing == 0 then s
      else if s.joins[c].missing == 1 && s.joins[c].valid then OnDeliver(Unjoined(s, c), c)
      else Counted(s, c)
  }

  function Counted(s: State, c: Hash): State
    requires c in s.joins && s.joins[c].missing > 0
  {
    s.(joins := s.joins[c := Join(s.joins[c].missing - 1, s.joins[c].valid)])
  }

  function Unjoined(s: State, c: Hash): State {
    s.(joins := s.joins - {c})
  }

  function Waits(s: State, h: Hash): State {
    s.(waiting := s.waiting[h := []])
  }

  /** `async_deliver_blk` */
  function Request(ok: Hash -> bool, s: State, h: Hash): State
    decreases h, 1, 0
  {
    if h in s.delivered || h in s.waiting then s
    else if h in s.stored then Continue(ok, Waits(s, h), h)
    else Waits(s, h).(fetching := s.fetching[h := true])
  }

  function RequestAll(ok: Hash -> bool, s: State, h: Hash, i: nat): State
    requires i <= |ParentHashes(h)|
    decreases h, 0, i
  {
    if i == 0 then s else Request(ok, RequestAll(ok, s, h, i - 1), ParentHashes(h)[i - 1])
  }

  /** The callback of the fetch: verify, ask for the parents, and join their promises. */
  function Continue(ok: Hash -> bool, s: State, h: Hash): State
    decreases h, 0, |ParentHashes(h)| + 1
  {
    var t := RequestAll(ok, s, h, |ParentHashes(h)|);
    var m := Missing(ParentHashes(h), t.delivered);
    if m == 0 && ok(h) then OnDeliver(t, h) else Joined(t, h, Join(m, ok(h)))
  }

  function Joined(s: State, h: Hash, j: Join): State {
    s.(joins := s.joins[h := j], waiting := Attach(s.waiting, ParentHashes(h), h, s.delivered))
  }

  /** The callback of an answered fetch; the entry is erased after it ran. */
  function Answer(ok: Hash -> bool, s: State, h: Hash): State {
    if h !in s.fetching then s
    else
      var u := s.(fetching := s.fetching[h := false]);
      var v := if s.fetching[h] then Continue(ok, u, h) else u;
      v.(fetching := v.fetching - {h})
  }

  function AnswerAll(ok: Hash -> bool, s: State, blks: seq<Hash>): State {
    if blks == [] then s else Answer(ok, AnswerAll(ok, s, blks[..|blks| - 1]), blks[|blks| - 1])
  }

  datatype Event =
    | Proposal(blk: Hash)
    | Refused(blk: Hash)
    | Response(blks: seq<Hash>)
    | Want(blks: seq<Hash>)
    | Own(blk: Hash)

  /** `async_fetch_blk` without delivery: a block that is not stored gets a fetch entry. */
  function Fetch(s: State, h: Hash): State {
    if h in s.stored || h in s.fetching then s else s.(fetching := s.fetching[h := false])
  }

  function FetchAll(s: State, blks: seq<Hash>): State {
    if blks == [] then s else Fetch(FetchAll(s, blks[..|blks| - 1]), blks[|blks| - 1])
  }

  function Stored(s: State, more: set<Hash>): State {
    s.(stored := s.stored + more)
  }

  /** `Proposal` is `propose_handler` past its guards, `Refused` one that stops at them; `Response` is
      `resp_blk_handler`, which stores all blocks of the message before the first callback; `Want` a peer's
      request for blocks; `Own` the delivery of a block proposed here. */
  function Step(ok: Hash -> bool, s: State, e: Event): State {
    match e
    case Proposal(h) =>
      var t := Request(ok, Stored(s, {h}), h);
      if h in t.waiting then t.(waiting := t.waiting[h := t.waiting[h] + [Prop(h)]])
      else t.(handled := t.handled + [h])
    case Refused(h) => Stored(s, {h})
    case Response(blks) => AnswerAll(ok, Stored(s, set h | h in blks), blks)
    case Want(blks) => FetchAll(s, blks)
    case Own(h) =>
      if h in s.delivered then s
      else Stored(s, {h}).(delivered := s.delivered + {h}, heights := s.heights[h := HeightFor(s.heights, h)])
  }

  /** The guards of `propose_handler`: the stored object's height is not 0, and the proposer is the expected one. */
  predicate Passes(s: State, h: Hash, proposer: nat)
    requires h.Of?
  {
    (if h in s.heights then s.heights[h] else h.wire.height) != 0 && h.wire.proposer == proposer
  }

  // ---- the invariant, part by part ----

  /** Delivered blocks are fetched, verified, and have all parents delivered. */
  ghost predicate DeliverOk(ok: Hash -> bool, h: Hash, delivered: set<Hash>, stored: set<Hash>) {
    h in stored && (h.Of? ==> ok(h) && h.wire.parents != []) && forall p | p in ParentHashes(h) :: p in delivered
  }

  ghost predicate DeliveredOk(ok: Hash -> bool, delivered: set<Hash>, stored: set<Hash>) {
    && Genesis in delivered
    && forall h {:trigger DeliverOk(ok, h, delivered, stored)} | h in delivered :: DeliverOk(ok, h, delivered, stored)
  }

  /** The height of a delivered block is the one its first parents give. */
  ghost predicate HeightsOk(heights: map<Hash, nat>, delivered: set<Hash>) {
    heights.Keys == delivered && forall h | h in heights :: heights[h] == Depth(h)
  }

  /** A join counts its undelivered parents, plus the calls it is still owed; it is not over unless the
      block failed verification. */
  ghost predicate JoinOk(ok: Hash -> bool, c: Hash, j: Join, asked: set<Hash>, delivered: set<Hash>, stored: set<Hash>,
      calls: nat)
  {
    && c in stored && c in asked && c !in delivered && c.Of? && c.wire.parents != [] && j.valid == ok(c)
    && j.missing == Missing(ParentHashes(c), delivered) + calls && (j.missing == 0 ==> !j.valid)
    && forall p | p in ParentHashes(c) :: p in asked
  }

  ghost predicate JoinsOk(ok: Hash -> bool, joins: map<Hash, Join>, asked: set<Hash>, delivered: set<Hash>,
      stored: set<Hash>, owed: multiset<Sub>)
  {
    && (forall c {:trigger JoinOk(ok, c, joins[c], asked, delivered, stored, owed[Child(c)])} | c in joins ::
          JoinOk(ok, c, joins[c], asked, delivered, stored, owed[Child(c)]))
    && forall c :: owed[Child(c)] > 0 ==> c in joins
  }

  /** Each join is subscribed to each undelivered parent as often as it lists it. */
  ghost predicate SubOk(p: Hash, subs: seq<Sub>, joins: map<Hash, Join>) {
    && (forall c :: multiset(subs)[Child(c)] == if c in joins then multiset(ParentHashes(c))[p] else 0)
    && forall x | Prop(x) in subs :: x == p
  }

  ghost predicate SubsOk(waiting: map<Hash, seq<Sub>>, joins: map<Hash, Join>, delivered: set<Hash>) {
    forall p {:trigger SubOk(p, waiting[p], joins)} | p in waiting && p !in delivered :: SubOk(p, waiting[p], joins)
  }

  /** What is waiting and not joined has a fetch that will continue it, `open` blocks aside. */
  ghost predicate HooksOk(waits: set<Hash>, joins: map<Hash, Join>, fetching: map<Hash, bool>, open: set<Hash>) {
    && (forall h | h in waits :: h in joins || h in open || (h in fetching && fetching[h]))
    && (forall h | h in fetching && fetching[h] :: h in waits && h !in joins && h !in open)
    && forall h | h in open :: h in waits && h !in joins
  }

  /** Each proposal offered has been handled, after its block was delivered, or will be. */
  ghost predicate OffersOk(waiting: map<Hash, seq<Sub>>, delivered: set<Hash>, handled: seq<Hash>,
      offered: multiset<Hash>, owed: multiset<Sub>)
  {
    && (forall h | h in handled :: h in delivered)
    && forall h {:trigger offered[h]} ::
         offered[h] == multiset(handled)[h] + owed[Prop(h)] + Pending(waiting, delivered, h)
  }

  function Pending(waiting: map<Hash, seq<Sub>>, delivered: set<Hash>, h: Hash): nat {
    if h in waiting && h !in delivered then multiset(waiting[h])[Prop(h)] else 0
  }

  /** What is asked for is what was offered or proposed here, and its ancestors. */
  ghost predicate RootsOk(asked: set<Hash>, roots: set<Hash>) {
    forall h {:trigger Below(roots, h)} | h in asked :: Below(roots, h) && Rooted(h)
  }

  // ---- the parts, step by step ----

  lemma MarkDelivered(ok: Hash -> bool, delivered: set<Hash>, stored: set<Hash>, h: Hash)
    requires DeliveredOk(ok, delivered, stored) && DeliverOk(ok, h, delivered, stored)
    ensures DeliveredOk(ok, delivered + {h}, stored)
  {
    forall x | x in delivered + {h} ensures DeliverOk(ok, x, delivered + {h}, stored) {
      assert DeliverOk(ok, x, delivered, stored);
    }
  }

  lemma MarkHeights(heights: map<Hash, nat>, delivered: set<Hash>, h: Hash)
    requires HeightsOk(heights, delivered) && ParentHashes(h) != [] && ParentHashes(h)[0] in delivered
    ensures HeightsOk(heights[h := HeightFor(heights, h)], delivered + {h})
  {}

  /** A block becomes delivered: the joins below it are owed a call for each slot it fills. */
  lemma MarkJoins(ok: Hash -> bool, joins: map<Hash, Join>, asked: set<Hash>, delivered: set<Hash>, stored: set<Hash>,
      owed: multiset<Sub>, h: Hash, subs: seq<Sub>)
    requires JoinsOk(ok, joins, asked, delivered, stored, owed) && h !in delivered && h !in joins
    requires forall c :: multiset(subs)[Child(c)] == if c in joins then multiset(ParentHashes(c))[h] else 0
    ensures JoinsOk(ok, joins, asked, delivered + {h}, stored, owed + multiset(subs))
  {
    forall c | c in joins
      ensures JoinOk(ok, c, joins[c], asked, delivered + {h}, stored, (owed + multiset(subs))[Child(c)])
    {
      assert JoinOk(ok, c, joins[c], asked, delivered, stored, owed[Child(c)]);
      MissingDrops(ParentHashes(c), delivered, h);
    }
  }

  lemma MarkOffers(waiting: map<Hash, seq<Sub>>, delivered: set<Hash>, handled: seq<Hash>, offered: multiset<Hash>,
      owed: multiset<Sub>, h: Hash)
    requires OffersOk(waiting, delivered, handled, offered, owed) && h in waiting && h !in delivered
    requires forall x | Prop(x) in waiting[h] :: x == h
    ensures OffersOk(waiting, delivered + {h}, handled, offered, owed + multiset(waiting[h]))
  {
    forall x
      ensures (owed + multiset(waiting[h]))[Prop(x)] ==
        owed[Prop(x)] + if x == h then multiset(waiting[h])[Prop(h)] else 0
    {
      assert x != h ==> Prop(x) !in waiting[h];
    }
  }

  /** A join that is called has one call less to come. */
  lemma CallJoins(ok: Hash -> bool, joins: map<Hash, Join>, asked: set<Hash>, delivered: set<Hash>, stored: set<Hash>,
      owed: multiset<Sub>, c: Hash)
    requires JoinsOk(ok, joins, asked, delivered, stored, owed + multiset{Child(c)})
    ensures c in joins && joins[c].missing >= 1
    ensures joins[c].missing != 1 || !joins[c].valid ==>
      JoinsOk(ok, joins[c := Join(joins[c].missing - 1, joins[c].valid)], asked, delivered, stored, owed)
  {
    var more := owed + multiset{Child(c)};
    assert more[Child(c)] == owed[Child(c)] + 1;
    assert JoinOk(ok, c, joins[c], asked, delivered, stored, more[Child(c)]);
    forall x ensures x != c ==> more[Child(x)] == owed[Child(x)] {}
    var j := Join(joins[c].missing - 1, joins[c].valid);
    if joins[c].missing != 1 || !joins[c].valid { assert JoinOk(ok, c, j, asked, delivered, stored, owed[Child(c)]); }
  }

  /** The last call to the join of a verified block: all its parents are delivered. */
  lemma LastCall(ok: Hash -> bool, joins: map<Hash, Join>, asked: set<Hash>, delivered: set<Hash>, stored: set<Hash>,
      owed: multiset<Sub>, c: Hash)
    requires JoinsOk(ok, joins, asked, delivered, stored, owed + multiset{Child(c)}) && c in joins
    requires joins[c].missing == 1 && joins[c].valid
    ensures JoinsOk(ok, joins - {c}, asked, delivered, stored, owed)
    ensures ok(c) && c in stored && c.Of? && c.wire.parents != [] && c in asked && c !in delivered
    ensures forall p | p in ParentHashes(c) :: p in delivered
  {
    var more := owed + multiset{Child(c)};
    assert more[Child(c)] == owed[Child(c)] + 1;
    assert JoinOk(ok, c, joins[c], asked, delivered, stored, more[Child(c)]);
    forall x ensures x != c ==> more[Child(x)] == owed[Child(x)] {}
    MissingNone(ParentHashes(c), delivered);
  }

  lemma CallOffers(waiting: map<Hash, seq<Sub>>, delivered: set<Hash>, handled: seq<Hash>, offered: multiset<Hash>,
      owed: multiset<Sub>, h: Hash)
    requires OffersOk(waiting, delivered, handled, offered, owed + multiset{Prop(h)}) && h in delivered
    ensures OffersOk(waiting, delivered, handled + [h], offered, owed)
  {
    assert multiset(handled + [h]) == multiset(handled) + multiset{h};
  }

  lemma PropJoins(ok: Hash -> bool, joins: map<Hash, Join>, asked: set<Hash>, delivered: set<Hash>, stored: set<Hash>,
      owed: multiset<Sub>, h: Hash)
    requires JoinsOk(ok, joins, asked, delivered, stored, owed + multiset{Prop(h)})
    ensures JoinsOk(ok, joins, asked, delivered, stored, owed)
  {
    forall c ensures (owed + multiset{Prop(h)})[Child(c)] == owed[Child(c)] {}
  }

  lemma ChildOffers(waiting: map<Hash, seq<Sub>>, delivered: set<Hash>, handled: seq<Hash>, offered: multiset<Hash>,
      owed: multiset<Sub>, c: Hash)
    requires OffersOk(waiting, delivered, handled, offered, owed + multiset{Child(c)})
    ensures OffersOk(waiting, delivered, handled, offered, owed)
  {
    forall h ensures (owed + multiset{Child(c)})[Prop(h)] == owed[Prop(h)] {}
  }

  /** With all its parents delivered a join has no subscription left. */
  lemma UnjoinSubs(waiting: map<Hash, seq<Sub>>, joins: map<Hash, Join>, delivered: set<Hash>, c: Hash)
    requires SubsOk(waiting, joins, delivered) && forall p | p in ParentHashes(c) :: p in delivered
    ensures SubsOk(waiting, joins - {c}, delivered)
  {
    forall p | p in waiting && p !in delivered ensures SubOk(p, waiting[p], joins - {c}) {
      assert SubOk(p, waiting[p], joins);
    }
  }

  lemma SameJoinsSubs(waiting: map<Hash, seq<Sub>>, joins: map<Hash, Join>, joins': map<Hash, Join>,
      delivered: set<Hash>)
    requires SubsOk(waiting, joins, delivered) && joins'.Keys == joins.Keys
    ensures SubsOk(waiting, joins', delivered)
  {
    forall p | p in waiting && p !in delivered ensures SubOk(p, waiting[p], joins') {
      assert SubOk(p, waiting[p], joins);
    }
  }

  lemma FewerSubs(waiting: map<Hash, seq<Sub>>, joins: map<Hash, Join>, delivered: set<Hash>,
      waiting': map<Hash, seq<Sub>>, delivered': set<Hash>)
    requires SubsOk(waiting, joins, delivered)
    requires forall p | p in waiting' && p !in delivered' ::
      p in waiting && p !in delivered && waiting'[p] == waiting[p]
    ensures SubsOk(waiting', joins, delivered')
  {
    forall p | p in waiting' && p !in delivered' ensures SubOk(p, waiting'[p], joins) {
      assert SubOk(p, waiting[p], joins);
    }
  }

  lemma EraseOffers(waiting: map<Hash, seq<Sub>>, delivered: set<Hash>, handled: seq<Hash>, offered: multiset<Hash>,
      owed: multiset<Sub>, h: Hash)
    requires OffersOk(waiting, delivered, handled, offered, owed) && h in delivered
    ensures OffersOk(waiting - {h}, delivered, handled, offered, owed)
  {
    forall x ensures (x in waiting - {h} && x !in delivered) <==> (x in waiting && x !in delivered) {}
  }

  // ---- wake-ups keep the invariant ----

  /** `open` are blocks whose continuation is running, `owed` the calls still to be made, `busy` the blocks
      delivered whose entry is not erased yet; `offered` are the proposals received so far and `roots` all
      blocks asked for from outside. */
  datatype Ctx = Ctx(open: set<Hash>, owed: multiset<Sub>, busy: set<Hash>, offered: multiset<Hash>, roots: set<Hash>)

  function Asked(s: State): set<Hash> {
    s.waiting.Keys + s.delivered
  }

  ghost predicate Mid(ok: Hash -> bool, s: State, x: Ctx) {
    && !s.alarm && DeliveredOk(ok, s.delivered, s.stored) && HeightsOk(s.heights, s.delivered)
    && JoinsOk(ok, s.joins, Asked(s), s.delivered, s.stored, x.owed)
    && SubsOk(s.waiting, s.joins, s.delivered)
    && HooksOk(s.waiting.Keys - s.delivered, s.joins, s.fetching, x.open)
    && OffersOk(s.waiting, s.delivered, s.handled, x.offered, x.owed)
    && RootsOk(Asked(s), x.roots)
    && s.waiting.Keys * s.delivered == x.busy
  }

  /** How wake-ups move the state. */
  ghost predicate Woken(s: State, t: State) {
    && t.stored == s.stored && t.fetching == s.fetching && s.delivered <= t.delivered
    && t.waiting.Keys <= s.waiting.Keys && Asked(t) == Asked(s)
  }

  predicate CanDeliver(ok: Hash -> bool, s: State, h: Hash) {
    && h in s.stored && h in s.waiting && h !in s.delivered && ok(h) && h.Of? && h.wire.parents != []
    && forall p | p in ParentHashes(h) :: p in s.delivered
  }

  lemma MarkKeeps(ok: Hash -> bool, s: State, x: Ctx, h: Hash)
    requires Mid(ok, s, x) && CanDeliver(ok, s, h) && h in x.open
    ensures Mid(ok, Marked(s, h),
      x.(open := x.open - {h}, owed := x.owed + multiset(s.waiting[h]), busy := x.busy + {h}))
    ensures Woken(s, Marked(s, h)) && h !in x.busy && forall sub | sub in s.waiting[h] && sub.Prop? :: sub.blk == h
  {
    assert SubOk(h, s.waiting[h], s.joins);
    MarkDelivered(ok, s.delivered, s.stored, h);
    MarkHeights(s.heights, s.delivered, h);
    assert Asked(Marked(s, h)) == Asked(s);
    MarkJoins(ok, s.joins, Asked(s), s.delivered, s.stored, x.owed, h, s.waiting[h]);
    MarkOffers(s.waiting, s.delivered, s.handled, x.offered, x.owed, h);
    FewerSubs(s.waiting, s.joins, s.delivered, s.waiting, s.delivered + {h});
  }

  lemma EraseKeeps(ok: Hash -> bool, s: State, x: Ctx, h: Hash)
    requires Mid(ok, s, x) && h in s.delivered
    ensures Mid(ok, Erased(s, h), x.(busy := x.busy - {h})) && Woken(s, Erased(s, h))
  {
    assert Asked(Erased(s, h)) == Asked(s) && Erased(s, h).waiting.Keys - s.delivered == s.waiting.Keys - s.delivered;
    FewerSubs(s.waiting, s.joins, s.delivered, Erased(s, h).waiting, s.delivered);
    EraseOffers(s.waiting, s.delivered, s.handled, x.offered, x.owed, h);
  }

  lemma UnjoinKeeps(ok: Hash -> bool, s: State, x: Ctx, c: Hash)
    requires Mid(ok, s, x.(owed := x.owed + multiset{Child(c)})) && c in s.joins && s.joins[c].missing == 1
    requires s.joins[c].valid
    ensures c !in x.open && CanDeliver(ok, s, c) && Mid(ok, Unjoined(s, c), x.(open := x.open + {c}))
  {
    LastCall(ok, s.joins, Asked(s), s.delivered, s.stored, x.owed, c);
    ChildOffers(s.waiting, s.delivered, s.handled, x.offered, x.owed, c);
    UnjoinSubs(s.waiting, s.joins, s.delivered, c);
  }

  lemma CountKeeps(ok: Hash -> bool, s: State, x: Ctx, c: Hash)
    requires Mid(ok, s, x.(owed := x.owed + multiset{Child(c)}))
    ensures c in s.joins && s.joins[c].missing >= 1
    ensures Woken(s, Counted(s, c)) && (s.joins[c].missing != 1 || !s.joins[c].valid ==> Mid(ok, Counted(s, c), x))
  {
    CallJoins(ok, s.joins, Asked(s), s.delivered, s.stored, x.owed, c);
    ChildOffers(s.waiting, s.delivered, s.handled, x.offered, x.owed, c);
    SameJoinsSubs(s.waiting, s.joins, Counted(s, c).joins, s.delivered);
  }

  lemma HandleKeeps(ok: Hash -> bool, s: State, x: Ctx, h: Hash)
    requires Mid(ok, s, x.(owed := x.owed + multiset{Prop(h)})) && h in s.delivered
    ensures Mid(ok, s.(handled := s.handled + [h]), x)
  {
    CallOffers(s.waiting, s.delivered, s.handled, x.offered, x.owed, h);
    PropJoins(ok, s.joins, Asked(s), s.delivered, s.stored, x.owed, h);
  }

  lemma {:induction false} OnDeliverKeeps(ok: Hash -> bool, s: State, x: Ctx, h: Hash)
    requires Mid(ok, s, x) && CanDeliver(ok, s, h) && h in x.open
    ensures Mid(ok, OnDeliver(s, h), x.(open := x.open - {h})) && Woken(s, OnDeliver(s, h))
    ensures h in OnDeliver(s, h).delivered
    decreases Left(s), 1, 0
  {
    var subs, y := s.waiting[h], x.(open := x.open - {h}, busy := x.busy + {h});
    MarkKeeps(ok, s, x, h);
    MarkedLeft(s, h);
    CallAllKeeps(ok, Marked(s, h), y, subs);
    EraseKeeps(ok, CallAll(Marked(s, h), subs), y, h);
    assert x.busy + {h} - {h} == x.busy;
  }

  lemma {:induction false} CallAllKeeps(ok: Hash -> bool, s: State, x: Ctx, subs: seq<Sub>)
    requires Mid(ok, s, x.(owed := x.owed + multiset(subs)))
    requires forall sub | sub in subs && sub.Prop? :: sub.blk in s.delivered
    ensures Mid(ok, CallAll(s, subs), x) && Woken(s, CallAll(s, subs))
    decreases Left(s), 3, |subs|
  {
    if subs == [] {
      assert x.owed + multiset(subs) == x.owed;
    } else {
      var y := x.(owed := x.owed + multiset(subs[1..]));
      FirstOwed(x.owed, subs);
      CallKeeps(ok, s, y, subs[0]);
      CallAllKeeps(ok, Call(s, subs[0]), x, subs[1..]);
    }
  }

  lemma FirstOwed(owed: multiset<Sub>, subs: seq<Sub>)
    requires subs != []
    ensures owed + multiset(subs) == owed + multiset(subs[1..]) + multiset{subs[0]}
  {
    assert subs == [subs[0]] + subs[1..];
  }

  lemma {:induction false} CallKeeps(ok: Hash -> bool, s: State, x: Ctx, sub: Sub)
    requires Mid(ok, s, x.(owed := x.owed + multiset{sub})) && (sub.Prop? ==> sub.blk in s.delivered)
    ensures Mid(ok, Call(s, sub), x) && Woken(s, Call(s, sub))
    decreases Left(s), 2, 0
  {
    match sub {
      case Prop(h) => HandleKeeps(ok, s, x, h);
      case Child(c) =>
        CountKeeps(ok, s, x, c);
        if s.joins[c].missing == 1 && s.joins[c].valid { LastCallKeeps(ok, s, x, c); }
    }
  }

  lemma {:induction false} LastCallKeeps(ok: Hash -> bool, s: State, x: Ctx, c: Hash)
    requires Mid(ok, s, x.(owed := x.owed + multiset{Child(c)})) && c in s.joins && s.joins[c].missing == 1
    requires s.joins[c].valid
    ensures Mid(ok, OnDeliver(Unjoined(s, c), c), x) && Woken(s, OnDeliver(Unjoined(s, c), c))
    decreases Left(s), 1, 1
  {
    UnjoinKeeps(ok, s, x, c);
    assert x.open + {c} - {c} == x.open;
    OnDeliverKeeps(ok, Unjoined(s, c), x.(open := x.open + {c}), c);
  }

  // ---- requests keep the invariant ----

  /** How requests move the state: only blocks not stored get a new fetch entry. */
  ghost predicate Grown(s: State, t: State) {
    && t.stored == s.stored && s.delivered <= t.delivered && Asked(s) <= Asked(t) && s.fetching.Keys <= t.fetching.Keys
    && forall f | f in t.fetching :: f in s.fetching || f !in s.stored
  }

  lemma WokenGrown(s: State, t: State)
    requires Woken(s, t)
    ensures Grown(s, t)
  {}

  lemma {:induction false} ParentUnder(a: Hash, i: nat, h: Hash)
    requires a.Of? && i < |a.wire.parents| && Under(a, h)
    ensures Under(a.wire.parents[i], h)
    decreases h
  {
    if a == h {
      assert Under(h.wire.parents[i], h.wire.parents[i]);
    } else {
      var j :| 0 <= j < |h.wire.parents| && Under(a, h.wire.parents[j]);
      ParentUnder(a, i, h.wire.parents[j]);
    }
  }

  lemma ParentBelow(roots: set<Hash>, h: Hash, i: nat)
    requires i < |ParentHashes(h)| && Below(roots, h) && Rooted(h)
    ensures Below(roots, ParentHashes(h)[i]) && Rooted(ParentHashes(h)[i])
  {
    var r :| r in roots && Under(h, r);
    ParentUnder(h, i, r);
  }

  lemma AskedJoins(ok: Hash -> bool, joins: map<Hash, Join>, asked: set<Hash>, more: set<Hash>, delivered: set<Hash>,
      stored: set<Hash>, owed: multiset<Sub>)
    requires JoinsOk(ok, joins, asked, delivered, stored, owed) && asked <= more
    ensures JoinsOk(ok, joins, more, delivered, stored, owed)
  {
    forall c | c in joins ensures JoinOk(ok, c, joins[c], more, delivered, stored, owed[Child(c)]) {
      assert JoinOk(ok, c, joins[c], asked, delivered, stored, owed[Child(c)]);
    }
  }

  lemma AskedSubs(ok: Hash -> bool, s: State, owed: multiset<Sub>, h: Hash)
    requires JoinsOk(ok, s.joins, Asked(s), s.delivered, s.stored, owed) && SubsOk(s.waiting, s.joins, s.delivered)
    requires h !in Asked(s)
    ensures SubsOk(s.waiting[h := []], s.joins, s.delivered)
  {
    forall c | c in s.joins ensures multiset(ParentHashes(c))[h] == 0 {
      assert JoinOk(ok, c, s.joins[c], Asked(s), s.delivered, s.stored, owed[Child(c)]);
    }
    forall p | p in s.waiting[h := []] && p !in s.delivered ensures SubOk(p, s.waiting[h := []][p], s.joins) {
      if p != h { assert SubOk(p, s.waiting[p], s.joins); }
    }
  }

  lemma AskedOffers(waiting: map<Hash, seq<Sub>>, delivered: set<Hash>, handled: seq<Hash>, offered: multiset<Hash>,
      owed: multiset<Sub>, h: Hash)
    requires OffersOk(waiting, delivered, handled, offered, owed) && h !in waiting
    ensures OffersOk(waiting[h := []], delivered, handled, offered, owed)
  {
    forall x ensures Pending(waiting[h := []], delivered, x) == Pending(waiting, delivered, x) {}
  }

  lemma AskedRoots(asked: set<Hash>, roots: set<Hash>, h: Hash)
    requires RootsOk(asked, roots) && Below(roots, h) && Rooted(h)
    ensures RootsOk(asked + {h}, roots)
  {
    forall x | x in asked + {h} ensures Below(roots, x) && Rooted(x) { assert x in asked ==> Below(roots, x); }
  }

  lemma WaitsKeeps(ok: Hash -> bool, s: State, x: Ctx, h: Hash)
    requires Mid(ok, s, x) && h !in Asked(s) && Rooted(h) && Below(x.roots, h)
    ensures Mid(ok, Waits(s, h), x.(open := x.open + {h})) && Grown(s, Waits(s, h)) && h !in x.open
  {
    var t := Waits(s, h);
    assert Asked(t) == Asked(s) + {h} && t.waiting.Keys - t.delivered == s.waiting.Keys - s.delivered + {h};
    assert t.waiting.Keys * t.delivered == s.waiting.Keys * s.delivered;
    assert h in s.joins ==> JoinOk(ok, h, s.joins[h], Asked(s), s.delivered, s.stored, x.owed[Child(h)]);
    AskedJoins(ok, s.joins, Asked(s), Asked(t), s.delivered, s.stored, x.owed);
    AskedSubs(ok, s, x.owed, h);
    AskedOffers(s.waiting, s.delivered, s.handled, x.offered, x.owed, h);
    AskedRoots(Asked(s), x.roots, h);
  }

  lemma HookKeeps(ok: Hash -> bool, s: State, x: Ctx, h: Hash)
    requires Mid(ok, s, x) && h in x.open
    ensures Mid(ok, s.(fetching := s.fetching[h := true]), x.(open := x.open - {h}))
  {}

  lemma JoinedSubs(t: State, h: Hash, j: Join)
    requires SubsOk(t.waiting, t.joins, t.delivered) && h !in t.joins
    ensures SubsOk(Joined(t, h, j).waiting, Joined(t, h, j).joins, t.delivered)
  {
    var w, js := Joined(t, h, j).waiting, Joined(t, h, j).joins;
    forall p | p in w && p !in t.delivered ensures SubOk(p, w[p], js) {
      assert SubOk(p, t.waiting[p], t.joins);
      forall sub
        ensures multiset(w[p])[sub] ==
          multiset(t.waiting[p])[sub] + if sub == Child(h) then multiset(ParentHashes(h))[p] else 0
      {
        Attached(t.waiting, ParentHashes(h), h, t.delivered, p, sub);
      }
      forall x | Prop(x) in w[p] ensures x == p {
        assert multiset(w[p])[Prop(x)] == multiset(t.waiting[p])[Prop(x)];
      }
    }
  }

  lemma JoinedOffers(t: State, h: Hash, j: Join, offered: multiset<Hash>, owed: multiset<Sub>)
    requires OffersOk(t.waiting, t.delivered, t.handled, offered, owed)
    ensures OffersOk(Joined(t, h, j).waiting, t.delivered, t.handled, offered, owed)
  {
    forall x ensures Pending(Joined(t, h, j).waiting, t.delivered, x) == Pending(t.waiting, t.delivered, x) {
      if x in t.waiting { Attached(t.waiting, ParentHashes(h), h, t.delivered, x, Prop(x)); }
    }
  }

  lemma JoinedJoins(ok: Hash -> bool, t: State, h: Hash, j: Join, owed: multiset<Sub>)
    requires JoinsOk(ok, t.joins, Asked(t), t.delivered, t.stored, owed) && owed == multiset{}
    requires JoinOk(ok, h, j, Asked(t), t.delivered, t.stored, 0)
    ensures JoinsOk(ok, t.joins[h := j], Asked(t), t.delivered, t.stored, owed)
  {
    forall c | c in t.joins[h := j]
      ensures JoinOk(ok, c, t.joins[h := j][c], Asked(t), t.delivered, t.stored, owed[Child(c)])
    {
      if c != h { assert JoinOk(ok, c, t.joins[c], Asked(t), t.delivered, t.stored, owed[Child(c)]); }
    }
  }

  lemma JoinedKeeps(ok: Hash -> bool, t: State, x: Ctx, h: Hash, j: Join)
    requires Mid(ok, t, x) && x.owed == multiset{} && h in x.open
    requires JoinOk(ok, h, j, Asked(t), t.delivered, t.stored, 0)
    ensures Mid(ok, Joined(t, h, j), x.(open := x.open - {h})) && Grown(t, Joined(t, h, j))
  {
    JoinedJoins(ok, t, h, j, x.owed);
    JoinedSubs(t, h, j);
    JoinedOffers(t, h, j, x.offered, x.owed);
  }

  lemma {:induction false} RequestKeeps(ok: Hash -> bool, s: State, x: Ctx, h: Hash)
    requires Mid(ok, s, x) && x.owed == multiset{} && Rooted(h) && Below(x.roots, h)
    ensures Mid(ok, Request(ok, s, h), x) && Grown(s, Request(ok, s, h)) && h in Asked(Request(ok, s, h))
    decreases h, 1, 0
  {
    if h !in s.delivered && h !in s.waiting {
      WaitsKeeps(ok, s, x, h);
      var y := x.(open := x.open + {h});
      assert x.open + {h} - {h} == x.open;
      if h in s.stored {
        assert h != Genesis;
        ContinueKeeps(ok, Waits(s, h), y, h);
      } else {
        HookKeeps(ok, Waits(s, h), y, h);
      }
    }
  }

  /** After the first `i` parents were asked for. */
  ghost predicate Asking(ok: Hash -> bool, s: State, t: State, x: Ctx, ps: seq<Hash>, i: nat) {
    Mid(ok, t, x) && Grown(s, t) && FirstAsked(t, ps, i)
  }

  lemma {:induction false} RequestAllKeeps(ok: Hash -> bool, s: State, x: Ctx, h: Hash, i: nat)
    requires Mid(ok, s, x) && x.owed == multiset{} && Rooted(h) && Below(x.roots, h) && i <= |ParentHashes(h)|
    ensures Asking(ok, s, RequestAll(ok, s, h, i), x, ParentHashes(h), i)
    decreases h, 0, 2 * i
  {
    if i == 0 {
      NoneAsked(s, ParentHashes(h));
    } else {
      RequestAllKeeps(ok, s, x, h, i - 1);
      NextKeeps(ok, s, x, h, i - 1, RequestAll(ok, s, h, i - 1));
    }
  }

  lemma NoneAsked(s: State, ps: seq<Hash>)
    ensures Grown(s, s) && FirstAsked(s, ps, 0)
  {}

  lemma {:induction false} NextKeeps(ok: Hash -> bool, s: State, x: Ctx, h: Hash, i: nat, t: State)
    requires x.owed == multiset{} && Rooted(h) && Below(x.roots, h) && i < |ParentHashes(h)|
    requires Asking(ok, s, t, x, ParentHashes(h), i)
    ensures Asking(ok, s, Request(ok, t, ParentHashes(h)[i]), x, ParentHashes(h), i + 1)
    decreases h, 0, 2 * i + 1
  {
    var p := ParentHashes(h)[i];
    ParentBelow(x.roots, h, i);
    RequestKeeps(ok, t, x, p);
    GrownOn(s, t, Request(ok, t, p), ParentHashes(h), i);
  }

  ghost predicate FirstAsked(s: State, ps: seq<Hash>, i: nat) {
    i <= |ps| && forall p | p in ps[..i] :: p in Asked(s)
  }

  lemma GrownOn(s: State, t: State, u: State, ps: seq<Hash>, i: nat)
    requires Grown(s, t) && Grown(t, u) && i < |ps| && ps[i] in Asked(u) && FirstAsked(t, ps, i)
    ensures Grown(s, u) && FirstAsked(u, ps, i + 1)
  {
    assert ps[..i + 1] == ps[..i] + [ps[i]];
  }

  lemma {:induction false} ContinueKeeps(ok: Hash -> bool, s: State, x: Ctx, h: Hash)
    requires Mid(ok, s, x) && x.owed == multiset{} && h in x.open && h in s.stored && h != Genesis
    ensures Mid(ok, Continue(ok, s, h), x.(open := x.open - {h})) && Grown(s, Continue(ok, s, h))
    ensures h in Continue(ok, s, h).delivered || h in Continue(ok, s, h).joins
    decreases h, 0, 2 * |ParentHashes(h)| + 1
  {
    assert h in Asked(s) && Below(x.roots, h);
    RequestAllKeeps(ok, s, x, h, |ParentHashes(h)|);
    var t := RequestAll(ok, s, h, |ParentHashes(h)|);
    assert ParentHashes(h)[..|ParentHashes(h)|] == ParentHashes(h);
    MissingNone(ParentHashes(h), t.delivered);
    var m := Missing(ParentHashes(h), t.delivered);
    if m == 0 && ok(h) {
      OnDeliverKeeps(ok, t, x, h);
      WokenGrown(t, OnDeliver(t, h));
    } else {
      JoinedKeeps(ok, t, x, h, Join(m, ok(h)));
    }
  }

  // ---- events and runs ----

  /** What the environment is held to: blocks have parents down to the genesis block, and a block proposed
      here extends delivered blocks, is correctly signed, and is not being waited for. */
  ghost predicate Allowed(ok: Hash -> bool, s: State, e: Event) {
    match e
    case Proposal(h) => h.Of? && Rooted(h)
    case Refused(h) => h.Of?
    case Own(h) => h.Of? && Rooted(h) && ok(h) && h !in s.waiting && forall p | p in ParentHashes(h) :: p in s.delivered
    case _ => true
  }

  function Run(ok: Hash -> bool, s: State, events: seq<Event>): State
    decreases |events|
  {
    if events == [] then s else Run(ok, Step(ok, s, events[0]), events[1..])
  }

  ghost predicate AllAllowed(ok: Hash -> bool, s: State, events: seq<Event>)
    decreases |events|
  {
    events == [] || (Allowed(ok, s, events[0]) && AllAllowed(ok, Step(ok, s, events[0]), events[1..]))
  }

  function OfferedBy(e: Event): multiset<Hash> {
    if e.Proposal? then multiset{e.blk} else multiset{}
  }

  function RootsBy(e: Event): set<Hash> {
    if e.Proposal? || e.Own? then {e.blk} else {}
  }

  /** How often each proposal was received, and what was asked for from outside. */
  function Offered(events: seq<Event>): multiset<Hash> {
    if events == [] then multiset{} else OfferedBy(events[0]) + Offered(events[1..])
  }

  function Roots(events: seq<Event>): set<Hash> {
    if events == [] then {Genesis} else RootsBy(events[0]) + Roots(events[1..])
  }

  /** Between events. */
  ghost predicate Valid(ok: Hash -> bool, s: State, offered: multiset<Hash>, roots: set<Hash>) {
    Mid(ok, s, Ctx({}, multiset{}, {}, offered, roots)) && roots <= Asked(s)
  }

  lemma StoreKeeps(ok: Hash -> bool, s: State, x: Ctx, more: set<Hash>)
    requires Mid(ok, s, x)
    ensures Mid(ok, Stored(s, more), x)
  {
    var all := s.stored + more;
    forall y | y in s.delivered ensures DeliverOk(ok, y, s.delivered, all) {
      assert DeliverOk(ok, y, s.delivered, s.stored);
    }
    forall c | c in s.joins ensures JoinOk(ok, c, s.joins[c], Asked(s), s.delivered, all, x.owed[Child(c)]) {
      assert JoinOk(ok, c, s.joins[c], Asked(s), s.delivered, s.stored, x.owed[Child(c)]);
    }
  }

  lemma RootKeeps(ok: Hash -> bool, s: State, x: Ctx, h: Hash)
    requires Mid(ok, s, x)
    ensures Mid(ok, s, x.(roots := x.roots + {h})) && Below(x.roots + {h}, h)
  {
    forall a | a in Asked(s) ensures Below(x.roots + {h}, a) && Rooted(a) {
      assert Below(x.roots, a);
      var r :| r in x.roots && Under(a, r);
      assert r in x.roots + {h};
    }
    assert h in x.roots + {h} && Under(h, h);
  }

  function Subscribed(t: State, h: Hash): State {
    if h in t.waiting then t.(waiting := t.waiting[h := t.waiting[h] + [Prop(h)]]) else t.(handled := t.handled + [h])
  }

  lemma SubscribedSubs(t: State, h: Hash)
    requires SubsOk(t.waiting, t.joins, t.delivered) && h in t.waiting
    ensures SubsOk(Subscribed(t, h).waiting, t.joins, t.delivered)
  {
    var w := Subscribed(t, h).waiting;
    forall p | p in w && p !in t.delivered ensures SubOk(p, w[p], t.joins) {
      assert SubOk(p, t.waiting[p], t.joins);
      if p == h { forall c ensures multiset(w[h])[Child(c)] == multiset(t.waiting[h])[Child(c)] {} }
    }
  }

  lemma SubscribedOffers(t: State, h: Hash, offered: multiset<Hash>)
    requires OffersOk(t.waiting, t.delivered, t.handled, offered, multiset{})
    requires h in t.waiting <==> h !in t.delivered
    ensures var u := Subscribed(t, h); OffersOk(u.waiting, u.delivered, u.handled, offered + multiset{h}, multiset{})
  {
    var u := Subscribed(t, h);
    forall x ensures (offered + multiset{h})[x] == multiset(u.handled)[x] + Pending(u.waiting, u.delivered, x) {
      assert offered[x] == multiset(t.handled)[x] + Pending(t.waiting, t.delivered, x);
      OneMore(t, h, x);
    }
  }

  lemma OneMore(t: State, h: Hash, x: Hash)
    requires h in t.waiting <==> h !in t.delivered
    ensures var u := Subscribed(t, h);
      multiset(u.handled)[x] + Pending(u.waiting, u.delivered, x)
        == multiset(t.handled)[x] + Pending(t.waiting, t.delivered, x) + if x == h then 1 else 0
  {
    if h in t.waiting {
      if x == h { OneMoreSub(t.waiting[h], h); }
    } else {
      Handled1(t.handled, h, x);
    }
  }

  lemma OneMoreSub(subs: seq<Sub>, h: Hash)
    ensures multiset(subs + [Prop(h)])[Prop(h)] == multiset(subs)[Prop(h)] + 1
  {}

  lemma Handled1(handled: seq<Hash>, h: Hash, x: Hash)
    ensures multiset(handled + [h])[x] == multiset(handled)[x] + if x == h then 1 else 0
  {}

  lemma SubscribedKeeps(ok: Hash -> bool, t: State, h: Hash, offered: multiset<Hash>, roots: set<Hash>)
    requires Valid(ok, t, offered, roots) && h in Asked(t)
    ensures Valid(ok, Subscribed(t, h), offered + multiset{h}, roots)
  {
    assert h in t.waiting && h in t.delivered ==> h in t.waiting.Keys * t.delivered;
    SubscribedOffers(t, h, offered);
    if h in t.waiting { SubscribedSubs(t, h); }
    assert Asked(Subscribed(t, h)) == Asked(t) && Subscribed(t, h).waiting.Keys == t.waiting.Keys;
  }

  lemma ProposalKeeps(ok: Hash -> bool, s: State, offered: multiset<Hash>, roots: set<Hash>, h: Hash)
    requires Valid(ok, s, offered, roots) && h.Of? && Rooted(h)
    ensures Valid(ok, Step(ok, s, Proposal(h)), offered + multiset{h}, roots + {h})
    ensures Grown(Stored(s, {h}), Step(ok, s, Proposal(h)))
  {
    var x, s1 := Ctx({}, multiset{}, {}, offered, roots), Stored(s, {h});
    StoreKeeps(ok, s, x, {h});
    RootKeeps(ok, s1, x, h);
    RequestKeeps(ok, s1, x.(roots := roots + {h}), h);
    var t := Request(ok, s1, h);
    SubscribedKeeps(ok, t, h, offered, roots + {h});
    assert Step(ok, s, Proposal(h)) == Subscribed(t, h);
  }

  lemma UnhookKeeps(ok: Hash -> bool, s: State, x: Ctx, h: Hash)
    requires Mid(ok, s, x) && h in s.fetching && s.fetching[h]
    ensures Mid(ok, s.(fetching := s.fetching[h := false]), x.(open := x.open + {h})) && h in Asked(s)
    ensures h !in x.open && h !in s.delivered
  {}

  lemma AnsweredKeeps(ok: Hash -> bool, s: State, x: Ctx, h: Hash)
    requires Mid(ok, s, x) && h in s.fetching && (s.fetching[h] ==> h in s.delivered || h in s.joins)
    ensures Mid(ok, s.(fetching := s.fetching - {h}), x)
  {}

  lemma AnswerKeeps(ok: Hash -> bool, s: State, x: Ctx, h: Hash)
    requires Mid(ok, s, x) && x.owed == multiset{} && h in s.stored
    ensures Mid(ok, Answer(ok, s, h), x) && Answered(s, Answer(ok, s, h), h)
  {
    if h in s.fetching {
      var u := s.(fetching := s.fetching[h := false]);
      if s.fetching[h] {
        UnhookKeeps(ok, s, x, h);
        assert x.open + {h} - {h} == x.open;
        ContinueKeeps(ok, u, x.(open := x.open + {h}), h) by { assert h != Genesis; }
        AnsweredKeeps(ok, Continue(ok, u, h), x, h);
      } else {
        AnsweredKeeps(ok, u, x, h) by { assert s.fetching[h := false] == s.fetching; }
      }
    }
  }

  /** How an answer moves the state: its entry is closed, new ones are for blocks not stored. */
  ghost predicate Answered(s: State, t: State, h: Hash) {
    && t.stored == s.stored && s.delivered <= t.delivered && Asked(s) <= Asked(t)
    && forall f | f in t.fetching :: f != h && (f in s.fetching || f !in s.stored)
  }

  /** The same for a whole message. */
  ghost predicate AllAnswered(s: State, t: State, blks: seq<Hash>) {
    && t.stored == s.stored && s.delivered <= t.delivered && Asked(s) <= Asked(t)
    && forall f | f in t.fetching :: f !in blks && (f in s.fetching || f !in s.stored)
  }

  lemma {:induction false} AnswerAllKeeps(ok: Hash -> bool, s: State, x: Ctx, blks: seq<Hash>)
    requires Mid(ok, s, x) && x.owed == multiset{} && forall h | h in blks :: h in s.stored
    ensures Mid(ok, AnswerAll(ok, s, blks), x) && AllAnswered(s, AnswerAll(ok, s, blks), blks)
  {
    if blks != [] {
      var m := |blks| - 1;
      assert blks == blks[..m] + [blks[m]];
      AnswerAllKeeps(ok, s, x, blks[..m]);
      AnswerKeeps(ok, AnswerAll(ok, s, blks[..m]), x, blks[m]);
    }
  }

  /** A message stores all its blocks and closes all their fetches. */
  lemma ResponseKeeps(ok: Hash -> bool, s: State, offered: multiset<Hash>, roots: set<Hash>, blks: seq<Hash>)
    requires Valid(ok, s, offered, roots)
    ensures var t := Step(ok, s, Response(blks));
      && Valid(ok, t, offered, roots) && s.delivered <= t.delivered && Asked(s) <= Asked(t)
      && forall h | h in blks :: h in t.stored && h !in t.fetching
  {
    var x, more := Ctx({}, multiset{}, {}, offered, roots), set h | h in blks;
    StoreKeeps(ok, s, x, more);
    AnswerAllKeeps(ok, Stored(s, more), x, blks);
  }

  lemma {:induction false} FetchAllKeeps(ok: Hash -> bool, s: State, offered: multiset<Hash>, roots: set<Hash>,
      blks: seq<Hash>)
    requires Valid(ok, s, offered, roots)
    ensures var t := FetchAll(s, blks);
      && Valid(ok, t, offered, roots) && t.stored == s.stored && s.fetching.Keys <= t.fetching.Keys
      && forall h | h in blks :: h in t.stored || h in t.fetching
  {
    if blks != [] {
      var m := |blks| - 1;
      FetchAllKeeps(ok, s, offered, roots, blks[..m]);
      FetchKeeps(ok, FetchAll(s, blks[..m]), Ctx({}, multiset{}, {}, offered, roots), blks[m]);
      assert blks == blks[..m] + [blks[m]];
    }
  }

  lemma FetchKeeps(ok: Hash -> bool, s: State, x: Ctx, h: Hash)
    requires Mid(ok, s, x)
    ensures Mid(ok, Fetch(s, h), x) && Asked(Fetch(s, h)) == Asked(s)
  {}

  lemma OwnJoins(ok: Hash -> bool, s: State, h: Hash)
    requires JoinsOk(ok, s.joins, Asked(s), s.delivered, s.stored, multiset{}) && h !in Asked(s)
    ensures JoinsOk(ok, s.joins, Asked(s) + {h}, s.delivered + {h}, s.stored + {h}, multiset{})
  {
    var none: multiset<Sub> := multiset{};
    forall c | c in s.joins
      ensures JoinOk(ok, c, s.joins[c], Asked(s) + {h}, s.delivered + {h}, s.stored + {h}, none[Child(c)])
    {
      assert JoinOk(ok, c, s.joins[c], Asked(s), s.delivered, s.stored, none[Child(c)]);
      MissingDrops(ParentHashes(c), s.delivered, h);
    }
  }

  lemma OwnKeeps(ok: Hash -> bool, s: State, offered: multiset<Hash>, roots: set<Hash>, h: Hash)
    requires Valid(ok, s, offered, roots) && Allowed(ok, s, Own(h))
    ensures Valid(ok, Step(ok, s, Own(h)), offered, roots + {h})
  {
    var x := Ctx({}, multiset{}, {}, offered, roots);
    RootKeeps(ok, s, x, h);
    if h !in s.delivered {
      var t := Step(ok, s, Own(h));
      StoreKeeps(ok, s, x, {h});
      assert DeliverOk(ok, h, s.delivered, s.stored + {h});
      MarkDelivered(ok, s.delivered, s.stored + {h}, h);
      MarkHeights(s.heights, s.delivered, h);
      OwnJoins(ok, s, h);
      FewerSubs(s.waiting, s.joins, s.delivered, s.waiting, t.delivered);
      OwnOffers(s.waiting, s.delivered, s.handled, offered, h);
      AskedRoots(Asked(s), roots + {h}, h);
      assert Asked(t) == Asked(s) + {h} && t.waiting.Keys - t.delivered == s.waiting.Keys - s.delivered;
      assert t.waiting.Keys * t.delivered == s.waiting.Keys * s.delivered;
    }
  }

  lemma OwnOffers(waiting: map<Hash, seq<Sub>>, delivered: set<Hash>, handled: seq<Hash>, offered: multiset<Hash>,
      h: Hash)
    requires OffersOk(waiting, delivered, handled, offered, multiset{}) && h !in waiting
    ensures OffersOk(waiting, delivered + {h}, handled, offered, multiset{})
  {
    forall x ensures Pending(waiting, delivered + {h}, x) == Pending(waiting, delivered, x) {}
  }

  lemma StepKeeps(ok: Hash -> bool, s: State, e: Event, offered: multiset<Hash>, roots: set<Hash>)
    requires Valid(ok, s, offered, roots) && Allowed(ok, s, e)
    ensures Valid(ok, Step(ok, s, e), offered + OfferedBy(e), roots + RootsBy(e))
  {
    var none: multiset<Hash> := multiset{};
    assert offered + none == offered && roots + {} == roots;
    match e {
      case Proposal(h) => ProposalKeeps(ok, s, offered, roots, h);
      case Refused(h) => StoreKeeps(ok, s, Ctx({}, multiset{}, {}, offered, roots), {h});
      case Response(blks) => ResponseKeeps(ok, s, offered, roots, blks);
      case Want(blks) => FetchAllKeeps(ok, s, offered, roots, blks);
      case Own(h) => OwnKeeps(ok, s, offered, roots, h);
    }
  }

  lemma Sums<T>(a: multiset<T>, b: multiset<T>, c: multiset<T>)
    ensures (a + b) + c == a + (b + c)
  {}

  lemma Unions<T>(a: set<T>, b: set<T>, c: set<T>)
    ensures (a + b) + c == a + (b + c)
  {}

  lemma {:induction false} RunKeeps(ok: Hash -> bool, s: State, events: seq<Event>, offered: multiset<Hash>,
      roots: set<Hash>)
    requires Valid(ok, s, offered, roots) && AllAllowed(ok, s, events) && Genesis in roots
    ensures Valid(ok, Run(ok, s, events), offered + Offered(events), roots + Roots(events))
    decreases |events|
  {
    if events == [] {
      assert offered + Offered(events) == offered && roots + Roots(events) == roots;
    } else {
      var e := events[0];
      StepKeeps(ok, s, e, offered, roots);
      RunKeeps(ok, Step(ok, s, e), events[1..], offered + OfferedBy(e), roots + RootsBy(e));
      Sums(offered, OfferedBy(e), Offered(events[1..]));
      Unions(roots, RootsBy(e), Roots(events[1..]));
    }
  }

  // ---- what holds in every reachable state ----

  ghost predicate Reaches(ok: Hash -> bool, events: seq<Event>, s: State) {
    AllAllowed(ok, EMPTY, events) && s == Run(ok, EMPTY, events)
  }

  lemma EmptyValid(ok: Hash -> bool)
    ensures Valid(ok, EMPTY, multiset{}, {Genesis})
  {
    assert Under(Genesis, Genesis) && DeliverOk(ok, Genesis, {Genesis}, {Genesis});
    forall h | h in Asked(EMPTY) ensures Below({Genesis}, h) && Rooted(h) { assert Genesis in {Genesis}; }
  }

  lemma ReachesValid(ok: Hash -> bool, events: seq<Event>, s: State)
    requires Reaches(ok, events, s)
    ensures Valid(ok, s, Offered(events), Roots(events))
  {
    var none: multiset<Hash> := multiset{};
    assert none + Offered(events) == Offered(events);
    assert {Genesis} + Roots(events) == Roots(events) by { RootsGenesis(events); }
    EmptyValid(ok);
    RunKeeps(ok, EMPTY, events, none, {Genesis});
  }

  lemma {:induction false} RootsGenesis(events: seq<Event>)
    ensures Genesis in Roots(events)
  {
    if events != [] { RootsGenesis(events[1..]); }
  }

  /** No lost wake-up: a block that waits has an open fetch that will continue it, or a parent that waits
      too, or has failed its verification. */
  lemma NoLostWakeup(ok: Hash -> bool, events: seq<Event>, s: State, h: Hash)
    requires Reaches(ok, events, s) && h in s.waiting
    ensures (h in s.fetching && s.fetching[h]) || !ok(h) || exists p :: p in ParentHashes(h) && p in s.waiting
  {
    ReachesValid(ok, events, s);
    assert h !in s.waiting.Keys * s.delivered;
    if h in s.joins && ok(h) {
      var none: multiset<Sub> := multiset{};
      assert JoinOk(ok, h, s.joins[h], Asked(s), s.delivered, s.stored, none[Child(h)]);
      MissingNone(ParentHashes(h), s.delivered);
      var p :| p in ParentHashes(h) && p !in s.delivered;
      assert p in Asked(s);
    }
  }

  /** Delivery is ancestor-closed: a delivered block is stored and verified, its parents are delivered, and the
      height it was given is one more than its first parent's, so it is the length of the way down to the genesis
      block; and nothing ever trips the check in `on_deliver_blk`. */
  lemma AncestorClosed(ok: Hash -> bool, events: seq<Event>, s: State, h: Hash)
    requires Reaches(ok, events, s) && h in s.delivered && h != Genesis
    ensures !s.alarm && h in s.stored && ok(h) && ParentHashes(h) != []
    ensures forall p | p in ParentHashes(h) :: p in s.delivered && p in s.heights
    ensures h in s.heights && s.heights[h] == s.heights[ParentHashes(h)[0]] + 1 == Depth(h)
  {
    ReachesValid(ok, events, s);
    assert DeliverOk(ok, h, s.delivered, s.stored);
  }

  /** Every proposal received is handed to `on_receive_proposal` once, when its block is delivered and not
      before. */
  lemma HandledOnce(ok: Hash -> bool, events: seq<Event>, s: State, h: Hash)
    requires Reaches(ok, events, s)
    ensures multiset(s.handled)[h] == if h in s.delivered then Offered(events)[h] else 0
  {
    ReachesValid(ok, events, s);
    assert Offered(events)[h] == multiset(s.handled)[h] + Pending(s.waiting, s.delivered, h);
    assert h in s.handled ==> h in s.delivered;
  }

  lemma {:induction false} DeliveredSound(ok: Hash -> bool, s: State, offered: multiset<Hash>, roots: set<Hash>,
      h: Hash)
    requires Valid(ok, s, offered, roots) && h in s.delivered
    ensures Sound(ok, h)
    decreases h
  {
    assert DeliverOk(ok, h, s.delivered, s.stored);
    if h.Of? {
      forall i | 0 <= i < |h.wire.parents| ensures Sound(ok, h.wire.parents[i]) {
        assert h.wire.parents[i] in ParentHashes(h);
        DeliveredSound(ok, s, offered, roots, h.wire.parents[i]);
      }
    }
  }

  lemma {:induction false} SoundDelivered(ok: Hash -> bool, s: State, offered: multiset<Hash>, roots: set<Hash>,
      h: Hash)
    requires Valid(ok, s, offered, roots) && (forall f | f in s.fetching :: !s.fetching[f]) && h in Asked(s)
    requires Sound(ok, h)
    ensures h in s.delivered
    decreases h
  {
    if h !in s.delivered {
      var none: multiset<Sub> := multiset{};
      assert JoinOk(ok, h, s.joins[h], Asked(s), s.delivered, s.stored, none[Child(h)]);
      forall p | p in ParentHashes(h) ensures p in s.delivered {
        var i :| 0 <= i < |h.wire.parents| && h.wire.parents[i] == p;
        SoundDelivered(ok, s, offered, roots, p);
      }
      MissingNone(ParentHashes(h), s.delivered);
    }
  }

  /** Everything under a root has been asked for, unless a fetch is open on the way. */
  lemma {:induction false} UnderAsked(ok: Hash -> bool, s: State, offered: multiset<Hash>, roots: set<Hash>, h: Hash,
      a: Hash)
    requires Valid(ok, s, offered, roots) && (forall f | f in s.fetching :: !s.fetching[f]) && h in Asked(s)
    requires Under(a, h)
    ensures a in Asked(s)
    decreases h
  {
    if a != h {
      var i :| 0 <= i < |h.wire.parents| && Under(a, h.wire.parents[i]);
      var p, none: multiset<Sub> := h.wire.parents[i], multiset{};
      assert p in ParentHashes(h);
      if h in s.delivered {
        assert DeliverOk(ok, h, s.delivered, s.stored);
      } else {
        assert JoinOk(ok, h, s.joins[h], Asked(s), s.delivered, s.stored, none[Child(h)]);
      }
      UnderAsked(ok, s, offered, roots, p, a);
    }
  }

  /** Once all fetches made for delivery are answered, what is delivered depends on what was asked for alone, not on any
      order: the roots and their ancestors, except those that failed verification or have an ancestor
      that did; and only those still wait. */
  lemma Settled(ok: Hash -> bool, events: seq<Event>, s: State, h: Hash)
    requires Reaches(ok, events, s) && forall f | f in s.fetching :: !s.fetching[f]
    ensures h in s.delivered <==> Below(Roots(events), h) && Sound(ok, h)
    ensures h in s.waiting <==> Below(Roots(events), h) && !Sound(ok, h)
  {
    ReachesValid(ok, events, s);
    var offered, roots := Offered(events), Roots(events);
    if h in Asked(s) { assert Below(roots, h); }
    if Below(roots, h) {
      var r :| r in roots && Under(h, r);
      UnderAsked(ok, s, offered, roots, r, h);
    }
    if h in s.delivered { DeliveredSound(ok, s, offered, roots, h); }
    if h in Asked(s) && Sound(ok, h) { SoundDelivered(ok, s, offered, roots, h); }
    assert h in s.waiting && h in s.delivered ==> h in s.waiting.Keys * s.delivered;
  }

  /** So when every block asked for verifies, nothing is left waiting. */
  lemma NothingWaits(ok: Hash -> bool, events: seq<Event>, s: State)
    requires Reaches(ok, events, s) && (forall f | f in s.fetching :: !s.fetching[f])
    requires forall h | Below(Roots(events), h) :: Sound(ok, h)
    ensures s.waiting == map[]
  {
    forall h ensures h !in s.waiting { Settled(ok, events, s, h); }
  }

  // ---- in which order proposals are handled ----

  /** `c` has the one parent `p`, which is not delivered. */
  ghost predicate OnlyChild(ok: Hash -> bool, s: State, c: Hash, p: Hash) {
    && ParentHashes(c) == [p] && c != p && ok(c) && c !in s.delivered && c !in s.waiting && p !in s.delivered
    && (p in s.waiting || p !in s.stored)
  }

  /** `c` waits, and `p` is asked for. */
  function ParentAsked(s: State, c: Hash, p: Hash): State {
    var u := Waits(s, c);
    if p in u.waiting then u else Waits(u, p).(fetching := s.fetching[p := true])
  }

  lemma ChildWaits(ok: Hash -> bool, s: State, c: Hash, p: Hash)
    requires OnlyChild(ok, s, c, p) && c in s.stored
    ensures var v := ParentAsked(s, c, p);
      && p in v.waiting
      && Request(ok, s, c) ==
           v.(joins := s.joins[c := Join(1, true)], waiting := v.waiting[p := v.waiting[p] + [Child(c)]])
  {
    var u := Waits(s, c);
    assert Request(ok, u, p) == ParentAsked(s, c, p);
    OneParent(ok, u, c, p);
  }

  lemma OneParent(ok: Hash -> bool, u: State, c: Hash, p: Hash)
    requires ParentHashes(c) == [p] && ok(c)
    requires var v := Request(ok, u, p); p in v.waiting && p !in v.delivered
    ensures var v := Request(ok, u, p);
      Continue(ok, u, c) ==
        v.(joins := v.joins[c := Join(1, true)], waiting := v.waiting[p := v.waiting[p] + [Child(c)]])
  {
    var v := Request(ok, u, p);
    assert RequestAll(ok, u, c, 0) == u && RequestAll(ok, u, c, 1) == v;
    assert [p][..0] == [];
    assert Missing([p], v.delivered) == Missing([], v.delivered) + 1;
    assert Attach(v.waiting, [], c, v.delivered) == v.waiting;
  }

  /** `c`'s join and the callback of its proposal are in place. */
  function Attached1(v: State, c: Hash, p: Hash): State
    requires p in v.waiting
  {
    v.(joins := v.joins[c := Join(1, true)], waiting := v.waiting[p := v.waiting[p] + [Child(c)]][c := [Prop(c)]])
  }

  lemma ProposalWaits(ok: Hash -> bool, s: State, c: Hash, p: Hash)
    requires OnlyChild(ok, Stored(s, {c}), c, p)
    ensures var v := ParentAsked(Stored(s, {c}), c, p); p in v.waiting && Step(ok, s, Proposal(c)) == Attached1(v, c, p)
  {
    var s1 := Stored(s, {c});
    ChildWaits(ok, s1, c, p);
    AskedParent(s1, c, p);
    ProposalAdds(ok, s, Request(ok, s1, c), c);
  }

  lemma AttachedLast(s: State, v: State, c: Hash, p: Hash, x: Hash)
    requires c != p && c !in s.waiting && c !in s.delivered && p in v.waiting
    requires v == s.(waiting := v.waiting, fetching := v.fetching)
    requires x in s.waiting && x != c && x != p ==> x in v.waiting && v.waiting[x] == s.waiting[x]
    ensures var t := Attached1(v, c, p); LastParent(t, c) && (LastParent(s, x) && x != p ==> LastParent(t, x))
  {}

  lemma AttachedWaits(s: State, c: Hash, p: Hash)
    requires c != p && c !in s.waiting && c !in s.delivered
    ensures p in ParentAsked(s, c, p).waiting
    ensures var t := Attached1(ParentAsked(s, c, p), c, p);
      && t.stored == s.stored && t.delivered == s.delivered && t.handled == s.handled
      && p in t.waiting && t.waiting[p] == (if p in s.waiting then s.waiting[p] else []) + [Child(c)]
      && (if p in s.waiting then t.fetching == s.fetching else p in t.fetching && t.fetching[p])
      && t.waiting.Keys == s.waiting.Keys + {p, c}
  {
    AskedParent(s, c, p);
  }

  lemma AskedParent(s: State, c: Hash, p: Hash)
    requires c != p
    ensures var v := ParentAsked(s, c, p);
      && v.waiting.Keys == s.waiting.Keys + {c, p} && v.waiting[c] == []
      && v.waiting[p] == (if p in s.waiting then s.waiting[p] else [])
      && (forall x | x in s.waiting && x != c && x != p :: v.waiting[x] == s.waiting[x])
      && v == s.(waiting := v.waiting, fetching := v.fetching)
      && (if p in s.waiting then v.fetching == s.fetching else p in v.fetching && v.fetching[p])
  {}

  lemma ProposalAdds(ok: Hash -> bool, s: State, t: State, c: Hash)
    requires t == Request(ok, Stored(s, {c}), c) && c in t.waiting && t.waiting[c] == []
    ensures Step(ok, s, Proposal(c)) == t.(waiting := t.waiting[c := [Prop(c)]])
  {
    assert [] + [Prop(c)] == [Prop(c)];
  }

  /** A proposal of `c` waits for one more parent. */
  ghost predicate LastParent(s: State, c: Hash) {
    c in s.joins && s.joins[c] == Join(1, true) && c !in s.delivered && c in s.waiting && s.waiting[c] == [Prop(c)]
  }

  /** The last parent of `c` is there: `c` is delivered and its proposal handled. */
  lemma ChildDone(s: State, c: Hash)
    requires LastParent(s, c)
    ensures var t := Call(s, Child(c));
      && t.handled == s.handled + [c] && t.delivered == s.delivered + {c}
      && t.joins == s.joins - {c} && t.waiting == s.waiting - {c}
  {
    var u := Marked(Unjoined(s, c), c);
    CallOne(u, Prop(c));
  }

  lemma CallOne(s: State, sub: Sub)
    ensures CallAll(s, [sub]) == Call(s, sub)
  {
    assert [sub][1..] == [];
    assert CallAll(Call(s, sub), []) == Call(s, sub);
  }

  lemma CallTwo(s: State, a: Sub, b: Sub)
    ensures CallAll(s, [a, b]) == Call(Call(s, a), b)
  {
    assert [a, b][1..] == [b];
    CallOne(Call(s, a), b);
  }

  /** Two children of a delivered block wait for it, in this order. */
  lemma BothDone(s: State, p: Hash, c: Hash, d: Hash)
    requires c != d && p != c && p != d && p !in s.delivered && p in s.waiting && s.waiting[p] == [Child(c), Child(d)]
    requires LastParent(s, c) && LastParent(s, d)
    ensures OnDeliver(s, p).handled == s.handled + [c, d]
  {
    var t := Marked(s, p);
    CallTwo(t, Child(c), Child(d));
    ChildDone(t, c);
    ChildDone(Call(t, Child(c)), d);
    assert s.handled + [c] + [d] == s.handled + [c, d];
  }

  lemma ParentArrives(ok: Hash -> bool, s: State, p: Hash)
    requires ParentHashes(p) == [Genesis] && ok(p) && Genesis in s.delivered && p in s.fetching && s.fetching[p]
    ensures Step(ok, s, Response([p])).handled ==
      OnDeliver(Stored(s, {p}).(fetching := s.fetching[p := false]), p).handled
  {
    var u := Stored(s, {p}).(fetching := s.fetching[p := false]);
    assert (set h | h in [p]) == {p} && [p][..0] == [];
    assert AnswerAll(ok, Stored(s, {p}), []) == Stored(s, {p});
    assert RequestAll(ok, u, p, 0) == u && RequestAll(ok, u, p, 1) == u;
    assert Missing([Genesis][..0], u.delivered) == 0 && Missing([Genesis], u.delivered) == 0;
  }

  /** Proposals that wait for one block are handled in the order they came in. */
  lemma HandledInOrder(ok: Hash -> bool, p: Hash, c: Hash, d: Hash)
    requires ParentHashes(p) == [Genesis] && ParentHashes(c) == [p] && ParentHashes(d) == [p] && c != d
    requires ok(p) && ok(c) && ok(d)
    ensures Run(ok, EMPTY, [Proposal(c), Proposal(d), Response([p])]).handled == [c, d]
  {
    var s2 := BothWait(ok, p, c, d);
    ParentArrives(ok, s2, p);
    BothDone(Stored(s2, {p}).(fetching := s2.fetching[p := false]), p, c, d);
    RunThree(ok, EMPTY, Proposal(c), Proposal(d), Response([p]));
  }

  lemma BothWait(ok: Hash -> bool, p: Hash, c: Hash, d: Hash) returns (s: State)
    requires ParentHashes(p) == [Genesis] && ParentHashes(c) == [p] && ParentHashes(d) == [p]
    requires c != d && ok(c) && ok(d)
    ensures s == Step(ok, Step(ok, EMPTY, Proposal(c)), Proposal(d)) && s.delivered == {Genesis} && s.handled == []
    ensures p != c && p != d && p in s.waiting && s.waiting[p] == [Child(c), Child(d)]
    ensures p in s.fetching && s.fetching[p]
    ensures LastParent(s, c) && LastParent(s, d)
  {
    NotOwnParent(c);
    NotOwnParent(d);
    s := Step(ok, EMPTY, Proposal(c));
    ProposalWaits(ok, EMPTY, c, p);
    AttachedWaits(Stored(EMPTY, {c}), c, p);
    AskedParent(Stored(EMPTY, {c}), c, p);
    AttachedLast(Stored(EMPTY, {c}), ParentAsked(Stored(EMPTY, {c}), c, p), c, p, c);
    var t := s;
    s := Step(ok, t, Proposal(d));
    ProposalWaits(ok, t, d, p);
    AttachedWaits(Stored(t, {d}), d, p);
    AskedParent(Stored(t, {d}), d, p);
    AttachedLast(Stored(t, {d}), ParentAsked(Stored(t, {d}), d, p), d, p, c);
    assert [Child(c)] + [Child(d)] == [Child(c), Child(d)];
  }

  lemma RunThree(ok: Hash -> bool, s: State, a: Event, b: Event, c: Event)
    ensures Run(ok, s, [a, b, c]) == Step(ok, Step(ok, Step(ok, s, a), b), c)
  {
    assert [a, b, c][1..] == [b, c] && [b, c][1..] == [c] && [c][1..] == [];
    assert Run(ok, Step(ok, Step(ok, s, a), b), [c]) == Run(ok, Step(ok, Step(ok, Step(ok, s, a), b), c), []);
  }

  // ---- which messages count ----

  /** What reaches a replica: a proposal with the proposer the pacemaker expects at that moment, an answer of a peer,
      a request of a peer, and the delivery of a block proposed here. */
  datatype Input =
    | Message(blk: Hash, expected: nat)
    | Answers(blks: seq<Hash>)
    | Asks(blks: seq<Hash>)
    | Mine(blk: Hash)

  function AsEvent(s: State, i: Input): Event
    requires i.Message? ==> i.blk.Of?
  {
    match i
    case Message(h, expected) => if Passes(s, h, expected) then Proposal(h) else Refused(h)
    case Answers(blks) => Response(blks)
    case Asks(blks) => Want(blks)
    case Mine(h) => Own(h)
  }

  function Taken(ok: Hash -> bool, s: State, i: Input): State
    requires i.Message? ==> i.blk.Of?
  {
    Step(ok, s, AsEvent(s, i))
  }

  /** The block names the expected proposer, and its height is not 0: the one it was delivered with, else its own. */
  ghost predicate Counts(s: State, i: Input) {
    && i.Message? && i.blk.Of? && i.blk.wire.proposer == i.expected
    && (if i.blk in s.delivered then Depth(i.blk) else i.blk.wire.height) != 0
  }

  /** The same about the environment as before. */
  ghost predicate InputOk(ok: Hash -> bool, s: State, i: Input) {
    match i
    case Message(h, _) => h.Of? && (Counts(s, i) ==> Rooted(h))
    case Mine(h) => Allowed(ok, s, Own(h))
    case _ => true
  }

  ghost predicate InputsOk(ok: Hash -> bool, s: State, inputs: seq<Input>)
    decreases |inputs|
  {
    inputs == [] || (InputOk(ok, s, inputs[0]) && InputsOk(ok, Taken(ok, s, inputs[0]), inputs[1..]))
  }

  function TakeAll(ok: Hash -> bool, s: State, inputs: seq<Input>): State
    requires InputsOk(ok, s, inputs)
    decreases |inputs|
  {
    if inputs == [] then s else TakeAll(ok, Taken(ok, s, inputs[0]), inputs[1..])
  }

  /** How many messages with block `h` counted when they came. */
  ghost function Tally(ok: Hash -> bool, s: State, inputs: seq<Input>, h: Hash): nat
    requires InputsOk(ok, s, inputs)
    decreases |inputs|
  {
    if inputs == [] then 0
    else
      (if Counts(s, inputs[0]) && inputs[0].blk == h then 1 else 0)
        + Tally(ok, Taken(ok, s, inputs[0]), inputs[1..], h)
  }

  /** The blocks of the messages that counted, and those proposed here. */
  ghost function Meant(ok: Hash -> bool, s: State, inputs: seq<Input>): set<Hash>
    requires InputsOk(ok, s, inputs)
    decreases |inputs|
  {
    if inputs == [] then {Genesis}
    else
      (if Counts(s, inputs[0]) || inputs[0].Mine? then {inputs[0].blk} else {})
        + Meant(ok, Taken(ok, s, inputs[0]), inputs[1..])
  }

  ghost function AsEvents(ok: Hash -> bool, s: State, inputs: seq<Input>): seq<Event>
    requires InputsOk(ok, s, inputs)
    decreases |inputs|
  {
    if inputs == [] then [] else [AsEvent(s, inputs[0])] + AsEvents(ok, Taken(ok, s, inputs[0]), inputs[1..])
  }

  lemma PassesCounts(ok: Hash -> bool, s: State, offered: multiset<Hash>, roots: set<Hash>, i: Input)
    requires Valid(ok, s, offered, roots) && InputOk(ok, s, i)
    ensures Counts(s, i) <==> AsEvent(s, i).Proposal?
    ensures Allowed(ok, s, AsEvent(s, i))
  {}

  lemma {:induction false} InputsAsEvents(ok: Hash -> bool, s: State, inputs: seq<Input>, offered: multiset<Hash>,
      roots: set<Hash>)
    requires Valid(ok, s, offered, roots) && InputsOk(ok, s, inputs)
    ensures SameRun(ok, s, inputs, AsEvents(ok, s, inputs))
    decreases |inputs|
  {
    if inputs != [] {
      var i, e := inputs[0], AsEvent(s, inputs[0]);
      PassesCounts(ok, s, offered, roots, i);
      StepKeeps(ok, s, e, offered, roots);
      InputsAsEvents(ok, Taken(ok, s, i), inputs[1..], offered + OfferedBy(e), roots + RootsBy(e));
      FirstInput(ok, s, inputs, AsEvents(ok, Taken(ok, s, i), inputs[1..]));
    }
  }

  ghost predicate SameRun(ok: Hash -> bool, s: State, inputs: seq<Input>, es: seq<Event>) {
    && InputsOk(ok, s, inputs) && AllAllowed(ok, s, es) && Run(ok, s, es) == TakeAll(ok, s, inputs)
    && Roots(es) == Meant(ok, s, inputs) && forall h :: Offered(es)[h] == Tally(ok, s, inputs, h)
  }

  lemma FirstInput(ok: Hash -> bool, s: State, inputs: seq<Input>, es: seq<Event>)
    requires inputs != [] && InputsOk(ok, s, inputs) && SameRun(ok, Taken(ok, s, inputs[0]), inputs[1..], es)
    requires var e := AsEvent(s, inputs[0]); Allowed(ok, s, e) && (Counts(s, inputs[0]) <==> e.Proposal?)
    ensures SameRun(ok, s, inputs, [AsEvent(s, inputs[0])] + es)
  {
    var i, e := inputs[0], AsEvent(s, inputs[0]);
    var all := [e] + es;
    assert all[0] == e && all[1..] == es;
    assert RootsBy(e) == if Counts(s, i) || i.Mine? then {i.blk} else {};
    forall h ensures Offered(all)[h] == Tally(ok, s, inputs, h) {
      assert OfferedBy(e)[h] == if Counts(s, i) && i.blk == h then 1 else 0;
    }
  }

  lemma InputsReach(ok: Hash -> bool, inputs: seq<Input>) returns (es: seq<Event>)
    requires InputsOk(ok, EMPTY, inputs)
    ensures var s := TakeAll(ok, EMPTY, inputs);
      && Reaches(ok, es, s) && Roots(es) == Meant(ok, EMPTY, inputs) && Valid(ok, s, Offered(es), Roots(es))
      && forall h :: Offered(es)[h] == Tally(ok, EMPTY, inputs, h)
  {
    es := AsEvents(ok, EMPTY, inputs);
    EmptyValid(ok);
    InputsAsEvents(ok, EMPTY, inputs, multiset{}, {Genesis});
    ReachesValid(ok, es, TakeAll(ok, EMPTY, inputs));
  }

  lemma AskedBelow(ok: Hash -> bool, s: State, offered: multiset<Hash>, roots: set<Hash>, h: Hash)
    requires Valid(ok, s, offered, roots)
    ensures h in s.delivered || h in s.waiting ==> Below(roots, h)
  {
    if h in Asked(s) { assert Below(roots, h); }
  }

  /** What was sent in a proposal is handed to `on_receive_proposal` as often as such a message counted, once its block
      is delivered and not before. */
  lemma MessagesHandled(ok: Hash -> bool, inputs: seq<Input>, h: Hash)
    requires InputsOk(ok, EMPTY, inputs)
    ensures var s := TakeAll(ok, EMPTY, inputs);
      multiset(s.handled)[h] == if h in s.delivered then Tally(ok, EMPTY, inputs, h) else 0
  {
    var es := InputsReach(ok, inputs);
    HandledOnce(ok, es, TakeAll(ok, EMPTY, inputs), h);
  }

  /** Only those messages and the blocks proposed here make anything be delivered or waited for; once the fetches for
      delivery are answered, exactly their ancestors are, the sound ones delivered. */
  lemma MessagesSettle(ok: Hash -> bool, inputs: seq<Input>, h: Hash)
    requires InputsOk(ok, EMPTY, inputs)
    ensures var s, asked := TakeAll(ok, EMPTY, inputs), Meant(ok, EMPTY, inputs);
      && (h in s.delivered || h in s.waiting ==> Below(asked, h))
      && ((forall f | f in s.fetching :: !s.fetching[f]) ==>
            && (h in s.delivered <==> Below(asked, h) && Sound(ok, h))
            && (h in s.waiting <==> Below(asked, h) && !Sound(ok, h)))
  {
    var s := TakeAll(ok, EMPTY, inputs);
    var es := InputsReach(ok, inputs);
    AskedBelow(ok, s, Offered(es), Roots(es), h);
    if forall f | f in s.fetching :: !s.fetching[f] { Settled(ok, es, s, h); }
  }

  /** A message that does not count has its block stored, like every other, and nothing else happens. */
  lemma OthersDropped(ok: Hash -> bool, inputs: seq<Input>, i: Input)
    requires InputsOk(ok, EMPTY, inputs) && InputOk(ok, TakeAll(ok, EMPTY, inputs), i) && i.Message?
    ensures var s := TakeAll(ok, EMPTY, inputs);
      && i.blk in Taken(ok, s, i).stored
      && (!Counts(s, i) ==> Taken(ok, s, i) == s.(stored := s.stored + {i.blk}))
  {
    var s := TakeAll(ok, EMPTY, inputs);
    var es := InputsReach(ok, inputs);
    PassesCounts(ok, s, Offered(es), Roots(es), i);
    if Counts(s, i) { ProposalKeeps(ok, s, Offered(es), Roots(es), i.blk); }
  }

  // ---- peers' requests ----

  /** A request that is not answered yet, and which of its blocks are still being fetched. */
  datatype Ask = Ask(blks: seq<Hash>, open: set<Hash>)

  /** `answers` is the messages sent, in order. */
  datatype Peers = Peers(asks: seq<Ask>, answers: seq<seq<Hash>>)

  const NOBODY: Peers := Peers([], [])

  function Unfetched(s: State, blks: seq<Hash>): set<Hash> {
    set h | h in blks && h !in s.stored
  }

  /** `all` over the fetches of a request; `all` of nothing throws. */
  function Enquire(s: State, p: Peers, blks: seq<Hash>): Peers {
    if blks == [] then p
    else if Unfetched(s, blks) == {} then p.(answers := p.answers + [blks])
    else p.(asks := p.asks + [Ask(blks, Unfetched(s, blks))])
  }

  /** The fetch of `h` is resolved: the requests that waited for nothing else are answered, in order. */
  function Served(asks: seq<Ask>, h: Hash): (r: Peers) {
    if asks == [] then NOBODY
    else
      var rest, a := Served(asks[..|asks| - 1], h), asks[|asks| - 1];
      if a.open - {h} == {} then rest.(answers := rest.answers + [a.blks])
      else rest.(asks := rest.asks + [Ask(a.blks, a.open - {h})])
  }

  function Serve(p: Peers, h: Hash): Peers {
    Peers(Served(p.asks, h).asks, p.answers + Served(p.asks, h).answers)
  }

  function ServeAll(ok: Hash -> bool, s: State, p: Peers, blks: seq<Hash>): Peers {
    if blks == [] then p
    else
      var front, h := blks[..|blks| - 1], blks[|blks| - 1];
      var q := ServeAll(ok, s, p, front);
      if h in AnswerAll(ok, s, front).fetching then Serve(q, h) else q
  }

  function PeerStep(ok: Hash -> bool, s: State, p: Peers, e: Event): Peers {
    match e
    case Want(blks) => Enquire(s, p, blks)
    case Response(blks) => ServeAll(ok, Stored(s, set h | h in blks), p, blks)
    case _ => p
  }

  function PeerRun(ok: Hash -> bool, s: State, p: Peers, events: seq<Event>): Peers
    decreases |events|
  {
    if events == [] then p else PeerRun(ok, Step(ok, s, events[0]), PeerStep(ok, s, p, events[0]), events[1..])
  }

  ghost predicate AskOk(a: Ask, stored: set<Hash>, fetching: set<Hash>) {
    a.open != {} && a.open <= fetching && forall h | h in a.blks :: h in stored || h in a.open
  }

  ghost predicate AllStored(blks: seq<Hash>, stored: set<Hash>) {
    forall h | h in blks :: h in stored
  }

  /** A request waits for blocks that are being fetched; what is answered is stored. */
  ghost predicate PeersOk(p: Peers, stored: set<Hash>, fetching: set<Hash>) {
    && (forall i {:trigger p.asks[i]} | 0 <= i < |p.asks| :: AskOk(p.asks[i], stored, fetching))
    && forall i {:trigger p.answers[i]} | 0 <= i < |p.answers| :: AllStored(p.answers[i], stored)
  }

  lemma PeersGrow(p: Peers, stored: set<Hash>, fetching: set<Hash>, stored': set<Hash>, fetching': set<Hash>)
    requires PeersOk(p, stored, fetching) && stored <= stored' && fetching <= fetching'
    ensures PeersOk(p, stored', fetching')
  {
    forall i | 0 <= i < |p.asks| ensures AskOk(p.asks[i], stored', fetching') {
      assert AskOk(p.asks[i], stored, fetching);
    }
    forall i | 0 <= i < |p.answers| ensures AllStored(p.answers[i], stored') {
      assert AllStored(p.answers[i], stored);
    }
  }

  lemma {:induction false} ServedKeeps(asks: seq<Ask>, h: Hash, stored: set<Hash>, fetching: set<Hash>)
    requires PeersOk(Peers(asks, []), stored, fetching) && h in stored
    ensures PeersOk(Served(asks, h), stored, fetching - {h})
  {
    if asks != [] {
      var m := |asks| - 1;
      assert forall i | 0 <= i < m :: asks[..m][i] == asks[i];
      assert AskOk(asks[m], stored, fetching);
      ServedKeeps(asks[..m], h, stored, fetching);
      if asks[m].open - {h} == {} {
        assert forall x | x in asks[m].open :: x in asks[m].open - {h} || x == h;
        assert AllStored(asks[m].blks, stored);
      }
    }
  }

  lemma ServeKeeps(p: Peers, h: Hash, stored: set<Hash>, fetching: set<Hash>, fetching': set<Hash>)
    requires PeersOk(p, stored, fetching) && h in stored && fetching - {h} <= fetching'
    ensures PeersOk(Serve(p, h), stored, fetching')
  {
    ServedKeeps(p.asks, h, stored, fetching);
    PeersGrow(Served(p.asks, h), stored, fetching - {h}, stored, fetching');
  }

  lemma {:induction false} ServeAllKeeps(ok: Hash -> bool, s: State, x: Ctx, p: Peers, blks: seq<Hash>)
    requires Mid(ok, s, x) && x.owed == multiset{} && forall h | h in blks :: h in s.stored
    requires PeersOk(p, s.stored, s.fetching.Keys)
    ensures PeersOk(ServeAll(ok, s, p, blks), s.stored, AnswerAll(ok, s, blks).fetching.Keys)
  {
    if blks != [] {
      var m := |blks| - 1;
      assert blks == blks[..m] + [blks[m]];
      ServeAllKeeps(ok, s, x, p, blks[..m]);
      AnswerAllKeeps(ok, s, x, blks[..m]);
      var t := AnswerAll(ok, s, blks[..m]);
      AnswerFetches(ok, t, x, blks[m]);
      if blks[m] in t.fetching {
        var left := Answer(ok, t, blks[m]).fetching.Keys;
        ServeKeeps(ServeAll(ok, s, p, blks[..m]), blks[m], s.stored, t.fetching.Keys, left);
      }
    }
  }

  lemma AnswerFetches(ok: Hash -> bool, s: State, x: Ctx, h: Hash)
    requires Mid(ok, s, x) && x.owed == multiset{} && h in s.stored
    ensures s.fetching.Keys - {h} <= Answer(ok, s, h).fetching.Keys
    ensures h !in s.fetching ==> Answer(ok, s, h) == s
  {
    if h in s.fetching && s.fetching[h] {
      UnhookKeeps(ok, s, x, h);
      assert h != Genesis;
      ContinueKeeps(ok, s.(fetching := s.fetching[h := false]), x.(open := x.open + {h}), h);
    }
  }

  lemma PeerStepKeeps(ok: Hash -> bool, s: State, p: Peers, e: Event, offered: multiset<Hash>, roots: set<Hash>)
    requires Valid(ok, s, offered, roots) && Allowed(ok, s, e) && PeersOk(p, s.stored, s.fetching.Keys)
    ensures var t := Step(ok, s, e); PeersOk(PeerStep(ok, s, p, e), t.stored, t.fetching.Keys)
  {
    var t, x := Step(ok, s, e), Ctx({}, multiset{}, {}, offered, roots);
    match e {
      case Proposal(h) =>
        ProposalKeeps(ok, s, offered, roots, h);
        PeersGrow(p, s.stored, s.fetching.Keys, t.stored, t.fetching.Keys);
      case Refused(h) => PeersGrow(p, s.stored, s.fetching.Keys, t.stored, t.fetching.Keys);
      case Own(h) => PeersGrow(p, s.stored, s.fetching.Keys, t.stored, t.fetching.Keys);
      case Want(blks) =>
        FetchAllKeeps(ok, s, offered, roots, blks);
        PeersGrow(p, s.stored, s.fetching.Keys, t.stored, t.fetching.Keys);
      case Response(blks) => PeerAnswers(ok, s, p, blks, x, set h | h in blks);
    }
  }

  lemma PeerAnswers(ok: Hash -> bool, s: State, p: Peers, blks: seq<Hash>, x: Ctx, more: set<Hash>)
    requires Mid(ok, s, x) && x.owed == multiset{} && PeersOk(p, s.stored, s.fetching.Keys) && more == set h | h in blks
    ensures var t := AnswerAll(ok, Stored(s, more), blks);
      PeersOk(ServeAll(ok, Stored(s, more), p, blks), t.stored, t.fetching.Keys)
  {
    StoreKeeps(ok, s, x, more);
    PeersGrow(p, s.stored, s.fetching.Keys, s.stored + more, s.fetching.Keys);
    ServeAllKeeps(ok, Stored(s, more), x, p, blks);
    AnswerAllKeeps(ok, Stored(s, more), x, blks);
  }

  lemma {:induction false} PeerRunKeeps(ok: Hash -> bool, s: State, p: Peers, events: seq<Event>,
      offered: multiset<Hash>, roots: set<Hash>)
    requires Valid(ok, s, offered, roots) && AllAllowed(ok, s, events) && PeersOk(p, s.stored, s.fetching.Keys)
    ensures PeersOk(PeerRun(ok, s, p, events), Run(ok, s, events).stored, Run(ok, s, events).fetching.Keys)
    decreases |events|
  {
    if events != [] {
      StepKeeps(ok, s, events[0], offered, roots);
      PeerStepKeeps(ok, s, p, events[0], offered, roots);
      PeerRunKeeps(ok, Step(ok, s, events[0]), PeerStep(ok, s, p, events[0]), events[1..],
        offered + OfferedBy(events[0]), roots + RootsBy(events[0]));
    }
  }

  // each request is somewhere once

  function AskedFor(asks: seq<Ask>): seq<seq<Hash>> {
    seq(|asks|, i requires 0 <= i < |asks| => asks[i].blks)
  }

  function Requests(p: Peers): multiset<seq<Hash>> {
    multiset(p.answers) + multiset(AskedFor(p.asks))
  }

  lemma {:induction false} ServedRequests(asks: seq<Ask>, h: Hash)
    ensures Requests(Served(asks, h)) == multiset(AskedFor(asks))
  {
    if asks != [] {
      var m := |asks| - 1;
      ServedRequests(asks[..m], h);
      assert asks == asks[..m] + [asks[m]];
      AskedMore(asks[..m], asks[m]);
      AskedMore(Served(asks[..m], h).asks, Ask(asks[m].blks, asks[m].open - {h}));
    }
  }

  lemma {:induction false} ServeAllRequests(ok: Hash -> bool, s: State, p: Peers, blks: seq<Hash>)
    ensures Requests(ServeAll(ok, s, p, blks)) == Requests(p)
  {
    if blks != [] {
      var front := blks[..|blks| - 1];
      ServeAllRequests(ok, s, p, front);
      ServedRequests(ServeAll(ok, s, p, front).asks, blks[|blks| - 1]);
    }
  }

  function Wanted(e: Event): multiset<seq<Hash>> {
    if e.Want? && e.blks != [] then multiset{e.blks} else multiset{}
  }

  function AllWanted(events: seq<Event>): multiset<seq<Hash>> {
    if events == [] then multiset{} else Wanted(events[0]) + AllWanted(events[1..])
  }

  lemma AskedMore(asks: seq<Ask>, a: Ask)
    ensures multiset(AskedFor(asks + [a])) == multiset(AskedFor(asks)) + multiset{a.blks}
  {
    assert AskedFor(asks + [a]) == AskedFor(asks) + [a.blks];
  }

  lemma EnquireRequests(s: State, p: Peers, blks: seq<Hash>)
    requires blks != []
    ensures Requests(Enquire(s, p, blks)) == Requests(p) + multiset{blks}
  {
    if Unfetched(s, blks) == {} {
      assert multiset(p.answers + [blks]) == multiset(p.answers) + multiset{blks};
    } else {
      AskedMore(p.asks, Ask(blks, Unfetched(s, blks)));
    }
  }

  lemma PeerStepRequests(ok: Hash -> bool, s: State, p: Peers, e: Event)
    ensures Requests(PeerStep(ok, s, p, e)) == Requests(p) + Wanted(e)
  {
    match e {
      case Want(blks) => if blks != [] { EnquireRequests(s, p, blks); }
      case Response(blks) => ServeAllRequests(ok, Stored(s, set h | h in blks), p, blks);
      case _ =>
    }
  }

  lemma {:induction false} PeerRunRequests(ok: Hash -> bool, s: State, p: Peers, events: seq<Event>)
    ensures Requests(PeerRun(ok, s, p, events)) == Requests(p) + AllWanted(events)
    decreases |events|
  {
    if events != [] {
      PeerStepRequests(ok, s, p, events[0]);
      PeerRunRequests(ok, Step(ok, s, events[0]), PeerStep(ok, s, p, events[0]), events[1..]);
    }
  }

  lemma PeersReach(ok: Hash -> bool, events: seq<Event>)
    requires AllAllowed(ok, EMPTY, events)
    ensures var s := Run(ok, EMPTY, events); PeersOk(PeerRun(ok, EMPTY, NOBODY, events), s.stored, s.fetching.Keys)
  {
    EmptyValid(ok);
    PeerRunKeeps(ok, EMPTY, NOBODY, events, multiset{}, {Genesis});
  }

  /** Every request of a peer is answered once, with all its blocks stored, or waits for a block whose fetch is open;
      so with no fetch open all are answered. */
  lemma RequestsAnswered(ok: Hash -> bool, events: seq<Event>, s: State)
    requires Reaches(ok, events, s)
    ensures var p := PeerRun(ok, EMPTY, NOBODY, events);
      && multiset(p.answers) + multiset(AskedFor(p.asks)) == AllWanted(events)
      && (forall i {:trigger p.answers[i]} | 0 <= i < |p.answers| :: AllStored(p.answers[i], s.stored))
      && (forall i {:trigger p.asks[i]} | 0 <= i < |p.asks| :: AskOk(p.asks[i], s.stored, s.fetching.Keys))
      && (s.fetching == map[] ==> p.asks == [])
  {
    PeersReach(ok, events);
    PeerRunRequests(ok, EMPTY, NOBODY, events);
    var p := PeerRun(ok, EMPTY, NOBODY, events);
    assert Requests(NOBODY) == multiset{};
    if p.asks != [] { assert AskOk(p.asks[0], s.stored, s.fetching.Keys); }
  }

  /** All blocks of `blks` are stored at the start, but for `h`. */
  ghost predicate WaitsFor(blks: seq<Hash>, h: Hash) {
    h in blks && h != Genesis && forall x | x in blks :: x == h || x == Genesis
  }

  lemma WantWaits(s: State, p: Peers, blks: seq<Hash>, h: Hash)
    requires WaitsFor(blks, h) && h !in s.stored && Genesis in s.stored
    ensures Enquire(s, p, blks) == p.(asks := p.asks + [Ask(blks, {h})])
    ensures FetchAll(s, blks).stored == s.stored && h in FetchAll(s, blks).fetching
  {
    assert Unfetched(s, blks) == {h};
    FetchesAll(s, blks);
  }

  lemma {:induction false} FetchesAll(s: State, blks: seq<Hash>)
    ensures var t := FetchAll(s, blks);
      t.stored == s.stored && forall h | h in blks && h !in s.stored :: h in t.fetching
    ensures s.fetching.Keys <= FetchAll(s, blks).fetching.Keys
  {
    if blks != [] {
      var m := |blks| - 1;
      FetchesAll(s, blks[..m]);
      assert blks == blks[..m] + [blks[m]];
    }
  }

  lemma ServedBoth(a: seq<Hash>, b: seq<Hash>, h: Hash)
    ensures Served([Ask(a, {h}), Ask(b, {h})], h) == Peers([], [a, b])
  {
    var x, y := Ask(a, {h}), Ask(b, {h});
    assert [x, y][..1] == [x] && [x][..0] == [];
    assert Served([], h) == NOBODY;
    assert Served([x], h) == Peers([], [a]);
  }

  /** Requests that wait for one block are answered in the order they came in. */
  lemma RequestsInOrder(ok: Hash -> bool, a: seq<Hash>, b: seq<Hash>, h: Hash)
    requires WaitsFor(a, h) && WaitsFor(b, h)
    ensures PeerRun(ok, EMPTY, NOBODY, [Want(a), Want(b), Response([h])]) == Peers([], [a, b])
  {
    var s1 := FetchAll(EMPTY, a);
    var s2, p1 := FetchAll(s1, b), Peers([Ask(a, {h})], []);
    WantWaits(EMPTY, NOBODY, a, h);
    WantWaits(s1, p1, b, h);
    var p2 := Peers([Ask(a, {h}), Ask(b, {h})], []);
    assert [] + [Ask(a, {h})] == [Ask(a, {h})] && p1.asks + [Ask(b, {h})] == p2.asks;
    var s3 := Stored(s2, set x | x in [h]);
    assert [h][..0] == [] && AnswerAll(ok, s3, []) == s3 && ServeAll(ok, s3, p2, []) == p2;
    assert h in s3.fetching;
    ServedBoth(a, b, h);
    assert Serve(p2, h) == Peers([], [a, b]);
    assert ServeAll(ok, s3, p2, [h]) == Serve(p2, h);
    PeerRunThree(ok, EMPTY, NOBODY, Want(a), Want(b), Response([h]));
  }

  lemma PeerRunThree(ok: Hash -> bool, s: State, p: Peers, a: Event, b: Event, c: Event)
    ensures var s1, p1 := Step(ok, s, a), PeerStep(ok, s, p, a);
      var s2, p2 := Step(ok, s1, b), PeerStep(ok, s1, p1, b);
      PeerRun(ok, s, p, [a, b, c]) == PeerStep(ok, s2, p2, c)
  {
    var s1, p1 := Step(ok, s, a), PeerStep(ok, s, p, a);
    var s2, p2 := Step(ok, s1, b), PeerStep(ok, s1, p1, b);
    assert [a, b, c][1..] == [b, c] && [b, c][1..] == [c] && [c][1..] == [];
    assert PeerRun(ok, s2, p2, [c]) == PeerRun(ok, Step(ok, s2, c), PeerStep(ok, s2, p2, c), []);
  }

  // ---- the code ----

  class Deliverer {
    const ok: Hash -> bool
    var stored: set<Hash>
    var delivered: set<Hash>
    var heights: map<Hash, nat>
    var fetching: map<Hash, bool>
    var waiting: map<Hash, seq<Sub>>
    var joins: map<Hash, Join>
    var handled: seq<Hash>
    var alarm: bool
    var asks: seq<Ask>
    var answers: seq<seq<Hash>>

    ghost function Peer(): Peers
      reads this`asks, this`answers
    {
      Peers(asks, answers)
    }

    ghost function Abs(): State
      reads this`stored, this`delivered, this`heights, this`fetching, this`waiting, this`joins, this`handled, this`alarm
    {
      State(stored, delivered, heights, fetching, waiting, joins, handled, alarm)
    }

    constructor (ok: Hash -> bool)
      ensures Abs() == EMPTY && Peer() == NOBODY && this.ok == ok
    {
      this.ok := ok;
      stored, delivered, heights := {Genesis}, {Genesis}, map[Genesis := 0];
      fetching, waiting, joins, handled, alarm := map[], map[], map[], [], false;
      asks, answers := [], [];
    }

    /** `E2CBase::on_deliver_blk` */
    method OnDeliverBlk(h: Hash)
      modifies this
      ensures Peer() == old(Peer())
      ensures Abs() == OnDeliver(old(Abs()), h)
      decreases Left(Abs()), 1
    {
      if h in delivered {
        // a second delivery rejects the promise
        waiting := waiting - {h};
        return;
      }
      Mark(h);
      MarkedLeft(old(Abs()), h);
      if h in waiting { WakeUp(h); }
    }

    /** Run the callbacks that wait for `h`, and forget it. */
    method WakeUp(h: Hash)
      requires h in waiting
      modifies this
      ensures Peer() == old(Peer())
      ensures Abs() == Erased(CallAll(old(Abs()), old(waiting)[h]), h)
      decreases Left(Abs()), 4
    {
      Resolve(waiting[h]);
      waiting := waiting - {h};
    }

    method Mark(h: Hash)
      modifies this`alarm, this`delivered, this`heights
      ensures Abs() == Marked(old(Abs()), h)
    {
      CheckParents(ParentHashes(h));
      heights := heights[h := HeightFor(heights, h)];
      delivered := delivered + {h};
    }

    /** The sanity check: all parents must be delivered. */
    method CheckParents(parents: seq<Hash>)
      modifies this`alarm
      ensures alarm <==> old(alarm) || exists p | p in parents :: p !in delivered
    {
      for i := 0 to |parents|
        invariant alarm <==> old(alarm) || exists k | 0 <= k < i :: parents[k] !in delivered
      {
        if parents[i] !in delivered { alarm := true; }
      }
    }

    /** `resolve` on a delivery promise: its callbacks run in order. */
    method Resolve(subs: seq<Sub>)
      modifies this
      ensures Peer() == old(Peer())
      ensures Abs() == CallAll(old(Abs()), subs)
      decreases Left(Abs()), 3
    {
      for i := 0 to |subs|
        invariant CallAll(Abs(), subs[i..]) == CallAll(old(Abs()), subs) && Left(Abs()) <= Left(old(Abs()))
        invariant Peer() == old(Peer())
      {
        assert subs[i..][1..] == subs[i + 1..];
        Notify(subs[i]);
      }
      assert subs[|subs|..] == [];
    }

    method Notify(sub: Sub)
      modifies this
      ensures Peer() == old(Peer())
      ensures Abs() == Call(old(Abs()), sub)
      decreases Left(Abs()), 2
    {
      match sub {
        case Prop(h) => handled := handled + [h];
        case Child(c) =>
          if c in joins && joins[c].missing > 0 {
            var j := joins[c];
            if j.missing == 1 && j.valid {
              joins := joins - {c};
              assert Abs() == Unjoined(old(Abs()), c);
              OnDeliverBlk(c);
            } else {
              joins := joins[c := Join(j.missing - 1, j.valid)];
            }
          }
      }
    }

    method AsyncDeliverBlk(h: Hash)
      modifies this
      ensures Peer() == old(Peer())
      ensures Abs() == Request(ok, old(Abs()), h)
      decreases h, 1
    {
      if h in delivered || h in waiting { return; }
      waiting := waiting[h := []];
      assert Abs() == Waits(old(Abs()), h);
      if h in stored {
        Fetched(h);
      } else {
        fetching := fetching[h := true];
      }
    }

    /** The callback of the fetch in `async_deliver_blk`. */
    method Fetched(h: Hash)
      modifies this
      ensures Peer() == old(Peer())
      ensures Abs() == Continue(ok, old(Abs()), h)
      decreases h, 0
    {
      var valid := ok(h);
      var parents := ParentHashes(h);
      for i := 0 to |parents|
        invariant Abs() == RequestAll(ok, old(Abs()), h, i) && Peer() == old(Peer())
      {
        AsyncDeliverBlk(parents[i]);
      }
      var missing := JoinAll(h, parents);
      if missing == 0 && valid {
        AttachNone(RequestAll(ok, old(Abs()), h, |parents|).waiting, parents, h, delivered);
        OnDeliverBlk(h);
      } else {
        joins := joins[h := Join(missing, valid)];
      }
    }

    /** `promise::all` over the parents' promises. */
    method JoinAll(h: Hash, parents: seq<Hash>) returns (missing: nat)
      modifies this`waiting
      ensures missing == Missing(parents, delivered) && waiting == Attach(old(waiting), parents, h, delivered)
    {
      missing := 0;
      for i := 0 to |parents|
        invariant missing == Missing(parents[..i], delivered)
        invariant waiting == Attach(old(waiting), parents[..i], h, delivered)
      {
        var p := parents[i];
        assert parents[..i + 1][..i] == parents[..i];
        if p !in delivered {
          missing := missing + 1;
          if p in waiting { waiting := waiting[p := waiting[p] + [Child(h)]]; }
        }
      }
      assert parents[..|parents|] == parents;
    }

    /** `propose_handler` */
    method ProposeHandler(h: Hash, proposer: nat)
      requires h.Of?
      modifies this
      ensures Peer() == old(Peer())
      ensures Abs() == Taken(ok, old(Abs()), Message(h, proposer))
    {
      stored := stored + {h};
      var height := if h in heights then heights[h] else h.wire.height;
      if height == 0 { return; }
      if h.wire.proposer != proposer { return; }
      AsyncDeliverBlk(h);
      if h in waiting {
        waiting := waiting[h := waiting[h] + [Prop(h)]];
      } else {
        handled := handled + [h];
      }
    }

    /** `resp_blk_handler`: all blocks of the message are stored before the first fetch is resolved. */
    method RespBlkHandler(blks: seq<Hash>)
      modifies this
      ensures Abs() == Step(ok, old(Abs()), Response(blks))
      ensures Peer() == PeerStep(ok, old(Abs()), old(Peer()), Response(blks))
    {
      PostponedParse(blks);
      ghost var s := Abs();
      for i := 0 to |blks|
        invariant Abs() == AnswerAll(ok, s, blks[..i]) && Peer() == ServeAll(ok, s, old(Peer()), blks[..i])
      {
        assert blks[..i + 1][..i] == blks[..i];
        OnFetchBlk(blks[i]);
      }
      assert blks[..|blks|] == blks;
    }

    method PostponedParse(blks: seq<Hash>)
      modifies this`stored
      ensures Abs() == Stored(old(Abs()), set h | h in blks)
    {
      for i := 0 to |blks|
        invariant stored == old(stored) + set h | h in blks[..i]
      {
        stored := stored + {blks[i]};
        assert blks[..i + 1] == blks[..i] + [blks[i]];
      }
      assert blks[..|blks|] == blks;
    }

    /** `on_fetch_blk`; the entry is erased after its callbacks ran. */
    method OnFetchBlk(h: Hash)
      modifies this
      ensures Abs() == Answer(ok, old(Abs()), h)
      ensures Peer() == if h in old(fetching) then Serve(old(Peer()), h) else old(Peer())
    {
      if h in fetching {
        var continues := fetching[h];
        fetching := fetching[h := false];
        if continues { Fetched(h); }
        SendReplies(h);
        fetching := fetching - {h};
      }
    }

    /** The requests that wait for this block count it down, in order; a complete one is answered. */
    method SendReplies(h: Hash)
      modifies this`asks, this`answers
      ensures Peer() == Serve(old(Peer()), h)
    {
      var open: seq<Ask> := [];
      for i := 0 to |asks|
        invariant asks == old(asks)
        invariant open == Served(asks[..i], h).asks && answers == old(answers) + Served(asks[..i], h).answers
      {
        assert asks[..i + 1][..i] == asks[..i];
        var left := asks[i].open - {h};
        if left == {} { answers := answers + [asks[i].blks]; } else { open := open + [Ask(asks[i].blks, left)]; }
      }
      assert asks[..|asks|] == asks;
      asks := open;
    }

    /** `req_blk_handler`: open the fetches, and answer when all are resolved; the empty request throws. */
    method ReqBlkHandler(blks: seq<Hash>)
      modifies this`fetching, this`asks, this`answers
      ensures Abs() == Step(ok, old(Abs()), Want(blks))
      ensures Peer() == PeerStep(ok, old(Abs()), old(Peer()), Want(blks))
    {
      var open := OpenFetches(blks);
      if blks == [] { return; }
      if open == {} { answers := answers + [blks]; } else { asks := asks + [Ask(blks, open)]; }
    }

    /** `async_fetch_blk` for each block; `open` is those that are not there yet. */
    method OpenFetches(blks: seq<Hash>) returns (open: set<Hash>)
      modifies this`fetching
      ensures Abs() == FetchAll(old(Abs()), blks) && open == Unfetched(old(Abs()), blks)
    {
      open := {};
      for i := 0 to |blks|
        invariant Abs() == FetchAll(old(Abs()), blks[..i]) && Peer() == old(Peer()) && stored == old(stored)
        invariant open == set h | h in blks[..i] && h !in stored
      {
        assert blks[..i + 1] == blks[..i] + [blks[i]] && blks[..i + 1][..i] == blks[..i];
        if blks[i] !in stored {
          open := open + {blks[i]};
          if blks[i] !in fetching { fetching := fetching[blks[i] := false]; }
        }
      }
      assert blks[..|blks|] == blks;
    }

    /** `E2CCore::on_deliver_blk` for a block proposed here: no promise is looked up. */
    method DeliverOwn(h: Hash)
      modifies this`stored, this`delivered, this`heights
      ensures Abs() == Step(ok, old(Abs()), Own(h))
    {
      if h !in delivered {
        stored := stored + {h};
        heights := heights[h := HeightFor(heights, h)];
        delivered := delivered + {h};
      }
    }
  }
}

/** `E2CCore`: the per-replica state machine, on mutable blocks. */
module Core {
  import opened Blocks
  import opened Tails

  datatype Error = EmptyParents | NotDelivered | NoSuchReplica

  datatype Result<T> = Ok(value: T) | Err(error: Error)

  /** `replicas` maps an id to its key and address. */
  datatype ReplicaConfig = ReplicaConfig(replicas: map<nat, nat>, nreplicas: nat, nmajority: nat)

  const NO_REPLICAS: ReplicaConfig := ReplicaConfig(map[], 0, 0)

  /** The first entry of an id stays, and every call counts. */
  function Enrol(c: ReplicaConfig, rid: nat, info: nat): ReplicaConfig {
    c.(replicas := if rid in c.replicas then c.replicas else c.replicas[rid := info], nreplicas := c.nreplicas + 1)
  }

  function EnrolAll(calls: seq<(nat, nat)>): ReplicaConfig {
    if calls == [] then NO_REPLICAS
    else var (rid, info) := calls[|calls| - 1]; Enrol(EnrolAll(calls[..|calls| - 1]), rid, info)
  }

  ghost predicate NoRepeat(calls: seq<(nat, nat)>) {
    forall i, j | 0 <= i < j < |calls| :: calls[i].0 != calls[j].0
  }

  ghost predicate Named(calls: seq<(nat, nat)>, rid: nat) {
    exists i :: 0 <= i < |calls| && calls[i].0 == rid
  }

  lemma NamedLast(calls: seq<(nat, nat)>, m: nat, rid: nat)
    requires |calls| == m + 1
    ensures Named(calls, rid) <==> Named(calls[..m], rid) || calls[m].0 == rid
  {
    if Named(calls[..m], rid) {
      var i :| 0 <= i < m && calls[..m][i].0 == rid;
      assert calls[i].0 == rid;
    }
    if i :| 0 <= i < m && calls[i].0 == rid { assert calls[..m][i].0 == rid; }
  }

  lemma NoRepeatLast(calls: seq<(nat, nat)>, m: nat)
    requires |calls| == m + 1
    ensures NoRepeat(calls) <==> NoRepeat(calls[..m]) && !Named(calls[..m], calls[m].0)
  {
    assert forall i | 0 <= i < m :: calls[..m][i] == calls[i];
  }

  /** Whatever is added later, an id keeps the entry it was first added with. */
  lemma {:induction false} FirstEntryStays(calls: seq<(nat, nat)>, i: nat)
    requires i < |calls| && !Named(calls[..i], calls[i].0)
    ensures var c := EnrolAll(calls); calls[i].0 in c.replicas && c.replicas[calls[i].0] == calls[i].1
  {
    var m := |calls| - 1;
    CountIff(calls[..m]);
    if i < m {
      assert calls[..m][..i] == calls[..i];
      FirstEntryStays(calls[..m], i);
    }
  }

  /** `nreplicas`, from which `nmajority` is computed, is the number of replicas if and only if no id was added
      twice; it is never less. */
  lemma {:induction false} CountIff(calls: seq<(nat, nat)>)
    ensures var c := EnrolAll(calls);
      && c.nreplicas == |calls| && |c.replicas| <= c.nreplicas && (|c.replicas| == c.nreplicas <==> NoRepeat(calls))
      && forall rid :: rid in c.replicas <==> Named(calls, rid)
  {
    if calls != [] {
      var m := |calls| - 1;
      CountIff(calls[..m]);
      NoRepeatLast(calls, m);
      forall rid ensures rid in EnrolAll(calls).replicas <==> Named(calls, rid) { NamedLast(calls, m, rid); }
      KeysMore(EnrolAll(calls[..m]), calls[m].0, calls[m].1);
    }
  }

  lemma KeysMore(c: ReplicaConfig, rid: nat, info: nat)
    ensures |Enrol(c, rid, info).replicas| == |c.replicas| + if rid in c.replicas then 0 else 1
  {
    var r := Enrol(c, rid, info).replicas;
    assert r.Keys == c.replicas.Keys + {rid} && |r| == |r.Keys| && |c.replicas| == |c.replicas.Keys|;
  }

  class Block {
    const hash: Hash
    var height: nat
    var parents: seq<Block>
    var delivered: bool
    var decision: int

    /** A block just parsed or built: the height is the one in its content. */
    constructor (wire: Wire)
      ensures hash == Of(wire) && height == wire.height && !delivered && decision == 0
    {
      hash, height, parents, delivered, decision := Of(wire), wire.height, [], false, 0;
    }

    constructor Genesis()
      ensures hash == Hash.Genesis && height == 0 && delivered && decision == 1 && parents == []
    {
      hash, height, parents, delivered, decision := Hash.Genesis, 0, [], true, 1;
    }
  }

  class E2CCore {
    const id: nat
    const b0: Block
    var config: ReplicaConfig
    var bMark: Block
    var tails: set<Block>
    var storage: map<Hash, Block>
    var htBlkMap: map<nat, Block>
    var nulls: set<nat>
    var timers: seq<nat>
    var log: seq<Finality>
    var sent: seq<Hash>

    // ---- specification ----

    // `ht_blk_map` is `htBlkMap` and, at the heights in `nulls`, null entries

    ghost predicate Stored(b: Block)
      reads this`storage
    {
      b.hash in storage && storage[b.hash] == b
    }

    ghost predicate Delivered(h: Hash)
      reads this`storage, storage.Values`delivered
    {
      h in storage && storage[h].delivered
    }

    ghost predicate DeliveredOk(h: Hash)
      requires h in storage
      reads this`storage, storage.Values`height, storage.Values`delivered
    {
      && storage[h].height == Depth(h) && (h.Of? ==> h.wire.parents != [])
      && forall p | p in ParentHashes(h) :: Delivered(p)
    }

    ghost predicate RawOk(h: Hash)
      requires h in storage
      reads this`storage, storage.Values`height
    {
      h.Of? && storage[h].height == h.wire.height
    }

    /** One object per hash; delivered blocks have delivered parents and the height those give, others the
        height of their content. */
    ghost predicate StoreOk()
      reads this`storage, storage.Values`height, storage.Values`delivered, storage.Values`decision
    {
      && (forall h | h in storage :: storage[h].hash == h && 0 <= storage[h].decision <= 1)
      && (forall h {:trigger DeliveredOk(h)} | Delivered(h) :: DeliveredOk(h))
      && (forall h {:trigger RawOk(h)} | h in storage && !storage[h].delivered :: RawOk(h))
      && Stored(b0) && b0.hash == Genesis && b0.delivered && b0.decision == 1
    }

    ghost predicate Valid()
      reads this`bMark, this`tails, this`storage, this`htBlkMap, this`nulls
      reads storage.Values`height, storage.Values`delivered, storage.Values`decision
    {
      && StoreOk() && nulls !! htBlkMap.Keys
      && Stored(bMark) && bMark.delivered
      && (forall ht | ht in htBlkMap :: Stored(htBlkMap[ht]) && htBlkMap[ht].delivered && htBlkMap[ht].height == ht)
      && (forall b | b in tails :: Stored(b))
    }

    ghost function Abs(): Replica
      reads this`bMark, this`storage, this`htBlkMap, this`timers, this`log, this`sent, storage.Values`decision
    {
      Replica(Chain(), bMark.hash, timers, Decided(), log, sent)
    }

    ghost function Chain(): map<nat, Hash>
      reads this`htBlkMap
    {
      map ht | ht in htBlkMap :: htBlkMap[ht].hash
    }

    ghost function Decided(): set<Hash>
      reads this`storage, storage.Values`decision
    {
      set h | h in storage && storage[h].decision == 1
    }

    ghost function Shelved(): Shelf
      reads this`storage, this`tails, storage.Values`delivered
    {
      Shelf(storage.Keys, set h | h in storage && storage[h].delivered, set h | h in storage && storage[h] in tails)
    }

    ghost function Node(): Node
      reads this`bMark, this`tails, this`storage, this`htBlkMap, this`timers, this`log, this`sent
      reads storage.Values`decision, storage.Values`delivered
    {
      Tails.Node(Abs(), Shelved())
    }

    // ---- handlers ----

    constructor (id: nat)
      ensures Valid() && Abs() == Blocks.START.(chain := map[]) && Shelved() == NEW && this.id == id
      ensures fresh(storage.Values) && htBlkMap == map[] && nulls == {} && config == NO_REPLICAS
    {
      this.id := id;
      var g := new Block.Genesis();
      b0, bMark, tails := g, g, {g};
      storage, htBlkMap := map[Hash.Genesis := g], map[];
      timers, log, sent := [], [], [];
      config, nulls := NO_REPLICAS, {};
    }

    /** `add_replica` */
    method AddReplica(rid: nat, info: nat)
      modifies this`config
      ensures config == Enrol(old(config), rid, info)
    {
      var replicas := if rid in config.replicas then config.replicas else config.replicas[rid := info];
      config := config.(replicas := replicas, nreplicas := config.nreplicas + 1);
    }

    /** `get_info` */
    method GetInfo(rid: nat) returns (r: Result<nat>)
      ensures r == if rid in config.replicas then Ok(config.replicas[rid]) else Err(NoSuchReplica)
    {
      if rid !in config.replicas { return Err(NoSuchReplica); }
      return Ok(config.replicas[rid]);
    }

    /** `on_init`; height 0 holds a block from then on, whatever was read before. */
    method OnInit(nfaulty: nat)
      requires Valid()
      modifies this`htBlkMap, this`nulls, this`config
      ensures Valid() && Abs() == old(Abs()).(chain := old(Abs()).chain[0 := Hash.Genesis])
      ensures Shelved() == old(Shelved()) && nulls == old(nulls) - {0}
      ensures config == old(config).(nmajority := SizeMinus(old(config).nreplicas, nfaulty))
    {
      config := config.(nmajority := SizeMinus(config.nreplicas, nfaulty));
      StoreGenesis();
    }

    method StoreGenesis()
      requires Valid()
      modifies this`htBlkMap, this`nulls
      ensures Valid() && Abs() == old(Abs()).(chain := old(Abs()).chain[0 := Hash.Genesis])
      ensures nulls == old(nulls) - {0}
    {
      assert Delivered(Hash.Genesis) && DeliveredOk(Hash.Genesis);
      htBlkMap, nulls := htBlkMap[0 := b0], nulls - {0};
      assert Chain() == old(Chain())[0 := Hash.Genesis];
    }

    /** `EntityStorage::add_blk`: the first object stored under a hash wins. */
    method AddBlk(wire: Wire) returns (b: Block)
      requires Valid()
      modifies this`storage
      ensures Valid() && Stored(b) && b.hash == Of(wire)
      ensures Abs() == old(Abs()) && Shelved() == Known(old(Shelved()), Of(wire))
      ensures Kept()
      ensures if Of(wire) in old(storage) then b == old(storage)[Of(wire)] && storage == old(storage)
        else fresh(b) && !b.delivered && b.height == wire.height && storage == old(storage)[Of(wire) := b]
    {
      b := new Block(wire);
      if b.hash in storage {
        b := storage[b.hash];
      } else {
        Insert(b);
      }
    }

    method Insert(b: Block)
      requires Valid() && b.hash.Of? && b.hash !in storage && b !in storage.Values && b !in tails
      requires !b.delivered && b.height == b.hash.wire.height && b.decision == 0
      modifies this`storage
      ensures Valid() && storage == old(storage)[b.hash := b]
      ensures Abs() == old(Abs()) && Shelved() == Known(old(Shelved()), b.hash)
    {
      storage := storage[b.hash := b];
      assert forall h | h in old(storage) :: storage[h] == old(storage)[h];
      assert forall c :: Delivered(c) <==> old(Delivered(c));
      forall h | Delivered(h) ensures DeliveredOk(h) { assert old(DeliveredOk(h)); }
      forall h | h in storage && !storage[h].delivered ensures RawOk(h) { assert h in old(storage) ==> old(RawOk(h)); }
      assert Decided() == old(Decided());
    }

    /** No stored object is replaced, and what is added to the store is new. */
    twostate predicate Kept()
      reads this`storage
    {
      && fresh(storage.Values - old(storage.Values))
      && forall h | h in old(storage) :: h in storage && storage[h] == old(storage[h])
    }

    method GetDeliveredBlk(h: Hash) returns (r: Result<Block>)
      requires Valid()
      ensures r == if h in storage && storage[h].delivered then Ok(storage[h]) else Err(NotDelivered)
    {
      if h !in storage || !storage[h].delivered { return Err(NotDelivered); }
      return Ok(storage[h]);
    }
  
    /** The first loop of `on_deliver_blk`; an undelivered parent is an exception. */
    method CollectParents(blk: Block) returns (ok: bool)
      requires Valid() && Stored(blk)
      modifies blk`parents
      ensures ok <==> forall p | p in ParentHashes(blk.hash) :: Delivered(p)
      ensures ok ==> |blk.parents| == |ParentHashes(blk.hash)|
      ensures ok ==> forall i | 0 <= i < |blk.parents| ::
        Delivered(ParentHashes(blk.hash)[i]) && blk.parents[i] == storage[ParentHashes(blk.hash)[i]]
    {
      var hashes := ParentHashes(blk.hash);
      blk.parents := [];
      for i := 0 to |hashes|
        invariant |blk.parents| == i
        invariant forall j | 0 <= j < i :: Delivered(hashes[j]) && blk.parents[j] == storage[hashes[j]]
      {
        var p := GetDeliveredBlk(hashes[i]);
        if p.Err? {
          assert hashes[i] in hashes && !Delivered(hashes[i]);
          return false;
        }
        blk.parents := blk.parents + [p.value];
      }
      return true;
    }

    method EraseTails(ps: seq<Block>)
      modifies this`tails
      ensures tails == old(tails) - set p | p in ps
    {
      for i := 0 to |ps|
        invariant tails == old(tails) - set p | p in ps[..i]
      {
        tails := tails - {ps[i]};
        assert ps[..i + 1] == ps[..i] + [ps[i]];
      }
      assert ps[..|ps|] == ps;
    }

    /** `on_deliver_blk` */
    method OnDeliverBlk(blk: Block) returns (r: Result<bool>)
      requires Valid() && Stored(blk) && (!blk.delivered ==> ParentHashes(blk.hash) != [])
      modifies this`tails, blk`parents, blk`height, blk`delivered
      ensures Valid() && Abs() == old(Abs()) && Shelved() == DeliverOn(old(Shelved()), blk.hash)
      ensures r == if old(blk.delivered) then Ok(false)
        else if forall p | p in ParentHashes(blk.hash) :: old(Delivered(p)) then Ok(true)
        else Err(NotDelivered)
      ensures r == Ok(true) ==> blk.delivered && |blk.parents| == |ParentHashes(blk.hash)|
      ensures r == Ok(true) ==> forall i | 0 <= i < |blk.parents| :: Holds(ParentHashes(blk.hash)[i], blk.parents[i])
      ensures r != Ok(true) ==> blk.delivered == old(blk.delivered) && blk.height == old(blk.height)
    {
      if blk.delivered {
        r := Ok(false);
      } else {
        var ok := CollectParents(blk);
        if ok {
          Link(blk);
          r := Ok(true);
        } else {
          r := Err(NotDelivered);
        }
      }
      assert blk.delivered ==> Delivered(blk.hash);
    }

    ghost predicate Holds(h: Hash, b: Block)
      reads this`storage
    {
      h in storage && storage[h] == b
    }

    /** The rest of `on_deliver_blk`, once the parents are collected. */
    method Link(blk: Block)
      requires Valid() && Stored(blk) && !blk.delivered && ParentHashes(blk.hash) != []
      requires |blk.parents| == |ParentHashes(blk.hash)|
      requires forall i | 0 <= i < |blk.parents| ::
        Delivered(ParentHashes(blk.hash)[i]) && Holds(ParentHashes(blk.hash)[i], blk.parents[i])
      modifies this`tails, blk`height, blk`delivered
      ensures Valid() && Abs() == old(Abs()) && blk.delivered
      ensures Shelved() == DeliverOn(old(Shelved()), blk.hash)
    {
      assert Holds(blk.hash.wire.parents[0], blk.parents[0]) && DeliveredOk(blk.hash.wire.parents[0]);
      blk.height := blk.parents[0].height + 1;
      EraseTails(blk.parents);
      assert (set p | p in blk.parents) == (set p | p in ParentHashes(blk.hash) :: storage[p]) by {
        assert forall i | 0 <= i < |blk.parents| :: Holds(ParentHashes(blk.hash)[i], blk.parents[i]);
      }
      tails := tails + {blk};
      blk.delivered := true;
      DeliverKeeps(blk);
    }

    /** The effect of a successful delivery. */
    twostate predicate JustDelivered(blk: Block)
      reads this, storage.Values
    {
      && storage == old(storage) && Stored(blk) && !old(blk.delivered) && blk.delivered && blk.height == Depth(blk.hash)
      && (forall h | h in storage && storage[h] != blk ::
            storage[h].delivered == old(storage[h].delivered) && storage[h].height == old(storage[h].height))
      && (forall h | h in storage :: storage[h].decision == old(storage[h].decision) && storage[h].hash == h)
      && (forall p | p in ParentHashes(blk.hash) :: old(Delivered(p)))
      && tails == old(tails) - (set p | p in ParentHashes(blk.hash) :: storage[p]) + {blk}
      && bMark == old(bMark) && htBlkMap == old(htBlkMap) && timers == old(timers) && log == old(log)
      && sent == old(sent) && nulls == old(nulls)
    }

    twostate lemma DeliverKeepsValid(blk: Block)
      requires old(Valid()) && JustDelivered(blk) && ParentHashes(blk.hash) != []
      ensures Valid() && Abs() == old(Abs())
    {
      forall h | Delivered(h) ensures DeliveredOk(h) {
        if storage[h] != blk { assert old(DeliveredOk(h)); }
      }
      forall h | h in storage && !storage[h].delivered ensures RawOk(h) { assert old(RawOk(h)); }
      assert old(Delivered(bMark.hash));
    }

    twostate lemma DeliverKeeps(blk: Block)
      requires old(Valid()) && JustDelivered(blk) && ParentHashes(blk.hash) != []
      ensures Valid() && Abs() == old(Abs()) && Shelved() == DeliverOn(old(Shelved()), blk.hash)
    {
      DeliverKeepsValid(blk);
      DeliverKeepsTails(blk);
    }

    twostate lemma DeliverKeepsTails(blk: Block)
      requires old(Valid()) && JustDelivered(blk)
      ensures Shelved() == DeliverOn(old(Shelved()), blk.hash)
    {
      var s, t, ps := old(Shelved()), Shelved(), ParentHashes(blk.hash);
      assert blk.hash !in s.done && Ready(s, blk.hash);
      forall h ensures h in t.done <==> h in s.done + {blk.hash} {
        assert h in storage && storage[h] != blk ==> (storage[h].delivered <==> old(storage[h].delivered));
      }
      forall h ensures h in t.tails <==> h in s.tails - Listed(ps) + {blk.hash} {
        assert h in storage && storage[h] == blk ==> h == blk.hash;
        assert h in storage && storage[h] in (set p | p in ps :: storage[p]) <==> h in ps by {
          assert forall p | p in ps :: p in storage && storage[p].hash == p;
        }
      }
    }

    method Update(nblk: Block)
      requires Valid() && Stored(nblk) && nblk.delivered && nblk.height !in nulls
      modifies this`bMark, this`htBlkMap, this`timers
      ensures Valid() && Abs() == Blocks.Update(old(Abs()), nblk.hash)
    {
      var ht := nblk.height;
      assert DeliveredOk(nblk.hash) && DeliveredOk(bMark.hash);
      if ht in htBlkMap && htBlkMap[ht].hash != nblk.hash {
        // the proposer has equivocated; the conflict is reported and the block is not stored
        return;
      }
      if ht in htBlkMap { return; }
      StoreBlk(nblk);
    }

    /** The first block of a height: it may become `b_mark`, and it gets its commit timer. */
    method StoreBlk(nblk: Block)
      requires Valid() && Stored(nblk) && nblk.delivered && nblk.height == Depth(nblk.hash) && nblk.height !in htBlkMap
      requires nblk.height !in nulls
      requires bMark.height == Depth(bMark.hash)
      modifies this`bMark, this`htBlkMap, this`timers
      ensures Valid() && Abs() == Blocks.Update(old(Abs()), nblk.hash)
    {
      RaiseMark(nblk);
      SetBlk(nblk);
    }

    method SetBlk(nblk: Block)
      requires Valid() && Stored(nblk) && nblk.delivered
      requires nblk.height !in nulls
      modifies this`htBlkMap, this`timers
      ensures Valid()
      ensures Abs() == old(Abs()).(
        chain := old(Abs()).chain[nblk.height := nblk.hash], timers := old(timers) + [nblk.height])
    {
      htBlkMap := htBlkMap[nblk.height := nblk];
      assert forall ht :: ht in Chain() <==> ht in old(Chain()) || ht == nblk.height;
      assert Chain() == old(Chain())[nblk.height := nblk.hash];
      timers := timers + [nblk.height];
    }

    method RaiseMark(nblk: Block)
      requires Valid() && Stored(nblk) && nblk.delivered && nblk.height == Depth(nblk.hash)
      requires bMark.height == Depth(bMark.hash)
      modifies this`bMark
      ensures Valid()
      ensures Abs() == old(Abs()).(
        mark := if Depth(old(bMark.hash)) < Depth(nblk.hash) then nblk.hash else old(bMark.hash))
    {
      if bMark.height < nblk.height { bMark := nblk; }
    }

    /** `on_propose`. The tails of the given parents are erased before anything can fail. */
    method OnPropose(cmds: seq<Cmd>, parents: seq<Block>, extra: seq<nat>) returns (r: Result<Block>)
      requires Valid() && forall p | p in parents :: Stored(p)
      requires NewHeightFree(parents)
      modifies this`tails, this`bMark, this`htBlkMap, this`timers, this`sent, this`storage
      modifies storage.Values`parents, storage.Values`height, storage.Values`delivered
      ensures Valid() && Kept()
      ensures Shelved() == ProposeOn(id, old(Shelved()), cmds, Hashes(parents), extra)
      ensures r.Ok? <==> parents != [] && old(AllDelivered(parents))
      ensures r.Err? ==> Abs() == old(Abs()) && r.error == if parents == [] then EmptyParents else NotDelivered
      ensures r.Ok? ==> Stored(r.value) && r.value.delivered
      ensures r.Ok? ==> r.value.hash.Of? && var w := r.value.hash.wire;
        && w.proposer == id && w.cmds == cmds && w.extra == extra
        && w.parents == Hashes(parents) && w.height == Depth(parents[0].hash) + 1
      ensures r.Ok? ==> r.value.hash == NewBlock(id, Hashes(parents), cmds, extra)
      ensures r.Ok? ==> r.value.hash == Built(id, old(Shelved()), cmds, Hashes(parents), extra)
      ensures r.Ok? ==> Abs() == Blocks.Propose(old(Abs()), r.value.hash)
    {
      if parents == [] { return Err(EmptyParents); }
      EraseParents(parents);
      ProposeSteps(id, old(Shelved()), cmds, Hashes(parents), extra);
      r := Extend(cmds, parents, extra);
    }

    /** `on_propose` once the tails are erased. */
    method Extend(cmds: seq<Cmd>, parents: seq<Block>, extra: seq<nat>) returns (r: Result<Block>)
      requires Valid() && parents != [] && (forall p | p in parents :: Stored(p))
      requires NewHeightFree(parents)
      modifies this`tails, this`bMark, this`htBlkMap, this`timers, this`sent, this`storage
      modifies storage.Values`parents, storage.Values`height, storage.Values`delivered
      ensures Valid() && Kept()
      ensures var b := Built(id, old(Shelved()), cmds, Hashes(parents), extra);
        Shelved() == DeliverOn(Known(old(Shelved()), b), b)
      ensures r.Ok? <==> old(AllDelivered(parents))
      ensures r.Err? ==> r == Err(NotDelivered) && Abs() == old(Abs())
      ensures r.Ok? ==> Stored(r.value) && r.value.delivered
      ensures r.Ok? ==> r.value.hash == NewBlock(id, Hashes(parents), cmds, extra)
      ensures r.Ok? ==> r.value.hash == Built(id, old(Shelved()), cmds, Hashes(parents), extra)
      ensures r.Ok? ==> Abs() == Blocks.Propose(old(Abs()), r.value.hash)
    {
      var bnew := CreateBlk(cmds, parents, extra);
      var d := Announce(bnew);
      if d.Err? { return Err(d.error); }
      return Ok(bnew);
    }

    /** A null entry at the height of the new block would be dereferenced. */
    ghost predicate NewHeightFree(parents: seq<Block>)
      reads this`nulls, parents`delivered, parents`height
    {
      parents != [] && AllDelivered(parents) ==> parents[0].height + 1 !in nulls
    }

    ghost predicate AllDelivered(bs: seq<Block>)
      reads bs`delivered
    {
      forall b | b in bs :: b.delivered
    }

    method EraseParents(parents: seq<Block>)
      requires Valid() && forall p | p in parents :: Stored(p)
      modifies this`tails
      ensures Valid() && Abs() == old(Abs())
      ensures Shelved() == old(Shelved()).(tails := old(Shelved()).tails - Listed(Hashes(parents)))
    {
      EraseTails(parents);
      forall h | h in storage ensures h in Listed(Hashes(parents)) <==> storage[h] in parents {
        if h in Hashes(parents) {
          var i :| 0 <= i < |parents| && Hashes(parents)[i] == h;
          assert Stored(parents[i]);
        }
        if storage[h] in parents {
          var i :| 0 <= i < |parents| && parents[i] == storage[h];
          assert Hashes(parents)[i] == h;
        }
      }
    }

    /** Build the block and put it in the store. */
    method CreateBlk(cmds: seq<Cmd>, parents: seq<Block>, extra: seq<nat>) returns (bnew: Block)
      requires Valid() && parents != [] && forall p | p in parents :: Stored(p)
      modifies this`storage
      ensures Valid() && Abs() == old(Abs()) && Stored(bnew) && Kept()
      ensures bnew.hash == Built(id, old(Shelved()), cmds, Hashes(parents), extra)
      ensures Shelved() == Known(old(Shelved()), bnew.hash)
      ensures old(AllDelivered(parents)) ==> bnew.hash == NewBlock(id, Hashes(parents), cmds, extra)
      ensures old(AllDelivered(parents)) ==> Depth(bnew.hash) == old(parents[0].height) + 1
      ensures old(AllDelivered(parents)) ==> Reserialized(bnew.hash) == bnew.hash
      ensures (forall p | p in ParentHashes(bnew.hash) :: Delivered(p)) <==> old(AllDelivered(parents))
      ensures bnew in old(storage).Values || fresh(bnew)
    {
      assert parents[0] in parents;
      HeightOf(parents[0]);
      bnew := AddBlk(Wire(Hashes(parents), cmds, extra, id, parents[0].height + 1));
      assert forall p | p in parents :: Stored(p);
      ListedParents(parents, bnew.hash);
      NewBlockHeight(id, Hashes(parents), cmds, extra);
    }

    lemma HeightOf(b: Block)
      requires Valid() && Stored(b)
      ensures b.height == HeightIn(Shelved(), b.hash) && (b.delivered ==> b.height == Depth(b.hash))
    {
      assert if b.delivered then Delivered(b.hash) && DeliveredOk(b.hash) else RawOk(b.hash);
    }

    lemma ListedParents(parents: seq<Block>, h: Hash)
      requires h.Of? && h.wire.parents == Hashes(parents) && forall p | p in parents :: Stored(p)
      ensures (forall p | p in ParentHashes(h) :: Delivered(p)) <==> forall p | p in parents :: p.delivered
    {
      forall i | 0 <= i < |parents|
        ensures Hashes(parents)[i] in ParentHashes(h) && Stored(parents[i]) && Hashes(parents)[i] == parents[i].hash
      {
        assert parents[i] in parents;
      }
      forall p | p in parents ensures p.hash in ParentHashes(h) {
        var i :| 0 <= i < |parents| && parents[i] == p;
        assert Hashes(parents)[i] == p.hash;
      }
    }

    /** Deliver, store and broadcast the new block. */
    method Announce(bnew: Block) returns (d: Result<bool>)
      requires Valid() && Stored(bnew) && ParentHashes(bnew.hash) != []
      requires (forall p | p in ParentHashes(bnew.hash) :: Delivered(p)) ==> Depth(bnew.hash) !in nulls
      modifies this`tails, this`bMark, this`htBlkMap, this`timers, this`sent, bnew`parents, bnew`height, bnew`delivered
      ensures Valid() && Shelved() == DeliverOn(old(Shelved()), bnew.hash)
      ensures d.Ok? <==> forall p | p in ParentHashes(bnew.hash) :: old(Delivered(p))
      ensures d.Err? ==> d.error == NotDelivered && Abs() == old(Abs())
      ensures d.Ok? ==> bnew.delivered
      ensures d.Ok? ==> Abs() == Blocks.Update(old(Abs()), bnew.hash).(sent := old(sent) + [Reserialized(bnew.hash)])
    {
      assert bnew.delivered ==> Delivered(bnew.hash) && DeliveredOk(bnew.hash);
      d := OnDeliverBlk(bnew);
      if d.Ok? {
        HeightOf(bnew);
        UpdateAndSend(bnew);
      }
    }

    method UpdateAndSend(b: Block)
      requires Valid() && Stored(b) && b.delivered
      requires b.height !in nulls
      modifies this`bMark, this`htBlkMap, this`timers, this`sent
      ensures Valid() && Abs() == Blocks.Update(old(Abs()), b.hash).(sent := old(sent) + [Reserialized(b.hash)])
    {
      assert Delivered(b.hash) && DeliveredOk(b.hash);
      Update(b);
      Send(Serialized(b));
    }

    /** `do_broadcast_proposal` */
    method Send(h: Hash)
      requires Valid()
      modifies this`sent
      ensures Valid() && Abs() == old(Abs()).(sent := old(sent) + [h]) && sent == old(sent) + [h]
    {
      sent := sent + [h];
    }

    /** `on_receive_proposal`: store and forward a block unless it is already stored; a conflicting
        block is not stored but still forwarded. */
    method OnReceiveProposal(bnew: Block) returns (r: Result<bool>)
      requires Valid() && Stored(bnew)
      requires bnew.delivered ==> bnew.height !in nulls
      modifies this`bMark, this`htBlkMap, this`timers, this`sent
      ensures Valid() && Shelved() == old(Shelved())
      ensures if !bnew.delivered then r == Err(NotDelivered) && Abs() == old(Abs())
        else r.Ok? && Abs() == Blocks.Receive(old(Abs()), bnew.hash)
    {
      if !bnew.delivered { return Err(NotDelivered); }
      assert Delivered(bnew.hash) && DeliveredOk(bnew.hash);
      if bnew.height in htBlkMap && htBlkMap[bnew.height].hash == bnew.hash { return Ok(false); }
      UpdateAndSend(bnew);
      return Ok(true);
    }

    /** `get_parents`. A hole in the map puts a null block in the list, and in the map. */
    method GetParents() returns (parents: seq<Block?>)
      requires Valid()
      modifies this`nulls
      ensures ParentList(parents)
      ensures (forall i | 0 <= i < |parents| :: parents[i] != null) <==> CanPropose(Abs())
      ensures nulls == old(nulls) + set ht | 1 <= ht <= Depth(bMark.hash) && ht !in htBlkMap
    {
      parents := [];
      var ht := bMark.height;
      assert Delivered(bMark.hash) && DeliveredOk(bMark.hash);
      ghost var top := Depth(bMark.hash);
      while ht > 0
        invariant 0 <= ht <= top && |parents| == top - ht
        invariant forall i | 0 <= i < |parents| :: ParentAt(parents[i], top - i)
        invariant nulls == old(nulls) + set k | ht < k <= top && k !in htBlkMap
      {
        if ht !in htBlkMap { nulls := nulls + {ht}; }
        parents := parents + [if ht in htBlkMap then htBlkMap[ht] else null];
        ht := ht - 1;
      }
      parents := parents + [b0];
      NoNullIff(parents);
    }

    /** From the height of `bMark` down to 1, then the genesis block. */
    ghost predicate ParentList(parents: seq<Block?>)
      reads this`bMark, this`htBlkMap
    {
      && |parents| == Depth(bMark.hash) + 1 && parents[|parents| - 1] == b0
      && forall i | 0 <= i < |parents| - 1 :: ParentAt(parents[i], |parents| - 1 - i)
    }

    ghost predicate ParentAt(b: Block?, ht: nat)
      reads this`htBlkMap
    {
      b == if ht in htBlkMap then htBlkMap[ht] else null
    }

    lemma NoNullIff(parents: seq<Block?>)
      requires ParentList(parents)
      ensures (forall i | 0 <= i < |parents| :: parents[i] != null) <==> CanPropose(Abs())
    {
      var top := |parents| - 1;
      assert forall k :: k in Chain() <==> k in htBlkMap;
      forall i | 0 <= i < top ensures parents[i] != null <==> top - i in Chain() {
        assert ParentAt(parents[i], top - i);
      }
      if !CanPropose(Abs()) {
        var k :| 1 <= k <= top && k !in Chain();
        assert parents[top - k] == null;
      }
    }

    /** Without holes the list has the hashes the network models give it. */
    lemma ParentHashesFrom(parents: seq<Block?>, i: nat)
      requires Valid() && ParentList(parents) && CanPropose(Abs()) && i < |parents|
      ensures parents[i] != null && parents[i].hash == ParentsFrom(Chain(), |parents| - 1)[i]
      ensures Stored(parents[i]) && parents[i].delivered
    {
      if i < |parents| - 1 {
        assert |parents| - 1 - i in Chain() && ParentAt(parents[i], |parents| - 1 - i);
      }
    }

    /** One round of `commit_timer_cb`: set the decision and hand over the commands in index order. */
    method CommitBlock(blk: Block)
      requires Valid() && Stored(blk) && blk.delivered && blk.decision == 0
      modifies this`log, blk`decision
      ensures Valid() && blk.decision == 1
      ensures Abs() == old(Abs()).(
        decided := old(Abs()).decided + {blk.hash}, log := old(log) + Finalities(id, blk.hash))
    {
      HeightOf(blk);
      blk.decision := 1;
      HandOver(blk);
      assert Abs().decided == old(Abs()).decided + {blk.hash};
    }

    /** The loop of `do_decide` over the commands of a block. */
    method HandOver(blk: Block)
      requires blk.height == Depth(blk.hash)
      modifies this`log
      ensures log == old(log) + Finalities(id, blk.hash)
    {
      for k := 0 to |Cmds(blk.hash)|
        invariant log == old(log) + Finalities(id, blk.hash)[..k]
      {
        log := log + [Finality(id, 1, k, blk.height, Cmds(blk.hash)[k], blk.hash)];
      }
      assert Finalities(id, blk.hash)[..|Cmds(blk.hash)|] == Finalities(id, blk.hash);
    }

    /** `commit_timer_cb`. The loop reads `ht_blk_map[idx]` and never changes `idx`: the first round
        commits the block at `ht` and the second returns. */
    method CommitTimerCb(ht: nat)
      requires Valid() && ht in htBlkMap
      modifies this`log, storage.Values`decision
      ensures Valid() && Abs() == Commit(id, old(Abs()), ht)
    {
      var idx := ht;
      var i := ht;
      while true
        invariant Valid() && idx == ht
        invariant htBlkMap == old(htBlkMap) && storage == old(storage)
        invariant Abs() == old(Abs()) || (htBlkMap[ht].decision == 1 && Abs() == Commit(id, old(Abs()), ht))
        decreases 1 - htBlkMap[ht].decision
      {
        var blk := htBlkMap[idx];
        if blk.decision == 1 { return; }
        CommitBlock(blk);
        i := if i == 0 then 0xFFFF_FFFF else i - 1;
      }
    }

    /** One call on blocks of the store; a call that cannot be made is skipped. */
    method Make(call: Call)
      requires Valid()
      requires nulls == {}
      modifies this, storage.Values
      ensures nulls == {}
      ensures Valid() && Kept()
      ensures Node() == Apply(id, old(Node()), call)
    {
      match call
      case Add(wire) => var b := AddBlk(wire);
      case Deliver(h) => MakeDeliver(h);
      case Propose(cmds, parents, extra) => MakePropose(cmds, parents, extra);
      case Receive(h) => if h in storage { var r := OnReceiveProposal(storage[h]); }
      case Timeout(ht) => if ht in htBlkMap { CommitTimerCb(ht); }
    }

    method MakeDeliver(h: Hash)
      requires Valid()
      requires nulls == {}
      modifies this, storage.Values
      ensures nulls == {}
      ensures Valid() && Kept()
      ensures Node() == Apply(id, old(Node()), Deliver(h))
    {
      if h in storage && (storage[h].delivered || ParentHashes(h) != []) {
        var r := OnDeliverBlk(storage[h]);
      }
    }

    method MakePropose(cmds: seq<Cmd>, parents: seq<Hash>, extra: seq<nat>)
      requires Valid()
      requires nulls == {}
      modifies this, storage.Values
      ensures nulls == {}
      ensures Valid() && Kept()
      ensures Node() == Apply(id, old(Node()), Call.Propose(cmds, parents, extra))
    {
      if forall p | p in parents :: p in storage {
        var s := storage;
        var blks := seq(|parents|, i requires 0 <= i < |parents| => assert parents[i] in parents; s[parents[i]]);
        assert Hashes(blks) == parents;
        ProposeNamed(cmds, blks, extra);
      }
    }

    method ProposeNamed(cmds: seq<Cmd>, blks: seq<Block>, extra: seq<nat>)
      requires Valid() && forall b | b in blks :: Stored(b)
      requires nulls == {}
      modifies this, storage.Values
      ensures nulls == {}
      ensures Valid() && Kept() && Listed(Hashes(blks)) <= old(Shelved()).known
      ensures Node() == Proposed(id, old(Node()), cmds, Hashes(blks), extra)
    {
      AllListed(blks);
      var r := OnPropose(cmds, blks, extra);
    }

    lemma AllListed(blks: seq<Block>)
      requires Valid() && forall i | 0 <= i < |blks| :: Stored(blks[i])
      ensures AllDelivered(blks) <==> Listed(Hashes(blks)) <= Shelved().done
      ensures Listed(Hashes(blks)) <= Shelved().known
    {
      assert forall i | 0 <= i < |blks| :: blks[i] in blks && Hashes(blks)[i] in Listed(Hashes(blks));
    }

    method CommitHeight(ht: nat)
      requires Valid() && ht in htBlkMap && htBlkMap[ht].decision == 0
      modifies this`log, storage.Values`decision
      ensures Valid() && htBlkMap[ht].decision == 1 && Abs() == Commit(id, old(Abs()), ht)
      ensures forall h | h in storage && old(storage[h].decision) == 1 :: storage[h].decision == 1
    {
      CommitBlock(htBlkMap[ht]);
    }

    /** The variant that walks down the ancestors, `ht_blk_map[i]` in place of `ht_blk_map[idx]`. */
    method CommitTimerCbWalk(ht: nat)
      requires Valid() && (forall k | 0 <= k <= ht :: k in htBlkMap) && htBlkMap[0].decision == 1
      modifies this`log, storage.Values`decision
      ensures Valid() && Abs() == Walk(id, old(Abs()), ht)
    {
      var i := ht;
      while true
        invariant Valid() && 0 <= i <= ht && htBlkMap[0].decision == 1
        invariant htBlkMap == old(htBlkMap) && storage == old(storage)
        invariant Walk(id, Abs(), i) == Walk(id, old(Abs()), ht)
        decreases i
      {
        if htBlkMap[i].decision == 1 {
          WalkStops(i);
          return;
        }
        CommitHeight(i);
        i := i - 1;
      }
    }

    lemma WalkStops(i: nat)
      requires Valid() && (forall k | 0 <= k <= i :: k in htBlkMap)
      requires htBlkMap[0].decision == 1 && htBlkMap[i].decision == 1
      ensures (forall k | 0 <= k <= i :: k in Abs().chain) && Abs().chain[0] in Abs().decided
      ensures Walk(id, Abs(), i) == Abs()
    {
      assert htBlkMap[0].hash in Decided() && htBlkMap[i].hash in Decided();
    }
  }

  // ---- clients ----

  /** Makes the calls one after the other, on the blocks the store has under the given hashes. */
  method Serve(core: E2CCore, calls: seq<Call>)
    requires core.Valid()
    requires core.nulls == {}
    modifies core, core.storage.Values
    ensures core.Valid() && core.Kept() && core.nulls == {}
    ensures core.Node() == Run(core.id, old(core.Node()), calls)
  {
    for k := 0 to |calls|
      invariant core.Valid() && core.Kept() && core.nulls == {}
      invariant core.Node() == Run(core.id, old(core.Node()), calls[..k])
    {
      assert calls[..k + 1][..k] == calls[..k];
      core.Make(calls[k]);
    }
    assert calls[..|calls|] == calls;
  }

  method Started(id: nat) returns (core: E2CCore)
    ensures core.Valid() && fresh(core) && fresh(core.storage.Values) && core.id == id
    ensures core.Node() == Tails.START && core.nulls == {}
  {
    core := new E2CCore(id);
    core.OnInit(0);
  }

  method ProposeOver(core: E2CCore, b: Block) returns (r: Result<Block>)
    requires core.Valid() && core.Stored(b) && !b.delivered
    requires core.nulls == {}
    modifies core, core.storage.Values
    ensures core.Valid() && r == Err(NotDelivered)
    ensures core.Shelved() == ProposeOn(core.id, old(core.Shelved()), [], [Hash.Genesis, b.hash], [])
  {
    var parents := [core.b0, b];
    assert b in parents && Hashes(parents) == [Hash.Genesis, b.hash];
    r := core.OnPropose([], parents, []);
  }

  /** A client that reaches the failing `on_propose`: a proposal over the genesis block and a block that is
      not delivered throws and leaves `tails` without a tail. */
  method LoseTail(id: nat, wire: Wire) returns (core: E2CCore, r: Result<Block>)
    requires wire.parents != [] && forall p | p in wire.parents :: p != Hash.Genesis
    ensures core.Valid() && fresh(core) && r == Err(NotDelivered) && !Exact(core.Shelved())
    ensures core.Shelved() == Run(id, Tails.START, [Add(wire), Call.Propose([], [Hash.Genesis, Of(wire)], [])]).t
  {
    core := Started(id);
    var b := core.AddBlk(wire);
    r := ProposeOver(core, b);
    TailLostAndRegained(id, wire);
  }

  /** A received block, from the bytes to the broadcast: add it to the store, deliver it, handle the proposal.
      What goes out has the block's hash if and only if its height was the one delivery computes. */
  method ReceiveAndForward(core: E2CCore, wire: Wire) returns (b: Block)
    requires core.Valid() && wire.parents != [] && !Handled(core.Abs(), Of(wire))
    requires forall p | p in wire.parents :: core.Delivered(p)
    requires core.nulls == {}
    modifies core, core.storage.Values
    ensures core.Valid() && core.Stored(b) && b.hash == Of(wire) && b.delivered
    ensures |core.sent| == |old(core.sent)| + 1 && core.sent[..|old(core.sent)|] == old(core.sent)
    ensures core.sent[|old(core.sent)|] == b.hash <==> wire.height == Depth(b.hash)
  {
    b := core.AddBlk(wire);
    DeliverAndReceive(core, b);
    ForwardedUnchangedIff(b.hash);
  }

  method DeliverAndReceive(core: E2CCore, b: Block)
    requires core.Valid() && core.Stored(b) && ParentHashes(b.hash) != [] && !Handled(core.Abs(), b.hash)
    requires forall p | p in ParentHashes(b.hash) :: core.Delivered(p)
    requires core.nulls == {}
    modifies core, core.storage.Values
    ensures core.Valid() && core.storage == old(core.storage) && b.delivered
    ensures core.sent == old(core.sent) + [Reserialized(b.hash)]
  {
    var d := core.OnDeliverBlk(b);
    var r := core.OnReceiveProposal(b);
  }

  /** A first block with another height than 1 goes out under another hash. */
  method ForwardIllHeighted(id: nat, wire: Wire) returns (core: E2CCore, b: Block)
    requires wire.parents == [Hash.Genesis] && wire.height != 1
    ensures core.Valid() && core.Stored(b) && b.hash == Of(wire)
    ensures |core.sent| == 1 && core.sent[0] != b.hash
  {
    core := Started(id);
    assert core.Delivered(Hash.Genesis) && Depth(Hash.Genesis) == 0 && Depth(Of(wire)) == 1;
    b := ReceiveAndForward(core, wire);
  }

  const SIZE_BOUND: nat := 0x1_0000_0000_0000_0000

  /** The difference of two numbers of type `size_t`. */
  function SizeMinus(a: nat, b: nat): (r: nat)
    ensures b <= a < SIZE_BOUND ==> r == a - b
    ensures r < SIZE_BOUND
  {
    (a - b) % SIZE_BOUND
  }

  lemma ProposeSteps(id: nat, t: Shelf, cmds: seq<Cmd>, parents: seq<Hash>, extra: seq<nat>)
    requires parents != []
    ensures var u := t.(tails := t.tails - Listed(parents));
      var b := Built(id, u, cmds, parents, extra);
      b == Built(id, t, cmds, parents, extra) && DeliverOn(Known(u, b), b) == ProposeOn(id, t, cmds, parents, extra)
  {}

  /** The hash a receiver computes from the serialisation of `b`, which carries the current height. */
  function Serialized(b: Block): Hash
    reads b
  {
    if b.hash.Genesis? then b.hash else Of(b.hash.wire.(height := b.height))
  }

  function Hashes(bs: seq<Block>): (r: seq<Hash>)
    ensures |r| == |bs| && forall i | 0 <= i < |bs| :: r[i] == bs[i].hash
  {
    seq(|bs|, i requires 0 <= i < |bs| => bs[i].hash)
  }
}

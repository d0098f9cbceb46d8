/** The wire format of blocks, block lists, hash lists and decisions, byte by byte. */
module Codec {

  type Byte = n: nat | n < 256

  const HASH_LEN := 32
  const WORD := 0x1_0000_0000
  const ID_LIMIT := 0x1_0000

  type Digest = s: seq<Byte> | |s| == HASH_LEN witness seq(HASH_LEN, _ => 0)

  type U32 = n: nat | n < WORD

  /** `ReplicaID` is 16 bits wide, although it takes 32 on the wire. */
  type ReplicaId = n: nat | n < ID_LIMIT

  /** The fields of `Block` that are on the wire. */
  datatype Block = Block(parents: seq<Digest>, cmds: seq<Digest>, extra: seq<Byte>, proposer: ReplicaId, height: U32)

  /** `Fail` is the exception of a stream with too few bytes. */
  datatype Parse<T> = Fail | Done(value: T, rest: seq<Byte>)

  // ---- numbers ----

  /** The low `k` bytes of a number, lowest first. */
  function LE(n: nat, k: nat): (s: seq<Byte>)
    ensures |s| == k
    decreases k, n
  {
    if k == 0 then [] else [n % 256] + LE(n / 256, k - 1)
  }

  function UnLE(s: seq<Byte>): nat {
    if s == [] then 0 else var d: nat := s[0]; d + 256 * UnLE(s[1..])
  }

  function Limit(k: nat): (l: nat)
    ensures l > 0
  {
    if k == 0 then 1 else 256 * Limit(k - 1)
  }

  lemma ModSplit(n: nat, l: nat)
    requires l > 0
    ensures n % (256 * l) == n % 256 + 256 * (n / 256 % l)
  {
    var q, r := n / 256, n % 256;
    var t, u := q / l, q % l;
    assert n == 256 * q + r && q == l * t + u;
    assert 256 * (l * t) == (256 * l) * t;
    Unique(n, 256 * l, t, 256 * u + r);
  }

  lemma AtLeast(m: nat, k: nat)
    requires k >= 1
    ensures m * k >= m
  {}

  lemma Unique(n: nat, m: nat, t: nat, r: nat)
    requires m > 0 && n == m * t + r && r < m
    ensures n % m == r
  {
    var t', r' := n / m, n % m;
    assert n == m * t' + r';
    assert m * (t - t') == m * t - m * t' && m * (t' - t) == m * t' - m * t;
    if t > t' { AtLeast(m, t - t'); } else if t < t' { AtLeast(m, t' - t); }
  }

  lemma {:induction false} UnLELE(n: nat, k: nat)
    ensures UnLE(LE(n, k)) == n % Limit(k)
    decreases k
  {
    if k > 0 {
      UnLELE(n / 256, k - 1);
      assert LE(n, k)[1..] == LE(n / 256, k - 1);
      ModSplit(n, Limit(k - 1));
    }
  }

  lemma {:induction false} LEUnLE(s: seq<Byte>)
    ensures UnLE(s) < Limit(|s|) && LE(UnLE(s), |s|) == s
  {
    if s != [] {
      LEUnLE(s[1..]);
      LowByte(s[0], UnLE(s[1..]));
      assert s == [s[0]] + s[1..];
    }
  }

  lemma LowByte(d: nat, q: nat)
    requires d < 256
    ensures (d + 256 * q) % 256 == d && (d + 256 * q) / 256 == q
  {}

  /** `htole((uint32_t)n)` */
  function LE32(n: nat): seq<Byte> {
    LE(n, 4)
  }

  function Un32(s: seq<Byte>): U32
    requires |s| == 4
  {
    LEUnLE(s);
    assert Limit(4) == WORD;
    UnLE(s)
  }

  lemma Un32LE32(n: nat)
    ensures Un32(LE32(n)) == n % WORD
  {
    UnLELE(n, 4);
    assert Limit(4) == WORD;
  }

  lemma LE32Un32(s: seq<Byte>)
    requires |s| == 4
    ensures LE32(Un32(s)) == s
  {
    LEUnLE(s);
  }

  lemma Assoc(a: seq<Byte>, b: seq<Byte>, c: seq<Byte>)
    ensures a + b + c == a + (b + c)
  {}

  lemma SplitAt(a: seq<Byte>, b: seq<Byte>)
    ensures (a + b)[..|a|] == a && (a + b)[|a|..] == b
  {}

  lemma SplitEqual(a: seq<Byte>, b: seq<Byte>, c: seq<Byte>, d: seq<Byte>)
    requires |a| == |c|
    ensures a + b == c + d <==> a == c && b == d
  {
    SplitAt(a, b);
    SplitAt(c, d);
  }

  function GetU32(s: seq<Byte>): Parse<U32> {
    if |s| < 4 then Fail else Done(Un32(s[..4]), s[4..])
  }

  function Get(s: seq<Byte>, n: nat): Parse<seq<Byte>> {
    if |s| < n then Fail else Done(s[..n], s[n..])
  }

  lemma GetPut(n: nat, rest: seq<Byte>)
    ensures GetU32(LE32(n) + rest) == Done(n % WORD, rest)
  {
    Un32LE32(n);
    SplitAt(LE32(n), rest);
  }

  lemma PutGot(s: seq<Byte>)
    requires GetU32(s).Done?
    ensures s == LE32(GetU32(s).value) + GetU32(s).rest
  {
    LE32Un32(s[..4]);
    assert s == s[..4] + s[4..];
  }

  // ---- lists of hashes ----

  function PutDigests(ds: seq<Digest>): seq<Byte> {
    if ds == [] then [] else PutDigests(ds[..|ds| - 1]) + ds[|ds| - 1]
  }

  function GetDigests(s: seq<Byte>, n: nat): Parse<seq<Digest>> {
    if n == 0 then Done([], s)
    else
      match GetDigests(s, n - 1)
      case Fail => Fail
      case Done(ds, r) =>
        if |r| < HASH_LEN then Fail
        else var d: Digest := r[..HASH_LEN]; Done(ds + [d], r[HASH_LEN..])
  }

  lemma {:induction false} GetPutDigests(ds: seq<Digest>, rest: seq<Byte>)
    ensures GetDigests(PutDigests(ds) + rest, |ds|) == Done(ds, rest)
  {
    if ds == [] {
      assert PutDigests(ds) + rest == rest;
    } else {
      var m := |ds| - 1;
      GetPutDigests(ds[..m], ds[m] + rest);
      Assoc(PutDigests(ds[..m]), ds[m], rest);
      SplitAt(ds[m], rest);
      assert ds == ds[..m] + [ds[m]];
    }
  }

  lemma {:induction false} PutGotDigests(s: seq<Byte>, n: nat)
    requires GetDigests(s, n).Done?
    ensures |GetDigests(s, n).value| == n && s == PutDigests(GetDigests(s, n).value) + GetDigests(s, n).rest
  {
    if n > 0 {
      PutGotDigests(s, n - 1);
      var t := GetDigests(s, n - 1);
      var d: Digest := t.rest[..HASH_LEN];
      assert (t.value + [d])[..n - 1] == t.value;
      assert t.rest == d + t.rest[HASH_LEN..];
    }
  }

  /** A count and as many hashes: the whole of `MsgReqBlock`, and twice in a block. */
  function PutList(ds: seq<Digest>): seq<Byte> {
    LE32(|ds|) + PutDigests(ds)
  }

  function GetList(s: seq<Byte>): Parse<seq<Digest>> {
    match GetU32(s)
    case Fail => Fail
    case Done(n, r) => GetDigests(r, n)
  }

  lemma GetPutList(ds: seq<Digest>, rest: seq<Byte>)
    requires |ds| < WORD
    ensures GetList(PutList(ds) + rest) == Done(ds, rest)
  {
    Assoc(LE32(|ds|), PutDigests(ds), rest);
    GetPut(|ds|, PutDigests(ds) + rest);
    GetPutDigests(ds, rest);
  }

  lemma PutGotList(s: seq<Byte>)
    requires GetList(s).Done?
    ensures |GetList(s).value| < WORD && s == PutList(GetList(s).value) + GetList(s).rest
  {
    PutGot(s);
    PutGotDigests(GetU32(s).rest, GetU32(s).value);
  }

  /** A count and as many bytes. */
  function PutBytes(b: seq<Byte>): seq<Byte> {
    LE32(|b|) + b
  }

  function GetBytes(s: seq<Byte>): Parse<seq<Byte>> {
    match GetU32(s)
    case Fail => Fail
    case Done(n, r) => Get(r, n)
  }

  lemma GetPutBytes(b: seq<Byte>, rest: seq<Byte>)
    requires |b| < WORD
    ensures GetBytes(PutBytes(b) + rest) == Done(b, rest)
  {
    WordFirst(|b|, b, rest);
    SplitAt(b, rest);
  }

  lemma PutGotBytes(s: seq<Byte>)
    requires GetBytes(s).Done?
    ensures |GetBytes(s).value| < WORD && s == PutBytes(GetBytes(s).value) + GetBytes(s).rest
  {
    PutGot(s);
    var r, n := GetU32(s).rest, GetU32(s).value;
    assert r == r[..n] + r[n..];
  }

  // ---- blocks ----

  /** Everything after the proposer. */
  function Body(b: Block): seq<Byte> {
    LE32(b.height) + (PutList(b.parents) + (PutList(b.cmds) + PutBytes(b.extra)))
  }

  /** `Block::serialize` */
  function Encode(b: Block): seq<Byte> {
    LE32(b.proposer) + Body(b)
  }

  function DecodeBody(s: seq<Byte>, proposer: ReplicaId): Parse<Block> {
    match GetU32(s)
    case Fail => Fail
    case Done(height, s1) =>
      match GetList(s1)
      case Fail => Fail
      case Done(parents, s2) =>
        match GetList(s2)
        case Fail => Fail
        case Done(cmds, s3) =>
          match GetBytes(s3)
          case Fail => Fail
          case Done(extra, rest) => Done(Block(parents, cmds, extra, proposer, height), rest)
  }

  /** `Block::unserialize`: assigning to the 16-bit field drops the upper half of the proposer. */
  function Decode(s: seq<Byte>): Parse<Block> {
    match GetU32(s)
    case Fail => Fail
    case Done(n, r) => DecodeBody(r, n % ID_LIMIT)
  }

  /** The counts fit in their 32 bits. */
  predicate Countable(b: Block) {
    |b.parents| < WORD && |b.cmds| < WORD && |b.extra| < WORD
  }

  lemma DecodeBodyOf(b: Block, rest: seq<Byte>)
    requires Countable(b)
    ensures DecodeBody(Body(b) + rest, b.proposer) == Done(b, rest)
  {
    var s3 := PutBytes(b.extra) + rest;
    var s2 := PutList(b.cmds) + s3;
    var s1 := PutList(b.parents) + s2;
    Regroup(LE32(b.height), PutList(b.parents), PutList(b.cmds), PutBytes(b.extra), rest);
    GetPut(b.height, s1);
    assert GetU32(Body(b) + rest) == Done(b.height, s1);
    GetPutList(b.parents, s2);
    assert GetList(s1) == Done(b.parents, s2);
    GetPutList(b.cmds, s3);
    assert GetList(s2) == Done(b.cmds, s3);
    GetPutBytes(b.extra, rest);
  }

  lemma BodyDecoded(s: seq<Byte>, proposer: ReplicaId)
    requires DecodeBody(s, proposer).Done?
    ensures var p := DecodeBody(s, proposer);
      Countable(p.value) && p.value.proposer == proposer && s == Body(p.value) + p.rest
  {
    var p := DecodeBody(s, proposer);
    var s1 := GetU32(s).rest;
    var s2 := GetList(s1).rest;
    var s3 := GetList(s2).rest;
    PutGot(s);
    PutGotList(s1);
    PutGotList(s2);
    PutGotBytes(s3);
    assert s1 == PutList(p.value.parents) + s2 && s2 == PutList(p.value.cmds) + s3;
    assert s3 == PutBytes(p.value.extra) + p.rest;
    assert s == LE32(p.value.height) + s1;
    Regroup(LE32(p.value.height), PutList(p.value.parents), PutList(p.value.cmds), PutBytes(p.value.extra), p.rest);
  }

  lemma Regroup(a: seq<Byte>, b: seq<Byte>, c: seq<Byte>, d: seq<Byte>, e: seq<Byte>)
    ensures a + (b + (c + (d + e))) == a + (b + (c + d)) + e
  {}

  lemma EncodeFirst(b: Block, rest: seq<Byte>)
    ensures Decode(Encode(b) + rest) == DecodeBody(Body(b) + rest, b.proposer)
  {
    WordFirst(b.proposer, Body(b), rest);
  }

  lemma WordFirst(n: U32, body: seq<Byte>, rest: seq<Byte>)
    ensures GetU32(LE32(n) + body + rest) == Done(n, body + rest)
  {
    Assoc(LE32(n), body, rest);
    GetPut(n, body + rest);
  }

  /** A block parses back, with whatever follows it untouched, if and only if its counts fit. */
  lemma RoundTripIff(b: Block, rest: seq<Byte>)
    ensures Decode(Encode(b) + rest) == Done(b, rest) <==> Countable(b)
  {
    EncodeFirst(b, rest);
    if Countable(b) {
      DecodeBodyOf(b, rest);
    } else if DecodeBody(Body(b) + rest, b.proposer).Done? {
      BodyDecoded(Body(b) + rest, b.proposer);
    }
  }

  /** No encoding is a proper prefix of another, and different blocks have different encodings. */
  lemma PrefixFree(a: Block, b: Block)
    requires Countable(a) && Countable(b) && Encode(a) <= Encode(b)
    ensures a == b
  {
    var rest := Encode(b)[|Encode(a)|..];
    assert Encode(b) == Encode(a) + rest;
    RoundTripIff(a, rest);
    RoundTripIff(b, []);
    assert Encode(b) + [] == Encode(b);
  }

  lemma LE32Injective(m: U32, n: U32, tail: seq<Byte>)
    ensures LE32(m) + tail == LE32(n) + tail <==> m == n
  {
    SplitEqual(LE32(m), tail, LE32(n), tail);
    SameWords(m, n);
  }

  lemma SameWords(m: U32, n: U32)
    ensures LE32(m) == LE32(n) <==> m == n
  {
    Un32LE32(m);
    Un32LE32(n);
    assert m % WORD == m && n % WORD == n;
  }

  lemma Consumed(s: seq<Byte>)
    requires Decode(s).Done?
    ensures var p := Decode(s);
      && Countable(p.value) && p.value.proposer == GetU32(s).value % ID_LIMIT
      && s == LE32(GetU32(s).value) + Body(p.value) + p.rest
  {
    var n, r := GetU32(s).value, GetU32(s).rest;
    PutGot(s);
    BodyDecoded(r, n % ID_LIMIT);
    Assoc(LE32(n), Body(Decode(s).value), Decode(s).rest);
  }

  /** Writing a parsed block again gives back the bytes it was read from if and only if the upper half of
      the proposer field was zero. */
  lemma ReencodeIff(s: seq<Byte>)
    requires Decode(s).Done?
    ensures var p := Decode(s);
      && |p.rest| <= |s| && Countable(p.value)
      && (Encode(p.value) == s[..|s| - |p.rest|] <==> GetU32(s).value < ID_LIMIT)
  {
    Consumed(s);
    SameWord(s, Decode(s).value, GetU32(s).value, Decode(s).rest);
  }

  lemma SameWord(s: seq<Byte>, b: Block, n: U32, rest: seq<Byte>)
    requires s == LE32(n) + Body(b) + rest && b.proposer == n % ID_LIMIT
    ensures |rest| <= |s| && (Encode(b) == s[..|s| - |rest|] <==> n < ID_LIMIT)
  {
    SplitAt(LE32(n) + Body(b), rest);
    LE32Injective(b.proposer, n, Body(b));
  }

  // ---- lists of blocks ----

  function PutBlocks(bs: seq<Block>): seq<Byte> {
    if bs == [] then [] else PutBlocks(bs[..|bs| - 1]) + Encode(bs[|bs| - 1])
  }

  function GetBlocks(s: seq<Byte>, n: nat): Parse<seq<Block>> {
    if n == 0 then Done([], s)
    else
      match GetBlocks(s, n - 1)
      case Fail => Fail
      case Done(bs, r) =>
        match Decode(r)
        case Fail => Fail
        case Done(b, rest) => Done(bs + [b], rest)
  }

  /** `MsgRespBlock` */
  function EncodeBlocks(bs: seq<Block>): seq<Byte> {
    LE32(|bs|) + PutBlocks(bs)
  }

  function DecodeBlocks(s: seq<Byte>): Parse<seq<Block>> {
    match GetU32(s)
    case Fail => Fail
    case Done(n, r) => GetBlocks(r, n)
  }

  ghost predicate GetsBack(s: seq<Byte>, bs: seq<Block>, rest: seq<Byte>) {
    GetBlocks(s, |bs|) == Done(bs, rest)
  }

  lemma NextBlock(s: seq<Byte>, bs: seq<Block>, m: nat, r: seq<Byte>, rest: seq<Byte>)
    requires |bs| == m + 1 && GetsBack(s, bs[..m], r) && Decode(r) == Done(bs[m], rest)
    ensures GetsBack(s, bs, rest)
  {
    assert bs == bs[..m] + [bs[m]];
  }

  lemma {:induction false} GetPutBlocks(bs: seq<Block>, rest: seq<Byte>)
    requires forall b | b in bs :: Countable(b)
    ensures GetsBack(PutBlocks(bs) + rest, bs, rest)
  {
    if bs == [] {
      assert PutBlocks(bs) + rest == rest;
    } else {
      var m := |bs| - 1;
      GetPutBlocks(bs[..m], Encode(bs[m]) + rest);
      RoundTripIff(bs[m], rest);
      Assoc(PutBlocks(bs[..m]), Encode(bs[m]), rest);
      NextBlock(PutBlocks(bs) + rest, bs, m, Encode(bs[m]) + rest, rest);
    }
  }

  lemma {:induction false} GotBlocks(s: seq<Byte>, n: nat)
    requires GetBlocks(s, n).Done?
    ensures |GetBlocks(s, n).value| == n && forall b | b in GetBlocks(s, n).value :: Countable(b)
  {
    if n > 0 {
      GotBlocks(s, n - 1);
      ReencodeIff(GetBlocks(s, n - 1).rest);
    }
  }

  lemma CountFirst(bs: seq<Block>, rest: seq<Byte>)
    ensures DecodeBlocks(EncodeBlocks(bs) + rest) == GetBlocks(PutBlocks(bs) + rest, |bs| % WORD)
  {
    Assoc(LE32(|bs|), PutBlocks(bs), rest);
    GetPut(|bs|, PutBlocks(bs) + rest);
  }

  lemma AllCountable(s: seq<Byte>, n: U32, bs: seq<Block>, rest: seq<Byte>)
    requires GetBlocks(s, n) == Done(bs, rest)
    ensures |bs| < WORD && forall b | b in bs :: Countable(b)
  {
    GotBlocks(s, n);
  }

  predicate Fits(bs: seq<Block>) {
    |bs| < WORD && forall b | b in bs :: Countable(b)
  }

  lemma FitsBack(bs: seq<Block>, rest: seq<Byte>)
    requires Fits(bs)
    ensures DecodeBlocks(EncodeBlocks(bs) + rest) == Done(bs, rest)
  {
    var n := |bs|;
    assert n % WORD == n;
    CountFirst(bs, rest);
    GetPutBlocks(bs, rest);
    assert GetBlocks(PutBlocks(bs) + rest, n) == Done(bs, rest);
  }

  lemma BackFits(bs: seq<Block>, rest: seq<Byte>)
    requires DecodeBlocks(EncodeBlocks(bs) + rest) == Done(bs, rest)
    ensures Fits(bs)
  {
    CountFirst(bs, rest);
    AllCountable(PutBlocks(bs) + rest, |bs| % WORD, bs, rest);
  }

  /** The list of blocks in an answer parses back if and only if all its counts fit. */
  lemma BlocksRoundTripIff(bs: seq<Block>, rest: seq<Byte>)
    ensures DecodeBlocks(EncodeBlocks(bs) + rest) == Done(bs, rest) <==> Fits(bs)
  {
    if Fits(bs) { FitsBack(bs, rest); }
    if DecodeBlocks(EncodeBlocks(bs) + rest) == Done(bs, rest) { BackFits(bs, rest); }
  }

  /** No list's encoding is a prefix of another's. */
  lemma BlocksPrefixFree(a: seq<Block>, b: seq<Block>)
    requires Fits(a) && Fits(b) && EncodeBlocks(a) <= EncodeBlocks(b)
    ensures a == b
  {
    var rest := EncodeBlocks(b)[|EncodeBlocks(a)|..];
    assert EncodeBlocks(b) == EncodeBlocks(a) + rest;
    FitsBack(a, rest);
    FitsBack(b, []);
    assert EncodeBlocks(b) + [] == EncodeBlocks(b);
  }

  /** The proposer words of the first `n` blocks in `s` are all below 2^16. */
  predicate SmallIds(s: seq<Byte>, n: nat)
    requires GetBlocks(s, n).Done?
  {
    n == 0 || (SmallIds(s, n - 1) && GetU32(GetBlocks(s, n - 1).rest).value < ID_LIMIT)
  }

  /** `used` is what parsing `s` down to `rest` consumed. */
  ghost predicate Used(s: seq<Byte>, used: seq<Byte>, rest: seq<Byte>) {
    s == used + rest
  }

  lemma UsedIs(s: seq<Byte>, n: U32, b: Block, rest: seq<Byte>)
    requires s == LE32(n) + Body(b) + rest && b.proposer == n % ID_LIMIT
    ensures Used(s, LE32(n) + Body(b), rest) && |Encode(b)| == |LE32(n) + Body(b)|
    ensures Encode(b) == LE32(n) + Body(b) <==> n < ID_LIMIT
  {
    LE32Injective(b.proposer, n, Body(b));
  }

  lemma OneUsed(s: seq<Byte>) returns (used: seq<Byte>)
    requires Decode(s).Done?
    ensures var p := Decode(s);
      Used(s, used, p.rest) && |Encode(p.value)| == |used| && (Encode(p.value) == used <==> GetU32(s).value < ID_LIMIT)
  {
    var n, b := GetU32(s).value, Decode(s).value;
    Consumed(s);
    used := LE32(n) + Body(b);
    UsedIs(s, n, b, Decode(s).rest);
  }

  lemma {:induction false} BlocksUsed(s: seq<Byte>, n: nat) returns (used: seq<Byte>)
    requires GetBlocks(s, n).Done?
    ensures var p := GetBlocks(s, n);
      Used(s, used, p.rest) && |PutBlocks(p.value)| == |used| && (PutBlocks(p.value) == used <==> SmallIds(s, n))
  {
    if n == 0 {
      used := [];
    } else {
      var front := BlocksUsed(s, n - 1);
      var p := GetBlocks(s, n - 1);
      var last := OneUsed(p.rest);
      used := front + last;
      var b, rest := Decode(p.rest).value, Decode(p.rest).rest;
      assert (p.value + [b])[..|p.value|] == p.value;
      SplitEqual(PutBlocks(p.value), Encode(b), front, last);
      Assoc(front, last, rest);
    }
  }

  /** Writing a parsed list again gives back the bytes it was read from if and only if the upper half of
      every proposer field in it was zero. */
  lemma BlocksReencodeIff(s: seq<Byte>)
    requires DecodeBlocks(s).Done?
    ensures var p := DecodeBlocks(s);
      && |p.rest| <= |s| && Fits(p.value)
      && (EncodeBlocks(p.value) == s[..|s| - |p.rest|] <==> SmallIds(GetU32(s).rest, GetU32(s).value))
  {
    var p, n, r := DecodeBlocks(s), GetU32(s).value, GetU32(s).rest;
    PutGot(s);
    GotBlocks(r, n);
    var used := BlocksUsed(r, n);
    Assoc(LE32(n), used, p.rest);
    SplitAt(LE32(n) + used, p.rest);
    SplitEqual(LE32(n), PutBlocks(p.value), LE32(n), used);
  }

  /** The list of hashes in a request parses back if and only if its count fits. */
  lemma HashesRoundTripIff(ds: seq<Digest>, rest: seq<Byte>)
    ensures GetList(PutList(ds) + rest) == Done(ds, rest) <==> |ds| < WORD
  {
    if |ds| < WORD { GetPutList(ds, rest); }
    if GetList(PutList(ds) + rest).Done? { PutGotList(PutList(ds) + rest); }
  }

  // ---- decisions ----

  type Int8 = n: int | -128 <= n < 128

  datatype Finality = Finality(rid: ReplicaId, decision: Int8, cmdIdx: U32, cmdHeight: U32, cmdHash: Digest,
      blkHash: Digest)

  /** The block hash is written only with decision 1; numbers are in the order of a little-endian host. */
  function PutFinality(f: Finality): seq<Byte> {
    [f.rid % 256, f.rid / 256, if f.decision < 0 then f.decision + 256 else f.decision]
      + (LE32(f.cmdIdx) + (LE32(f.cmdHeight) + (f.cmdHash + if f.decision == 1 then f.blkHash else [])))
  }

  /** Reading into the object `f0`, whose block hash stays unless the decision is 1. */
  function GetFinality(f0: Finality, s: seq<Byte>): Parse<Finality> {
    if |s| < 11 + HASH_LEN then Fail
    else
      var a: int, b: int, c: int := s[0], s[1], s[2];
      var rid: ReplicaId, decision: Int8 := a + 256 * b, if c >= 128 then c - 256 else c;
      var f := Finality(rid, decision, Un32(s[3..7]), Un32(s[7..11]), s[11..43], f0.blkHash);
      if decision != 1 then Done(f, s[43..])
      else if |s| < 43 + HASH_LEN then Fail
      else Done(f.(blkHash := s[43..75]), s[75..])
  }

  /** A decision is read back as written if and only if it is positive or the object read into already
      had its block hash. */
  lemma FinalityRoundTripIff(f0: Finality, f: Finality, rest: seq<Byte>)
    ensures GetFinality(f0, PutFinality(f) + rest) == Done(f, rest) <==> f.decision == 1 || f.blkHash == f0.blkHash
  {
    var s := PutFinality(f) + rest;
    Un32LE32(f.cmdIdx);
    Un32LE32(f.cmdHeight);
    assert s[3..7] == LE32(f.cmdIdx) && s[7..11] == LE32(f.cmdHeight) && s[11..43] == f.cmdHash;
    if f.decision == 1 {
      assert s[43..75] == f.blkHash && s[75..] == rest;
    } else {
      assert s[43..] == rest;
    }
  }

  // ---- where everything is on the wire ----

  /** `part` stands at `at`. */
  ghost predicate At(s: seq<Byte>, at: nat, part: seq<Byte>) {
    at + |part| <= |s| && s[at..at + |part|] == part
  }

  /** The four bytes at `at` are `n`, lowest first. */
  ghost predicate WordAt(s: seq<Byte>, at: nat, n: nat) {
    && at + 4 <= |s| && s[at] == n % 256 && s[at + 1] == n / 0x100 % 256
    && s[at + 2] == n / 0x1_0000 % 256 && s[at + 3] == n / 0x100_0000 % 256
  }

  /** The hashes stand one after the other from `at` on. */
  ghost predicate HashesAt(s: seq<Byte>, at: nat, ds: seq<Digest>) {
    at <= |s| && forall i {:trigger ds[i]} | 0 <= i < |ds| :: At(s, at + 32 * i, ds[i])
  }

  /** Their count, and the hashes. */
  ghost predicate ListAt(s: seq<Byte>, at: nat, ds: seq<Digest>) {
    WordAt(s, at, |ds|) && HashesAt(s, at + 4, ds)
  }

  ghost predicate BytesAt(s: seq<Byte>, at: nat, bytes: seq<Byte>) {
    WordAt(s, at, |bytes|) && At(s, at + 4, bytes)
  }

  /** The proposer, the height, and the parents with their count. */
  ghost predicate HeadAt(s: seq<Byte>, word: nat, height: nat, parents: seq<Digest>) {
    WordAt(s, 0, word) && WordAt(s, 4, height) && ListAt(s, 8, parents)
  }

  /** The commands and the extra bytes, with their counts. */
  ghost predicate RestAt(s: seq<Byte>, at: nat, cmds: seq<Digest>, extra: seq<Byte>) {
    ListAt(s, at, cmds) && BytesAt(s, at + 4 + 32 * |cmds|, extra)
  }

  ghost predicate Layout(s: seq<Byte>, word: nat, b: Block) {
    HeadAt(s, word, b.height, b.parents) && RestAt(s, 12 + 32 * |b.parents|, b.cmds, b.extra)
  }

  /** The proposer is the low half of its word. */
  ghost predicate StartsWith(s: seq<Byte>, b: Block) {
    exists word: U32 :: Layout(s, word, b) && b.proposer == word % ID_LIMIT
  }

  function Size(b: Block): nat {
    20 + 32 * |b.parents| + 32 * |b.cmds| + |b.extra|
  }

  lemma WordBytes(n: nat)
    ensures WordAt(LE32(n), 0, n)
  {
    assert LE(n, 4) == [n % 256] + LE(n / 256, 3);
    assert LE(n / 256, 3) == [n / 256 % 256] + LE(n / 256 / 256, 2);
    assert LE(n / 256 / 256, 2) == [n / 256 / 256 % 256] + LE(n / 256 / 256 / 256, 1);
  }

  lemma AtBoth(s: seq<Byte>, at: nat, x: seq<Byte>, y: seq<Byte>)
    ensures At(s, at, x + y) <==> At(s, at, x) && At(s, at + |x|, y)
  {
    if at + |x| + |y| <= |s| {
      var mid, end := at + |x|, at + |x| + |y|;
      assert s[at..end] == s[at..mid] + s[mid..end];
      SplitEqual(s[at..mid], s[mid..end], x, y);
    }
  }

  lemma AtThree(s: seq<Byte>, x: seq<Byte>, y: seq<Byte>, z: seq<Byte>, rest: seq<Byte>)
    ensures At(s, 0, x + (y + (z + rest))) <==>
      (At(s, 0, x) && At(s, |x|, y) && At(s, |x| + |y|, z) && At(s, |x| + |y| + |z|, rest))
  {
    AtBoth(s, 0, x, y + (z + rest));
    AtBoth(s, |x|, y, z + rest);
    AtBoth(s, |x| + |y|, z, rest);
  }

  lemma WordAtIff(s: seq<Byte>, at: nat, n: nat)
    ensures WordAt(s, at, n) <==> At(s, at, LE32(n))
  {
    WordBytes(n);
  }

  lemma {:induction false} HashesAtIff(s: seq<Byte>, at: nat, ds: seq<Digest>)
    ensures |PutDigests(ds)| == 32 * |ds|
    ensures HashesAt(s, at, ds) <==> At(s, at, PutDigests(ds))
  {
    if ds != [] {
      var m := |ds| - 1;
      HashesAtIff(s, at, ds[..m]);
      AtBoth(s, at, PutDigests(ds[..m]), ds[m]);
      HashesNext(s, at, ds);
    }
  }

  lemma HashesNext(s: seq<Byte>, at: nat, ds: seq<Digest>)
    requires ds != []
    ensures var m := |ds| - 1; HashesAt(s, at, ds) <==> HashesAt(s, at, ds[..m]) && At(s, at + 32 * m, ds[m])
  {
    var m := |ds| - 1;
    assert forall i | 0 <= i < m :: ds[..m][i] == ds[i];
  }

  lemma ListAtIff(s: seq<Byte>, at: nat, ds: seq<Digest>)
    ensures |PutList(ds)| == 4 + 32 * |ds|
    ensures At(s, at, PutList(ds)) <==> ListAt(s, at, ds)
  {
    WordAtIff(s, at, |ds|);
    HashesAtIff(s, at + 4, ds);
    AtBoth(s, at, LE32(|ds|), PutDigests(ds));
  }

  lemma BodySize(b: Block)
    ensures |Body(b)| == Size(b) - 4
  {
    HashesAtIff([], 0, b.parents);
    HashesAtIff([], 0, b.cmds);
  }

  lemma BytesAtIff(s: seq<Byte>, at: nat, bytes: seq<Byte>)
    ensures At(s, at, PutBytes(bytes)) <==> BytesAt(s, at, bytes)
  {
    WordAtIff(s, at, |bytes|);
    AtBoth(s, at, LE32(|bytes|), bytes);
  }

  /** The bytes of a block, whatever follows them, are exactly those. */
  lemma LayoutIff(s: seq<Byte>, word: nat, b: Block)
    ensures Layout(s, word, b) <==> At(s, 0, LE32(word) + Body(b))
  {
    HeadIff(s, word, b);
    TailIff(s, 12 + 32 * |b.parents|, b.cmds, b.extra);
  }

  lemma TailIff(s: seq<Byte>, at: nat, cmds: seq<Digest>, extra: seq<Byte>)
    ensures At(s, at, PutList(cmds) + PutBytes(extra)) <==> RestAt(s, at, cmds, extra)
  {
    ListAtIff(s, at, cmds);
    BytesAtIff(s, at + 4 + 32 * |cmds|, extra);
    AtBoth(s, at, PutList(cmds), PutBytes(extra));
  }

  /** The same up to the commands. */
  lemma HeadIff(s: seq<Byte>, word: nat, b: Block)
    ensures At(s, 0, LE32(word) + Body(b)) <==>
      (HeadAt(s, word, b.height, b.parents) && At(s, 12 + 32 * |b.parents|, PutList(b.cmds) + PutBytes(b.extra)))
  {
    var rest := PutList(b.cmds) + PutBytes(b.extra);
    WordAtIff(s, 0, word);
    WordAtIff(s, 4, b.height);
    ListAtIff(s, 8, b.parents);
    AtThree(s, LE32(word), LE32(b.height), PutList(b.parents), rest);
  }

  /** What `serialize` writes, byte by byte. */
  lemma WireFormat(b: Block)
    ensures Layout(Encode(b), b.proposer, b) && |Encode(b)| == Size(b)
  {
    BodySize(b);
    LayoutIff(Encode(b), b.proposer, b);
  }

  /** `unserialize` accepts exactly the bytes that start with such a block, and yields it. */
  lemma ParsedFormat(s: seq<Byte>, b: Block)
    ensures (Decode(s).Done? && Decode(s).value == b) <==>
      Countable(b) && StartsWith(s, b)
    ensures Decode(s).Done? && Decode(s).value == b ==> Size(b) <= |s| && Decode(s).rest == s[Size(b)..]
  {
    BodySize(b);
    if Decode(s).Done? && Decode(s).value == b {
      var word := GetU32(s).value;
      Consumed(s);
      SplitAt(LE32(word) + Body(b), Decode(s).rest);
      LayoutIff(s, word, b);
      assert Layout(s, word, b);
    }
    if word: U32 :| Countable(b) && Layout(s, word, b) && b.proposer == word % ID_LIMIT {
      LayoutIff(s, word, b);
      var rest := s[Size(b)..];
      assert s == LE32(word) + Body(b) + rest;
      WordFirst(word, Body(b), rest);
      DecodeBodyOf(b, rest);
      assert Decode(s) == Done(b, rest);
    }
  }

  /** A list of hashes. */
  lemma HashListFormat(ds: seq<Digest>)
    ensures var s := PutList(ds); |s| == 4 + 32 * |ds| && ListAt(s, 0, ds)
  {
    ListAtIff(PutList(ds), 0, ds);
  }

  /** Where block `i` of a list starts, after the count. */
  function Offset(bs: seq<Block>, i: nat): nat
    requires i <= |bs|
  {
    if i == 0 then 0 else Offset(bs, i - 1) + Size(bs[i - 1])
  }

  lemma {:induction false} BlocksBytes(bs: seq<Block>, i: nat)
    requires i <= |bs|
    ensures Offset(bs, i) == |PutBlocks(bs[..i])|
  {
    if i > 0 {
      BlocksBytes(bs, i - 1);
      assert bs[..i][..i - 1] == bs[..i - 1];
      WireFormat(bs[i - 1]);
    }
  }

  lemma {:induction false} BlockAt(bs: seq<Block>, i: nat, at: nat, bytes: seq<Byte>)
    requires i < |bs| && bytes == Encode(bs[i]) && at == |PutBlocks(bs[..i])|
    ensures At(PutBlocks(bs), at, bytes)
  {
    var m := |bs| - 1;
    if i < m {
      var front := bs[..m];
      assert front[..i] == bs[..i] && front[i] == bs[i];
      BlockAt(front, i, at, bytes);
      AtFront(bs, at, bytes);
    } else {
      AtEnd(PutBlocks(bs[..m]), bytes);
    }
  }

  lemma AtFront(bs: seq<Block>, at: nat, bytes: seq<Byte>)
    requires bs != [] && At(PutBlocks(bs[..|bs| - 1]), at, bytes)
    ensures At(PutBlocks(bs), at, bytes)
  {
    AtMore(PutBlocks(bs[..|bs| - 1]), Encode(bs[|bs| - 1]), at, bytes);
  }

  lemma AtEnd(s: seq<Byte>, part: seq<Byte>)
    ensures At(s + part, |s|, part)
  {}

  lemma AtMore(s: seq<Byte>, t: seq<Byte>, at: nat, part: seq<Byte>)
    requires At(s, at, part)
    ensures At(s + t, at, part)
  {
    assert (s + t)[at..at + |part|] == s[at..at + |part|];
  }

  lemma ListHeader(bs: seq<Block>)
    ensures WordAt(EncodeBlocks(bs), 0, |bs|) && |EncodeBlocks(bs)| == 4 + Offset(bs, |bs|)
  {
    WordAtIff(EncodeBlocks(bs), 0, |bs|);
    AtBoth(EncodeBlocks(bs), 0, LE32(|bs|), PutBlocks(bs));
    BlocksBytes(bs, |bs|);
    assert bs[..|bs|] == bs;
  }

  lemma ListBlock(bs: seq<Block>, i: nat)
    requires i < |bs|
    ensures 4 + Offset(bs, i) <= |EncodeBlocks(bs)|
    ensures At(EncodeBlocks(bs)[4 + Offset(bs, i)..], 0, LE32(bs[i].proposer) + Body(bs[i]))
  {
    BlocksBytes(bs, i);
    BlockAt(bs, i, Offset(bs, i), Encode(bs[i]));
    TailAt(LE32(|bs|), PutBlocks(bs), Offset(bs, i), Encode(bs[i]));
  }

  /** A list of blocks: the count, and each block where those before it end. */
  lemma BlockListFormat(bs: seq<Block>, i: nat)
    requires i < |bs|
    ensures var s, at := EncodeBlocks(bs), 4 + Offset(bs, i);
      && WordAt(s, 0, |bs|) && |s| == 4 + Offset(bs, |bs|)
      && at <= |s| && Layout(s[at..], bs[i].proposer, bs[i]) && at + Size(bs[i]) == 4 + Offset(bs, i + 1)
  {
    ListHeader(bs);
    ListBlock(bs, i);
    LayoutIff(EncodeBlocks(bs)[4 + Offset(bs, i)..], bs[i].proposer, bs[i]);
  }

  lemma TailAt(head: seq<Byte>, s: seq<Byte>, at: nat, part: seq<Byte>)
    requires At(s, at, part)
    ensures At((head + s)[|head| + at..], 0, part)
  {
    assert (head + s)[|head| + at..] == s[at..];
    assert s[at..][..|part|] == s[at..at + |part|];
  }

  /** A decision. */
  lemma FinalityFormat(f: Finality)
    ensures var s := PutFinality(f);
      && |s| == (if f.decision == 1 then 75 else 43)
      && s[0] == f.rid % 256 && s[1] == f.rid / 256 && (s[2] as int - f.decision) % 256 == 0
      && WordAt(s, 3, f.cmdIdx) && WordAt(s, 7, f.cmdHeight) && s[11..43] == f.cmdHash
      && (f.decision == 1 ==> s[43..75] == f.blkHash)
  {
    var s := PutFinality(f);
    WordAtIff(s, 3, f.cmdIdx);
    WordAtIff(s, 7, f.cmdHeight);
    assert s[3..7] == LE32(f.cmdIdx) && s[7..11] == LE32(f.cmdHeight);
  }

  // ---- the code, on streams and objects ----

  /** A byte queue: written at the end, read from the front. */
  class DataStream {
    var buf: seq<Byte>

    constructor (bytes: seq<Byte>)
      ensures buf == bytes
    {
      buf := bytes;
    }

    method Put(bytes: seq<Byte>)
      modifies this
      ensures buf == old(buf) + bytes
    {
      buf := buf + bytes;
    }

    method TakeU32() returns (p: Parse<U32>)
      modifies this
      ensures p == GetU32(old(buf)) && buf == if p.Done? then p.rest else old(buf)
    {
      p := GetU32(buf);
      if p.Done? { buf := p.rest; }
    }

    method Take(n: nat) returns (p: Parse<seq<Byte>>)
      modifies this
      ensures p == Get(old(buf), n) && buf == if p.Done? then p.rest else old(buf)
    {
      p := Get(buf, n);
      if p.Done? { buf := p.rest; }
    }
  }

  const ZERO: Digest := seq(HASH_LEN, _ => 0)

  method PutHashes(ds: seq<Digest>, s: DataStream)
    modifies s
    ensures s.buf == old(s.buf) + PutList(ds)
  {
    s.Put(LE32(|ds|));
    ghost var head := s.buf;
    assert head == old(s.buf) + LE32(|ds|);
    for i := 0 to |ds|
      invariant s.buf == head + PutDigests(ds[..i])
    {
      s.Put(ds[i]);
      assert ds[..i + 1][..i] == ds[..i];
      Assoc(head, PutDigests(ds[..i]), ds[i]);
    }
    assert ds[..|ds|] == ds;
    Assoc(old(s.buf), LE32(|ds|), PutDigests(ds));
  }

  /** Resize, then fill in place. */
  method TakeHashes(s: DataStream) returns (ok: bool, ds: seq<Digest>)
    modifies s
    ensures ok <==> GetList(old(s.buf)).Done?
    ensures ok ==> GetList(old(s.buf)) == Done(ds, s.buf)
  {
    ds := [];
    var n := s.TakeU32();
    if n.Fail? { return false, ds; }
    ghost var r := s.buf;
    ds := seq(n.value, _ => ZERO);
    for i := 0 to n.value
      invariant |ds| == n.value && GetDigests(r, i) == Done(ds[..i], s.buf)
    {
      var d := s.Take(HASH_LEN);
      if d.Fail? {
        assert GetDigests(r, i + 1).Fail?;
        StaysFailed(r, i + 1, n.value);
        return false, ds;
      }
      assert ds[i := d.value][..i + 1] == ds[..i] + [d.value];
      ds := ds[i := d.value];
    }
    assert ds[..n.value] == ds;
    return true, ds;
  }

  lemma {:induction false} StaysFailed(s: seq<Byte>, i: nat, n: nat)
    requires i <= n && GetDigests(s, i).Fail?
    ensures GetDigests(s, n).Fail?
    decreases n
  {
    if i < n { StaysFailed(s, i, n - 1); }
  }

  /** `e2c::Block`, the fields on the wire. */
  class BlockObject {
    var proposer: ReplicaId
    var height: U32
    var parentHashes: seq<Digest>
    var cmds: seq<Digest>
    var extra: seq<Byte>

    ghost function Abs(): Block
      reads this
    {
      Block(parentHashes, cmds, extra, proposer, height)
    }

    constructor ()
      ensures height == 0
    {
      proposer, height, parentHashes, cmds, extra := 0, 0, [], [], [];
    }

    method Serialize(s: DataStream)
      modifies s
      ensures s.buf == old(s.buf) + Encode(Abs()) && Layout(Encode(Abs()), proposer, Abs())
    {
      WireFormat(Abs());
      s.Put(LE32(proposer));
      s.Put(LE32(height));
      PutHashes(parentHashes, s);
      PutHashes(cmds, s);
      s.Put(LE32(|extra|));
      s.Put(extra);
      Flatten(old(s.buf), LE32(proposer), LE32(height), PutList(parentHashes), PutList(cmds), LE32(|extra|), extra);
    }

    lemma Flatten(s: seq<Byte>, a: seq<Byte>, b: seq<Byte>, c: seq<Byte>, d: seq<Byte>, e: seq<Byte>, f: seq<Byte>)
      ensures s + a + b + c + d + e + f == s + (a + (b + (c + (d + (e + f)))))
    {}

    method Unserialize(s: DataStream) returns (ok: bool)
      modifies this, s
      ensures ok <==> Decode(old(s.buf)).Done?
      ensures ok ==> Decode(old(s.buf)) == Done(Abs(), s.buf)
    {
      ok := false;
      var n := s.TakeU32();
      if n.Fail? { return; }
      proposer := n.value % ID_LIMIT;
      var h := s.TakeU32();
      if h.Fail? { return; }
      height := h.value;
      var got;
      got, parentHashes := TakeHashes(s);
      if !got { return; }
      got, cmds := TakeHashes(s);
      if !got { return; }
      n := s.TakeU32();
      if n.Fail? { return; }
      if n.value == 0 {
        extra := [];
      } else {
        var bytes := s.Take(n.value);
        if bytes.Fail? { return; }
        extra := bytes.value;
      }
      ok := true;
    }
  }

  ghost function Values(objects: seq<BlockObject>): (r: seq<Block>)
    reads objects
    ensures |r| == |objects| && forall i | 0 <= i < |r| :: r[i] == objects[i].Abs()
  {
    if objects == [] then [] else Values(objects[..|objects| - 1]) + [objects[|objects| - 1].Abs()]
  }

  lemma ValuesMore(objects: seq<BlockObject>, o: BlockObject)
    ensures Values(objects + [o]) == Values(objects) + [o.Abs()]
  {
    assert (objects + [o])[..|objects|] == objects;
  }

  method WriteNext(o: BlockObject, s: DataStream, ghost head: seq<Byte>, ghost bs: seq<Block>, ghost i: nat)
    requires i < |bs| && o.Abs() == bs[i] && s.buf == head + PutBlocks(bs[..i])
    modifies s
    ensures s.buf == head + PutBlocks(bs[..i + 1])
  {
    o.Serialize(s);
    assert bs[..i + 1][..i] == bs[..i];
    Assoc(head, PutBlocks(bs[..i]), Encode(bs[i]));
  }

  /** `MsgRespBlock(const std::vector<block_t> &)` */
  method WriteBlocks(objects: seq<BlockObject>, s: DataStream)
    modifies s
    ensures s.buf == old(s.buf) + EncodeBlocks(Values(objects))
  {
    s.Put(LE32(|objects|));
    ghost var head, bs := s.buf, Values(objects);
    WriteAll(objects, s, head, bs);
    Assoc(old(s.buf), LE32(|objects|), PutBlocks(bs));
    Unmoved(objects);
  }

  method WriteAll(objects: seq<BlockObject>, s: DataStream, ghost head: seq<Byte>, ghost bs: seq<Block>)
    requires s.buf == head && |bs| == |objects| && forall k | 0 <= k < |objects| :: objects[k].Abs() == bs[k]
    modifies s
    ensures s.buf == head + PutBlocks(bs)
  {
    assert bs[..0] == [];
    for i := 0 to |objects|
      invariant s.buf == head + PutBlocks(bs[..i]) && forall k | 0 <= k < |objects| :: objects[k].Abs() == bs[k]
    {
      WriteNext(objects[i], s, head, bs, i);
    }
    assert bs[..|bs|] == bs;
  }

  twostate lemma Unmoved(objects: seq<BlockObject>)
    requires forall k | 0 <= k < |objects| :: objects[k].Abs() == old(objects[k].Abs())
    ensures Values(objects) == old(Values(objects))
  {}

  lemma NextGot(r: seq<Byte>, i: nat, bs: seq<Block>, t: seq<Byte>)
    requires GetBlocks(r, i) == Done(bs, t)
    ensures match Decode(t)
            case Fail => GetBlocks(r, i + 1).Fail?
            case Done(b, rest) => GetBlocks(r, i + 1) == Done(bs + [b], rest)
  {}

  /** The first `i` blocks of `r` are those of `objects`, and `rest` follows. */
  ghost predicate ReadSoFar(r: seq<Byte>, i: nat, objects: seq<BlockObject>, rest: seq<Byte>)
    reads objects
  {
    GetBlocks(r, i) == Done(Values(objects), rest)
  }

  /** `MsgRespBlock::postponed_parse`, up to the storing of each block. */
  method ReadBlocks(s: DataStream) returns (ok: bool, objects: seq<BlockObject>)
    modifies s
    ensures ok <==> DecodeBlocks(old(s.buf)).Done?
    ensures ok ==> DecodeBlocks(old(s.buf)) == Done(Values(objects), s.buf)
  {
    objects := [];
    var n := s.TakeU32();
    if n.Fail? { return false, objects; }
    ok, objects := ReadAll(s, n.value);
  }

  method ReadAll(s: DataStream, n: nat) returns (ok: bool, objects: seq<BlockObject>)
    modifies s
    ensures ok <==> GetBlocks(old(s.buf), n).Done?
    ensures ok ==> ReadSoFar(old(s.buf), n, objects, s.buf)
  {
    objects := [];
    ghost var r := s.buf;
    for i := 0 to n
      invariant ReadSoFar(r, i, objects, s.buf)
    {
      var got, o := ReadNext(s, r, i, n, objects);
      if !got { return false, objects; }
      objects := objects + [o];
    }
    return true, objects;
  }

  /** One more object, parsed from the stream; those read before stay as they are. */
  method ReadNext(s: DataStream, ghost r: seq<Byte>, ghost i: nat, ghost n: nat, ghost objects: seq<BlockObject>)
    returns (ok: bool, o: BlockObject)
    requires ReadSoFar(r, i, objects, s.buf) && i < n
    modifies s
    ensures fresh(o)
    ensures if ok then ReadSoFar(r, i + 1, objects + [o], s.buf) else GetBlocks(r, n).Fail?
  {
    NextGot(r, i, Values(objects), s.buf);
    o := new BlockObject();
    ok := o.Unserialize(s);
    ValuesMore(objects, o);
    if !ok { BlocksStayFailed(r, i + 1, n); }
  }

  lemma {:induction false} BlocksStayFailed(s: seq<Byte>, i: nat, n: nat)
    requires i <= n && GetBlocks(s, i).Fail?
    ensures GetBlocks(s, n).Fail?
    decreases n
  {
    if i < n { BlocksStayFailed(s, i, n - 1); }
  }
}

/** The wire format: layouts of the consensus objects, their encoding, size and decoder. */
module Encoding {
  type Byte = x: int | 0 <= x < 256

  const MAX_OBJECT_SIZE: nat := 12000000
  const MAX_SLICE_SIZE: nat := 5000000
  const MAX_PREFIX: nat := 0x7FFF_FFFF
  const TWO_64: nat := 0x1_0000_0000_0000_0000

  // ---------------------------------------------------------------- numbers

  function LittleEndian(u: nat, k: nat): (s: seq<Byte>)
    ensures |s| == k
  {
    if k == 0 then [] else [u % 256] + LittleEndian(u / 256, k - 1)
  }

  function FromLittleEndian(s: seq<Byte>): nat
  {
    if s == [] then 0 else s[0] + 256 * FromLittleEndian(s[1..])
  }

  function Uint(u: nat): (s: seq<Byte>)
    ensures |s| == 8
  {
    LittleEndian(u, 8)
  }

  function Shift(n: nat, i: nat): nat { if i == 0 then n else Shift(n, i - 1) / 256 }

  lemma {:induction false} ShiftTwice(n: nat, i: nat)
    ensures Shift(n / 256, i) == Shift(n, i + 1)
  {
    if i > 0 {
      ShiftTwice(n, i - 1);
    }
  }

  lemma {:induction false} LittleEndianReads(u: nat, k: nat)
    requires Shift(u, k) == 0
    ensures FromLittleEndian(LittleEndian(u, k)) == u
  {
    if k > 0 {
      ShiftTwice(u, k - 1);
      LittleEndianReads(u / 256, k - 1);
    }
  }

  lemma UintReads(u: nat)
    requires u < TWO_64
    ensures FromLittleEndian(Uint(u)) == u
  {
    assert Shift(u, 1) < 0x100_0000_0000_0000;
    assert Shift(u, 2) < 0x1_0000_0000_0000;
    assert Shift(u, 3) < 0x100_0000_0000;
    assert Shift(u, 4) < 0x1_0000_0000;
    assert Shift(u, 5) < 0x100_0000;
    assert Shift(u, 6) < 0x1_0000;
    assert Shift(u, 7) < 0x100;
    LittleEndianReads(u, 8);
  }

  // The bytes of an amount, most significant first, without leading zeros.
  function BigEndian(n: nat): seq<Byte>
  {
    if n == 0 then [] else BigEndian(n / 256) + [n % 256]
  }

  function FromBigEndian(s: seq<Byte>): nat
  {
    if s == [] then 0 else FromBigEndian(s[..|s| - 1]) * 256 + s[|s| - 1]
  }

  lemma {:induction false} BigEndianReads(n: nat)
    ensures FromBigEndian(BigEndian(n)) == n
  {
    if n > 0 {
      BigEndianReads(n / 256);
      assert BigEndian(n)[..|BigEndian(n)| - 1] == BigEndian(n / 256);
    }
  }

  lemma {:induction false} TopByte(n: nat, i: nat)
    requires Shift(n, i) == 0 && (i == 0 || Shift(n, i - 1) != 0)
    ensures |BigEndian(n)| == i
  {
    if i > 0 {
      ShiftPositive(n, i - 1);
      ShiftTwice(n, i - 1);
      if i > 1 {
        ShiftTwice(n, i - 2);
      }
      TopByte(n / 256, i - 1);
    }
  }

  lemma {:induction false} ShiftPositive(n: nat, i: nat)
    requires Shift(n, i) != 0
    ensures n > 0
  {
    if i > 0 {
      ShiftPositive(n, i - 1);
    }
  }

  lemma {:induction false} ByteAt(n: nat, i: nat)
    requires i < |BigEndian(n)|
    ensures BigEndian(n)[|BigEndian(n)| - 1 - i] == Shift(n, i) % 256
  {
    if i > 0 {
      ByteAt(n / 256, i - 1);
      ShiftTwice(n, i - 1);
    }
  }

  // Currency.MarshalSia: find the top byte of the words, then write the bytes down from it.
  method MarshalMoney(n: nat, words: nat) returns (out: seq<Byte>)
    requires Shift(n, 8 * words) == 0
    ensures out == Uint(|BigEndian(n)|) + BigEndian(n)
  {
    var i := 8 * words - 1;
    while i >= 0
      invariant -1 <= i < 8 * words && Shift(n, i + 1) == 0
    {
      if Shift(n, i) != 0 {
        break;
      }
      i := i - 1;
    }
    TopByte(n, i + 1);
    ghost var bytes := BigEndian(n);
    out := Uint(i + 1);
    while i >= 0
      invariant -1 <= i < |bytes| && out == Uint(|bytes|) + bytes[..|bytes| - 1 - i]
    {
      ByteAt(n, i);
      out := out + [Shift(n, i) % 256];
      i := i - 1;
    }
  }

  // Currency.MarshalSiaSize: the words' bytes less the leading zeros, and the length prefix.
  method MoneySize(n: nat, words: nat) returns (size: nat)
    requires Shift(n, 8 * words) == 0
    ensures size == |Uint(|BigEndian(n)|) + BigEndian(n)|
  {
    size := words * 8;
    var i := words - 1;
    label zeros: while i >= 0
      invariant -1 <= i < words && size == 8 * (i + 1) && Shift(n, size) == 0
      decreases i
    {
      var j := 7;
      while j >= 0
        invariant -1 <= j <= 7 && size == 8 * i + j + 1 && Shift(n, size) == 0
      {
        if Shift(n, 8 * i + j) != 0 {
          break zeros;
        }
        size := size - 1;
        j := j - 1;
      }
      i := i - 1;
    }
    TopByte(n, size);
    size := 8 + size;
  }

  // ---------------------------------------------------------------- layouts

  // What an object's fields are, in the order they are written. A list also has the size of its
  // elements in memory, which bounds the length a decoder accepts.
  datatype Shape =
    | Fixed(len: nat)
    | Uint64
    | Bool
    | Bytes
    | Money
    | ListOf(elem: Shape, elemSize: nat)
    | Repeat(count: nat, elem: Shape)
    | Pair(first: Shape, second: Shape)

  datatype Value =
    | Raw(bytes: seq<Byte>)
    | Num(n: nat)
    | Flag(b: bool)
    | Items(vs: seq<Value>)
    | Both(first: Value, second: Value)

  const HASH := Fixed(32)
  const PUBLIC_KEY := Pair(Fixed(16), Bytes)
  const UNLOCK_CONDITIONS := Pair(Uint64, Pair(ListOf(PUBLIC_KEY, 40), Uint64))
  const SIACOIN_INPUT := Pair(HASH, UNLOCK_CONDITIONS)
  const SIACOIN_OUTPUT := Pair(Money, HASH)
  const SIACOIN_OUTPUTS := ListOf(SIACOIN_OUTPUT, 64)
  const FILE_CONTRACT :=
    Pair(Uint64, Pair(HASH, Pair(Uint64, Pair(Uint64, Pair(Money,
    Pair(SIACOIN_OUTPUTS, Pair(SIACOIN_OUTPUTS, Pair(HASH, Uint64))))))))
  const FILE_CONTRACT_REVISION :=
    Pair(HASH, Pair(UNLOCK_CONDITIONS, Pair(Uint64, Pair(Uint64, Pair(HASH, Pair(Uint64, Pair(Uint64,
    Pair(SIACOIN_OUTPUTS, Pair(SIACOIN_OUTPUTS, HASH)))))))))
  const STORAGE_PROOF := Pair(HASH, Pair(Fixed(64), ListOf(HASH, 32)))
  const SIAFUND_INPUT := Pair(HASH, Pair(UNLOCK_CONDITIONS, HASH))
  const SIAFUND_OUTPUT := Pair(Money, Pair(HASH, Money))
  const INDICES := ListOf(Uint64, 8)
  const COVERED_FIELDS := Pair(Bool, Repeat(10, INDICES))
  const SIGNATURE := Pair(HASH, Pair(Uint64, Pair(Uint64, Pair(COVERED_FIELDS, Bytes))))
  const UNSIGNED_TRANSACTION :=
    Pair(ListOf(SIACOIN_INPUT, 72), Pair(SIACOIN_OUTPUTS, Pair(ListOf(FILE_CONTRACT, 176),
    Pair(ListOf(FILE_CONTRACT_REVISION, 216), Pair(ListOf(STORAGE_PROOF, 120), Pair(ListOf(SIAFUND_INPUT, 104),
    Pair(ListOf(SIAFUND_OUTPUT, 96), Pair(ListOf(Money, 32), ListOf(Bytes, 24)))))))))
  const TRANSACTION := Pair(UNSIGNED_TRANSACTION, ListOf(SIGNATURE, 320))
  const BLOCK :=
    Pair(HASH, Pair(Fixed(8), Pair(Uint64, Pair(SIACOIN_OUTPUTS, ListOf(TRANSACTION, 240)))))

  // A value with the fields of a layout.
  predicate Conforms(shape: Shape, v: Value)
    decreases shape, 0
  {
    match shape
    case Fixed(len) => v.Raw? && |v.bytes| == len
    case Uint64 => v.Num? && v.n < TWO_64
    case Bool => v.Flag?
    case Bytes => v.Raw? && |v.bytes| < TWO_64
    case Money => v.Num? && |BigEndian(v.n)| < TWO_64
    case ListOf(elem, _) => v.Items? && |v.vs| < TWO_64 && forall i :: 0 <= i < |v.vs| ==> Conforms(elem, v.vs[i])
    case Repeat(count, elem) => v.Items? && |v.vs| == count && forall i :: 0 <= i < |v.vs| ==> Conforms(elem, v.vs[i])
    case Pair(first, second) => v.Both? && Conforms(first, v.first) && Conforms(second, v.second)
  }

  // No length prefix of the value exceeds what the decoder accepts.
  predicate WithinLimits(shape: Shape, v: Value)
    requires Conforms(shape, v)
  {
    match shape
    case Bytes => PrefixOK(|v.bytes|, 1)
    case Money => PrefixOK(|BigEndian(v.n)|, 1)
    case ListOf(elem, size) => PrefixOK(|v.vs|, size) && forall i :: 0 <= i < |v.vs| ==> WithinLimits(elem, v.vs[i])
    case Repeat(_, elem) => forall i :: 0 <= i < |v.vs| ==> WithinLimits(elem, v.vs[i])
    case Pair(first, second) => WithinLimits(first, v.first) && WithinLimits(second, v.second)
    case _ => true
  }

  predicate PrefixOK(n: nat, elemSize: nat) { n <= MAX_PREFIX && n * elemSize <= MAX_SLICE_SIZE }

  function Encode(shape: Shape, v: Value): seq<Byte>
    requires Conforms(shape, v)
    decreases shape, 0
  {
    match shape
    case Fixed(_) => v.bytes
    case Uint64 => Uint(v.n)
    case Bool => if v.b then [1] else [0]
    case Bytes => Uint(|v.bytes|) + v.bytes
    case Money => Uint(|BigEndian(v.n)|) + BigEndian(v.n)
    case ListOf(elem, _) => Uint(|v.vs|) + EncodeAll(elem, v.vs)
    case Repeat(_, elem) => EncodeAll(elem, v.vs)
    case Pair(first, second) => Encode(first, v.first) + Encode(second, v.second)
  }

  function EncodeAll(elem: Shape, vs: seq<Value>): seq<Byte>
    requires forall i :: 0 <= i < |vs| ==> Conforms(elem, vs[i])
    decreases elem, 1 + |vs|
  {
    if vs == [] then [] else Encode(elem, vs[0]) + EncodeAll(elem, vs[1..])
  }

  // ---------------------------------------------------------------- encodings are unambiguous

  lemma SplitAt(a: seq<Byte>, r: seq<Byte>, b: seq<Byte>, s: seq<Byte>)
    requires a + r == b + s && |a| == |b|
    ensures a == b && r == s
  {
    assert a == (a + r)[..|a|] && b == (b + s)[..|b|];
    assert r == (a + r)[|a|..] && s == (b + s)[|b|..];
  }

  lemma Assoc(a: seq<Byte>, b: seq<Byte>, c: seq<Byte>)
    ensures a + b + c == a + (b + c)
  {
  }

  // A length prefix determines the length.
  lemma PrefixReads(m: nat, r: seq<Byte>, n: nat, s: seq<Byte>)
    requires m < TWO_64 && n < TWO_64 && Uint(m) + r == Uint(n) + s
    ensures m == n && r == s
  {
    SplitAt(Uint(m), r, Uint(n), s);
    UintReads(m);
    UintReads(n);
  }

  // Whatever follows, an encoding is read in one way only.
  lemma {:induction false} Unambiguous(shape: Shape, v: Value, r: seq<Byte>, w: Value, s: seq<Byte>)
    requires Conforms(shape, v) && Conforms(shape, w) && Encode(shape, v) + r == Encode(shape, w) + s
    ensures v == w && r == s
    decreases shape, 0
  {
    match shape
    case Fixed(_) => SplitAt(v.bytes, r, w.bytes, s);
    case Uint64 => PrefixReads(v.n, r, w.n, s);
    case Bool => SplitAt(Encode(shape, v), r, Encode(shape, w), s);
    case Bytes => PrefixedReads(v.bytes, r, w.bytes, s);
    case Money =>
      PrefixedReads(BigEndian(v.n), r, BigEndian(w.n), s);
      BigEndianReads(v.n);
      BigEndianReads(w.n);
    case ListOf(elem, _) =>
      var a, b := EncodeAll(elem, v.vs), EncodeAll(elem, w.vs);
      Assoc(Uint(|v.vs|), a, r);
      Assoc(Uint(|w.vs|), b, s);
      PrefixReads(|v.vs|, a + r, |w.vs|, b + s);
      UnambiguousAll(elem, v.vs, r, w.vs, s);
    case Repeat(_, elem) => UnambiguousAll(elem, v.vs, r, w.vs, s);
    case Pair(first, second) =>
      var a, b, c, d := Encode(first, v.first), Encode(second, v.second), Encode(first, w.first), Encode(second, w.second);
      Assoc(a, b, r);
      Assoc(c, d, s);
      Unambiguous(first, v.first, b + r, w.first, d + s);
      Unambiguous(second, v.second, r, w.second, s);
  }

  lemma PrefixedReads(v: seq<Byte>, r: seq<Byte>, w: seq<Byte>, s: seq<Byte>)
    requires |v| < TWO_64 && |w| < TWO_64 && Uint(|v|) + v + r == Uint(|w|) + w + s
    ensures v == w && r == s
  {
    Assoc(Uint(|v|), v, r);
    Assoc(Uint(|w|), w, s);
    PrefixReads(|v|, v + r, |w|, w + s);
    SplitAt(v, r, w, s);
  }

  lemma {:induction false} UnambiguousAll(elem: Shape, vs: seq<Value>, r: seq<Byte>, ws: seq<Value>, s: seq<Byte>)
    requires |vs| == |ws|
    requires forall i :: 0 <= i < |vs| ==> Conforms(elem, vs[i])
    requires forall i :: 0 <= i < |ws| ==> Conforms(elem, ws[i])
    requires EncodeAll(elem, vs) + r == EncodeAll(elem, ws) + s
    ensures vs == ws && r == s
    decreases elem, 1 + |vs|
  {
    if vs == [] {
      assert EncodeAll(elem, vs) + r == r && EncodeAll(elem, ws) + s == s;
    } else {
      var a, b := EncodeAll(elem, vs[1..]), EncodeAll(elem, ws[1..]);
      assert EncodeAll(elem, vs) + r == Encode(elem, vs[0]) + (a + r);
      assert EncodeAll(elem, ws) + s == Encode(elem, ws[0]) + (b + s);
      Unambiguous(elem, vs[0], a + r, ws[0], b + s);
      UnambiguousAll(elem, vs[1..], r, ws[1..], s);
      assert vs == [vs[0]] + vs[1..] && ws == [ws[0]] + ws[1..];
    }
  }

  // Two objects with the same bytes are the same object: in particular, transactions with the same
  // unsigned encoding have the same fields but for their signatures.
  lemma Injective(shape: Shape, v: Value, w: Value)
    requires Conforms(shape, v) && Conforms(shape, w) && Encode(shape, v) == Encode(shape, w)
    ensures v == w
  {
    assert Encode(shape, v) + [] == Encode(shape, w) + [];
    Unambiguous(shape, v, [], w, []);
  }

  // ---------------------------------------------------------------- fixed offsets

  lemma OffsetReads(before: seq<Byte>, n: nat, after: seq<Byte>)
    requires n < TWO_64
    ensures FromLittleEndian((before + (Uint(n) + after))[|before|..|before| + 8]) == n
  {
    UintReads(n);
    assert (before + (Uint(n) + after))[|before|..|before| + 8] == Uint(n);
  }

  // The parent and the timestamp of a block can be read from its bytes directly.
  lemma BlockOffsets(v: Value)
    requires Conforms(BLOCK, v)
    ensures |Encode(BLOCK, v)| >= 48
    ensures Raw(Encode(BLOCK, v)[..32]) == v.first
    ensures Num(FromLittleEndian(Encode(BLOCK, v)[40..48])) == v.second.second.first
  {
    var parent, nonce, time := v.first, v.second.first, v.second.second.first;
    var rest := Encode(BLOCK.second.second.second, v.second.second.second);
    assert Encode(BLOCK.second.second, v.second.second) == Uint(time.n) + rest;
    assert Encode(BLOCK, v) == parent.bytes + (nonce.bytes + (Uint(time.n) + rest));
    assert Encode(BLOCK, v) == (parent.bytes + nonce.bytes) + (Uint(time.n) + rest);
    OffsetReads(parent.bytes + nonce.bytes, time.n, rest);
  }

  // The window end of a file contract is at bytes 48 to 56.
  lemma ContractOffsets(v: Value)
    requires Conforms(FILE_CONTRACT, v)
    ensures |Encode(FILE_CONTRACT, v)| >= 56
    ensures Num(FromLittleEndian(Encode(FILE_CONTRACT, v)[48..56])) == v.second.second.second.first
  {
    var size, root, start := Uint(v.first.n), v.second.first.bytes, Uint(v.second.second.first.n);
    var shape, tail := FILE_CONTRACT.second.second.second, v.second.second.second;
    var end, rest := tail.first, Encode(shape.second, tail.second);
    var before := size + (root + start);
    assert Encode(shape, tail) == Uint(end.n) + rest;
    assert Encode(FILE_CONTRACT.second.second, v.second.second) == start + Encode(shape, tail);
    assert Encode(FILE_CONTRACT, v) == size + (root + (start + Encode(shape, tail)));
    Assoc(root, start, Encode(shape, tail));
    Assoc(size, root + start, Encode(shape, tail));
    OffsetReads(before, end.n, rest);
  }

  // ---------------------------------------------------------------- the decoder

  function Range(k: nat): nat { if k == 0 then 1 else 256 * Range(k - 1) }

  lemma {:induction false} LittleEndianBound(s: seq<Byte>)
    ensures FromLittleEndian(s) < Range(|s|)
  {
    if s != [] {
      LittleEndianBound(s[1..]);
    }
  }

  lemma UintBound(s: seq<Byte>)
    requires |s| == 8
    ensures FromLittleEndian(s) < TWO_64
  {
    LittleEndianBound(s);
    assert Range(4) == 0x1_0000_0000;
    assert Range(8) == TWO_64;
  }

  lemma {:induction false} NoLonger(s: seq<Byte>)
    ensures |BigEndian(FromBigEndian(s))| <= |s|
  {
    if s != [] {
      NoLonger(s[..|s| - 1]);
    }
  }

  // The bytes a decoder accepts for a value. An amount may have leading zero bytes, and any byte
  // but one is a false flag.
  ghost predicate Parses(shape: Shape, code: seq<Byte>, v: Value)
    decreases shape, 1
  {
    match shape
    case Fixed(len) => |code| == len && v == Raw(code)
    case Uint64 => |code| == 8 && v == Num(FromLittleEndian(code))
    case Bool => |code| == 1 && v == Flag(code[0] == 1)
    case Bytes => Prefixed(code, |code| - 8, 1) && v == Raw(code[8..])
    case Money => Prefixed(code, |code| - 8, 1) && v == Num(FromBigEndian(code[8..]))
    case ListOf(elem, size) => v.Items? && Prefixed(code, |v.vs|, size) && ParsesAll(elem, code[8..], v.vs)
    case Repeat(count, elem) => v.Items? && |v.vs| == count && ParsesAll(elem, code, v.vs)
    case Pair(_, _) => v.Both? && exists k :: PairAt(shape, code, v, k)
  }

  // The first field ends after k bytes.
  ghost predicate PairAt(shape: Shape, code: seq<Byte>, v: Value, k: int)
    requires shape.Pair? && v.Both?
    decreases shape, 0
  {
    0 <= k <= |code| && Parses(shape.first, code[..k], v.first) && Parses(shape.second, code[k..], v.second)
  }

  ghost predicate ParsesAll(elem: Shape, code: seq<Byte>, vs: seq<Value>)
    decreases elem, 2 + 2 * |vs|
  {
    if vs == [] then code == [] else exists k :: ConsAt(elem, code, vs, k)
  }

  // The first element ends after k bytes.
  ghost predicate ConsAt(elem: Shape, code: seq<Byte>, vs: seq<Value>, k: int)
    requires vs != []
    decreases elem, 1 + 2 * |vs|
  {
    0 <= k <= |code| && Parses(elem, code[..k], vs[0]) && ParsesAll(elem, code[k..], vs[1..])
  }

  // The code starts with an acceptable length.
  ghost predicate Prefixed(code: seq<Byte>, len: int, elemSize: nat)
  {
    |code| >= 8 && FromLittleEndian(code[..8]) == len && PrefixOK(len, elemSize)
  }

  lemma PairSplits(shape: Shape, code: seq<Byte>, v: Value) returns (k: int)
    requires shape.Pair? && Parses(shape, code, v)
    ensures v.Both? && PairAt(shape, code, v, k)
  {
    match shape
    case Pair(_, _) => k :| PairAt(shape, code, v, k);
  }

  lemma ParsesCons(elem: Shape, head: seq<Byte>, v: Value, tail: seq<Byte>, vs: seq<Value>)
    requires Parses(elem, head, v) && ParsesAll(elem, tail, vs)
    ensures ParsesAll(elem, head + tail, [v] + vs)
  {
    var code, all := head + tail, [v] + vs;
    assert code[..|head|] == head && code[|head|..] == tail && all[1..] == vs && all[0] == v;
    assert ConsAt(elem, code, all, |head|);
  }

  lemma {:induction false} ParsesMore(elem: Shape, code: seq<Byte>, vs: seq<Value>, next: seq<Byte>, v: Value)
    requires ParsesAll(elem, code, vs) && Parses(elem, next, v)
    ensures ParsesAll(elem, code + next, vs + [v])
    decreases |vs|
  {
    if vs == [] {
      ParsesCons(elem, next, v, [], []);
      assert code + next == next + [] && vs + [v] == [v] + [];
    } else {
      var k :| ConsAt(elem, code, vs, k);
      ParsesMore(elem, code[k..], vs[1..], next, v);
      ParsesCons(elem, code[..k], vs[0], code[k..] + next, vs[1..] + [v]);
      assert code + next == code[..k] + (code[k..] + next) && vs + [v] == [vs[0]] + (vs[1..] + [v]);
    }
  }

  // Every encoding within the limits is accepted for its value.
  lemma {:induction false} EncodingParses(shape: Shape, v: Value)
    requires Conforms(shape, v) && WithinLimits(shape, v)
    ensures Parses(shape, Encode(shape, v), v)
    decreases shape, 0
  {
    match shape
    case Uint64 => UintReads(v.n);
    case Bytes => PrefixParses(v.bytes, |v.bytes|, 1);
    case Money =>
      PrefixParses(BigEndian(v.n), |BigEndian(v.n)|, 1);
      BigEndianReads(v.n);
    case ListOf(elem, size) =>
      PrefixParses(EncodeAll(elem, v.vs), |v.vs|, size);
      EncodingParsesAll(elem, v.vs);
    case Repeat(_, elem) => EncodingParsesAll(elem, v.vs);
    case Pair(first, second) =>
      EncodingParses(first, v.first);
      EncodingParses(second, v.second);
      var a, b := Encode(first, v.first), Encode(second, v.second);
      assert (a + b)[..|a|] == a && (a + b)[|a|..] == b;
      assert PairAt(shape, a + b, v, |a|);
    case _ =>
  }

  lemma PrefixParses(tail: seq<Byte>, len: nat, elemSize: nat)
    requires PrefixOK(len, elemSize) && len < TWO_64
    ensures Prefixed(Uint(len) + tail, len, elemSize) && (Uint(len) + tail)[8..] == tail
  {
    UintReads(len);
    assert (Uint(len) + tail)[..8] == Uint(len);
  }

  lemma {:induction false} EncodingParsesAll(elem: Shape, vs: seq<Value>)
    requires forall i :: 0 <= i < |vs| ==> Conforms(elem, vs[i]) && WithinLimits(elem, vs[i])
    ensures ParsesAll(elem, EncodeAll(elem, vs), vs)
    decreases elem, 1 + |vs|
  {
    if vs != [] {
      EncodingParses(elem, vs[0]);
      EncodingParsesAll(elem, vs[1..]);
      var a, b := Encode(elem, vs[0]), EncodeAll(elem, vs[1..]);
      assert (a + b)[..|a|] == a && (a + b)[|a|..] == b;
      assert ConsAt(elem, a + b, vs, |a|);
    }
  }

  // What is accepted is an object, within the limits, whose own encoding is no longer.
  lemma {:induction false} ParsedConforms(shape: Shape, code: seq<Byte>, v: Value)
    requires Parses(shape, code, v)
    ensures Conforms(shape, v) && WithinLimits(shape, v) && |Encode(shape, v)| <= |code|
    decreases shape, 0
  {
    match shape
    case Uint64 => UintBound(code);
    case Money => NoLonger(code[8..]);
    case ListOf(elem, _) => ParsedConformsAll(elem, code[8..], v.vs);
    case Repeat(_, elem) => ParsedConformsAll(elem, code, v.vs);
    case Pair(first, second) =>
      var k :| PairAt(shape, code, v, k);
      ParsedConforms(first, code[..k], v.first);
      ParsedConforms(second, code[k..], v.second);
    case _ =>
  }

  lemma {:induction false} ParsedConformsAll(elem: Shape, code: seq<Byte>, vs: seq<Value>)
    requires ParsesAll(elem, code, vs)
    ensures forall i :: 0 <= i < |vs| ==> Conforms(elem, vs[i]) && WithinLimits(elem, vs[i])
    ensures |EncodeAll(elem, vs)| <= |code|
    decreases elem, 1 + |vs|
  {
    if vs != [] {
      var k :| ConsAt(elem, code, vs, k);
      ParsedConforms(elem, code[..k], vs[0]);
      ParsedConformsAll(elem, code[k..], vs[1..]);
      assert forall i :: 0 < i < |vs| ==> vs[i] == vs[1..][i - 1];
    }
  }

  // ---------------------------------------------------------------- parsing is unambiguous

  lemma {:induction false} ParseUnique(shape: Shape, c: seq<Byte>, v: Value, r: seq<Byte>, d: seq<Byte>, w: Value, s: seq<Byte>)
    requires Parses(shape, c, v) && Parses(shape, d, w) && c + r == d + s
    ensures c == d && v == w
    decreases shape, 0
  {
    match shape
    case Fixed(_) => SplitAt(c, r, d, s);
    case Uint64 => SplitAt(c, r, d, s);
    case Bool => SplitAt(c, r, d, s);
    case Bytes =>
      SamePrefix(c, r, d, s);
      SplitAt(c, r, d, s);
    case Money =>
      SamePrefix(c, r, d, s);
      SplitAt(c, r, d, s);
    case ListOf(elem, _) =>
      SamePrefix(c, r, d, s);
      ParseUniqueAll(elem, c[8..], v.vs, r, d[8..], w.vs, s);
      assert c == c[..8] + c[8..] && d == d[..8] + d[8..];
    case Repeat(_, elem) => ParseUniqueAll(elem, c, v.vs, r, d, w.vs, s);
    case Pair(first, second) =>
      var i := PairSplits(shape, c, v);
      var j := PairSplits(shape, d, w);
      Rejoin(c, i, r);
      Rejoin(d, j, s);
      ParseUnique(first, c[..i], v.first, c[i..] + r, d[..j], w.first, d[j..] + s);
      SplitAt(c[..i], c[i..] + r, d[..j], d[j..] + s);
      ParseUnique(second, c[i..], v.second, r, d[j..], w.second, s);
      assert c == c[..i] + c[i..] && d == d[..j] + d[j..];
  }

  lemma Rejoin(c: seq<Byte>, i: nat, r: seq<Byte>)
    requires i <= |c|
    ensures c + r == c[..i] + (c[i..] + r)
  {
  }

  lemma SamePrefix(c: seq<Byte>, r: seq<Byte>, d: seq<Byte>, s: seq<Byte>)
    requires |c| >= 8 && |d| >= 8 && c + r == d + s
    ensures c[..8] == d[..8] && c[8..] + r == d[8..] + s
  {
    Rejoin(c, 8, r);
    Rejoin(d, 8, s);
    SplitAt(c[..8], c[8..] + r, d[..8], d[8..] + s);
  }

  lemma {:induction false} ParseUniqueAll(elem: Shape, c: seq<Byte>, vs: seq<Value>, r: seq<Byte>, d: seq<Byte>, ws: seq<Value>, s: seq<Byte>)
    requires |vs| == |ws| && ParsesAll(elem, c, vs) && ParsesAll(elem, d, ws) && c + r == d + s
    ensures c == d && vs == ws
    decreases elem, 1 + |vs|
  {
    if vs != [] {
      var i :| ConsAt(elem, c, vs, i);
      var j :| ConsAt(elem, d, ws, j);
      Rejoin(c, i, r);
      Rejoin(d, j, s);
      ParseUnique(elem, c[..i], vs[0], c[i..] + r, d[..j], ws[0], d[j..] + s);
      SplitAt(c[..i], c[i..] + r, d[..j], d[j..] + s);
      ParseUniqueAll(elem, c[i..], vs[1..], r, d[j..], ws[1..], s);
      assert c == c[..i] + c[i..] && d == d[..j] + d[j..] && vs == [vs[0]] + vs[1..] && ws == [ws[0]] + ws[1..];
    }
  }
}

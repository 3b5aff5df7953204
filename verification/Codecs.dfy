/** The encoder and decoder helpers, and how the fields they write and read make up an object. */
module Codecs {
  import opened Encoding

  // ---------------------------------------------------------------- writing

  // Writing this value took the output from one state to the other.
  ghost predicate Wrote(shape: Shape, a: seq<Byte>, v: Value, b: seq<Byte>)
  {
    Conforms(shape, v) && b == a + Encode(shape, v)
  }

  ghost predicate WroteAll(elem: Shape, a: seq<Byte>, vs: seq<Value>, b: seq<Byte>)
  {
    (forall i :: 0 <= i < |vs| ==> Conforms(elem, vs[i])) && b == a + EncodeAll(elem, vs)
  }

  lemma PairConforms(shape: Shape, v: Value)
    requires shape.Pair? && Conforms(shape, v)
    ensures v.Both? && Conforms(shape.first, v.first) && Conforms(shape.second, v.second)
  {
  }

  lemma FixedLength(len: nat, p: seq<Byte>)
    requires Conforms(Fixed(len), Raw(p))
    ensures |p| == len
  {
  }

  lemma PairWrote(shape: Shape, a: seq<Byte>, v: Value, b: seq<Byte>, c: seq<Byte>)
    requires shape.Pair? && v.Both? && Wrote(shape.first, a, v.first, b) && Wrote(shape.second, b, v.second, c)
    ensures Wrote(shape, a, v, c)
  {
    Assoc(a, Encode(shape.first, v.first), Encode(shape.second, v.second));
  }

  lemma {:induction false} EncodeSnoc(elem: Shape, vs: seq<Value>, v: Value)
    requires (forall i :: 0 <= i < |vs| ==> Conforms(elem, vs[i])) && Conforms(elem, v)
    ensures EncodeAll(elem, vs + [v]) == EncodeAll(elem, vs) + Encode(elem, v)
  {
    if vs == [] {
      assert vs + [v] == [v];
      assert EncodeAll(elem, [v]) == Encode(elem, v) + EncodeAll(elem, [v][1..]);
    } else {
      EncodeSnoc(elem, vs[1..], v);
      assert (vs + [v])[1..] == vs[1..] + [v];
      Assoc(Encode(elem, vs[0]), EncodeAll(elem, vs[1..]), Encode(elem, v));
    }
  }

  lemma WroteNone(elem: Shape, a: seq<Byte>)
    ensures WroteAll(elem, a, [], a)
  {
    assert a + [] == a;
  }

  lemma WroteStep(elem: Shape, a: seq<Byte>, vs: seq<Value>, b: seq<Byte>, v: Value, c: seq<Byte>)
    requires WroteAll(elem, a, vs, b) && Wrote(elem, b, v, c)
    ensures WroteAll(elem, a, vs + [v], c)
  {
    EncodeSnoc(elem, vs, v);
    Assoc(a, EncodeAll(elem, vs), Encode(elem, v));
  }

  lemma ListWrote(shape: Shape, a: seq<Byte>, vs: seq<Value>, b: seq<Byte>, c: seq<Byte>)
    requires shape.ListOf? && |vs| < TWO_64 && Wrote(Uint64, a, Num(|vs|), b) && WroteAll(shape.elem, b, vs, c)
    ensures Wrote(shape, a, Items(vs), c)
  {
    Assoc(a, Uint(|vs|), EncodeAll(shape.elem, vs));
  }

  lemma RepeatWrote(shape: Shape, a: seq<Byte>, vs: seq<Value>, b: seq<Byte>)
    requires shape.Repeat? && |vs| == shape.count && WroteAll(shape.elem, a, vs, b)
    ensures Wrote(shape, a, Items(vs), b)
  {
  }

  // ---------------------------------------------------------------- sizes

  ghost predicate Measures(shape: Shape, v: Value, n: nat) { Conforms(shape, v) && n == |Encode(shape, v)| }

  ghost predicate MeasuresAll(elem: Shape, vs: seq<Value>, n: nat)
  {
    (forall i :: 0 <= i < |vs| ==> Conforms(elem, vs[i])) && n == |EncodeAll(elem, vs)|
  }

  lemma MeasuresLength(shape: Shape, v: Value, n: nat)
    requires Measures(shape, v, n)
    ensures Conforms(shape, v) && n == |Encode(shape, v)|
  {
  }

  lemma PairMeasures(shape: Shape, v: Value, m: nat, n: nat)
    requires shape.Pair? && v.Both? && Measures(shape.first, v.first, m) && Measures(shape.second, v.second, n)
    ensures Measures(shape, v, m + n)
  {
  }

  lemma MeasuresNone(elem: Shape)
    ensures MeasuresAll(elem, [], 0)
  {
  }

  lemma FixedMeasures(len: nat, p: seq<Byte>)
    requires Conforms(Fixed(len), Raw(p))
    ensures Measures(Fixed(len), Raw(p), |p|) && |p| == len
  {
  }

  lemma UintMeasures(u: nat)
    requires Conforms(Uint64, Num(u))
    ensures Measures(Uint64, Num(u), 8)
  {
  }

  lemma FlagMeasures(b: bool)
    ensures Measures(Bool, Flag(b), 1)
  {
  }

  lemma BytesMeasures(p: seq<Byte>)
    requires Conforms(Bytes, Raw(p))
    ensures Measures(Bytes, Raw(p), 8 + |p|)
  {
  }

  // ---------------------------------------------------------------- the encoder

  // The words of an amount: enough of them for all its bytes.
  method Words(n: nat) returns (words: nat)
    ensures Shift(n, 8 * words) == 0
  {
    words := 0;
    while Shift(n, 8 * words) != 0
      decreases Shift(n, 8 * words)
    {
      ShiftShrinks(n, 8 * words);
      words := words + 1;
    }
  }

  lemma ShiftShrinks(n: nat, i: nat)
    requires Shift(n, i) != 0
    ensures Shift(n, i + 8) < Shift(n, i)
  {
    assert Shift(n, i + 2) == Shift(n, i) / 256 / 256;
    assert Shift(n, i + 4) == Shift(n, i + 2) / 256 / 256;
    assert Shift(n, i + 6) == Shift(n, i + 4) / 256 / 256;
    assert Shift(n, i + 8) == Shift(n, i + 6) / 256 / 256;
  }

  class EncHelper {
    var out: seq<Byte>

    constructor ()
      ensures out == []
    {
      out := [];
    }

    method Write(p: seq<Byte>)
      modifies this
      ensures Wrote(Fixed(|p|), old(out), Raw(p), out)
    {
      out := out + p;
    }

    method WriteUint64(u: nat)
      requires Conforms(Uint64, Num(u))
      modifies this
      ensures Wrote(Uint64, old(out), Num(u), out)
    {
      out := out + Uint(u);
    }

    method WriteBool(b: bool)
      modifies this
      ensures Wrote(Bool, old(out), Flag(b), out)
    {
      out := out + [if b then 1 else 0];
    }

    method WritePrefix(p: seq<Byte>)
      requires Conforms(Bytes, Raw(p))
      modifies this
      ensures Wrote(Bytes, old(out), Raw(p), out)
    {
      Assoc(out, Uint(|p|), p);
      WriteUint64(|p|);
      Write(p);
    }

    method WriteMoney(n: nat)
      requires Conforms(Money, Num(n))
      modifies this
      ensures Wrote(Money, old(out), Num(n), out)
    {
      var words := Words(n);
      var bytes := MarshalMoney(n, words);
      out := out + bytes;
    }
  }

  // ---------------------------------------------------------------- reading

  // A decoder: what is left to read, how much has been read, and whether it has failed.
  datatype Dec = Dec(data: seq<Byte>, n: nat, err: bool)

  ghost predicate Sane(d: Dec) { !d.err ==> d.n <= MAX_OBJECT_SIZE }

  // The decoder has read exactly this many bytes.
  ghost predicate Advanced(a: Dec, b: Dec, k: int)
  {
    && !a.err && !b.err && 0 <= k <= |a.data| && b.data == a.data[k..] && b.n == a.n + k <= MAX_OBJECT_SIZE
  }

  ghost function Used(a: Dec, b: Dec): int { |a.data| - |b.data| }

  // No code for the layout can be read.
  ghost predicate Stuck(shape: Shape, a: Dec)
  {
    forall k, v :: 0 <= k <= |a.data| && a.n + k <= MAX_OBJECT_SIZE ==> !Parses(shape, a.data[..k], v)
  }

  // Reading by the layout took the decoder from one state to the other. It succeeds with the value
  // the bytes stand for, and fails only if no code is there.
  ghost predicate Outcome(shape: Shape, a: Dec, v: Value, b: Dec)
  {
    && (a.err ==> b.err)
    && (!b.err ==> Advanced(a, b, Used(a, b)) && Parses(shape, a.data[..Used(a, b)], v))
    && (b.err && !a.err ==> Stuck(shape, a))
  }

  // Two readings of the same bytes end at the same place.
  lemma SameCode(shape: Shape, data: seq<Byte>, j: nat, v: Value, k: nat, w: Value)
    requires j <= |data| && k <= |data| && Parses(shape, data[..j], v) && Parses(shape, data[..k], w)
    ensures j == k && v == w
  {
    assert data[..j] + data[j..] == data == data[..k] + data[k..];
    ParseUnique(shape, data[..j], v, data[j..], data[..k], w, data[k..]);
  }

  lemma PairOutcome(shape: Shape, a: Dec, v: Value, b: Dec, c: Dec)
    requires shape.Pair? && v.Both? && Outcome(shape.first, a, v.first, b) && Outcome(shape.second, b, v.second, c)
    ensures Outcome(shape, a, v, c)
  {
    if !c.err {
      var j, k := Used(a, b), Used(a, c);
      assert a.data[..k][..j] == a.data[..j] && a.data[..k][j..] == b.data[..k - j];
      assert PairAt(shape, a.data[..k], v, j);
    } else if !a.err {
      forall k, w | 0 <= k <= |a.data| && a.n + k <= MAX_OBJECT_SIZE ensures !Parses(shape, a.data[..k], w) {
        if Parses(shape, a.data[..k], w) {
          PairStuck(shape, a, v, b, c, k, w);
        }
      }
    }
  }

  lemma PairStuck(shape: Shape, a: Dec, v: Value, b: Dec, c: Dec, k: nat, w: Value)
    requires shape.Pair? && v.Both? && Outcome(shape.first, a, v.first, b) && Outcome(shape.second, b, v.second, c)
    requires !a.err && k <= |a.data| && a.n + k <= MAX_OBJECT_SIZE && Parses(shape, a.data[..k], w)
    ensures !c.err
  {
    var code := a.data[..k];
    var j := PairSplits(shape, code, w);
    assert code[..j] == a.data[..j];
    if !b.err {
      SameCode(shape.first, a.data, j, w.first, Used(a, b), v.first);
      assert code[j..] == b.data[..k - j];
    }
  }

  // ---------------------------------------------------------------- reading lists

  ghost predicate StuckAll(elem: Shape, a: Dec, i: nat)
  {
    forall k, vs :: 0 <= k <= |a.data| && a.n + k <= MAX_OBJECT_SIZE && |vs| >= i ==> !ParsesAll(elem, a.data[..k], vs)
  }

  ghost predicate AllOutcome(elem: Shape, i: nat, a: Dec, vs: seq<Value>, b: Dec)
  {
    && (a.err ==> b.err)
    && (!b.err ==> Advanced(a, b, Used(a, b)) && |vs| == i && ParsesAll(elem, a.data[..Used(a, b)], vs))
    && (b.err && !a.err ==> StuckAll(elem, a, i))
  }

  lemma AllStart(elem: Shape, a: Dec)
    requires Sane(a)
    ensures AllOutcome(elem, 0, a, [], a)
  {
  }

  // A longer list starts with a shorter one.
  lemma {:induction false} ParsesFront(elem: Shape, code: seq<Byte>, vs: seq<Value>, i: nat) returns (j: nat, k: nat)
    requires ParsesAll(elem, code, vs) && i < |vs|
    ensures j <= k <= |code| && ParsesAll(elem, code[..j], vs[..i]) && Parses(elem, code[j..k], vs[i])
    decreases |vs|
  {
    hide Parses;
    var m :| ConsAt(elem, code, vs, m);
    if i == 0 {
      j, k := 0, m;
    } else {
      var rest := code[m..];
      var p, q := ParsesFront(elem, rest, vs[1..], i - 1);
      j, k := m + p, m + q;
      ParsesCons(elem, code[..m], vs[0], rest[..p], vs[1..][..i - 1]);
      assert code[..j] == code[..m] + rest[..p] && code[j..k] == rest[p..q] && vs[..i] == [vs[0]] + vs[1..][..i - 1];
    }
  }

  lemma AllStep(elem: Shape, i: nat, a: Dec, vs: seq<Value>, b: Dec, v: Value, c: Dec)
    requires AllOutcome(elem, i, a, vs, b) && Outcome(elem, b, v, c)
    ensures AllOutcome(elem, i + 1, a, vs + [v], c)
  {
    if !c.err {
      var j, k := Used(a, b), Used(a, c);
      assert a.data[..k] == a.data[..j] + b.data[..k - j];
      ParsesMore(elem, a.data[..j], vs, b.data[..k - j], v);
    } else if !a.err {
      forall k, ws | 0 <= k <= |a.data| && a.n + k <= MAX_OBJECT_SIZE && |ws| >= i + 1
        ensures !ParsesAll(elem, a.data[..k], ws)
      {
        if ParsesAll(elem, a.data[..k], ws) {
          StepStuck(elem, i, a, vs, b, v, c, k, ws);
        }
      }
    }
  }

  lemma StepStuck(elem: Shape, i: nat, a: Dec, vs: seq<Value>, b: Dec, v: Value, c: Dec, k: nat, ws: seq<Value>)
    requires AllOutcome(elem, i, a, vs, b) && Outcome(elem, b, v, c) && !a.err && |ws| >= i + 1
    requires k <= |a.data| && a.n + k <= MAX_OBJECT_SIZE && ParsesAll(elem, a.data[..k], ws)
    ensures !c.err
  {
    hide Parses, ParsesAll;
    var code := a.data[..k];
    if !b.err {
      var p, q := ParsesFront(elem, code, ws, i);
      var j := Used(a, b);
      assert code[..p] + a.data[p..] == a.data == a.data[..j] + b.data;
      ParseUniqueAll(elem, code[..p], ws[..i], a.data[p..], a.data[..j], vs, b.data);
      assert code[p..q] == b.data[..q - p];
    }
  }

  // The length prefix took the decoder from one state to the other.
  ghost predicate CountOutcome(elemSize: nat, a: Dec, count: nat, b: Dec)
  {
    && (a.err ==> b.err) && (b.err ==> count == 0)
    && (!b.err ==> Advanced(a, b, 8) && FromLittleEndian(a.data[..8]) == count && PrefixOK(count, elemSize))
    && (b.err && !a.err ==> |a.data| < 8 || a.n + 8 > MAX_OBJECT_SIZE || !PrefixOK(FromLittleEndian(a.data[..8]), elemSize))
  }

  lemma ListOutcome(shape: Shape, a: Dec, count: nat, b: Dec, vs: seq<Value>, c: Dec)
    requires shape.ListOf? && CountOutcome(shape.elemSize, a, count, b) && AllOutcome(shape.elem, count, b, vs, c)
    ensures Outcome(shape, a, Items(vs), c)
  {
    if !c.err {
      var code := a.data[..Used(a, c)];
      assert code[..8] == a.data[..8] && code[8..] == b.data[..Used(b, c)];
    } else if !a.err {
      forall k, w | 0 <= k <= |a.data| && a.n + k <= MAX_OBJECT_SIZE ensures !Parses(shape, a.data[..k], w) {
        if Parses(shape, a.data[..k], w) {
          ListStuck(shape, a, count, b, vs, c, k, w);
        }
      }
    }
  }

  lemma ListStuck(shape: Shape, a: Dec, count: nat, b: Dec, vs: seq<Value>, c: Dec, k: nat, w: Value)
    requires shape.ListOf? && CountOutcome(shape.elemSize, a, count, b) && AllOutcome(shape.elem, count, b, vs, c)
    requires !a.err && k <= |a.data| && a.n + k <= MAX_OBJECT_SIZE && Parses(shape, a.data[..k], w)
    ensures !c.err
  {
    var code := a.data[..k];
    assert code[..8] == a.data[..8];
    if !b.err {
      assert code[8..] == b.data[..k - 8];
    }
  }

  lemma RepeatOutcome(shape: Shape, a: Dec, vs: seq<Value>, b: Dec)
    requires shape.Repeat? && AllOutcome(shape.elem, shape.count, a, vs, b)
    ensures Outcome(shape, a, Items(vs), b)
  {
  }

  // ---------------------------------------------------------------- the decoder

  class DecHelper {
    var data: seq<Byte>
    var n: nat
    var err: bool

    ghost function State(): Dec
      reads this
    {
      Dec(data, n, err)
    }

    constructor (input: seq<Byte>)
      ensures State() == Dec(input, 0, false)
    {
      data, n, err := input, 0, false;
    }

    // After an error, and on a short read, the bytes are unspecified; they are zero here.
    method ReadFull(k: nat) returns (b: seq<Byte>)
      requires Sane(State())
      modifies this
      ensures Sane(State()) && |b| == k
      ensures err <==> old(err) || |old(data)| < k || old(n) + k > MAX_OBJECT_SIZE
      ensures !err ==> b == old(data)[..k] && data == old(data)[k..] && n == old(n) + k
      ensures Outcome(Fixed(k), old(State()), Raw(b), State())
    {
      b := seq(k, _ => 0);
      if err {
        return;
      }
      if |data| < k {
        data, n, err := [], n + |data|, true;
      } else {
        b, data, n := data[..k], data[k..], n + k;
        err := n > MAX_OBJECT_SIZE;
      }
    }

    method NextUint64() returns (r: nat)
      requires Sane(State())
      modifies this
      ensures Sane(State()) && r < TWO_64
      ensures err <==> old(err) || |old(data)| < 8 || old(n) + 8 > MAX_OBJECT_SIZE
      ensures !err ==> r == FromLittleEndian(old(data)[..8]) && data == old(data)[8..] && n == old(n) + 8
      ensures Outcome(Uint64, old(State()), Num(r), State())
    {
      var b := ReadFull(8);
      if err {
        return 0;
      }
      UintBound(b);
      r := FromLittleEndian(b);
    }

    method NextBool() returns (r: bool)
      requires Sane(State())
      modifies this
      ensures Sane(State()) && Outcome(Bool, old(State()), Flag(r), State())
    {
      var b := ReadFull(1);
      r := b[0] == 1;
    }

    method NextPrefix(elemSize: nat) returns (r: nat)
      requires Sane(State())
      modifies this
      ensures Sane(State()) && CountOutcome(elemSize, old(State()), r, State())
    {
      r := NextUint64();
      if err {
        return 0;
      }
      if r > MAX_PREFIX || r * elemSize > MAX_SLICE_SIZE {
        err := true;
        return 0;
      }
    }

    method ReadPrefix() returns (b: seq<Byte>)
      requires Sane(State())
      modifies this
      ensures Sane(State()) && Outcome(Bytes, old(State()), Raw(b), State())
      ensures Outcome(Money, old(State()), Num(FromBigEndian(b)), State())
    {
      ghost var a := State();
      var k := NextPrefix(1);
      ghost var c := State();
      b := ReadFull(k);
      PrefixedOutcome(a, k, c, b, State());
      if err {
        return [];
      }
    }

    method ReadMoney() returns (n: nat)
      requires Sane(State())
      modifies this
      ensures Sane(State()) && Outcome(Money, old(State()), Num(n), State())
    {
      var b := ReadPrefix();
      n := FromBigEndian(b);
    }
  }

  // A length and that many bytes make a byte string, or an amount.
  lemma PrefixedOutcome(a: Dec, k: nat, b: Dec, bytes: seq<Byte>, c: Dec)
    requires CountOutcome(1, a, k, b) && Outcome(Fixed(k), b, Raw(bytes), c) && (c.err && !b.err ==> |b.data| < k || b.n + k > MAX_OBJECT_SIZE)
    ensures !c.err ==> Outcome(Bytes, a, Raw(bytes), c) && Outcome(Money, a, Num(FromBigEndian(bytes)), c)
    ensures c.err && !a.err ==> Stuck(Bytes, a) && Stuck(Money, a)
  {
    if !c.err {
      var code := a.data[..Used(a, c)];
      assert code[..8] == a.data[..8] && code[8..] == bytes;
    } else if !a.err {
      forall j | 0 <= j <= |a.data| && a.n + j <= MAX_OBJECT_SIZE ensures !Prefixed(a.data[..j], j - 8, 1) {
        if j >= 8 {
          assert a.data[..j][..8] == a.data[..8];
        }
      }
    }
  }
}

/** The byte formats of stored records: fixed-width big-endian integers, raw bytes,
    flags, and strings with a length prefix in the style of Bitcoin. A record is a
    list of fields of given kinds, written one after the other. */
module Codec {
  import opened Options

  type Byte = x: int | 0 <= x < 256
  type Bytes = seq<Byte>

  // ----- Integers -----

  function Pow256(n: nat): (p: nat)
    ensures p > 0
  {
    if n == 0 then 1 else 256 * Pow256(n - 1)
  }

  function BigEndian(x: nat, width: nat): (s: Bytes)
    ensures |s| == width
    decreases width, x
  {
    if width == 0 then [] else BigEndian(x / 256, width - 1) + [x % 256]
  }

  function FromBigEndian(s: Bytes): (x: nat)
    ensures x < Pow256(|s|)
  {
    if s == [] then 0
    else
      var n := |s| - 1;
      256 * FromBigEndian(s[..n]) + s[n]
  }

  lemma {:induction false} BigEndianRoundTrip(x: nat, width: nat)
    requires x < Pow256(width)
    ensures FromBigEndian(BigEndian(x, width)) == x
    decreases width
  {
    if width > 0 {
      BigEndianRoundTrip(x / 256, width - 1);
      var s := BigEndian(x, width);
      assert s[..width - 1] == BigEndian(x / 256, width - 1);
    }
  }

  lemma {:induction false} BigEndianOf(s: Bytes)
    ensures BigEndian(FromBigEndian(s), |s|) == s
  {
    if s != [] {
      var n := |s| - 1;
      BigEndianOf(s[..n]);
      var x := FromBigEndian(s);
      assert x / 256 == FromBigEndian(s[..n]) && x % 256 == s[n];
      assert s == s[..n] + [s[n]];
    }
  }

  function Reversed(s: Bytes): (r: Bytes)
    ensures |r| == |s| && forall i :: 0 <= i < |s| ==> r[i] == s[|s| - 1 - i]
  {
    seq(|s|, i requires 0 <= i < |s| => s[|s| - 1 - i])
  }

  lemma ReversedTwice(s: Bytes)
    ensures Reversed(Reversed(s)) == s
  {
  }

  function LittleEndian(x: nat, width: nat): Bytes {
    Reversed(BigEndian(x, width))
  }

  function FromLittleEndian(s: Bytes): nat {
    FromBigEndian(Reversed(s))
  }

  /** Two's complement. */
  predicate FitsSigned(x: int, width: nat) {
    -(Pow256(width) / 2) <= x < Pow256(width) / 2
  }

  function ToUnsigned(x: int, width: nat): nat
    requires FitsSigned(x, width)
  {
    if x < 0 then x + Pow256(width) else x
  }

  function ToSigned(u: nat, width: nat): int {
    if u >= Pow256(width) / 2 then u - Pow256(width) else u
  }

  lemma PowEven(n: nat)
    requires n > 0
    ensures Pow256(n) == 2 * (Pow256(n) / 2)
  {
  }

  lemma SignedRoundTrip(x: int, width: nat)
    requires width > 0 && FitsSigned(x, width)
    ensures ToUnsigned(x, width) < Pow256(width) && ToSigned(ToUnsigned(x, width), width) == x
  {
    PowEven(width);
  }

  // ----- Lengths -----

  const MAX_MESSAGE_PAYLOAD := 33554432

  function LengthPrefix(n: nat): Bytes {
    if n < 0xfd then [n]
    else if n < Pow256(2) then [0xfd] + LittleEndian(n, 2)
    else if n < Pow256(4) then [0xfe] + LittleEndian(n, 4)
    else [0xff] + LittleEndian(n, 8)
  }

  function Take(s: Bytes, n: nat): Option<(Bytes, Bytes)> {
    if |s| < n then None else Some((s[..n], s[n..]))
  }

  /** A longer form than needed is refused. */
  function ReadWide(s: Bytes, width: nat, least: nat): Option<(nat, Bytes)> {
    match Take(s, width)
    case None => None
    case Some((digits, rest)) =>
      var n := FromLittleEndian(digits);
      if n < least then None else Some((n, rest))
  }

  function ReadLength(s: Bytes): Option<(nat, Bytes)> {
    if s == [] then None
    else if s[0] == 0xfd then ReadWide(s[1..], 2, 0xfd)
    else if s[0] == 0xfe then ReadWide(s[1..], 4, Pow256(2))
    else if s[0] == 0xff then ReadWide(s[1..], 8, Pow256(4))
    else Some((s[0], s[1..]))
  }

  lemma TakeAppended(a: Bytes, rest: Bytes)
    ensures Take(a + rest, |a|) == Some((a, rest))
  {
  }

  lemma LittleEndianRoundTrip(n: nat, width: nat)
    requires n < Pow256(width)
    ensures |LittleEndian(n, width)| == width && FromLittleEndian(LittleEndian(n, width)) == n
  {
    BigEndianRoundTrip(n, width);
    ReversedTwice(BigEndian(n, width));
  }

  lemma WideRoundTrip(n: nat, width: nat, least: nat, rest: Bytes)
    requires least <= n < Pow256(width)
    ensures ReadWide(LittleEndian(n, width) + rest, width, least) == Some((n, rest))
  {
    LittleEndianRoundTrip(n, width);
    TakeAppended(LittleEndian(n, width), rest);
  }

  lemma TaggedRoundTrip(tag: Byte, n: nat, width: nat, least: nat, rest: Bytes)
    requires (tag, width, least) in {(0xfd, 2, 0xfd), (0xfe, 4, Pow256(2)), (0xff, 8, Pow256(4))}
    requires least <= n < Pow256(width)
    ensures ReadLength([tag] + LittleEndian(n, width) + rest) == Some((n, rest))
  {
    var s := [tag] + LittleEndian(n, width) + rest;
    assert s[0] == tag && s[1..] == LittleEndian(n, width) + rest;
    WideRoundTrip(n, width, least, rest);
  }

  lemma LengthRoundTrip(n: nat, rest: Bytes)
    requires n < Pow256(8)
    ensures ReadLength(LengthPrefix(n) + rest) == Some((n, rest))
  {
    if n < 0xfd {
      assert ([n] + rest)[1..] == rest;
    } else if n < Pow256(2) {
      TaggedRoundTrip(0xfd, n, 2, 0xfd, rest);
    } else if n < Pow256(4) {
      TaggedRoundTrip(0xfe, n, 4, Pow256(2), rest);
    } else {
      TaggedRoundTrip(0xff, n, 8, Pow256(4), rest);
    }
  }

  // ----- Fields -----

  datatype Kind = Int(width: nat) | Uint(width: nat) | Raw(length: nat) | Flag | Text

  datatype Value = IntValue(number: int) | RawValue(bytes: Bytes) | FlagValue(flag: bool)

  /** A value of the kind. Texts longer than what may be read back are still written. */
  predicate OfKind(k: Kind, v: Value) {
    match k
    case Int(width) => v.IntValue? && width > 0 && FitsSigned(v.number, width)
    case Uint(width) => v.IntValue? && 0 <= v.number < Pow256(width)
    case Raw(length) => v.RawValue? && |v.bytes| == length
    case Flag => v.FlagValue?
    case Text => v.RawValue? && |v.bytes| < Pow256(8)
  }

  function WriteField(k: Kind, v: Value): Bytes
    requires OfKind(k, v)
  {
    match k
    case Int(width) => BigEndian(ToUnsigned(v.number, width), width)
    case Uint(width) => BigEndian(v.number, width)
    case Raw(_) => v.bytes
    case Flag => [if v.flag then 1 else 0]
    case Text => LengthPrefix(|v.bytes|) + v.bytes
  }

  function ReadField(k: Kind, s: Bytes): Option<(Value, Bytes)> {
    match k
    case Int(width) =>
      (match Take(s, width)
       case None => None
       case Some((a, rest)) => Some((IntValue(ToSigned(FromBigEndian(a), width)), rest)))
    case Uint(width) =>
      (match Take(s, width) case None => None case Some((a, rest)) => Some((IntValue(FromBigEndian(a)), rest)))
    case Raw(length) =>
      (match Take(s, length) case None => None case Some((a, rest)) => Some((RawValue(a), rest)))
    case Flag =>
      if s == [] then None else Some((FlagValue(s[0] != 0), s[1..]))
    case Text =>
      match ReadLength(s)
      case None => None
      case Some((n, rest)) =>
        if n > MAX_MESSAGE_PAYLOAD then None
        else match Take(rest, n) case None => None case Some((a, more)) => Some((RawValue(a), more))
  }

  predicate Readable(k: Kind, v: Value) {
    k.Text? && v.RawValue? ==> |v.bytes| <= MAX_MESSAGE_PAYLOAD
  }

  /** A written field reads back, unless it is a text that is too long: that one
      cannot be read at all. */
  lemma FieldRoundTrip(k: Kind, v: Value, rest: Bytes)
    requires OfKind(k, v)
    ensures ReadField(k, WriteField(k, v) + rest) == if Readable(k, v) then Some((v, rest)) else None
  {
    match k
    case Int(width) =>
      SignedRoundTrip(v.number, width);
      BigEndianRoundTrip(ToUnsigned(v.number, width), width);
      TakeAppended(WriteField(k, v), rest);
    case Uint(width) =>
      BigEndianRoundTrip(v.number, width);
      TakeAppended(WriteField(k, v), rest);
    case Raw(_) =>
      TakeAppended(v.bytes, rest);
    case Flag =>
      assert ([if v.flag then 1 else 0] + rest)[1..] == rest;
    case Text =>
      LengthRoundTrip(|v.bytes|, v.bytes + rest);
      assert LengthPrefix(|v.bytes|) + v.bytes + rest == LengthPrefix(|v.bytes|) + (v.bytes + rest);
      TakeAppended(v.bytes, rest);
  }

  // ----- Records -----

  predicate OfKinds(ks: seq<Kind>, vs: seq<Value>) {
    |vs| == |ks| && forall i :: 0 <= i < |ks| ==> OfKind(ks[i], vs[i])
  }

  function Encode(ks: seq<Kind>, vs: seq<Value>): Bytes
    requires OfKinds(ks, vs)
    decreases |ks|, vs
  {
    if ks == [] then []
    else
      var n := |ks| - 1;
      Encode(ks[..n], vs[..n]) + WriteField(ks[n], vs[n])
  }

  /** The fields, and what follows them. */
  function Decode(ks: seq<Kind>, s: Bytes): (r: Option<(seq<Value>, Bytes)>)
    ensures r.Some? ==> |r.value.0| == |ks|
    decreases |ks|, s
  {
    if ks == [] then Some(([], s))
    else
      var n := |ks| - 1;
      match Decode(ks[..n], s)
      case None => None
      case Some((vs, rest)) =>
        match ReadField(ks[n], rest)
        case None => None
        case Some((v, more)) => Some((vs + [v], more))
  }

  predicate AllReadable(ks: seq<Kind>, vs: seq<Value>)
    requires |vs| == |ks|
  {
    forall i :: 0 <= i < |ks| ==> Readable(ks[i], vs[i])
  }

  lemma SplitLast<X>(s: seq<X>, n: nat)
    requires |s| == n + 1
    ensures s == s[..n] + [s[n]]
  {
  }

  lemma ReadableGrows(ks: seq<Kind>, vs: seq<Value>, n: nat)
    requires |vs| == |ks| == n + 1
    ensures AllReadable(ks, vs) <==> AllReadable(ks[..n], vs[..n]) && Readable(ks[n], vs[n])
  {
  }

  lemma EncodeLast(ks: seq<Kind>, vs: seq<Value>, n: nat, rest: Bytes)
    requires |ks| == n + 1 && OfKinds(ks, vs)
    ensures Encode(ks, vs) + rest == Encode(ks[..n], vs[..n]) + (WriteField(ks[n], vs[n]) + rest)
  {
  }

  lemma DecodeLast(ks: seq<Kind>, s: Bytes, n: nat, vs: seq<Value>, rest: Bytes)
    requires |ks| == n + 1 && Decode(ks[..n], s) == Some((vs, rest))
    ensures Decode(ks, s) == match ReadField(ks[n], rest)
                             case None => None
                             case Some((v, more)) => Some((vs + [v], more))
  {
  }

  /** A written record reads back, and leaves what follows it, exactly if all its
      texts can be read. */
  lemma {:induction false} RecordRoundTrip(ks: seq<Kind>, vs: seq<Value>, rest: Bytes)
    requires OfKinds(ks, vs)
    ensures Decode(ks, Encode(ks, vs) + rest) == if AllReadable(ks, vs) then Some((vs, rest)) else None
    decreases |ks|
  {
    if ks == [] {
      assert [] + rest == rest;
    } else {
      var n := |ks| - 1;
      var last := WriteField(ks[n], vs[n]);
      var s := Encode(ks, vs) + rest;
      EncodeLast(ks, vs, n, rest);
      RecordRoundTrip(ks[..n], vs[..n], last + rest);
      ReadableGrows(ks, vs, n);
      if AllReadable(ks[..n], vs[..n]) {
        DecodeLast(ks, s, n, vs[..n], last + rest);
        FieldRoundTrip(ks[n], vs[n], rest);
        SplitLast(vs, n);
      } else {
        PrefixFails(ks, n, s);
      }
    }
  }

  lemma {:induction false} PrefixFails(ks: seq<Kind>, i: nat, s: Bytes)
    requires i <= |ks| && Decode(ks[..i], s).None?
    ensures Decode(ks, s).None?
    decreases |ks|
  {
    if i == |ks| {
      assert ks[..i] == ks;
    } else {
      assert ks[..|ks| - 1][..i] == ks[..i];
      PrefixFails(ks[..|ks| - 1], i, s);
    }
  }

  /** Reading a record is reading its first fields and then the others. */
  lemma {:induction false} DecodeSplits(a: seq<Kind>, b: seq<Kind>, s: Bytes)
    ensures Decode(a + b, s) ==
            match Decode(a, s)
            case None => None
            case Some((vs, rest)) =>
              match Decode(b, rest)
              case None => None
              case Some((ws, more)) => Some((vs + ws, more))
    decreases |b|
  {
    if b == [] {
      assert a + b == a;
      if Decode(a, s).Some? {
        assert Decode(a, s).value.0 + [] == Decode(a, s).value.0;
      }
    } else {
      var n := |b| - 1;
      DecodeSplits(a, b[..n], s);
      assert (a + b)[..|a + b| - 1] == a + b[..n];
      if Decode(a, s).Some? && Decode(b, Decode(a, s).value.1).Some? {
        var (vs, rest) := Decode(a, s).value;
        var ws, init := Decode(b, rest).value.0, Decode(b[..n], rest).value.0;
        assert ws == init + [ws[n]];
        assert vs + init + [ws[n]] == vs + ws;
      }
    }
  }

  // ----- Records of a fixed size -----

  predicate Fixed(ks: seq<Kind>) {
    forall k <- ks :: !k.Text?
  }

  function FieldSize(k: Kind): nat {
    match k
    case Int(width) => width
    case Uint(width) => width
    case Raw(length) => length
    case Flag => 1
    case Text => 0
  }

  function Size(ks: seq<Kind>): nat
    decreases |ks|, ks
  {
    if ks == [] then 0 else Size(ks[..|ks| - 1]) + FieldSize(ks[|ks| - 1])
  }

  /** What a record of a fixed size says depends on the bytes it covers only. */
  lemma {:induction false} FixedPrefix(ks: seq<Kind>, a: Bytes, rest: Bytes)
    requires Fixed(ks) && |a| == Size(ks)
    ensures Decode(ks, a).Some? && Decode(ks, a).value.1 == []
    ensures Decode(ks, a + rest) == Some((Decode(ks, a).value.0, rest))
    decreases |ks|
  {
    if ks == [] {
      assert a == [] && a + rest == rest;
    } else {
      var n := |ks| - 1;
      var k := ks[n];
      assert k in ks;
      var first, field := a[..Size(ks[..n])], a[Size(ks[..n])..];
      assert a == first + field && a + rest == first + (field + rest);
      FixedPrefix(ks[..n], first, field);
      FixedPrefix(ks[..n], first, field + rest);
      FixedField(k, field, rest);
    }
  }

  lemma FixedField(k: Kind, a: Bytes, rest: Bytes)
    requires !k.Text? && |a| == FieldSize(k)
    ensures ReadField(k, a).Some? && ReadField(k, a).value.1 == []
    ensures ReadField(k, a + rest) == Some((ReadField(k, a).value.0, rest))
  {
    TakeAppended(a, rest);
    TakeAppended(a, []);
    assert a + [] == a;
    if k.Flag? {
      assert (a + rest)[1..] == rest && a[1..] == [];
    }
  }

  // ----- Reading more than is there -----

  lemma TakeExtends(s: Bytes, n: nat, more: Bytes)
    requires Take(s, n).Some?
    ensures Take(s + more, n) == Some((Take(s, n).value.0, Take(s, n).value.1 + more))
  {
    assert (s + more)[..n] == s[..n] && (s + more)[n..] == s[n..] + more;
  }

  lemma LengthExtends(s: Bytes, more: Bytes)
    requires ReadLength(s).Some?
    ensures ReadLength(s + more) == Some((ReadLength(s).value.0, ReadLength(s).value.1 + more))
  {
    assert (s + more)[1..] == s[1..] + more;
    if s[0] == 0xfd {
      TakeExtends(s[1..], 2, more);
    } else if s[0] == 0xfe {
      TakeExtends(s[1..], 4, more);
    } else if s[0] == 0xff {
      TakeExtends(s[1..], 8, more);
    }
  }

  lemma FieldExtends(k: Kind, s: Bytes, more: Bytes)
    requires ReadField(k, s).Some?
    ensures ReadField(k, s + more) == Some((ReadField(k, s).value.0, ReadField(k, s).value.1 + more))
  {
    match k
    case Int(width) => TakeExtends(s, width, more);
    case Uint(width) => TakeExtends(s, width, more);
    case Raw(length) => TakeExtends(s, length, more);
    case Flag => assert (s + more)[1..] == s[1..] + more;
    case Text =>
      LengthExtends(s, more);
      var (n, rest) := ReadLength(s).value;
      TakeExtends(rest, n, more);
  }

  /** Bytes that are appended to a record do not change what it says. */
  lemma {:induction false} RecordExtends(ks: seq<Kind>, s: Bytes, more: Bytes)
    requires Decode(ks, s).Some?
    ensures Decode(ks, s + more) == Some((Decode(ks, s).value.0, Decode(ks, s).value.1 + more))
    decreases |ks|
  {
    if ks != [] {
      var n := |ks| - 1;
      RecordExtends(ks[..n], s, more);
      FieldExtends(ks[n], Decode(ks[..n], s).value.1, more);
    }
  }

  /** What reading yields has the form of its kind. */
  predicate HasForm(k: Kind, v: Value) {
    match k
    case Int(_) => v.IntValue?
    case Uint(_) => v.IntValue?
    case Raw(length) => v.RawValue? && |v.bytes| == length
    case Flag => v.FlagValue?
    case Text => v.RawValue?
  }

  predicate HasForms(ks: seq<Kind>, vs: seq<Value>) {
    |vs| == |ks| && forall i :: 0 <= i < |ks| ==> HasForm(ks[i], vs[i])
  }

  lemma {:induction false} DecodeForms(ks: seq<Kind>, s: Bytes)
    ensures Decode(ks, s).Some? ==> HasForms(ks, Decode(ks, s).value.0)
    decreases |ks|
  {
    if ks != [] {
      DecodeForms(ks[..|ks| - 1], s);
    }
  }

  lemma {:induction false} FirstField(ks: seq<Kind>, s: Bytes)
    requires ks != [] && Decode(ks, s).Some?
    ensures ReadField(ks[0], s).Some? && Decode(ks, s).value.0[0] == ReadField(ks[0], s).value.0
    decreases |ks|
  {
    if |ks| > 1 {
      FirstField(ks[..|ks| - 1], s);
    } else {
      assert ks[..0] == [];
    }
  }

  // ----- Field by field -----

  lemma DecodeNext(ks: seq<Kind>, k: Kind, s: Bytes)
    requires Decode(ks, s).Some?
    ensures var (vs, rest) := Decode(ks, s).value;
            Decode(ks + [k], s) == match ReadField(k, rest)
                                   case None => None
                                   case Some((v, more)) => Some((vs + [v], more))
  {
    assert (ks + [k])[..|ks|] == ks;
  }

  lemma DecodeSingle(k: Kind, s: Bytes)
    ensures Decode([k], s) == match ReadField(k, s)
                              case None => None
                              case Some((v, more)) => Some(([v], more))
  {
    DecodeNext([], k, s);
    assert [] + [k] == [k];
    if ReadField(k, s).Some? {
      assert [] + [ReadField(k, s).value.0] == [ReadField(k, s).value.0];
    }
  }

  lemma SizeNext(ks: seq<Kind>, k: Kind)
    ensures Size(ks + [k]) == Size(ks) + FieldSize(k)
  {
    assert (ks + [k])[..|ks|] == ks;
  }
}

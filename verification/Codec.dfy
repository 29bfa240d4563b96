/** Big-endian magnitudes as `math/big` writes them (Int.Bytes and Int.SetBytes). */
module BigEndian {
  type Byte = b: int | 0 <= b < 256

  function Bytes(n: nat): seq<Byte> {
    if n == 0 then [] else Bytes(n / 256) + [n % 256]
  }

  function SetBytes(b: seq<Byte>): nat {
    if b == [] then 0 else SetBytes(b[..|b| - 1]) * 256 + b[|b| - 1]
  }

  /** Zero is the empty string and everything else survives the trip. */
  lemma {:induction false} BytesRoundTrip(n: nat)
    ensures SetBytes(Bytes(n)) == n
  {
    if n != 0 {
      BytesRoundTrip(n / 256);
      assert Bytes(n)[..|Bytes(n)| - 1] == Bytes(n / 256);
    }
  }

  lemma LastByte(b: seq<Byte>)
    requires b != []
    ensures SetBytes(b) / 256 == SetBytes(b[..|b| - 1]) && SetBytes(b) % 256 == b[|b| - 1]
  {
    var high: int, last: int := SetBytes(b[..|b| - 1]), b[|b| - 1];
    assert SetBytes(b) == high * 256 + last;
  }

  /** Bytes never starts with a zero. */
  lemma {:induction false} BytesHasNoLeadingZero(n: nat)
    ensures n != 0 ==> Bytes(n) != [] && Bytes(n)[0] != 0
  {
    if n >= 256 {
      BytesHasNoLeadingZero(n / 256);
    } else if n > 0 {
      assert Bytes(n) == Bytes(0) + [n] == [n];
    }
  }

  lemma {:induction false} NoLeadingZeroIsFixed(b: seq<Byte>)
    requires b == [] || b[0] != 0
    ensures Bytes(SetBytes(b)) == b
    ensures b != [] ==> SetBytes(b) != 0
  {
    if b != [] {
      var front := b[..|b| - 1];
      NoLeadingZeroIsFixed(front);
      LastByte(b);
      assert b == front + [b[|b| - 1]];
    }
  }

  function Power(k: nat): nat { if k == 0 then 1 else 256 * Power(k - 1) }

  /** The first byte weighs most. */
  lemma {:induction false} FirstByteWeighsMost(first: Byte, rest: seq<Byte>)
    ensures SetBytes([first] + rest) == first * Power(|rest|) + SetBytes(rest)
  {
    var b := [first] + rest;
    if rest == [] {
      assert b[..0] == [];
    } else {
      FirstByteWeighsMost(first, rest[..|rest| - 1]);
      assert b[..|b| - 1] == [first] + rest[..|rest| - 1];
    }
  }

  /** The written form is the only one without a leading zero. */
  lemma BytesIsTheCanonicalForm(b: seq<Byte>)
    ensures Bytes(SetBytes(b)) == b <==> (b == [] || b[0] != 0)
  {
    if b == [] || b[0] != 0 {
      NoLeadingZeroIsFixed(b);
    } else {
      BytesHasNoLeadingZero(SetBytes(b));
    }
  }
}

/** base64.URLEncoding: the alphabet of section 5 of RFC 4648, padded as in section 4. */
module Base64Url {
  import opened Base
  import opened BigEndian

  type Sextet = v: int | 0 <= v < 64

  function Symbol(v: Sextet): char {
    if v < 26 then 'A' + v as char
    else if v < 52 then 'a' + (v - 26) as char
    else if v < 62 then '0' + (v - 52) as char
    else if v == 62 then '-' else '_'
  }

  function Value(c: char): Option<Sextet> {
    if 'A' <= c <= 'Z' then Some(c as int - 'A' as int)
    else if 'a' <= c <= 'z' then Some(c as int - 'a' as int + 26)
    else if '0' <= c <= '9' then Some(c as int - '0' as int + 52)
    else if c == '-' then Some(62)
    else if c == '_' then Some(63)
    else None
  }

  /** One group of one to three bytes as four symbols. */
  function EncodeQuantum(b: seq<Byte>): (q: string)
    requires 1 <= |b| <= 3
    ensures |q| == 4
  {
    if |b| == 1 then
      [Symbol(b[0] / 4), Symbol(b[0] % 4 * 16), '=', '=']
    else if |b| == 2 then
      [Symbol(b[0] / 4), Symbol(b[0] % 4 * 16 + b[1] / 16), Symbol(b[1] % 16 * 4), '=']
    else
      [Symbol(b[0] / 4), Symbol(b[0] % 4 * 16 + b[1] / 16),
       Symbol(b[1] % 16 * 4 + b[2] / 64), Symbol(b[2] % 64)]
  }

  function EncodeToString(b: seq<Byte>): string {
    if b == [] then []
    else if |b| <= 3 then EncodeQuantum(b)
    else EncodeQuantum(b[..3]) + EncodeToString(b[3..])
  }

  predicate IsNewline(c: char) { c == '\n' || c == '\r' }

  /** The decoder ignores line breaks wherever they stand. */
  function SkipNewlines(s: string): string {
    if s == [] then []
    else if IsNewline(s[0]) then SkipNewlines(s[1..])
    else [s[0]] + SkipNewlines(s[1..])
  }

  function DecodeString(s: string): Option<seq<Byte>> {
    DecodeQuanta(SkipNewlines(s))
  }

  /** Four symbols; the spare bits before padding are not checked. */
  function DecodeQuantum(q: string): Option<seq<Byte>>
    requires |q| == 4
  {
    var v0, v1, v2, v3 := Value(q[0]), Value(q[1]), Value(q[2]), Value(q[3]);
    if v0.None? || v1.None? then None
    else if q[2] == '=' then
      if q[3] == '=' then Some([v0.value * 4 + v1.value / 16]) else None
    else if v2.None? then None
    else if q[3] == '=' then
      Some([v0.value * 4 + v1.value / 16, v1.value % 16 * 16 + v2.value / 4])
    else if v3.None? then None
    else Some([v0.value * 4 + v1.value / 16, v1.value % 16 * 16 + v2.value / 4, v2.value % 4 * 64 + v3.value])
  }

  /** Nothing may follow a padded group, and a short last group is an error. */
  function DecodeQuanta(s: string): Option<seq<Byte>> {
    if s == [] then Some([])
    else if |s| < 4 then None
    else
      var first := DecodeQuantum(s[..4]);
      if first.None? then None
      else if |s| == 4 then first
      else if |first.value| < 3 then None
      else
        var rest := DecodeQuanta(s[4..]);
        if rest.None? then None else Some(first.value + rest.value)
  }

  predicate IsUrlSafe(c: char) {
    'A' <= c <= 'Z' || 'a' <= c <= 'z' || '0' <= c <= '9' || c == '-' || c == '_'
  }

  /** The URL-safe alphabet in order: capitals, small letters, digits, hyphen, underscore; no other character counts. */
  lemma AlphabetIsUrlSafe(v: Sextet, c: char)
    ensures v < 26 ==> Symbol(v) as int == 0x41 + v
    ensures 26 <= v < 52 ==> Symbol(v) as int == 0x61 + v - 26
    ensures 52 <= v < 62 ==> Symbol(v) as int == 0x30 + v - 52
    ensures v == 62 ==> Symbol(v) == '-'
    ensures v == 63 ==> Symbol(v) == '_'
    ensures Value(c).Some? <==> IsUrlSafe(c)
    ensures Value(c).Some? ==> Symbol(Value(c).value) == c
  {
  }

  /** Three bytes: four symbols that spell the same number. */
  lemma ThreeBytesSpell(b0: Byte, b1: Byte, b2: Byte) returns (v0: Sextet, v1: Sextet, v2: Sextet, v3: Sextet)
    ensures EncodeQuantum([b0, b1, b2]) == [Symbol(v0), Symbol(v1), Symbol(v2), Symbol(v3)]
    ensures (v0 as int * 64 + v1) * 4096 + v2 * 64 + v3 == (b0 as int * 256 + b1) * 256 + b2
  {
    v0, v1, v2, v3 := b0 / 4, b0 % 4 * 16 + b1 / 16, b1 % 16 * 4 + b2 / 64, b2 % 64;
  }

  /** Two bytes: three symbols that spell their number with two zero bits behind, and one padding character. */
  lemma TwoBytesSpell(b0: Byte, b1: Byte) returns (v0: Sextet, v1: Sextet, v2: Sextet)
    ensures EncodeQuantum([b0, b1]) == [Symbol(v0), Symbol(v1), Symbol(v2), '=']
    ensures (v0 as int * 64 + v1) * 64 + v2 == (b0 as int * 256 + b1) * 4
  {
    v0, v1, v2 := b0 / 4, b0 % 4 * 16 + b1 / 16, b1 % 16 * 4;
  }

  /** One byte: two symbols with four zero bits behind, and two padding characters. */
  lemma OneByteSpells(b0: Byte) returns (v0: Sextet, v1: Sextet)
    ensures EncodeQuantum([b0]) == [Symbol(v0), Symbol(v1), '=', '=']
    ensures v0 as int * 64 + v1 == b0 as int * 16
  {
    v0, v1 := b0 / 4, b0 % 4 * 16;
  }

  lemma ValueOfSymbol(v: Sextet)
    ensures Value(Symbol(v)) == Some(v)
    ensures Symbol(v) != '=' && !IsNewline(Symbol(v))
  {
  }

  lemma {:induction false} EncodedHasNoNewline(b: seq<Byte>)
    ensures forall i :: 0 <= i < |EncodeToString(b)| ==> !IsNewline(EncodeToString(b)[i])
  {
    if |b| > 3 { EncodedHasNoNewline(b[3..]); }
  }

  lemma {:induction false} SkipNewlinesKeeps(s: string)
    requires forall i :: 0 <= i < |s| ==> !IsNewline(s[i])
    ensures SkipNewlines(s) == s
  {
    if s != [] { SkipNewlinesKeeps(s[1..]); }
  }

  lemma OneByte(b0: Byte)
    ensures DecodeQuantum(EncodeQuantum([b0])) == Some([b0])
  {
    ValueOfSymbol(b0 / 4);
    ValueOfSymbol(b0 % 4 * 16);
  }

  lemma DecodePadded(v0: Sextet, v1: Sextet, v2: Sextet)
    ensures DecodeQuantum([Symbol(v0), Symbol(v1), Symbol(v2), '='])
         == Some([v0 * 4 + v1 / 16, v1 % 16 * 16 + v2 / 4])
  {
    ValueOfSymbol(v0);
    ValueOfSymbol(v1);
    ValueOfSymbol(v2);
  }

  lemma TwoBytes(b0: Byte, b1: Byte)
    ensures DecodeQuantum(EncodeQuantum([b0, b1])) == Some([b0, b1])
  {
    var v1: Sextet, v2: Sextet := b0 % 4 * 16 + b1 / 16, b1 % 16 * 4;
    assert v1 / 16 == b0 % 4 && v1 % 16 == b1 / 16 && v2 / 4 == b1 % 16;
    DecodePadded(b0 / 4, v1, v2);
  }

  lemma DecodeSymbols(v0: Sextet, v1: Sextet, v2: Sextet, v3: Sextet)
    ensures DecodeQuantum([Symbol(v0), Symbol(v1), Symbol(v2), Symbol(v3)])
         == Some([v0 * 4 + v1 / 16, v1 % 16 * 16 + v2 / 4, v2 % 4 * 64 + v3])
  {
    ValueOfSymbol(v0);
    ValueOfSymbol(v1);
    ValueOfSymbol(v2);
    ValueOfSymbol(v3);
  }

  lemma ThreeBytes(b0: Byte, b1: Byte, b2: Byte)
    ensures DecodeQuantum(EncodeQuantum([b0, b1, b2])) == Some([b0, b1, b2])
  {
    var v1: Sextet, v2: Sextet := b0 % 4 * 16 + b1 / 16, b1 % 16 * 4 + b2 / 64;
    assert v1 / 16 == b0 % 4 && v1 % 16 == b1 / 16;
    assert v2 / 4 == b1 % 16 && v2 % 4 == b2 / 64;
    DecodeSymbols(b0 / 4, v1, v2, b2 % 64);
  }

  lemma QuantumRoundTrip(b: seq<Byte>)
    requires 1 <= |b| <= 3
    ensures DecodeQuantum(EncodeQuantum(b)) == Some(b)
  {
    if |b| == 1 {
      OneByte(b[0]);
      assert b == [b[0]];
    } else if |b| == 2 {
      TwoBytes(b[0], b[1]);
      assert b == [b[0], b[1]];
    } else {
      ThreeBytes(b[0], b[1], b[2]);
      assert b == [b[0], b[1], b[2]];
    }
  }

  lemma {:induction false} QuantaRoundTrip(b: seq<Byte>)
    ensures DecodeQuanta(EncodeToString(b)) == Some(b)
  {
    var s := EncodeToString(b);
    if 1 <= |b| <= 3 {
      QuantumRoundTrip(b);
      assert s[..4] == s;
    } else if |b| > 3 {
      QuantumRoundTrip(b[..3]);
      QuantaRoundTrip(b[3..]);
      assert s[..4] == EncodeQuantum(b[..3]) && s[4..] == EncodeToString(b[3..]);
      assert b == b[..3] + b[3..];
    }
  }

  /** Whole groups of three bytes are encoded one after the other. */
  lemma {:induction false} GroupsJoin(a: seq<Byte>, b: seq<Byte>)
    requires |a| % 3 == 0
    ensures EncodeToString(a + b) == EncodeToString(a) + EncodeToString(b)
  {
    if a == [] {
      assert a + b == b;
    } else {
      var all := a + b;
      assert all[..3] == a[..3] && all[3..] == a[3..] + b;
      GroupsJoin(a[3..], b);
      if |a| == 3 {
        assert a[..3] == a;
        if b == [] { assert all == a; }
      }
    }
  }

  /** Whole groups of symbols, the last of which may end in one or two padding characters. */
  predicate IsWellFormed(s: string) {
    && |s| % 4 == 0
    && (forall i :: 0 <= i < |s| - 2 ==> IsUrlSafe(s[i]))
    && (s != [] ==>
          || (IsUrlSafe(s[|s| - 2]) && (IsUrlSafe(s[|s| - 1]) || s[|s| - 1] == '='))
          || (s[|s| - 2] == '=' && s[|s| - 1] == '='))
  }

  lemma GroupIsAccepted(q: string)
    requires |q| == 4
    ensures DecodeQuantum(q).Some? <==> IsWellFormed(q)
    ensures DecodeQuantum(q).Some? ==>
      |DecodeQuantum(q).value| == (if q[2] == '=' then 1 else if q[3] == '=' then 2 else 3)
  {
    AlphabetIsUrlSafe(0, q[0]);
    AlphabetIsUrlSafe(0, q[1]);
    AlphabetIsUrlSafe(0, q[2]);
    AlphabetIsUrlSafe(0, q[3]);
  }

  /** After a first group without padding, the rest decides. */
  lemma RestDecides(s: string)
    requires |s| > 4
    ensures IsWellFormed(s) <==> IsWellFormed(s[..4]) && s[2] != '=' && s[3] != '=' && IsWellFormed(s[4..])
  {
    var rest := s[4..];
    forall i | 0 <= i < |rest|
      ensures s[i + 4] == rest[i]
    {
    }
    if IsWellFormed(s) { assert IsUrlSafe(s[0]) && IsUrlSafe(s[1]); }
    if |rest| >= 2 { assert rest[|rest| - 2] == s[|s| - 2] && rest[|rest| - 1] == s[|s| - 1]; }
    if IsWellFormed(rest) && IsWellFormed(s[..4]) && s[2] != '=' && s[3] != '=' {
      forall i | 0 <= i < |s| - 2
        ensures IsUrlSafe(s[i])
      {
        if i >= 4 { assert s[i] == rest[i - 4]; } else { assert s[i] == s[..4][i]; }
      }
    }
  }

  /** Line breaks aside, exactly the well-formed strings decode. */
  lemma {:induction false} QuantaAreAccepted(s: string)
    ensures DecodeQuanta(s).Some? <==> IsWellFormed(s)
  {
    if |s| >= 4 {
      GroupIsAccepted(s[..4]);
      if |s| == 4 {
        assert s[..4] == s;
      } else {
        QuantaAreAccepted(s[4..]);
        RestDecides(s);
      }
    }
  }

  lemma DecodesExactly(s: string)
    ensures DecodeString(s).Some? <==> IsWellFormed(SkipNewlines(s))
  {
    QuantaAreAccepted(SkipNewlines(s));
  }

  /** Line breaks are skipped wherever they stand, and nothing else is. */
  lemma {:induction false} NewlinesAreSkipped(a: string, c: char, b: string)
    ensures SkipNewlines(a + [c] + b)
      == SkipNewlines(a) + (if c == '\n' || c == '\r' then [] else [c]) + SkipNewlines(b)
  {
    var s := a + [c] + b;
    if a == [] {
      assert s[0] == c && s[1..] == b;
    } else {
      assert s[0] == a[0] && s[1..] == a[1..] + [c] + b;
      NewlinesAreSkipped(a[1..], c, b);
    }
  }

  /** Decoding undoes encoding on every byte string. */
  lemma Base64RoundTrip(b: seq<Byte>)
    ensures DecodeString(EncodeToString(b)) == Some(b)
  {
    EncodedHasNoNewline(b);
    SkipNewlinesKeeps(EncodeToString(b));
    QuantaRoundTrip(b);
  }
}

/** Page cursors: a row id in `big.Int`'s gob form, as text. */
module Cursor {
  import opened Base
  import opened BigEndian
  import opened Base64Url

  const GOB_VERSION: int := 1

  /** big.Int.GobEncode: a byte holding version and sign, then the magnitude. */
  function GobEncode(n: int): seq<Byte> {
    if n < 0 then [GOB_VERSION * 2 + 1] + Bytes(-n) else [GOB_VERSION * 2] + Bytes(n)
  }

  /** big.Int.GobDecode: an empty buffer is zero, any other version is an error. */
  function GobDecode(b: seq<Byte>): Option<int> {
    if b == [] then Some(0)
    else if b[0] / 2 != GOB_VERSION then None
    else if b[0] % 2 == 1 then var m: int := SetBytes(b[1..]); Some(-m)
    else Some(SetBytes(b[1..]))
  }

  function EncodeCursor(id: int): string {
    EncodeToString(GobEncode(id))
  }

  function DecodeCursor(cursor: string): Option<int> {
    var bytes := DecodeString(cursor);
    if bytes.None? then None else GobDecode(bytes.value)
  }

  /** The sign byte and the magnitude undo themselves on every integer. */
  lemma GobRoundTrip(n: int)
    ensures GobDecode(GobEncode(n)) == Some(n)
  {
    var m: nat := if n < 0 then -n else n;
    BytesRoundTrip(m);
    assert GobEncode(n)[1..] == Bytes(m);
  }

  /** A cursor is accepted exactly if its text decodes to nothing or to a byte of version 1 and a magnitude. */
  lemma CursorIsAcceptedExactly(cursor: string)
    ensures var bytes := DecodeString(cursor);
      && (DecodeCursor(cursor).Some? <==>
            bytes.Some? && (bytes.value == [] || bytes.value[0] == 2 || bytes.value[0] == 3))
      && (DecodeCursor(cursor).Some? ==>
            var b := bytes.value;
            var m: int := if b == [] then 0 else SetBytes(b[1..]);
            DecodeCursor(cursor).value == if b != [] && b[0] == 3 then -m else m)
  {
  }

  /** The cursors of 0, 1 and -1 as text. */
  lemma CursorsAsText()
    ensures EncodeCursor(0) == "Ag==" && EncodeCursor(1) == "AgE=" && EncodeCursor(-1) == "AwE="
  {
    assert Bytes(1) == Bytes(0) + [1] == [1];
  }

  /** A cursor handed out for a row leads back to that row's id, for every int64 id. */
  lemma CursorRoundTrip(id: int)
    ensures DecodeCursor(EncodeCursor(id)) == Some(id)
    ensures -MAX_INT64 - 1 <= id <= MAX_INT64 ==> Int64(DecodeCursor(EncodeCursor(id)).value) == id
  {
    Base64RoundTrip(GobEncode(id));
    GobRoundTrip(id);
  }

  /** Two rows never share a cursor. */
  lemma CursorsAreUnique(a: int, b: int)
    requires EncodeCursor(a) == EncodeCursor(b)
    ensures a == b
  {
    CursorRoundTrip(a);
    CursorRoundTrip(b);
  }
}

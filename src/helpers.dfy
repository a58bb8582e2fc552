/** Random identifiers, guest names and the `database/sql` null-value conversions
    (pkg/utils/helpers.go). */
module Helpers {
  import opened Text

  const DefaultCharset := "ABCDEFGHIJKLMOPQRSTUVWXYZabcdefghijklmopqrstuvwxyz"
  const AlphanumericCharset := "0123456789abcdefghijklmnopqrstuvwxyzABCDEFGHIJKLMNOPQRSTUVWXYZ"
  const LetterCharset := "abcdefghijklmnopqrstuvwxyzABCDEFGHIJKLMNOPQRSTUVWXYZ"

  predicate IsAsciiLetter(c: char)
  {
    'a' <= c <= 'z' || 'A' <= c <= 'Z'
  }

  /** The process-wide `math/rand` source: `stream(k)` is the raw value behind the k-th draw. */
  class Rand {
    const stream: nat -> nat
    var used: nat

    constructor (stream: nat -> nat)
      ensures this.stream == stream && used == 0
    {
      this.stream := stream;
      used := 0;
    }

    /** `rand.Intn(n)`, which panics unless `n > 0`. */
    method Intn(n: nat) returns (r: nat)
      requires n > 0
      modifies this`used
      ensures r == stream(old(used)) % n && r < n
      ensures used == old(used) + 1
    {
      r := stream(used) % n;
      used := used + 1;
    }
  }

  /** The charset a generator uses: the given one, or `DefaultCharset` when it is empty. */
  function EffectiveCharset(charset: string): (cs: string)
    ensures cs != []
    ensures charset != "" ==> cs == charset
  {
    if charset == "" then DefaultCharset else charset
  }

  /** `length` characters, the k-th being the charset character at the k-th draw modulo the
      charset's size. Characters are taken whole; the source indexes bytes, which is the same
      for the ASCII charsets used here. */
  method GenerateRandomString(length: nat, charset: string, rng: Rand) returns (s: string)
    modifies rng`used
    ensures |s| == length
    ensures forall i :: 0 <= i < length ==>
      s[i] == EffectiveCharset(charset)[rng.stream(old(rng.used) + i) % |EffectiveCharset(charset)|]
    ensures forall i :: 0 <= i < length ==> s[i] in EffectiveCharset(charset)
    ensures rng.used == old(rng.used) + length
  {
    var cs := charset;
    if cs == "" {
      cs := DefaultCharset;
    }
    var b := new char[length];
    var i := 0;
    while i < length
      invariant 0 <= i <= length
      invariant rng.used == old(rng.used) + i
      invariant forall k :: 0 <= k < i ==> b[k] == cs[rng.stream(old(rng.used) + k) % |cs|]
      modifies b, rng`used
    {
      var d := rng.Intn(|cs|);
      b[i] := cs[d];
      i := i + 1;
    }
    s := b[..];
  }

  /** Six ASCII letters. */
  method GenerateRoomName(rng: Rand) returns (name: string)
    modifies rng`used
    ensures |name| == 6
    ensures forall i :: 0 <= i < |name| ==> IsAsciiLetter(name[i])
    ensures rng.used == old(rng.used) + 6
  {
    name := GenerateRandomString(6, LetterCharset, rng);
    forall i | 0 <= i < |name|
      ensures IsAsciiLetter(name[i])
    {
      LetterCharsetIsLetters(name[i]);
    }
  }

  lemma LetterCharsetHalves()
    ensures LetterCharset == "abcdefghijklm" + "nopqrstuvwxyz" + "ABCDEFGHIJKLM" + "NOPQRSTUVWXYZ"
  {
  }

  lemma LetterCharsetIsLetters(c: char)
    requires c in LetterCharset
    ensures IsAsciiLetter(c)
  {
    LetterCharsetHalves();
    assert forall i :: 0 <= i < 13 ==> IsAsciiLetter("abcdefghijklm"[i]);
    assert forall i :: 0 <= i < 13 ==> IsAsciiLetter("nopqrstuvwxyz"[i]);
    assert forall i :: 0 <= i < 13 ==> IsAsciiLetter("ABCDEFGHIJKLM"[i]);
    assert forall i :: 0 <= i < 13 ==> IsAsciiLetter("NOPQRSTUVWXYZ"[i]);
  }

  /** Six characters of `charset`, or of the default charset, which has no `N` and no `n`. */
  method GenerateLinkID(charset: string, rng: Rand) returns (id: string)
    modifies rng`used
    ensures |id| == 6
    ensures forall i :: 0 <= i < 6 ==> id[i] in EffectiveCharset(charset)
    ensures charset == "" ==> 'N' !in id && 'n' !in id
    ensures rng.used == old(rng.used) + 6
  {
    var cs := charset;
    if cs == "" {
      cs := DefaultCharset;
    }
    id := GenerateRandomString(6, cs, rng);
    if charset == "" {
      DefaultCharsetLacksN();
    }
  }

  lemma DefaultCharsetRuns()
    ensures DefaultCharset == "ABCDEFGHIJKLM" + "OPQRSTUVWXYZ" + "abcdefghijklm" + "opqrstuvwxyz"
  {
  }

  lemma DefaultCharsetLacksN()
    ensures 'N' !in DefaultCharset && 'n' !in DefaultCharset
  {
    DefaultCharsetRuns();
    assert 'N' !in "ABCDEFGHIJKLM" && 'n' !in "ABCDEFGHIJKLM";
    assert 'N' !in "OPQRSTUVWXYZ" && 'n' !in "OPQRSTUVWXYZ";
    assert 'N' !in "abcdefghijklm" && 'n' !in "abcdefghijklm";
    assert 'N' !in "opqrstuvwxyz" && 'n' !in "opqrstuvwxyz";
  }

  /** Ten characters from the alphanumerics and `$`. */
  method GenerateIdentity(rng: Rand) returns (identity: string)
    modifies rng`used
    ensures |identity| == 10
    ensures forall i :: 0 <= i < 10 ==> identity[i] in AlphanumericCharset + "$"
    ensures rng.used == old(rng.used) + 10
  {
    identity := GenerateRandomString(10, AlphanumericCharset + "$", rng);
  }

  method GenerateViewerIdentity(rng: Rand) returns (identity: string)
    modifies rng`used
    ensures |identity| == 17
    ensures identity[..7] == "viewer_"
    ensures forall i :: 7 <= i < 17 ==> identity[i] in AlphanumericCharset + "$"
  {
    var suffix := GenerateIdentity(rng);
    identity := "viewer_" + suffix;
  }

  /** `Guest-` and a number below 100 in decimal. */
  method GenerateGuestName(rng: Rand) returns (name: string)
    modifies rng`used
    ensures exists n :: 0 <= n < 100 && name == "Guest-" + Decimal(n)
    ensures name == "Guest-" + Decimal(rng.stream(old(rng.used)) % 100)
    ensures 7 <= |name| <= 8
  {
    var n := rng.Intn(100);
    name := "Guest-" + Decimal(n);
    DecimalWidth(n);
  }

  /** `User-` and a number below 100 in decimal. */
  method GenerateUserName(rng: Rand) returns (name: string)
    modifies rng`used
    ensures name == "User-" + Decimal(rng.stream(old(rng.used)) % 100)
    ensures 6 <= |name| <= 7
  {
    var n := rng.Intn(100);
    name := "User-" + Decimal(n);
    DecimalWidth(n);
  }

  /** A number below 100 has one or two decimal digits. */
  lemma DecimalWidth(n: nat)
    requires n < 100
    ensures 1 <= |Decimal(n)| <= 2
  {
    if n >= 10 {
      assert Decimal(n) == Decimal(n / 10) + [DigitChar(n % 10)];
    }
  }

  // sql.Null* values.

  datatype NullString = NullString(str: string, valid: bool)
  datatype NullInt32 = NullInt32(int32: int, valid: bool)
  datatype NullInt64 = NullInt64(int64: int, valid: bool)
  datatype NullBool = NullBool(boolean: bool, valid: bool)

  function NullStringValue(ns: NullString): (s: string)
    ensures !ns.valid ==> s == ""
    ensures ns.valid ==> s == ns.str
  {
    if ns.valid then ns.str else ""
  }

  function NullIntValue(ni: NullInt32): (i: int)
    ensures !ni.valid ==> i == 0
    ensures ni.valid ==> i == ni.int32
  {
    if ni.valid then ni.int32 else 0
  }

  function NullInt64Value(ni: NullInt64): (i: int)
    ensures !ni.valid ==> i == 0
    ensures ni.valid ==> i == ni.int64
  {
    if ni.valid then ni.int64 else 0
  }

  function NullBoolValue(nb: NullBool): (b: bool)
    ensures b <==> nb.valid && nb.boolean
  {
    if nb.valid then nb.boolean else false
  }

  /** The empty string is stored as NULL. */
  function ToNullString(s: string): (ns: NullString)
    ensures ns.valid <==> s != ""
    ensures NullStringValue(ns) == s
  {
    NullString(s, s != "")
  }

  const Int32Min := -0x8000_0000
  const Int32Max := 0x7FFF_FFFF

  predicate InInt32(i: int)
  {
    Int32Min <= i <= Int32Max
  }

  /** Go's `int32(i)`: keeps the low 32 bits, read as two's complement. */
  function Int32Of(i: int): (r: int)
    ensures InInt32(r)
    ensures (r - i) % 0x1_0000_0000 == 0
    ensures InInt32(i) ==> r == i
  {
    (i - Int32Min) % 0x1_0000_0000 + Int32Min
  }

  function ToNullInt32(i: int): (ni: NullInt32)
    ensures ni.valid && ni.int32 == Int32Of(i)
  {
    NullInt32(Int32Of(i), true)
  }

  /** An int survives the round trip through a nullable int32 exactly when it fits in 32 bits. */
  lemma NullInt32RoundTrip(i: int)
    ensures NullIntValue(ToNullInt32(i)) == i <==> InInt32(i)
  {
  }

  function ToNullBool(b: bool): (nb: NullBool)
    ensures nb.valid && NullBoolValue(nb) == b
  {
    NullBool(b, true)
  }
}

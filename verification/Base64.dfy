/** Base64 acceptance and decoding: the capture handler's canonical length check
    (pi-extension/src/actions/capture_upload_handler.ts), the pairing decoder
    (pi-extension/src/extension/owner_multiplexer.ts) and the any-variant decoder
    (pi-extension/src/mesh/encoding.ts), proved against the RFC 4648 encoder. */
module Base64 {
  import opened Prelude

  newtype Byte = b: int | 0 <= b < 256
  newtype Sextet = v: int | 0 <= v < 64

  // ----- The standard (RFC 4648, section 4) ---------------------------------

  const EQUALS: Unit := 61
  const PLUS: Unit := 43
  const SLASH: Unit := 47
  const DASH: Unit := 45
  const UNDERSCORE: Unit := 95

  function AlphabetChar(v: Sextet): Unit {
    if v < 26 then 65 + v as Unit
    else if v < 52 then 71 + v as Unit
    else if v < 62 then v as Unit - 4
    else if v == 62 then PLUS
    else SLASH
  }

  function First(a: Byte): Sextet { (a / 4) as Sextet }
  function Second(a: Byte, b: Byte): Sextet { (a % 4 * 16 + b / 16) as Sextet }
  function Third(b: Byte, c: Byte): Sextet { (b % 16 * 4 + c / 64) as Sextet }
  function Fourth(c: Byte): Sextet { (c % 64) as Sextet }

  /** The four characters for the first one to three bytes. */
  function EncodeHead(bytes: seq<Byte>): (s: Text)
    requires bytes != []
    ensures |s| == 4
  {
    var a := bytes[0];
    if |bytes| == 1 then [AlphabetChar(First(a)), AlphabetChar(Second(a, 0)), EQUALS, EQUALS]
    else
      var b := bytes[1];
      if |bytes| == 2 then [AlphabetChar(First(a)), AlphabetChar(Second(a, b)), AlphabetChar(Third(b, 0)), EQUALS]
      else
        [AlphabetChar(First(a)), AlphabetChar(Second(a, b)), AlphabetChar(Third(b, bytes[2])), AlphabetChar(Fourth(bytes[2]))]
  }

  /** The standard padded encoding. */
  function Encode(bytes: seq<Byte>): Text {
    if bytes == [] then []
    else if |bytes| <= 3 then EncodeHead(bytes)
    else EncodeHead(bytes[..3]) + Encode(bytes[3..])
  }

  /** Table 1 of RFC 4648. */
  function CharAt(v: nat): int
    requires v < 64
  {
    if v < 26 then 'A' as int + v
    else if v < 52 then 'a' as int + (v - 26)
    else if v < 62 then '0' as int + (v - 52)
    else if v == 62 then '+' as int
    else '/' as int
  }

  lemma AlphabetIsTable(v: Sextet)
    ensures AlphabetChar(v) as int == CharAt(v as nat)
  {
  }

  /** The text with these characters. */
  predicate Reads(t: Text, chars: seq<int>) {
    |t| == |chars| && forall i | 0 <= i < |t| :: t[i] as int == chars[i]
  }

  lemma HeadsOf(a: Byte, b: Byte, c: Byte)
    ensures Encode([a, b, c]) == [AlphabetChar(First(a)), AlphabetChar(Second(a, b)), AlphabetChar(Third(b, c)), AlphabetChar(Fourth(c))]
    ensures Encode([a, b]) == [AlphabetChar(First(a)), AlphabetChar(Second(a, b)), AlphabetChar(Third(b, 0)), EQUALS]
    ensures Encode([a]) == [AlphabetChar(First(a)), AlphabetChar(Second(a, 0)), EQUALS, EQUALS]
  {
    hide AlphabetChar, First, Second, Third, Fourth;
  }

  lemma ValuesOf(a: Byte, b: Byte, c: Byte)
    ensures var n := a as nat * 65536 + b as nat * 256 + c as nat;
            First(a) as nat == n / 262144 && Second(a, b) as nat == n / 4096 % 64
            && Third(b, c) as nat == n / 64 % 64 && Fourth(c) as nat == n % 64
  {
    SextetsOf(a as nat, b as nat, c as nat);
  }

  /** The encoding of a group is its bits in big-endian order, six by six. */
  lemma ThreeAreBits(a: Byte, b: Byte, c: Byte)
    ensures var n := a as nat * 65536 + b as nat * 256 + c as nat;
            Reads(Encode([a, b, c]), [CharAt(n / 262144), CharAt(n / 4096 % 64), CharAt(n / 64 % 64), CharAt(n % 64)])
  {
    hide AlphabetChar, CharAt, Encode, First, Second, Third, Fourth;
    HeadsOf(a, b, c);
    ValuesOf(a, b, c);
    AlphabetIsTable(First(a));
    AlphabetIsTable(Second(a, b));
    AlphabetIsTable(Third(b, c));
    AlphabetIsTable(Fourth(c));
  }

  /** A shorter last group is filled up with zero bits, and padded. */
  lemma TwoAreBits(a: Byte, b: Byte)
    ensures var n := a as nat * 65536 + b as nat * 256;
            Reads(Encode([a, b]), [CharAt(n / 262144), CharAt(n / 4096 % 64), CharAt(n / 64 % 64), '=' as int])
  {
    hide AlphabetChar, CharAt, Encode, First, Second, Third, Fourth;
    HeadsOf(a, b, 0);
    ValuesOf(a, b, 0);
    AlphabetIsTable(First(a));
    AlphabetIsTable(Second(a, b));
    AlphabetIsTable(Third(b, 0));
  }

  lemma OneIsBits(a: Byte)
    ensures var n := a as nat * 65536;
            Reads(Encode([a]), [CharAt(n / 262144), CharAt(n / 4096 % 64), '=' as int, '=' as int])
  {
    hide AlphabetChar, CharAt, Encode, First, Second, Third, Fourth;
    HeadsOf(a, 0, 0);
    ValuesOf(a, 0, 0);
    AlphabetIsTable(First(a));
    AlphabetIsTable(Second(a, 0));
  }

  lemma SextetsOf(a: nat, b: nat, c: nat)
    requires a < 256 && b < 256 && c < 256
    ensures var n := a * 65536 + b * 256 + c;
            n / 262144 == a / 4 && n / 4096 % 64 == a % 4 * 16 + b / 16 && n / 64 % 64 == b % 16 * 4 + c / 64 && n % 64 == c % 64
  {
    BaseDigits(a / 4, a % 4 * 16 + b / 16, b % 16 * 4 + c / 64, c % 64);
    assert a == a / 4 * 4 + a % 4 && b == b / 16 * 16 + b % 16 && c == c / 64 * 64 + c % 64;
  }

  /** The digits of a number to base 64. */
  lemma BaseDigits(x: nat, y: nat, z: nat, w: nat)
    requires x < 64 && y < 64 && z < 64 && w < 64
    ensures var n := x * 262144 + y * 4096 + z * 64 + w;
            n / 262144 == x && n / 4096 % 64 == y && n / 64 % 64 == z && n % 64 == w
  {
    var n := x * 262144 + y * 4096 + z * 64 + w;
    LowDigit(x * 4096 + y * 64 + z, w);
    LowDigit(x * 64 + y, z);
    LowDigit(x, y);
    assert n / 64 == x * 4096 + y * 64 + z;
    assert n / 4096 == x * 64 + y;
  }

  lemma LowDigit(q: nat, r: nat)
    requires r < 64
    ensures (q * 64 + r) / 64 == q && (q * 64 + r) % 64 == r
  {
  }

  /** A text is encoded group by group. */
  lemma EncodesByGroups(g: seq<Byte>, rest: seq<Byte>)
    requires |g| == 3
    ensures Encode(g + rest) == Encode(g) + Encode(rest)
  {
    assert (g + rest)[..3] == g && (g + rest)[3..] == rest;
    assert rest == [] ==> g + rest == g && Encode(g) + [] == Encode(g);
  }

  // ----- The source's functions ---------------------------------------------

  /** `base64Value`: -1 outside the standard alphabet. */
  function Base64Value(c: Unit): int {
    var code := c as int;
    if 65 <= code <= 90 then code - 65
    else if 97 <= code <= 122 then code - 71
    else if 48 <= code <= 57 then code + 4
    else if c == PLUS then 62
    else if c == SLASH then 63
    else -1
  }

  /** The character class `[A-Za-z0-9+/]`. */
  predicate InAlphabet(c: Unit) {
    65 <= c <= 90 || 97 <= c <= 122 || 48 <= c <= 57 || c == PLUS || c == SLASH
  }

  /** `BASE64_RE`: groups of four, then at most one padded group. */
  predicate MatchesPattern(p: Text) {
    p == []
    || (|p| >= 4 && InAlphabet(p[0]) && InAlphabet(p[1])
        && ((InAlphabet(p[2]) && InAlphabet(p[3]) && MatchesPattern(p[4..]))
            || (|p| == 4 && p[3] == EQUALS && (InAlphabet(p[2]) || p[2] == EQUALS))))
  }

  function Padding(p: Text): (n: nat)
    requires |p| >= 2
  {
    if p[|p| - 1] != EQUALS then 0 else if p[|p| - 2] == EQUALS then 2 else 1
  }

  /** `canonicalBase64DecodedLength`. */
  function CanonicalDecodedLength(p: Text): Option<nat> {
    if !MatchesPattern(p) || p == [] then None
    else
      var padding := Padding(p);
      if |p| < padding + 1 then None
      else
        var finalValue := Base64Value(p[|p| - padding - 1]);
        if finalValue < 0 || (padding == 2 && finalValue % 16 != 0) || (padding == 1 && finalValue % 4 != 0)
        then None
        else if |p| / 4 * 3 < padding then None
        else Some(|p| / 4 * 3 - padding)
  }

  /** The six-bit value Node's decoder gives a character; it reads both alphabets and skips the rest. */
  function CharSextets(c: Unit): seq<Sextet> {
    if c == DASH then [62]
    else if c == UNDERSCORE then [63]
    else if Base64Value(c) >= 0 then [Base64Value(c) as Sextet]
    else []
  }

  function Sextets(s: Text): seq<Sextet> {
    if s == [] then [] else CharSextets(s[0]) + Sextets(s[1..])
  }

  function Assemble(v: seq<Sextet>): seq<Byte> {
    if |v| < 2 then []
    else
      var a := (v[0] as int * 4 + v[1] as int / 16) as Byte;
      if |v| == 2 then [a]
      else
        var b := (v[1] as int % 16 * 16 + v[2] as int / 4) as Byte;
        if |v| == 3 then [a, b]
        else [a, b, (v[2] as int % 4 * 64 + v[3] as int) as Byte] + Assemble(v[4..])
  }

  /** `Buffer.from(s, "base64")`. */
  function NodeDecode(s: Text): seq<Byte> { Assemble(Sextets(s)) }

  function ToStandard(c: Unit): Unit { if c == DASH then PLUS else if c == UNDERSCORE then SLASH else c }

  function Standardize(s: Text): (r: Text)
    ensures |r| == |s| && forall i | 0 <= i < |s| :: r[i] == ToStandard(s[i])
  {
    if s == [] then [] else [ToStandard(s[0])] + Standardize(s[1..])
  }

  function Pads(n: nat): (r: Text)
    ensures |r| == n && forall i | 0 <= i < n :: r[i] == EQUALS
  {
    if n == 0 then [] else [EQUALS] + Pads(n - 1)
  }

  /** `decodeB64Any`. */
  function DecodeAny(s: Text): seq<Byte> {
    var normalized := Standardize(s);
    NodeDecode(normalized + Pads((4 - |normalized| % 4) % 4))
  }

  /** `decodeCanonicalBase64`. */
  function DecodeCanonical(value: Text, length: nat): Option<seq<Byte>> {
    var decoded := NodeDecode(value);
    if |decoded| != length || Encode(decoded) != value then None else Some(decoded)
  }

  /** `bytesEqual`. */
  method BytesEqual(a: seq<Byte>, b: seq<Byte>) returns (same: bool)
    ensures same <==> a == b
  {
    if |a| != |b| { return false; }
    for i := 0 to |a|
      invariant a[..i] == b[..i]
    {
      if a[i] != b[i] { return false; }
    }
    assert a == a[..|a|] && b == b[..|b|];
    return true;
  }

  // ----- One group at a time ------------------------------------------------

  lemma AlphabetInverse(v: Sextet)
    ensures Base64Value(AlphabetChar(v)) == v as int && InAlphabet(AlphabetChar(v))
    ensures CharSextets(AlphabetChar(v)) == [v]
  {
  }

  function ValueOf(c: Unit): (v: Sextet)
    requires InAlphabet(c)
  {
    Base64Value(c) as Sextet
  }

  lemma ValueInverse(c: Unit)
    requires InAlphabet(c)
    ensures AlphabetChar(ValueOf(c)) == c && CharSextets(c) == [ValueOf(c)]
  {
  }

  lemma SplitJoin(a: Byte, b: Byte, c: Byte)
    ensures Assemble([First(a), Second(a, 0)]) == [a]
    ensures Assemble([First(a), Second(a, b), Third(b, 0)]) == [a, b]
    ensures Assemble([First(a), Second(a, b), Third(b, c), Fourth(c)]) == [a, b, c]
  {
    SplitBytes(a, b, c);
    SplitBytes(a, b, 0);
    SplitBytes(a, 0, 0);
    var v := [First(a), Second(a, b), Third(b, c), Fourth(c)];
    assert Assemble(v[4..]) == [];
  }

  lemma SplitBytes(a: Byte, b: Byte, c: Byte)
    ensures First(a) as int * 4 + Second(a, b) as int / 16 == a as int
    ensures Second(a, b) as int % 16 * 16 + Third(b, c) as int / 4 == b as int
    ensures Third(b, c) as int % 4 * 64 + Fourth(c) as int == c as int
  {
  }

  lemma JoinSplit(p: Sextet, q: Sextet, r: Sextet, s: Sextet)
    ensures var v := Assemble([p, q, r, s]);
            |v| == 3 && First(v[0]) == p && Second(v[0], v[1]) == q && Third(v[1], v[2]) == r && Fourth(v[2]) == s
    ensures var v := Assemble([p, q, r]);
            |v| == 2 && First(v[0]) == p && Second(v[0], v[1]) == q && (Third(v[1], 0) == r <==> r % 4 == 0)
    ensures var v := Assemble([p, q]);
            |v| == 1 && First(v[0]) == p && (Second(v[0], 0) == q <==> q % 16 == 0)
  {
  }

  lemma {:induction false} SextetsAppend(s: Text, t: Text)
    ensures Sextets(s + t) == Sextets(s) + Sextets(t)
  {
    if s == [] {
      assert s + t == t;
    } else {
      SextetsAppend(s[1..], t);
      assert (s + t)[1..] == s[1..] + t && (s + t)[0] == s[0];
      ConcatAssociates(CharSextets(s[0]), Sextets(s[1..]), Sextets(t));
    }
  }

  lemma PairSextets(c: Unit, d: Unit)
    ensures InAlphabet(c) && InAlphabet(d) ==> Sextets([c, d]) == [ValueOf(c), ValueOf(d)]
    ensures InAlphabet(c) && d == EQUALS ==> Sextets([c, d]) == [ValueOf(c)]
    ensures c == d == EQUALS ==> Sextets([c, d]) == []
  {
    assert [c, d][1..] == [d] && [d][1..] == [];
    assert Sextets([d]) == CharSextets(d) + [];
    if InAlphabet(c) { ValueInverse(c); }
    if InAlphabet(d) { ValueInverse(d); }
  }

  lemma GroupSextets(h: Text)
    requires |h| == 4
    ensures Sextets(h) == Sextets([h[0], h[1]]) + Sextets([h[2], h[3]])
  {
    SextetsAppend([h[0], h[1]], [h[2], h[3]]);
    assert h == [h[0], h[1]] + [h[2], h[3]];
  }

  lemma AssembleGroup(group: seq<Sextet>, rest: seq<Sextet>)
    requires |group| == 4
    ensures Assemble(group + rest) == Assemble(group) + Assemble(rest)
  {
    var v := group + rest;
    assert v[4..] == rest && v[0] == group[0] && v[1] == group[1] && v[2] == group[2] && v[3] == group[3];
    assert Assemble(group[4..]) == [];
  }

  /** A four-sextet prefix decodes on its own. */
  lemma DecodeConcat(h: Text, t: Text)
    requires |Sextets(h)| == 4
    ensures NodeDecode(h + t) == NodeDecode(h) + NodeDecode(t)
  {
    SextetsAppend(h, t);
    AssembleGroup(Sextets(h), Sextets(t));
  }

  // ----- Decoding undoes encoding -------------------------------------------

  lemma HeadDecodes(bytes: seq<Byte>)
    requires 1 <= |bytes| <= 3
    ensures NodeDecode(EncodeHead(bytes)) == bytes
    ensures |bytes| == 3 ==> |Sextets(EncodeHead(bytes))| == 4
  {
    var h := EncodeHead(bytes);
    var a := bytes[0];
    var b := if |bytes| > 1 then bytes[1] else 0;
    var c := if |bytes| > 2 then bytes[2] else 0;
    HeadChars(bytes);
    HeadValues(bytes);
    SplitJoin(a, b, c);
    if |bytes| == 1 {
      OneByteDecodes(h);
    } else if |bytes| == 2 {
      TwoByteDecodes(h);
    } else {
      ThreeByteSextets(h);
    }
  }

  lemma HeadValues(bytes: seq<Byte>)
    requires 1 <= |bytes| <= 3
    ensures var h := EncodeHead(bytes);
            var b := if |bytes| > 1 then bytes[1] else 0;
            var c := if |bytes| > 2 then bytes[2] else 0;
            && Base64Value(h[0]) == First(bytes[0]) as int && Base64Value(h[1]) == Second(bytes[0], b) as int
            && (|bytes| > 1 ==> Base64Value(h[2]) == Third(b, c) as int)
            && (|bytes| > 2 ==> Base64Value(h[3]) == Fourth(c) as int)
  {
    var b := if |bytes| > 1 then bytes[1] else 0;
    var c := if |bytes| > 2 then bytes[2] else 0;
    AlphabetInverse(First(bytes[0]));
    AlphabetInverse(Second(bytes[0], b));
    AlphabetInverse(Third(b, c));
    AlphabetInverse(Fourth(c));
  }

  /** Node's decoder inverts the standard encoder on every byte string. */
  lemma {:induction false} DecodeEncode(bytes: seq<Byte>)
    ensures NodeDecode(Encode(bytes)) == bytes
  {
    if 0 < |bytes| <= 3 {
      HeadDecodes(bytes);
    } else if |bytes| > 3 {
      HeadDecodes(bytes[..3]);
      DecodeEncode(bytes[3..]);
      DecodeConcat(EncodeHead(bytes[..3]), Encode(bytes[3..]));
      assert bytes == bytes[..3] + bytes[3..];
    }
  }

  /** A payload is the standard encoding of what Node reads from it exactly when the length check accepts it. */
  lemma {:induction false} CanonicalGroups(p: Text)
    requires MatchesPattern(p) && p != []
    ensures CanonicalDecodedLength(p).Some? <==> Encode(NodeDecode(p)) == p
    ensures CanonicalDecodedLength(p).Some? ==> CanonicalDecodedLength(p).value == |NodeDecode(p)| > 0
  {
    if p[3] == EQUALS {
      if p[2] == EQUALS { OneByteGroup(p); } else { TwoByteGroup(p); }
    } else {
      FullGroup(p);
      PatternTail(p);
      if p[4..] != [] { CanonicalGroups(p[4..]); } else { assert NodeDecode(p[4..]) == []; }
    }
  }

  lemma OneByteDecodes(p: Text)
    requires |p| == 4 && InAlphabet(p[0]) && InAlphabet(p[1]) && p[2] == p[3] == EQUALS
    ensures NodeDecode(p) == Assemble([ValueOf(p[0]), ValueOf(p[1])])
  {
    GroupSextets(p);
    PairSextets(p[0], p[1]);
    PairSextets(p[2], p[3]);
  }

  lemma OneByteAccepted(p: Text)
    requires |p| == 4 && InAlphabet(p[0]) && InAlphabet(p[1]) && p[2] == p[3] == EQUALS
    ensures CanonicalDecodedLength(p) == if ValueOf(p[1]) % 16 == 0 then Some(1) else None
  {
    assert Padding(p) == 2;
    assert (ValueOf(p[1]) % 16) as int == Base64Value(p[1]) % 16;
  }

  lemma OneByteGroup(p: Text)
    requires |p| == 4 && InAlphabet(p[0]) && InAlphabet(p[1]) && p[2] == p[3] == EQUALS
    ensures CanonicalDecodedLength(p).Some? <==> Encode(NodeDecode(p)) == p
    ensures CanonicalDecodedLength(p).Some? ==> CanonicalDecodedLength(p).value == |NodeDecode(p)| == 1
  {
    OneByteDecodes(p);
    OneByteAccepted(p);
    JoinSplit(ValueOf(p[0]), ValueOf(p[1]), 0, 0);
    var d := NodeDecode(p);
    ValueInverse(p[0]);
    ValueInverse(p[1]);
    AlphabetInverse(Second(d[0], 0));
    var e := Encode(d);
    assert e[0] == p[0] && e[2] == e[3] == EQUALS && |e| == 4;
    assert e == p <==> e[1] == p[1];
  }

  lemma TwoByteDecodes(p: Text)
    requires |p| == 4 && InAlphabet(p[0]) && InAlphabet(p[1]) && InAlphabet(p[2]) && p[3] == EQUALS
    ensures NodeDecode(p) == Assemble([ValueOf(p[0]), ValueOf(p[1]), ValueOf(p[2])])
  {
    GroupSextets(p);
    PairSextets(p[0], p[1]);
    PairSextets(p[2], p[3]);
    assert Sextets(p) == [ValueOf(p[0]), ValueOf(p[1]), ValueOf(p[2])];
  }

  lemma TwoByteAccepted(p: Text)
    requires |p| == 4 && InAlphabet(p[0]) && InAlphabet(p[1]) && InAlphabet(p[2]) && p[3] == EQUALS
    ensures CanonicalDecodedLength(p) == if ValueOf(p[2]) % 4 == 0 then Some(2) else None
  {
    assert Padding(p) == 1;
    assert (ValueOf(p[2]) % 4) as int == Base64Value(p[2]) % 4;
  }

  lemma TwoByteGroup(p: Text)
    requires |p| == 4 && InAlphabet(p[0]) && InAlphabet(p[1]) && InAlphabet(p[2]) && p[3] == EQUALS
    ensures CanonicalDecodedLength(p).Some? <==> Encode(NodeDecode(p)) == p
    ensures CanonicalDecodedLength(p).Some? ==> CanonicalDecodedLength(p).value == |NodeDecode(p)| == 2
  {
    TwoByteDecodes(p);
    TwoByteAccepted(p);
    JoinSplit(ValueOf(p[0]), ValueOf(p[1]), ValueOf(p[2]), 0);
    var d := NodeDecode(p);
    ValueInverse(p[0]);
    ValueInverse(p[1]);
    ValueInverse(p[2]);
    AlphabetInverse(Third(d[1], 0));
    var e := Encode(d);
    assert e[0] == p[0] && e[1] == p[1] && e[3] == EQUALS && |e| == 4;
    assert e == p <==> e[2] == p[2];
  }

  lemma ThreeByteSextets(h: Text)
    requires |h| == 4 && InAlphabet(h[0]) && InAlphabet(h[1]) && InAlphabet(h[2]) && InAlphabet(h[3])
    ensures Sextets(h) == [ValueOf(h[0]), ValueOf(h[1]), ValueOf(h[2]), ValueOf(h[3])]
  {
    GroupSextets(h);
    PairSextets(h[0], h[1]);
    PairSextets(h[2], h[3]);
  }

  /** Four alphabet characters stand for exactly one three-byte group. */
  lemma AlphabetGroup(h: Text)
    requires |h| == 4 && InAlphabet(h[0]) && InAlphabet(h[1]) && InAlphabet(h[2]) && InAlphabet(h[3])
    ensures |Sextets(h)| == 4 && |NodeDecode(h)| == 3 && EncodeHead(NodeDecode(h)) == h
  {
    var v := [ValueOf(h[0]), ValueOf(h[1]), ValueOf(h[2]), ValueOf(h[3])];
    ThreeByteSextets(h);
    JoinSplit(v[0], v[1], v[2], v[3]);
    GroupEncodes(h, Assemble(v));
  }

  lemma FullGroup(p: Text)
    requires |p| >= 4 && InAlphabet(p[0]) && InAlphabet(p[1]) && InAlphabet(p[2]) && InAlphabet(p[3])
    ensures |NodeDecode(p)| == 3 + |NodeDecode(p[4..])|
    ensures Encode(NodeDecode(p)) == p <==> Encode(NodeDecode(p[4..])) == p[4..]
  {
    var h, t := p[..4], p[4..];
    assert p == h + t;
    AlphabetGroup(h);
    DecodeConcat(h, t);
    EncodeGroups(NodeDecode(h), NodeDecode(t));
    assert Encode(NodeDecode(p)) == h + Encode(NodeDecode(t));
    assert (h + Encode(NodeDecode(t)))[4..] == Encode(NodeDecode(t));
  }

  lemma EncodeGroups(g: seq<Byte>, rest: seq<Byte>)
    requires |g| == 3
    ensures Encode(g + rest) == EncodeHead(g) + Encode(rest)
  {
    assert (g + rest)[..3] == g && (g + rest)[3..] == rest;
    assert rest == [] ==> g + rest == g;
  }

  lemma GroupEncodes(h: Text, g: seq<Byte>)
    requires |h| == 4 && InAlphabet(h[0]) && InAlphabet(h[1]) && InAlphabet(h[2]) && InAlphabet(h[3]) && |g| == 3
    requires First(g[0]) == ValueOf(h[0]) && Second(g[0], g[1]) == ValueOf(h[1])
    requires Third(g[1], g[2]) == ValueOf(h[2]) && Fourth(g[2]) == ValueOf(h[3])
    ensures EncodeHead(g) == h
  {
    ValueInverse(h[0]);
    ValueInverse(h[1]);
    ValueInverse(h[2]);
    ValueInverse(h[3]);
  }

  lemma PatternTail(p: Text)
    requires |p| >= 4 && InAlphabet(p[0]) && InAlphabet(p[1]) && InAlphabet(p[2]) && InAlphabet(p[3])
    requires MatchesPattern(p[4..])
    ensures p[4..] == [] ==> CanonicalDecodedLength(p) == Some(3)
    ensures p[4..] != [] ==>
              CanonicalDecodedLength(p) == (match CanonicalDecodedLength(p[4..])
                                            case None => None
                                            case Some(n) => Some(n + 3))
  {
    ValueInverse(p[3]);
    if p[4..] != [] {
      assert |p[4..]| >= 4;
      assert Padding(p) == Padding(p[4..]);
    }
  }

  /** `canonicalBase64DecodedLength` answers n exactly for the standard padded encodings of
      non-empty n-byte strings. */
  lemma AcceptsExactlyEncodings(p: Text, n: nat)
    ensures CanonicalDecodedLength(p) == Some(n)
            <==> exists bytes :: |bytes| == n && n > 0 && Encode(bytes) == p
  {
    if CanonicalDecodedLength(p) == Some(n) {
      CanonicalGroups(p);
      assert Encode(NodeDecode(p)) == p;
    }
    if bytes :| |bytes| == n && n > 0 && Encode(bytes) == p {
      DecodeEncode(bytes);
      EncodeMatches(bytes);
      CanonicalGroups(p);
    }
  }

  lemma HeadChars(bytes: seq<Byte>)
    requires bytes != []
    ensures var h := EncodeHead(bytes);
            && InAlphabet(h[0]) && InAlphabet(h[1])
            && (if |bytes| == 1 then h[2] == EQUALS else InAlphabet(h[2]))
            && (if |bytes| <= 2 then h[3] == EQUALS else InAlphabet(h[3]))
  {
    var b := if |bytes| > 1 then bytes[1] else 0;
    var c := if |bytes| > 2 then bytes[2] else 0;
    AlphabetInverse(First(bytes[0]));
    AlphabetInverse(Second(bytes[0], b));
    AlphabetInverse(Third(b, c));
    AlphabetInverse(Fourth(c));
  }

  lemma {:induction false} EncodeMatches(bytes: seq<Byte>)
    ensures MatchesPattern(Encode(bytes))
  {
    if 0 < |bytes| <= 3 {
      HeadChars(bytes);
      assert Encode(bytes)[4..] == [];
    } else if |bytes| > 3 {
      HeadChars(bytes[..3]);
      EncodeMatches(bytes[3..]);
      assert Encode(bytes)[4..] == Encode(bytes[3..]);
    }
  }

  /** Accepted payloads decode injectively, and to the announced number of bytes. */
  lemma AcceptedDecodeInjectively(p: Text, q: Text)
    requires CanonicalDecodedLength(p).Some? && CanonicalDecodedLength(q).Some?
    ensures NodeDecode(p) == NodeDecode(q) <==> p == q
    ensures |NodeDecode(p)| == CanonicalDecodedLength(p).value
  {
    CanonicalGroups(p);
    CanonicalGroups(q);
  }

  /** `decodeCanonicalBase64` accepts the standard encoding of each byte string of the wanted length and nothing else. */
  lemma DecodeCanonicalExact(value: Text, length: nat, bytes: seq<Byte>)
    ensures DecodeCanonical(value, length) == Some(bytes) <==> |bytes| == length && Encode(bytes) == value
  {
    DecodeEncode(bytes);
  }

  // ----- Any spelling --------------------------------------------------------

  /** `s` spells `bytes`: its standard encoding with any part of the padding left off and
      any `+` or `/` written `-` or `_`. */
  ghost predicate Spells(s: Text, bytes: seq<Byte>) {
    var e := Encode(bytes);
    && |s| <= |e|
    && (forall i | |s| <= i < |e| :: e[i] == EQUALS)
    && (forall i | 0 <= i < |s| :: s[i] == e[i] || (e[i] == PLUS && s[i] == DASH) || (e[i] == SLASH && s[i] == UNDERSCORE))
  }

  lemma {:induction false} EncodeChars(bytes: seq<Byte>, i: nat)
    requires i < |Encode(bytes)|
    ensures InAlphabet(Encode(bytes)[i]) || (Encode(bytes)[i] == EQUALS && i >= |Encode(bytes)| - 2)
  {
    if |bytes| <= 3 {
      HeadChars(bytes);
      assert i == 0 || i == 1 || i == 2 || i == 3;
    } else if i < 4 {
      HeadChars(bytes[..3]);
      assert Encode(bytes)[i] == EncodeHead(bytes[..3])[i];
      assert i == 0 || i == 1 || i == 2 || i == 3;
    } else {
      EncodeChars(bytes[3..], i - 4);
    }
  }

  function Groups(n: nat): nat { if n == 0 then 0 else if n <= 3 then 1 else 1 + Groups(n - 3) }

  lemma {:induction false} EncodeLength(bytes: seq<Byte>)
    ensures |Encode(bytes)| == 4 * Groups(|bytes|)
  {
    if |bytes| > 3 { EncodeLength(bytes[3..]); }
  }

  lemma StandardChar(s: Text, bytes: seq<Byte>, i: nat)
    requires Spells(s, bytes) && i < |s|
    ensures Standardize(s)[i] == Encode(bytes)[i]
  {
    EncodeChars(bytes, i);
  }

  lemma RestoredSpelling(s: Text, bytes: seq<Byte>)
    requires Spells(s, bytes)
    ensures var n := Standardize(s); n + Pads((4 - |n| % 4) % 4) == Encode(bytes)
  {
    EncodeLength(bytes);
    OnlyPaddingMissing(s, bytes);
    forall i | 0 <= i < |s| ensures Standardize(s)[i] == Encode(bytes)[i] { StandardChar(s, bytes, i); }
    IsPrefix(Standardize(s), Encode(bytes));
    TailIsPads(Encode(bytes), |Standardize(s)|);
    PadBack(Standardize(s), Encode(bytes), Groups(|bytes|));
  }

  lemma OnlyPaddingMissing(s: Text, bytes: seq<Byte>)
    requires Spells(s, bytes)
    ensures |s| <= |Encode(bytes)| <= |s| + 2
    ensures forall i | |s| <= i < |Encode(bytes)| :: Encode(bytes)[i] == EQUALS
  {
    if |s| < |Encode(bytes)| { EncodeChars(bytes, |s|); }
  }

  lemma PadBack(n: Text, e: Text, groups: nat)
    requires |e| == 4 * groups && n <= e && |e| <= |n| + 2
    requires forall u | u in e[|n|..] :: u == EQUALS
    ensures n + Pads((4 - |n| % 4) % 4) == e
  {
    hide Pads;
    PadCount(|n|, groups);
    var tail := e[|n|..];
    ArePads(tail);
    Reassembled(n, e);
    assert (4 - |n| % 4) % 4 == |tail|;
  }

  lemma Reassembled(n: Text, e: Text)
    requires n <= e
    ensures n + e[|n|..] == e
  {
  }

  lemma IsPrefix(n: Text, e: Text)
    requires |n| <= |e| && forall i | 0 <= i < |n| :: n[i] == e[i]
    ensures n <= e
  {
  }

  lemma TailIsPads(e: Text, k: nat)
    requires k <= |e| && forall i | k <= i < |e| :: e[i] == EQUALS
    ensures forall u | u in e[k..] :: u == EQUALS
  {
  }

  lemma {:induction false} ArePads(t: Text)
    requires forall u | u in t :: u == EQUALS
    ensures t == Pads(|t|)
  {
    if t != [] {
      assert t[0] in t && t == [t[0]] + t[1..];
      assert forall u | u in t[1..] :: u in t;
      ArePads(t[1..]);
    }
  }

  lemma PadCount(n: nat, groups: nat)
    requires n <= 4 * groups <= n + 2
    ensures (4 - n % 4) % 4 == 4 * groups - n
  {
    assert n == 4 * groups || n == 4 * (groups - 1) + 3 || n == 4 * (groups - 1) + 2;
  }

  /** Every spelling of a byte string decodes to it. */
  lemma SpellingsDecodeAlike(s: Text, bytes: seq<Byte>)
    requires Spells(s, bytes)
    ensures DecodeAny(s) == bytes
  {
    RestoredSpelling(s, bytes);
    DecodeEncode(bytes);
  }
}

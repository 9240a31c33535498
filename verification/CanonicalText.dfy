/** Which of the many JSON texts of a value is the canonical one: the shortest that is well-formed UTF-16, with
    escapes in lower case. Nothing here knows which characters the printer escapes, or how. */
module CanonicalText {
  import opened Prelude
  import opened CanonicalJson

  predicate IsSurrogate(u: Unit) { IsLead(u) || IsTrail(u) }

  /** Surrogates stand in pairs only, so the text can be sent as UTF-8. */
  predicate Paired(t: Text) {
    t == []
    || (if |t| > 1 && IsLead(t[0]) && IsTrail(t[1]) then Paired(t[2..]) else !IsSurrogate(t[0]) && Paired(t[1..]))
  }

  /** The text between quotes that a reader takes for the string. */
  predicate Spells(t: Text, s: Text) { ReadString(t + [QUOTE]) == Some((s, [])) }

  predicate HexLower(t: Text)
    requires |t| >= 6
  {
    forall i | 2 <= i < 6 :: !(65 <= t[i] <= 70)
  }

  /** No escape of the string is written with an upper-case digit. */
  predicate LowerCase(t: Text) {
    t == [] || ReadChar(t).None?
    || var used := ReadChar(t).value.1; (used == 6 ==> HexLower(t)) && LowerCase(t[used..])
  }

  // ----- One character -----------------------------------------------------------------------------

  lemma PairedRest(t: Text, k: nat)
    requires Paired(t) && k <= |t| && forall i | 0 <= i < k :: !IsSurrogate(t[i])
    ensures Paired(t[k..])
    decreases k
  {
    if k > 0 {
      assert Paired(t[1..]);
      PairedRest(t[1..], k - 1);
      assert t[1..][k - 1..] == t[k..];
    } else {
      assert t[0..] == t;
    }
  }

  lemma {:induction false} PairedConcat(a: Text, b: Text)
    requires Paired(a) && Paired(b)
    ensures Paired(a + b)
  {
    if a == [] {
      assert a + b == b;
    } else if |a| > 1 && IsLead(a[0]) && IsTrail(a[1]) {
      PairedConcat(a[2..], b);
      assert (a + b)[2..] == a[2..] + b;
    } else {
      PairedConcat(a[1..], b);
      assert (a + b)[1..] == a[1..] + b;
    }
  }

  /** A character read leaves alone what follows it. */
  lemma ReadCharAhead(t: Text, more: Text)
    requires t != [] && ReadChar(t).Some?
    ensures ReadChar(t + more) == ReadChar(t)
  {
    if |t| >= 6 { assert (t + more)[2..6] == t[2..6]; }
  }

  /** No spelling of a character is shorter than its escape, save a raw surrogate. */
  lemma CharCost(t: Text)
    requires t != [] && t[0] != QUOTE && ReadChar(t).Some?
    ensures var (u, used) := ReadChar(t).value;
            && (forall i | 1 <= i < used :: !IsSurrogate(t[i]))
            && (IsSurrogate(t[0]) ==> used == 1 && u == t[0])
            && (!IsSurrogate(t[0]) ==> |EscapeUnit(u)| <= used)
  {
    var (u, used) := ReadChar(t).value;
    if used == 6 { HexAscii(t[2..6]); }
  }

  lemma HexAscii(h: Text)
    requires |h| == 4 && ReadHex4(h).Some?
    ensures forall i | 0 <= i < 4 :: h[i] < 128
  {
  }

  lemma HexBack(c: Unit)
    requires HexValue(c).Some? && !(65 <= c <= 70)
    ensures HexValue(c).value < 16 && HexDigit(HexValue(c).value) == c
  {
  }

  lemma HexDigitsBack(a: Unit, b: Unit, c: Unit, d: Unit)
    requires a < 16 && b < 16 && c < 16 && d < 16
    ensures var u := a * 4096 + b * 256 + c * 16 + d;
            u / 4096 == a && u / 256 % 16 == b && u / 16 % 16 == c && u % 16 == d
  {
    var u := a * 4096 + b * 256 + c * 16 + d;
    var h, q := a * 256 + b * 16 + c, a * 16 + b;
    assert u == h * 16 + d && h == q * 16 + c;
    assert u / 16 == h && h / 16 == q && q / 16 == a;
    assert u / 256 == q && u / 4096 == a;
  }

  lemma HexUnique(h: Text)
    requires |h| == 4 && ReadHex4(h).Some? && forall i | 0 <= i < 4 :: !(65 <= h[i] <= 70)
    ensures var u := ReadHex4(h).value; UnicodeEscape(u) == [BACKSLASH, 117] + h
  {
    HexBack(h[0]);
    HexBack(h[1]);
    HexBack(h[2]);
    HexBack(h[3]);
    HexDigitsBack(HexValue(h[0]).value, HexValue(h[1]).value, HexValue(h[2]).value, HexValue(h[3]).value);
  }

  /** A spelling of a character as short as its escape is its escape, if its digits are in lower case. */
  lemma CharUnique(t: Text)
    requires t != [] && t[0] != QUOTE && ReadChar(t).Some? && !IsSurrogate(t[0])
    requires var (u, used) := ReadChar(t).value; used == |EscapeUnit(u)| && (used == 6 ==> HexLower(t))
    ensures var (u, used) := ReadChar(t).value; t[..used] == EscapeUnit(u)
  {
    var (u, used) := ReadChar(t).value;
    if used == 6 {
      HexUnique(t[2..6]);
      assert t[..6] == [BACKSLASH, 117] + t[2..6];
    }
  }

  // ----- One character after another -------------------------------------------------------------------

  lemma ReadCharWithin(t: Text, tail: Unit)
    requires t != [] && tail == QUOTE && ReadChar(t + [tail]).Some? && ReadChar(t + [tail]).value.1 <= |t|
    ensures ReadChar(t) == ReadChar(t + [tail])
  {
    if |t| >= 6 { assert (t + [tail])[2..6] == t[2..6]; }
    if |t| == 5 { assert HexValue((t + [tail])[2..6][3]).None?; }
  }

  /** The first character of a spelling, and what it leaves. */
  lemma SpellsStep(t: Text, s: Text)
    requires Spells(t, s) && t != []
    ensures t[0] != QUOTE && s != [] && ReadChar(t).Some?
    ensures var (u, used) := ReadChar(t).value; u == s[0] && Spells(t[used..], s[1..])
  {
    var q := t + [QUOTE];
    assert q[0] == t[0] && q[1..] == t[1..] + [QUOTE];
    assert t[0] != QUOTE;
    var (u, used) := ReadChar(q).value;
    assert used <= |t|;
    ReadCharWithin(t, QUOTE);
    assert q[used..] == t[used..] + [QUOTE];
    assert ReadString(q[used..]).Some?;
    assert s == [u] + ReadString(q[used..]).value.0;
  }

  lemma SpellsNone(s: Text)
    requires Spells([], s)
    ensures s == []
  {
    assert [] + [QUOTE] == [QUOTE];
  }

  /** What follows a character of a well-formed spelling is well-formed, unless it was one half of a raw pair. */
  lemma SpellsPaired(t: Text)
    requires t != [] && t[0] != QUOTE && ReadChar(t).Some? && Paired(t) && !IsSurrogate(t[0])
    ensures Paired(t[ReadChar(t).value.1..])
  {
    CharCost(t);
    PairedRest(t, ReadChar(t).value.1);
  }

  lemma PairFirst(t: Text)
    requires t != [] && Paired(t) && IsSurrogate(t[0])
    ensures |t| >= 2 && IsLead(t[0]) && IsTrail(t[1]) && Paired(t[2..])
  {
  }

  /** A raw pair is spelled by itself. */
  lemma PairStep(t: Text, s: Text)
    requires Spells(t, s) && t != [] && Paired(t) && IsSurrogate(t[0])
    ensures |t| >= 2 && |s| >= 2 && t[..2] == s[..2] && IsLead(s[0]) && IsTrail(s[1])
    ensures Spells(t[2..], s[2..]) && Paired(t[2..])
  {
    hide Spells, Paired, ReadChar;
    PairFirst(t);
    SpellsStep(t, s);
    CharCost(t);
    assert t[1..][0] == t[1];
    SpellsStep(t[1..], s[1..]);
    CharCost(t[1..]);
    assert t[1..][1..] == t[2..] && s[1..][1..] == s[2..];
  }

  lemma QuotedPair(s: Text)
    requires |s| >= 2 && IsLead(s[0]) && IsTrail(s[1])
    ensures QuoteBody(s) == s[..2] + QuoteBody(s[2..])
    ensures |QuoteBody(s[1..])| == 6 + |QuoteBody(s[2..])|
  {
    assert s[1..][1..] == s[2..];
    assert !IsLead(s[1]);
  }

  /** No well-formed spelling of a string is shorter than the printed one, and none as short differs from it but in
      the case of its digits. */
  lemma {:induction false} ShortestSpelling(t: Text, s: Text)
    requires Spells(t, s) && Paired(t)
    ensures |QuoteBody(s)| <= |t|
    ensures |QuoteBody(s)| == |t| && LowerCase(t) ==> t == QuoteBody(s)
    decreases |t|
  {
    hide ReadChar, ReadString, Paired, EscapeUnit, Spells;
    if t == [] {
      SpellsNone(s);
    } else if IsSurrogate(t[0]) {
      PairStep(t, s);
      ShortestSpelling(t[2..], s[2..]);
      QuotedPair(s);
      LowerPair(t, s);
      assert t == t[..2] + t[2..];
    } else {
      SpellsStep(t, s);
      SpellsPaired(t);
      CharCost(t);
      var (u, used) := ReadChar(t).value;
      ShortestSpelling(t[used..], s[1..]);
      if |s| > 1 && IsLead(s[0]) && IsTrail(s[1]) {
        QuotedPair(s);
        EscapedLead(t);
      } else {
        assert QuoteBody(s) == EscapeUnit(u) + QuoteBody(s[1..]);
        if |QuoteBody(s)| == |t| && LowerCase(t) {
          CharUnique(t);
          assert t == t[..used] + t[used..];
        }
      }
    }
  }

  /** Half a pair that is not raw takes six units. */
  lemma EscapedLead(t: Text)
    requires t != [] && t[0] != QUOTE && ReadChar(t).Some? && !IsSurrogate(t[0]) && IsLead(ReadChar(t).value.0)
    ensures ReadChar(t).value.1 == 6
  {
  }

  lemma LowerPair(t: Text, s: Text)
    requires Spells(t, s) && t != [] && Paired(t) && IsSurrogate(t[0])
    ensures |t| >= 2 && (LowerCase(t) ==> LowerCase(t[2..]))
  {
    hide Spells, Paired, ReadChar, LowerCase;
    PairStep(t, s);
    SpellsStep(t, s);
    CharCost(t);
    SpellsStep(t[1..], s[1..]);
    CharCost(t[1..]);
    assert t[1..][0] == t[1] == s[1];
    assert t[1..][1..] == t[2..];
    if LowerCase(t) {
      LowerTail(t);
      LowerTail(t[1..]);
    }
  }

  lemma LowerTail(t: Text)
    requires LowerCase(t) && t != [] && ReadChar(t).Some?
    ensures LowerCase(t[ReadChar(t).value.1..])
  {
  }

  // ----- The printed string is one of them -----------------------------------------------------------

  lemma EscapePaired(u: Unit)
    requires !IsSurrogate(u) || |EscapeUnit(u)| == 6
    ensures Paired(EscapeUnit(u))
  {
    var e := EscapeUnit(u);
    if |e| == 6 {
      Nibbles(u);
      assert forall i | 0 <= i < 6 :: e[i] < 128;
      AsciiPaired(e);
    } else {
      AsciiPaired(e);
    }
  }

  lemma {:induction false} AsciiPaired(t: Text)
    requires forall i | 0 <= i < |t| :: !IsSurrogate(t[i])
    ensures Paired(t)
  {
    if t != [] { AsciiPaired(t[1..]); }
  }

  lemma EscapeSurrogate(u: Unit)
    requires IsSurrogate(u)
    ensures |EscapeUnit(u)| == 6
  {
  }

  lemma {:induction false} QuotedPaired(s: Text)
    ensures Paired(QuoteBody(s))
  {
    hide EscapeUnit, Paired;
    if s == [] {
      AsciiPaired([]);
    } else {
      QuotedPaired(s[Group(s)..]);
      QuotedGroup(s, []);
      if Group(s) == 2 {
        RawPaired(s[0], s[1]);
        PairedConcat([s[0], s[1]], QuoteBody(s[2..]));
      } else {
        if IsSurrogate(s[0]) { EscapeSurrogate(s[0]); }
        EscapePaired(s[0]);
        PairedConcat(EscapeUnit(s[0]), QuoteBody(s[1..]));
      }
    }
  }

  lemma RawPaired(a: Unit, b: Unit)
    requires IsLead(a) && IsTrail(b)
    ensures Paired([a, b])
  {
  }

  lemma QuotedSpells(s: Text)
    ensures Spells(QuoteBody(s), s)
  {
    ReadQuoted(s, []);
    assert [QUOTE] + [] == [QUOTE];
  }

  lemma LowerStep(e: Text, u: Unit, rest: Text)
    requires e != [] && ReadChar(e + rest) == Some((u, |e|)) && (|e| == 6 ==> HexLower(e)) && LowerCase(rest)
    ensures LowerCase(e + rest)
  {
    assert (e + rest)[|e|..] == rest;
  }

  lemma EscapeLower(u: Unit)
    ensures |EscapeUnit(u)| == 6 ==> HexLower(EscapeUnit(u))
  {
    Nibbles(u);
  }

  lemma {:induction false} QuotedLower(s: Text)
    ensures LowerCase(QuoteBody(s))
  {
    hide LowerCase, EscapeUnit, ReadChar;
    if s == [] {
      LowerNone();
    } else {
      var rest := QuoteBody(s[Group(s)..]);
      QuotedLower(s[Group(s)..]);
      if Group(s) == 2 {
        RawChar(s[1], rest);
        LowerStep([s[1]], s[1], rest);
        RawChar(s[0], [s[1]] + rest);
        LowerStep([s[0]], s[0], [s[1]] + rest);
        assert [s[0]] + ([s[1]] + rest) == QuoteBody(s);
      } else {
        ReadEscapedChar(s[0], rest);
        EscapeLower(s[0]);
        LowerStep(EscapeUnit(s[0]), s[0], rest);
      }
    }
  }

  lemma LowerNone()
    ensures LowerCase([])
  {
  }

  /** The printed string is exactly the shortest well-formed spelling, with its escapes in lower case. */
  lemma QuotedExactly(s: Text, t: Text)
    ensures t == QuoteBody(s)
            <==> Spells(t, s) && Paired(t) && LowerCase(t) && forall r | Spells(r, s) && Paired(r) :: |t| <= |r|
  {
    hide Spells, Paired, LowerCase, QuoteBody;
    QuotedSpells(s);
    QuotedPaired(s);
    QuotedLower(s);
    forall r | Spells(r, s) && Paired(r) ensures |QuoteBody(s)| <= |r| { ShortestSpelling(r, s); }
    if Spells(t, s) && Paired(t) && LowerCase(t) && forall r | Spells(r, s) && Paired(r) :: |t| <= |r| {
      ShortestSpelling(t, s);
    }
  }

  /** A six-unit escape stands only where nothing shorter can: for a control without a letter of its own, or for
      half a surrogate pair. */
  predicate Frugal(t: Text) {
    t == [] || ReadChar(t).None?
    || var (u, used) := ReadChar(t).value;
       (used == 6 ==> (u < 32 && u !in {8, 9, 10, 12, 13}) || IsSurrogate(u)) && Frugal(t[used..])
  }

  lemma FrugalStep(e: Text, u: Unit, rest: Text)
    requires e != [] && ReadChar(e + rest) == Some((u, |e|)) && Frugal(rest)
    requires |e| == 6 ==> (u < 32 && u !in {8, 9, 10, 12, 13}) || IsSurrogate(u)
    ensures Frugal(e + rest)
  {
    assert (e + rest)[|e|..] == rest;
  }

  lemma EscapeFrugal(u: Unit)
    ensures |EscapeUnit(u)| == 6 ==> (u < 32 && u !in {8, 9, 10, 12, 13}) || IsSurrogate(u)
  {
  }

  lemma {:induction false} QuotedFrugal(s: Text)
    ensures Frugal(QuoteBody(s))
  {
    hide Frugal, EscapeUnit, ReadChar;
    if s == [] {
      FrugalNone();
    } else {
      var rest := QuoteBody(s[Group(s)..]);
      QuotedFrugal(s[Group(s)..]);
      if Group(s) == 2 {
        RawChar(s[1], rest);
        FrugalStep([s[1]], s[1], rest);
        RawChar(s[0], [s[1]] + rest);
        FrugalStep([s[0]], s[0], [s[1]] + rest);
        assert [s[0]] + ([s[1]] + rest) == QuoteBody(s);
      } else {
        ReadEscapedChar(s[0], rest);
        EscapeFrugal(s[0]);
        FrugalStep(EscapeUnit(s[0]), s[0], rest);
      }
    }
  }

  lemma FrugalNone()
    ensures Frugal([])
  {
  }

  // ----- Whole texts ---------------------------------------------------------------------------------

  lemma {:induction false} PairedAround(x: Text, n: nat)
    requires Paired(x) && n < |x| && !IsSurrogate(x[n])
    ensures Paired(x[..n]) && Paired(x[n + 1..])
    decreases n
  {
    if n == 0 {
    } else if IsLead(x[0]) {
      PairedAround(x[2..], n - 2);
      assert x[2..][..n - 2] == x[..n][2..] && x[2..][n - 1..] == x[n + 1..];
    } else {
      PairedAround(x[1..], n - 1);
      assert x[1..][..n - 1] == x[..n][1..] && x[1..][n..] == x[n + 1..];
    }
  }

  lemma ReadCharPrefix(x: Text, n: nat)
    requires x != [] && ReadChar(x).Some? && ReadChar(x).value.1 <= n <= |x|
    ensures ReadChar(x[..n]) == ReadChar(x)
  {
    if n >= 6 { assert x[..n][2..6] == x[2..6]; }
  }

  lemma StringStep(x: Text, s: Text, rest: Text)
    requires ReadString(x) == Some((s, rest)) && x[0] != QUOTE
    ensures ReadChar(x).Some? && s != [] && s[0] == ReadChar(x).value.0
    ensures ReadString(x[ReadChar(x).value.1..]) == Some((s[1..], rest))
  {
    hide ReadChar;
    var (u, used) := ReadChar(x).value;
    var tail := ReadString(x[used..]).value.0;
    assert s == [u] + tail && s[1..] == tail;
  }

  /** A character in front of a spelling. */
  lemma SpellsCons(c: Text, t: Text, u: Unit, s: Text)
    requires c != [] && c[0] != QUOTE && ReadChar(c + t) == Some((u, |c|)) && Spells(t, s)
    ensures Spells(c + t, [u] + s)
  {
    hide ReadChar;
    ReadCharAhead(c + t, [QUOTE]);
    ConcatAssociates(c, t, [QUOTE]);
    ReadStringStep(c, u, t + [QUOTE]);
  }

  /** What was read as a string is a spelling of it, then a quote. */
  lemma {:induction false} StringParts(x: Text, s: Text, rest: Text)
    requires ReadString(x) == Some((s, rest))
    ensures var n := |x| - |rest| - 1; n >= 0 && x[n] == QUOTE && x[n + 1..] == rest && Spells(x[..n], s)
    decreases |x|
  {
    if x[0] == QUOTE {
      assert x[..0] + [QUOTE] == [QUOTE];
    } else {
      StringStep(x, s, rest);
      hide ReadChar, ReadString, Spells;
      var (u, used) := ReadChar(x).value;
      var n := |x| - |rest| - 1;
      StringParts(x[used..], s[1..], rest);
      ReadCharPrefix(x, n);
      assert x[..n] == x[..used] + x[used..][..n - used];
      SpellsCons(x[..used], x[used..][..n - used], u, s[1..]);
      assert s == [u] + s[1..];
    }
  }

  lemma StringCost(x: Text, s: Text, rest: Text)
    requires ReadString(x) == Some((s, rest)) && Paired(x)
    ensures |QuoteBody(s)| + 1 + |rest| <= |x| && Paired(rest)
  {
    hide ReadString, Paired, Spells, QuoteBody;
    StringParts(x, s, rest);
    var n := |x| - |rest| - 1;
    PairedAround(x, n);
    ShortestSpelling(x[..n], s);
  }

  lemma {:induction false} DigitsCost(d: Text, acc: nat)
    requires Paired(d)
    ensures var (n, rest) := ReadNat(d, acc); |PrintNat(n)| + |rest| <= |PrintNat(acc)| + |d| && Paired(rest)
    decreases |d|
  {
    if d != [] && IsDigit(d[0]) {
      var next := acc * 10 + (d[0] - 48) as nat;
      assert next / 10 == acc;
      DigitsCost(d[1..], next);
    }
  }

  lemma {:induction false} NumeralsAscii(t: Text)
    ensures forall i | 0 <= i < NumeralRun(t) :: !IsSurrogate(t[i])
  {
    if t != [] && IsNumeral(t[0]) {
      NumeralsAscii(t[1..]);
      forall i | 0 <= i < NumeralRun(t) ensures !IsSurrogate(t[i]) { if i > 0 { assert t[i] == t[1..][i - 1]; } }
    }
  }

  lemma OneDigit(n: nat)
    requires n < 10
    ensures |PrintNat(n)| == 1
  {
  }

  lemma NumberOpens(t: Text)
    requires ReadNumber(t).Some?
    ensures t != [] && Unsigned(t) != [] && IsDigit(Unsigned(t)[0])
  {
    hide ReadNat, NumeralRun, IsSpelling;
  }

  lemma UnsignedPaired(t: Text)
    requires Paired(t)
    ensures Paired(Unsigned(t))
  {
    if t != [] && t[0] == MINUS { PairedRest(t, 1); }
  }

  /** The digits in front of what follows them. */
  function Leading(d: Text): (nat, Text)
    requires d != [] && IsDigit(d[0])
  {
    ReadNat(d[1..], (d[0] - 48) as nat)
  }

  lemma LeadingDigits(d: Text)
    requires d != [] && IsDigit(d[0]) && Paired(d)
    ensures |PrintNat(Leading(d).0)| + |Leading(d).1| <= |d| && Paired(Leading(d).1)
  {
    hide ReadNat, PrintNat, Paired;
    OneDigit((d[0] - 48) as nat);
    PairedRest(d, 1);
    DigitsCost(d[1..], (d[0] - 48) as nat);
  }

  lemma IntParts(t: Text, n: int, rest: Text)
    requires ReadNumber(t) == Some((Int(n), rest)) && t != [] && Unsigned(t) != [] && IsDigit(Unsigned(t)[0])
    ensures rest == Leading(Unsigned(t)).1
    ensures n == if t[0] == MINUS then -(Leading(Unsigned(t)).0 as int) else Leading(Unsigned(t)).0 as int
  {
    hide ReadNat, NumeralRun, IsSpelling;
  }

  lemma IntCost(t: Text, n: int, rest: Text)
    requires ReadNumber(t) == Some((Int(n), rest)) && Paired(t)
    ensures |PrintInt(n)| + |rest| <= |t| && Paired(rest)
  {
    hide *;
    NumberOpens(t);
    UnsignedPaired(t);
    LeadingDigits(Unsigned(t));
    IntParts(t, n, rest);
    IntLength(n, Leading(Unsigned(t)).0, t[0] == MINUS);
    SignLength(t);
  }

  lemma SignLength(t: Text)
    requires t != []
    ensures |Unsigned(t)| == |t| - if t[0] == MINUS then 1 else 0
  {
  }

  lemma IntLength(n: int, m: nat, signed: bool)
    requires n == if signed then -(m as int) else m as int
    ensures |PrintInt(n)| <= |PrintNat(m)| + if signed then 1 else 0
  {
    hide PrintNat;
  }

  lemma SpelledParts(t: Text, spelling: Spelling, rest: Text)
    requires ReadNumber(t) == Some((Num(spelling), rest)) && t != [] && Unsigned(t) != [] && IsDigit(Unsigned(t)[0])
    ensures var after := Leading(Unsigned(t)).1;
            NumeralRun(after) <= |after| <= |t| && rest == after[NumeralRun(after)..] && |spelling| == |t| - |after| + NumeralRun(after)
  {
    hide ReadNat, NumeralRun, IsSpelling;
  }

  lemma SpelledCost(t: Text, spelling: Spelling, rest: Text)
    requires ReadNumber(t) == Some((Num(spelling), rest)) && Paired(t)
    ensures |spelling| + |rest| <= |t| && Paired(rest)
  {
    hide *;
    NumberOpens(t);
    UnsignedPaired(t);
    LeadingDigits(Unsigned(t));
    SpelledParts(t, spelling, rest);
    var after := Leading(Unsigned(t)).1;
    NumeralsAscii(after);
    PairedRest(after, NumeralRun(after));
  }

  /** What may stand for a value: its canonical text is no longer than any text read as its normal form. */
  ghost predicate Costs(v: Value, t: Text, rest: Text)
    requires Canonicalize(v).Some?
  {
    |Canonicalize(v).value| + |rest| <= |t| && Paired(rest)
  }

  lemma WordCost(v: Value, t: Text, rest: Text)
    requires v.Undefined? || v.Opaque? || v.Null? || v.Bool?
    requires ReadValue(t) == Some((Normalize(v), rest)) && Paired(t)
    ensures Costs(v, t, rest)
  {
    hide ReadItems, ReadFields, ReadString, ReadNumber, Paired;
    var word := Canonicalize(v).value;
    NumbersOnly(t);
    assert rest == t[|word|..] && word == t[..|word|];
    AllAscii(v);
    PairedRest(t, |word|);
  }

  /** Only numbers are read as numbers. */
  lemma NumbersOnly(t: Text)
    ensures ReadNumber(t).Some? ==> ReadNumber(t).value.0.Int? || ReadNumber(t).value.0.Num?
  {
    hide ReadNat, NumeralRun, IsSpelling;
  }

  lemma AllAscii(v: Value)
    requires v.Undefined? || v.Opaque? || v.Null? || v.Bool?
    ensures forall i | 0 <= i < |Canonicalize(v).value| :: !IsSurrogate(Canonicalize(v).value[i])
  {
  }

  lemma NumberKind(t: Text, v: Value, rest: Text)
    requires ReadValue(t) == Some((v, rest)) && (v.Int? || v.Num?)
    ensures t != [] && ReadNumber(t) == Some((v, rest))
  {
    hide ReadItems, ReadFields, ReadString, ReadNumber;
  }

  lemma StringKind(t: Text, v: Value, rest: Text)
    requires ReadValue(t) == Some((v, rest)) && v.Str?
    ensures t != [] && t[0] == QUOTE && ReadString(t[1..]) == Some((v.s, rest))
  {
    hide ReadItems, ReadFields, ReadString, ReadNumber;
    NumbersOnly(t);
  }

  lemma ArrayOpens(t: Text)
    ensures ReadValue(t).Some? && ReadValue(t).value.0.Arr? ==> t != [] && t[0] == LBRACKET
  {
    hide ReadItems, ReadFields, ReadString, ReadNumber;
    NumbersOnly(t);
  }

  lemma ObjectOpens(t: Text)
    ensures ReadValue(t).Some? && ReadValue(t).value.0.Obj? ==> t != [] && t[0] == LBRACE
  {
    hide ReadItems, ReadFields, ReadString, ReadNumber;
    NumbersOnly(t);
  }

  lemma EmptyArrayRead(t: Text)
    requires |t| >= 2 && t[0] == LBRACKET && t[1] == RBRACKET
    ensures ReadValue(t) == Some((Arr([]), t[2..]))
  {
    hide ReadItems, ReadFields, ReadString, ReadNumber, ReadLiteral;
  }

  lemma ArrayRead(t: Text)
    requires t != [] && t[0] == LBRACKET && (|t| == 1 || t[1] != RBRACKET)
    ensures ReadValue(t).Some? <==> ReadItems(t[1..]).Some?
    ensures ReadValue(t).Some? ==> ReadValue(t).value == (Arr(ReadItems(t[1..]).value.0), ReadItems(t[1..]).value.1)
  {
    hide ReadItems, ReadFields, ReadString, ReadNumber, ReadLiteral;
  }

  lemma EmptyObjectRead(t: Text)
    requires |t| >= 2 && t[0] == LBRACE && t[1] == RBRACE
    ensures ReadValue(t) == Some((Obj([]), t[2..]))
  {
    hide ReadItems, ReadFields, ReadString, ReadNumber, ReadLiteral;
  }

  lemma ObjectRead(t: Text)
    requires t != [] && t[0] == LBRACE && (|t| == 1 || t[1] != RBRACE)
    ensures ReadValue(t).Some? <==> ReadFields(t[1..]).Some?
    ensures ReadValue(t).Some? ==> ReadValue(t).value == (Obj(ReadFields(t[1..]).value.0), ReadFields(t[1..]).value.1)
  {
    hide ReadItems, ReadFields, ReadString, ReadNumber, ReadLiteral;
  }

  lemma ItemsParts(t: Text, vs: seq<Value>, rest: Text)
    requires ReadItems(t) == Some((vs, rest))
    ensures vs != [] && ReadValue(t).Some? && ReadValue(t).value.0 == vs[0]
    ensures var r := ReadValue(t).value.1;
            r != [] && (r[0] == RBRACKET || r[0] == COMMA)
            && if r[0] == RBRACKET then vs == [vs[0]] && rest == r[1..] else ReadItems(r[1..]) == Some((vs[1..], rest))
  {
    hide ReadValue;
  }

  lemma FieldsParts(t: Text, fs: seq<Field>, rest: Text)
    requires ReadFields(t) == Some((fs, rest))
    ensures fs != [] && t != [] && t[0] == QUOTE && ReadString(t[1..]).Some? && ReadString(t[1..]).value.0 == fs[0].key
    ensures var a := ReadString(t[1..]).value.1;
            a != [] && a[0] == COLON && ReadValue(a[1..]).Some? && ReadValue(a[1..]).value.0 == fs[0].val
            && var r := ReadValue(a[1..]).value.1;
               r != [] && (r[0] == RBRACE || r[0] == COMMA)
               && if r[0] == RBRACE then fs == [fs[0]] && rest == r[1..] else ReadFields(r[1..]) == Some((fs[1..], rest))
  {
    hide ReadValue, ReadString;
  }

  lemma PairedTail(t: Text)
    requires Paired(t) && t != [] && !IsSurrogate(t[0])
    ensures Paired(t[1..])
  {
  }

  lemma JoinLength(head: Text, rest: seq<Text>)
    ensures |Join([head] + rest)| == |head| + if rest == [] then 0 else 1 + |Join(rest)|
  {
    JoinCons(head, rest, []);
    assert Join([head] + rest) + [] == Join([head] + rest);
  }

  /** Every well-formed text that reads as the value, in front of anything, is at least as long as the printed one. */
  lemma {:induction false} CanonicalCost(v: Value, t: Text, rest: Text)
    requires Canonicalize(v).Some? && ReadValue(t) == Some((Normalize(v), rest)) && Paired(t)
    ensures Costs(v, t, rest)
    decreases v, 1, 0
  {
    hide ReadValue, ReadItems, ReadFields, ReadString, ReadNumber, Paired;
    match v
    case Int(n) =>
      NumberKind(t, v, rest);
      IntCost(t, n, rest);
    case Num(spelling) =>
      NumberKind(t, v, rest);
      SpelledCost(t, spelling, rest);
    case Str(s) =>
      StringKind(t, v, rest);
      PairedTail(t);
      StringCost(t[1..], s, rest);
    case Arr(items) => ArrayCost(v, t, rest);
    case Obj(fields) => ObjectCost(v, t, rest);
    case _ => WordCost(v, t, rest);
  }

  lemma {:induction false} ArrayCost(v: Value, t: Text, rest: Text)
    requires v.Arr? && Canonicalize(v).Some? && ReadValue(t) == Some((Normalize(v), rest)) && Paired(t)
    ensures Costs(v, t, rest)
    decreases v, 0, |v.items| + 1
  {
    hide ReadValue, ReadItems, Paired, Join;
    ArrayOpens(t);
    PairedTail(t);
    ArrayLength(v);
    if |t| >= 2 && t[1] == RBRACKET {
      EmptyArrayRead(t);
      PairedTail(t[1..]);
      assert t[1..][1..] == t[2..];
    } else {
      ArrayRead(t);
      ItemsParts(t[1..], NormItems(v, 0), rest);
      ItemsCost(v, 0, t[1..], rest);
    }
  }

  lemma ArrayLength(v: Value)
    requires v.Arr? && Canonicalize(v).Some?
    ensures CanonItems(v, 0).Some? && |Canonicalize(v).value| == |Join(CanonItems(v, 0).value)| + 2
    ensures v.items == [] ==> |Canonicalize(v).value| == 2
  {
  }

  lemma {:induction false} ItemsCost(v: Value, from: nat, t: Text, rest: Text)
    requires v.Arr? && from < |v.items| && CanonItems(v, from).Some?
    requires ReadItems(t) == Some((NormItems(v, from), rest)) && Paired(t)
    ensures |Join(CanonItems(v, from).value)| + 1 + |rest| <= |t| && Paired(rest)
    decreases v, 0, |v.items| - from
  {
    hide ReadValue, ReadItems, Paired, Join;
    ItemsParts(t, NormItems(v, from), rest);
    var r := ReadValue(t).value.1;
    CanonicalCost(v.items[from], t, r);
    PairedTail(r);
    JoinLength(Canonicalize(v.items[from]).value, CanonItems(v, from + 1).value);
    if r[0] == COMMA {
      assert NormItems(v, from)[1..] == NormItems(v, from + 1);
      if from + 1 == |v.items| { ItemsParts(r[1..], NormItems(v, from + 1), rest); }
      ItemsCost(v, from + 1, r[1..], rest);
    }
  }

  lemma {:induction false} ObjectCost(v: Value, t: Text, rest: Text)
    requires v.Obj? && Canonicalize(v).Some? && ReadValue(t) == Some((Normalize(v), rest)) && Paired(t)
    ensures Costs(v, t, rest)
    decreases v, 0, |SortedKeys(v.fields)| + 1
  {
    hide ReadValue, ReadFields, Paired, Join;
    var keys := SortedKeys(v.fields);
    SortedKeysPresent(v.fields);
    ObjectOpens(t);
    PairedTail(t);
    ObjectLength(v);
    if |t| >= 2 && t[1] == RBRACE {
      EmptyObjectRead(t);
      PairedTail(t[1..]);
      assert t[1..][1..] == t[2..];
    } else {
      ObjectRead(t);
      FieldsParts(t[1..], NormFields(v, keys), rest);
      FieldsCost(v, keys, t[1..], rest);
    }
  }

  lemma ObjectLength(v: Value)
    requires v.Obj? && Canonicalize(v).Some?
    ensures HasKeys(v.fields, SortedKeys(v.fields)) && CanonPairs(v, SortedKeys(v.fields)).Some?
    ensures |Canonicalize(v).value| == |Join(CanonPairs(v, SortedKeys(v.fields)).value)| + 2
    ensures SortedKeys(v.fields) == [] ==> |Canonicalize(v).value| == 2
  {
    SortedKeysPresent(v.fields);
  }

  lemma {:induction false} FieldsCost(v: Value, keys: seq<Text>, t: Text, rest: Text)
    requires v.Obj? && keys != [] && HasKeys(v.fields, keys) && CanonPairs(v, keys).Some?
    requires ReadFields(t) == Some((NormFields(v, keys), rest)) && Paired(t)
    ensures |Join(CanonPairs(v, keys).value)| + 1 + |rest| <= |t| && Paired(rest)
    decreases v, 0, |keys|
  {
    hide ReadValue, ReadFields, ReadString, Paired, Join, HasKeys;
    KeysTail(v.fields, keys);
    FieldsParts(t, NormFields(v, keys), rest);
    var child := v.fields[IndexOf(v.fields, keys[0])].val;
    var a := ReadString(t[1..]).value.1;
    PairedTail(t);
    StringCost(t[1..], keys[0], a);
    PairedTail(a);
    var r := ReadValue(a[1..]).value.1;
    CanonicalCost(child, a[1..], r);
    PairedTail(r);
    PairLength(v, keys);
    if r[0] == COMMA {
      assert NormFields(v, keys)[1..] == NormFields(v, keys[1..]);
      if |keys| == 1 { FieldsParts(r[1..], NormFields(v, keys[1..]), rest); }
      FieldsCost(v, keys[1..], r[1..], rest);
    }
  }

  lemma KeysTail(fields: seq<Field>, keys: seq<Text>)
    requires keys != [] && HasKeys(fields, keys)
    ensures HasKeys(fields, keys[1..]) && exists j :: 0 <= j < |fields| && fields[j].key == keys[0]
  {
    var first := keys[0];
    assert exists j :: 0 <= j < |fields| && fields[j].key == keys[0];
    forall i | 0 <= i < |keys[1..]| ensures exists j :: 0 <= j < |fields| && fields[j].key == keys[1..][i] {
      assert keys[1..][i] == keys[i + 1];
    }
  }

  lemma PairLength(v: Value, keys: seq<Text>)
    requires v.Obj? && keys != [] && HasKeys(v.fields, keys) && CanonPairs(v, keys).Some?
    ensures HasKeys(v.fields, keys[1..]) && CanonPairs(v, keys[1..]).Some?
    ensures exists j :: 0 <= j < |v.fields| && v.fields[j].key == keys[0]
    ensures Canonicalize(v.fields[IndexOf(v.fields, keys[0])].val).Some?
    ensures |Join(CanonPairs(v, keys).value)|
            == |QuoteBody(keys[0])| + 3 + |Canonicalize(v.fields[IndexOf(v.fields, keys[0])].val).value|
               + if |keys| == 1 then 0 else 1 + |Join(CanonPairs(v, keys[1..]).value)|
  {
    hide Join, QuoteBody;
    KeysTail(v.fields, keys);
    var body := Canonicalize(v.fields[IndexOf(v.fields, keys[0])].val).value;
    JoinLength(Quote(keys[0]) + [COLON] + body, CanonPairs(v, keys[1..]).value);
  }

  /** Canonical text is the shortest: no well-formed text that parses to the key-sorted value is shorter. */
  lemma CanonicalIsShortest(v: Value, t: Text)
    requires Canonicalize(v).Some? && Parse(t) == Some(Normalize(v)) && Paired(t)
    ensures |Canonicalize(v).value| <= |t|
  {
    hide ReadValue, Normalize, Canonicalize, Paired;
    CanonicalCost(v, t, []);
  }
}

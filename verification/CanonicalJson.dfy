/** Canonical JSON for signed mesh blobs (pi-extension/src/mesh/canonical.ts).

    Text is a sequence of UTF-16 code units, as in the source: keys are ordered by code
    unit and `JSON.stringify` escapes lone surrogates. The printer is proved uniquely
    decodable against an independent recursive-descent reader. */
module CanonicalJson {
  import opened Prelude

  // ----- Values and text --------------------------------------------------

  /** A JavaScript value as `canonicalize` sees it. `Opaque` stands for functions, symbols
      and big integers, which print as null wherever they stand; only `Undefined` fields are
      dropped. A finite number is told apart by the decimal spelling the runtime gives it: `Int`
      when that is an integer, `Num` when it has a fraction or an exponent. `NonFinite` stands
      for NaN and the infinities. An object is its own enumerable fields in insertion order. */
  datatype Value =
    | Undefined
    | Opaque
    | Null
    | Bool(b: bool)
    | Int(n: int)
    | Num(spelling: Spelling)
    | NonFinite
    | Str(s: Text)
    | Arr(items: seq<Value>)
    | Obj(fields: seq<Field>)
  datatype Field = Field(key: Text, val: Value)

  const QUOTE: Unit := 34
  const PLUS: Unit := 43
  const DOT: Unit := 46
  const EXPONENT: Unit := 101
  const COMMA: Unit := 44
  const MINUS: Unit := 45
  const COLON: Unit := 58
  const LBRACKET: Unit := 91
  const BACKSLASH: Unit := 92
  const RBRACKET: Unit := 93
  const LBRACE: Unit := 123
  const RBRACE: Unit := 125
  const NULL_TEXT: Text := [110, 117, 108, 108]
  const TRUE_TEXT: Text := [116, 114, 117, 101]
  const FALSE_TEXT: Text := [102, 97, 108, 115, 101]

  /** A JavaScript object never has two fields with one key. */
  ghost predicate WellFormed(v: Value) {
    match v
    case Arr(items) => forall i | 0 <= i < |items| :: WellFormed(items[i])
    case Obj(fields) =>
      && (forall i, j | 0 <= i < j < |fields| :: fields[i].key != fields[j].key)
      && forall i | 0 <= i < |fields| :: WellFormed(fields[i].val)
    case _ => true
  }

  // ----- Numbers ------------------------------------------------------------

  predicate IsDigit(u: Unit) { 48 <= u <= 57 }

  function ReadNat(t: Text, acc: nat): (r: (nat, Text))
    ensures |r.1| <= |t|
  {
    if t != [] && IsDigit(t[0]) then ReadNat(t[1..], acc * 10 + (t[0] - 48) as nat) else (acc, t)
  }

  predicate IsNumeral(u: Unit) { IsDigit(u) || u == DOT || u == EXPONENT || u == PLUS || u == MINUS }

  /** How many numeral characters stand at the front. */
  function NumeralRun(t: Text): (n: nat)
    ensures n <= |t|
  {
    if t != [] && IsNumeral(t[0]) then 1 + NumeralRun(t[1..]) else 0
  }

  predicate OpensFraction(t: Text) { t != [] && (t[0] == DOT || t[0] == EXPONENT) }

  function Unsigned(t: Text): Text { if t != [] && t[0] == MINUS then t[1..] else t }

  /** Digits after an optional minus, then a fraction or an exponent. */
  predicate IsSpelling(t: Text) {
    var d := Unsigned(t);
    d != [] && IsDigit(d[0]) && var rest := ReadNat(d, 0).1; OpensFraction(rest) && NumeralRun(rest) == |rest|
  }

  lemma HalfIsSpelling()
    ensures IsSpelling([48, DOT, 53])
  {
    var t: Text := [48, DOT, 53];
    assert t[1..] == [DOT, 53] && t[1..][1..] == [53] && t[1..][1..][1..] == [];
    assert ReadNat(t, 0).1 == [DOT, 53];
  }

  type Spelling = t: Text | IsSpelling(t) witness (HalfIsSpelling(); [48, DOT, 53])

  // ----- Key order --------------------------------------------------------

  /** Lexicographic order by UTF-16 code unit, as `Array.prototype.sort`. */
  predicate Less(a: Text, b: Text) {
    if b == [] then false
    else if a == [] then true
    else a[0] < b[0] || (a[0] == b[0] && Less(a[1..], b[1..]))
  }

  lemma {:induction false} LessTotal(a: Text, b: Text)
    ensures Less(a, b) || Less(b, a) || a == b
    ensures !(Less(a, b) && Less(b, a))
    ensures !Less(a, a)
  {
    if a != [] {
      LessTotal(a[1..], a[1..]);
      if b != [] && a[0] == b[0] {
        LessTotal(a[1..], b[1..]);
        assert a == [a[0]] + a[1..] && b == [b[0]] + b[1..];
      }
    }
  }

  lemma {:induction false} LessTransitive(a: Text, b: Text, c: Text)
    requires Less(a, b) && Less(b, c)
    ensures Less(a, c)
  {
    if a != [] && a[0] == b[0] == c[0] {
      LessTransitive(a[1..], b[1..], c[1..]);
    }
  }

  function Insert(k: Text, keys: seq<Text>): seq<Text> {
    if keys == [] || Less(k, keys[0]) then [k] + keys
    else [keys[0]] + Insert(k, keys[1..])
  }

  function SortKeys(keys: seq<Text>): seq<Text> {
    if keys == [] then [] else Insert(keys[0], SortKeys(keys[1..]))
  }

  ghost function Elements(keys: seq<Text>): set<Text> { set k | k in keys }

  ghost predicate Ascending(keys: seq<Text>) {
    forall i, j | 0 <= i < j < |keys| :: Less(keys[i], keys[j])
  }

  lemma {:induction false} InsertAscending(k: Text, keys: seq<Text>)
    requires Ascending(keys) && k !in keys
    ensures Ascending(Insert(k, keys)) && Elements(Insert(k, keys)) == Elements(keys) + {k}
  {
    if keys == [] {
    } else if Less(k, keys[0]) {
      forall j | 0 < j < |keys| ensures Less(k, keys[j]) { LessTransitive(k, keys[0], keys[j]); }
    } else {
      LessTotal(k, keys[0]);
      assert keys[1..] == keys[1..];
      InsertAscending(k, keys[1..]);
      var rest := Insert(k, keys[1..]);
      forall j | 0 <= j < |rest| ensures Less(keys[0], rest[j]) {
        assert rest[j] in Elements(rest);
        if rest[j] != k {
          var i :| 0 <= i < |keys[1..]| && keys[1..][i] == rest[j];
          assert keys[1..][i] == keys[i + 1];
        }
      }
      assert Elements(keys) == Elements(keys[1..]) + {keys[0]};
      assert Elements([keys[0]] + rest) == Elements(rest) + {keys[0]};
    }
  }

  lemma {:induction false} SortKeysAscending(keys: seq<Text>)
    requires Distinct(keys)
    ensures Ascending(SortKeys(keys)) && Elements(SortKeys(keys)) == Elements(keys)
  {
    if keys != [] {
      SortKeysAscending(keys[1..]);
      assert keys[0] !in Elements(keys[1..]);
      assert keys[0] !in SortKeys(keys[1..]) by {
        assert keys[0] !in Elements(SortKeys(keys[1..]));
      }
      InsertAscending(keys[0], SortKeys(keys[1..]));
      assert Elements(keys) == Elements(keys[1..]) + {keys[0]};
    }
  }

  /** A set of keys has only one ascending listing. */
  lemma {:induction false} AscendingUnique(a: seq<Text>, b: seq<Text>)
    requires Ascending(a) && Ascending(b) && Elements(a) == Elements(b)
    ensures a == b
  {
    assert a != [] ==> a[0] in Elements(a);
    assert b != [] ==> b[0] in Elements(b);
    if a != [] {
      var i :| 0 <= i < |b| && b[i] == a[0];
      var j :| 0 <= j < |a| && a[j] == b[0];
      LessTotal(a[0], b[0]);
      assert a[0] == b[0];
      forall k | k in Elements(a[1..]) ensures k in Elements(b[1..]) { AscendingTail(a, b, k); }
      forall k | k in Elements(b[1..]) ensures k in Elements(a[1..]) { AscendingTail(b, a, k); }
      AscendingUnique(a[1..], b[1..]);
      assert a == [a[0]] + a[1..] && b == [b[0]] + b[1..];
    }
  }

  lemma AscendingTail(a: seq<Text>, b: seq<Text>, k: Text)
    requires a != [] && b != [] && a[0] == b[0]
    requires Ascending(a) && Elements(a) == Elements(b) && k in a[1..]
    ensures k in b[1..]
  {
    var i :| 0 <= i < |a[1..]| && a[1..][i] == k;
    LessTotal(a[0], k);
    assert k in Elements(b);
    var j :| 0 <= j < |b| && b[j] == k;
    assert j != 0;
    assert b[1..][j - 1] == k;
  }

  // ----- The printer ------------------------------------------------------

  predicate IsLead(u: Unit) { 0xD800 <= u <= 0xDBFF }
  predicate IsTrail(u: Unit) { 0xDC00 <= u <= 0xDFFF }

  function HexDigit(d: Unit): Unit
    requires d < 16
  {
    if d < 10 then 48 + d else 87 + d
  }

  function UnicodeEscape(u: Unit): Text {
    [BACKSLASH, 117, HexDigit(u / 4096), HexDigit(u / 256 % 16), HexDigit(u / 16 % 16), HexDigit(u % 16)]
  }

  /** The escape of one code unit that is not half of a surrogate pair (ECMAScript QuoteJSONString). */
  function EscapeUnit(u: Unit): Text {
    if u == 8 then [BACKSLASH, 98]
    else if u == 9 then [BACKSLASH, 116]
    else if u == 10 then [BACKSLASH, 110]
    else if u == 12 then [BACKSLASH, 102]
    else if u == 13 then [BACKSLASH, 114]
    else if u == QUOTE || u == BACKSLASH then [BACKSLASH, u]
    else if u < 32 || IsLead(u) || IsTrail(u) then UnicodeEscape(u)
    else [u]
  }

  function QuoteBody(s: Text): Text {
    if s == [] then []
    else if |s| > 1 && IsLead(s[0]) && IsTrail(s[1]) then s[..2] + QuoteBody(s[2..])
    else EscapeUnit(s[0]) + QuoteBody(s[1..])
  }

  /** `JSON.stringify` of a string. */
  function Quote(s: Text): Text { [QUOTE] + QuoteBody(s) + [QUOTE] }

  function PrintNat(n: nat): Text {
    if n < 10 then [48 + n as Unit] else PrintNat(n / 10) + [48 + (n % 10) as Unit]
  }

  /** `JSON.stringify` of an integer. */
  function PrintInt(n: int): Text { if n < 0 then [MINUS] + PrintNat(-n) else PrintNat(n) }

  function Join(parts: seq<Text>): Text {
    if parts == [] then []
    else if |parts| == 1 then parts[0]
    else parts[0] + [COMMA] + Join(parts[1..])
  }

  /** Keys of the fields that are not undefined, in insertion order. */
  function VisibleKeys(fields: seq<Field>): seq<Text> {
    if fields == [] then []
    else (if fields[0].val == Undefined then [] else [fields[0].key]) + VisibleKeys(fields[1..])
  }

  /** Position of the field named `k`. */
  function IndexOf(fields: seq<Field>, k: Text): (i: nat)
    requires exists j :: 0 <= j < |fields| && fields[j].key == k
    ensures i < |fields| && fields[i].key == k
    ensures forall j | 0 <= j < i :: fields[j].key != k
  {
    if fields[0].key == k then 0
    else
      assert exists j :: 0 <= j < |fields[1..]| && fields[1..][j].key == k by {
        var j :| 0 <= j < |fields| && fields[j].key == k;
        assert fields[1..][j - 1].key == k;
      }
      1 + IndexOf(fields[1..], k)
  }

  ghost predicate HasKeys(fields: seq<Field>, keys: seq<Text>) {
    forall i | 0 <= i < |keys| :: exists j :: 0 <= j < |fields| && fields[j].key == keys[i]
  }

  lemma {:induction false} VisibleKeysExact(fields: seq<Field>, k: Text)
    ensures k in VisibleKeys(fields)
            <==> exists j :: 0 <= j < |fields| && fields[j].key == k && fields[j].val != Undefined
  {
    if fields != [] {
      VisibleKeysExact(fields[1..], k);
      if j :| 0 <= j < |fields| && fields[j].key == k && fields[j].val != Undefined {
        if j > 0 { assert fields[1..][j - 1] == fields[j]; }
      }
      if j :| 0 <= j < |fields[1..]| && fields[1..][j].key == k && fields[1..][j].val != Undefined {
        assert fields[j + 1] == fields[1..][j];
      }
    }
  }

  lemma {:induction false} VisibleKeysDistinct(fields: seq<Field>)
    requires forall i, j | 0 <= i < j < |fields| :: fields[i].key != fields[j].key
    ensures Distinct(VisibleKeys(fields))
  {
    if fields != [] {
      VisibleKeysDistinct(fields[1..]);
      VisibleKeysExact(fields[1..], fields[0].key);
      var ks, rest := VisibleKeys(fields), VisibleKeys(fields[1..]);
      assert fields[0].key !in rest;
      forall i, j | 0 <= i < j < |ks| ensures ks[i] != ks[j] {
        if fields[0].val != Undefined { assert ks[j] == rest[j - 1]; if i > 0 { assert ks[i] == rest[i - 1]; } }
      }
    }
  }

  /** The keys in print order: present, ascending, one per visible field. */
  function SortedKeys(fields: seq<Field>): seq<Text> { SortKeys(VisibleKeys(fields)) }

  lemma {:induction false} InsertKeeps(k: Text, keys: seq<Text>)
    ensures forall x :: x in Insert(k, keys) ==> x == k || x in keys
  {
    if keys != [] && !Less(k, keys[0]) { InsertKeeps(k, keys[1..]); }
  }

  lemma {:induction false} SortKeeps(keys: seq<Text>)
    ensures forall x :: x in SortKeys(keys) ==> x in keys
  {
    if keys != [] {
      SortKeeps(keys[1..]);
      InsertKeeps(keys[0], SortKeys(keys[1..]));
    }
  }

  lemma SortedKeysPresent(fields: seq<Field>)
    ensures HasKeys(fields, SortedKeys(fields))
  {
    SortKeeps(VisibleKeys(fields));
    forall i | 0 <= i < |SortedKeys(fields)|
      ensures exists j :: 0 <= j < |fields| && fields[j].key == SortedKeys(fields)[i]
    {
      VisibleKeysExact(fields, SortedKeys(fields)[i]);
    }
  }

  /** `canonicalize`: `None` is the thrown "non-finite number" error. */
  function Canonicalize(v: Value): Option<Text>
    decreases v, 1, 0
  {
    match v
    case Undefined => Some(NULL_TEXT)
    case Opaque => Some(NULL_TEXT)
    case Null => Some(NULL_TEXT)
    case Bool(b) => Some(if b then TRUE_TEXT else FALSE_TEXT)
    case Int(n) => Some(PrintInt(n))
    case Num(spelling) => Some(spelling)
    case NonFinite => None
    case Str(s) => Some(Quote(s))
    case Arr(items) =>
      var parts :- CanonItems(v, 0);
      Some([LBRACKET] + Join(parts) + [RBRACKET])
    case Obj(fields) =>
      SortedKeysPresent(fields);
      var parts :- CanonPairs(v, SortedKeys(fields));
      Some([LBRACE] + Join(parts) + [RBRACE])
  }

  function CanonItems(v: Value, from: nat): (r: Option<seq<Text>>)
    requires v.Arr? && from <= |v.items|
    ensures r.Some? ==> |r.value| == |v.items| - from
    decreases v, 0, |v.items| - from
  {
    if from == |v.items| then Some([])
    else
      var head :- Canonicalize(v.items[from]);
      var tail :- CanonItems(v, from + 1);
      Some([head] + tail)
  }

  function CanonPairs(v: Value, keys: seq<Text>): (r: Option<seq<Text>>)
    requires v.Obj? && HasKeys(v.fields, keys)
    ensures r.Some? ==> |r.value| == |keys|
    decreases v, 0, |keys|
  {
    if keys == [] then Some([])
    else
      var body :- Canonicalize(v.fields[IndexOf(v.fields, keys[0])].val);
      var tail :- CanonPairs(v, keys[1..]);
      Some([Quote(keys[0]) + [COLON] + body] + tail)
  }

  // ----- The reader -------------------------------------------------------

  function HexValue(u: Unit): Option<Unit> {
    if 48 <= u <= 57 then Some(u - 48)
    else if 97 <= u <= 102 then Some(u - 87)
    else if 65 <= u <= 70 then Some(u - 55)
    else None
  }

  function ReadHex4(t: Text): (r: Option<Unit>)
    requires |t| >= 4
  {
    var a :- HexValue(t[0]);
    var b :- HexValue(t[1]);
    var c :- HexValue(t[2]);
    var d :- HexValue(t[3]);
    if a < 16 && b < 16 && c < 16 && d < 16 then Some(a * 4096 + b * 256 + c * 16 + d) else None
  }

  function SimpleEscape(u: Unit): Option<Unit> {
    if u == 98 then Some(8)
    else if u == 116 then Some(9)
    else if u == 110 then Some(10)
    else if u == 102 then Some(12)
    else if u == 114 then Some(13)
    else if u == QUOTE || u == BACKSLASH || u == 47 then Some(u)
    else None
  }

  /** Reads one string character; the second component counts the code units used. */
  function ReadChar(t: Text): (r: Option<(Unit, nat)>)
    requires t != []
    ensures r.Some? ==> 0 < r.value.1 <= |t|
  {
    if t[0] < 32 then None
    else if t[0] != BACKSLASH then Some((t[0], 1))
    else if |t| >= 6 && t[1] == 117 then
      var u :- ReadHex4(t[2..6]);
      Some((u, 6))
    else if |t| >= 2 then
      var u :- SimpleEscape(t[1]);
      Some((u, 2))
    else None
  }

  /** Reads string characters up to and including the closing quote. */
  function ReadString(t: Text): (r: Option<(Text, Text)>)
    ensures r.Some? ==> |r.value.1| < |t|
  {
    if t == [] then None
    else if t[0] == QUOTE then Some(([], t[1..]))
    else
      var (u, used) :- ReadChar(t);
      var (s, rest) :- ReadString(t[used..]);
      Some(([u] + s, rest))
  }

  function ReadLiteral(t: Text, word: Text, v: Value): (r: Option<(Value, Text)>)
    requires word != []
    ensures r.Some? ==> |r.value.1| < |t|
  {
    if word <= t then Some((v, t[|word|..])) else None
  }

  /** Reads a number; with a fraction or an exponent it is kept as spelled. */
  function ReadNumber(t: Text): (r: Option<(Value, Text)>)
    ensures r.Some? ==> |r.value.1| < |t|
  {
    var d := Unsigned(t);
    if d == [] || !IsDigit(d[0]) then None
    else
      var (n, rest) := ReadNat(d[1..], (d[0] - 48) as nat);
      if OpensFraction(rest) then
        var spelling := t[..|t| - |rest| + NumeralRun(rest)];
        if IsSpelling(spelling) then Some((Num(spelling), rest[NumeralRun(rest)..])) else None
      else Some((Int(if t[0] == MINUS then -(n as int) else n as int), rest))
  }

  /** Reads one JSON value from the front of `t`. */
  function ReadValue(t: Text): (r: Option<(Value, Text)>)
    ensures r.Some? ==> |r.value.1| < |t|
    decreases |t|, 1
  {
    if t == [] then None
    else if t[0] == 110 then ReadLiteral(t, NULL_TEXT, Null)
    else if t[0] == 116 then ReadLiteral(t, TRUE_TEXT, Bool(true))
    else if t[0] == 102 then ReadLiteral(t, FALSE_TEXT, Bool(false))
    else if t[0] == QUOTE then
      var (s, rest) :- ReadString(t[1..]);
      Some((Str(s), rest))
    else if t[0] == MINUS || IsDigit(t[0]) then ReadNumber(t)
    else if t[0] == LBRACKET then
      if |t| > 1 && t[1] == RBRACKET then Some((Arr([]), t[2..]))
      else
        var (items, rest) :- ReadItems(t[1..]);
        Some((Arr(items), rest))
    else if t[0] == LBRACE then
      if |t| > 1 && t[1] == RBRACE then Some((Obj([]), t[2..]))
      else
        var (fields, rest) :- ReadFields(t[1..]);
        Some((Obj(fields), rest))
    else None
  }

  function ReadItems(t: Text): (r: Option<(seq<Value>, Text)>)
    ensures r.Some? ==> |r.value.1| < |t|
    decreases |t|, 2
  {
    var (v, rest) :- ReadValue(t);
    if rest == [] then None
    else if rest[0] == RBRACKET then Some(([v], rest[1..]))
    else if rest[0] == COMMA then
      var (vs, rest') :- ReadItems(rest[1..]);
      Some(([v] + vs, rest'))
    else None
  }

  function ReadFields(t: Text): (r: Option<(seq<Field>, Text)>)
    ensures r.Some? ==> |r.value.1| < |t|
    decreases |t|, 2
  {
    if t == [] || t[0] != QUOTE then None
    else
      var (k, afterKey) :- ReadString(t[1..]);
      if afterKey == [] || afterKey[0] != COLON then None
      else
        var (v, rest) :- ReadValue(afterKey[1..]);
        if rest == [] then None
        else if rest[0] == RBRACE then Some(([Field(k, v)], rest[1..]))
        else if rest[0] == COMMA then
          var (fs, rest') :- ReadFields(rest[1..]);
          Some(([Field(k, v)] + fs, rest'))
        else None
  }

  /** A whole document: one value and nothing after it. */
  function Parse(t: Text): Option<Value> {
    var (v, rest) :- ReadValue(t);
    if rest == [] then Some(v) else None
  }

  // ----- What a value means -----------------------------------------------

  /** The value a reader gets back: undefined is null in arrays and at the root, undefined
      fields are gone, keys ascend. */
  function Normalize(v: Value): Value
    decreases v, 1, 0
  {
    match v
    case Undefined => Null
    case Opaque => Null
    case Arr(items) => Arr(NormItems(v, 0))
    case Obj(fields) => SortedKeysPresent(fields); Obj(NormFields(v, SortedKeys(fields)))
    case _ => v
  }

  function NormItems(v: Value, from: nat): (r: seq<Value>)
    requires v.Arr? && from <= |v.items|
    ensures |r| == |v.items| - from
    ensures forall i | 0 <= i < |r| :: r[i] == Normalize(v.items[from + i])
    decreases v, 0, |v.items| - from
  {
    if from == |v.items| then [] else [Normalize(v.items[from])] + NormItems(v, from + 1)
  }

  function NormFields(v: Value, keys: seq<Text>): (r: seq<Field>)
    requires v.Obj? && HasKeys(v.fields, keys)
    ensures |r| == |keys|
    ensures forall i | 0 <= i < |r| ::
      r[i].key == keys[i] && r[i].val == Normalize(v.fields[IndexOf(v.fields, keys[i])].val)
    decreases v, 0, |keys|
  {
    if keys == [] then []
    else [Field(keys[0], Normalize(v.fields[IndexOf(v.fields, keys[0])].val))] + NormFields(v, keys[1..])
  }

  /** Equality up to object key order, reading undefined as JSON does. Independent of sorting. */
  ghost predicate Equivalent(v: Value, w: Value)
    decreases v
  {
    match (v, w)
    case (Arr(xs), Arr(ys)) => |xs| == |ys| && forall i | 0 <= i < |xs| :: Equivalent(xs[i], ys[i])
    case (Obj(f), Obj(g)) =>
      && Elements(VisibleKeys(f)) == Elements(VisibleKeys(g))
      && forall i, j | 0 <= i < |f| && 0 <= j < |g| && f[i].key == g[j].key
                       && f[i].val != Undefined && g[j].val != Undefined ::
           Equivalent(f[i].val, g[j].val)
    case (_, _) => v == w || (v in {Undefined, Opaque, Null} && w in {Undefined, Opaque, Null})
  }

  /** Whether canonicalisation reaches a NaN or an infinity. */
  ghost predicate ReachesNonFinite(v: Value) {
    match v
    case NonFinite => true
    case Arr(items) => exists i :: 0 <= i < |items| && ReachesNonFinite(items[i])
    case Obj(fields) => exists i :: 0 <= i < |fields| && ReachesNonFinite(fields[i].val)
    case _ => false
  }

  // ----- Reading back tokens ----------------------------------------------

  lemma HexDigits(a: Unit, b: Unit, c: Unit, d: Unit)
    requires a < 16 && b < 16 && c < 16 && d < 16
    ensures ReadHex4([HexDigit(a), HexDigit(b), HexDigit(c), HexDigit(d)]) == Some(a * 4096 + b * 256 + c * 16 + d)
  {
  }

  lemma Nibbles(u: Unit)
    ensures u / 4096 < 16 && u / 4096 * 4096 + u / 256 % 16 * 256 + u / 16 % 16 * 16 + u % 16 == u
  {
    var h, q := u / 16, u / 256;
    assert u == h * 16 + u % 16;
    assert q == h / 16 && h == q * 16 + h % 16;
    assert u / 4096 == q / 16 && q == q / 16 * 16 + q % 16;
  }

  lemma ReadEscapedChar(u: Unit, tail: Text)
    ensures ReadChar(EscapeUnit(u) + tail) == Some((u, |EscapeUnit(u)|))
    ensures EscapeUnit(u)[0] != QUOTE
  {
    var e := EscapeUnit(u);
    var t := e + tail;
    assert t[0] == e[0];
    if |e| == 6 {
      Nibbles(u);
      HexDigits(u / 4096, u / 256 % 16, u / 16 % 16, u % 16);
      assert t[2..6] == e[2..6] == [HexDigit(u / 4096), HexDigit(u / 256 % 16), HexDigit(u / 16 % 16), HexDigit(u % 16)];
    } else if |e| == 2 {
      assert t[1] == e[1] && e[1] != 117;
    }
  }

  lemma ReadStringStep(e: Text, u: Unit, tail: Text)
    requires e != [] && e[0] != QUOTE && ReadChar(e + tail) == Some((u, |e|))
    requires ReadString(tail).Some?
    ensures ReadString(e + tail) == Some(([u] + ReadString(tail).value.0, ReadString(tail).value.1))
  {
    assert (e + tail)[0] == e[0];
    assert (e + tail)[|e|..] == tail;
  }

  lemma ReadPair(lead: Unit, trail: Unit, rest: Text)
    requires IsLead(lead) && IsTrail(trail) && ReadString(rest).Some?
    ensures ReadString([lead, trail] + rest)
            == Some(([lead, trail] + ReadString(rest).value.0, ReadString(rest).value.1))
  {
    hide ReadString, ReadChar;
    var text := ReadString(rest).value.0;
    RawChar(trail, rest);
    RawChar(lead, [trail] + rest);
    ReadStringStep([trail], trail, rest);
    ReadStringStep([lead], lead, [trail] + rest);
    assert [lead, trail] == [lead] + [trail];
    ConcatAssociates([lead], [trail], rest);
    ConcatAssociates([lead], [trail], text);
  }

  /** A character that needs no escape stands for itself. */
  lemma RawChar(u: Unit, tail: Text)
    requires u >= 32 && u != BACKSLASH && u != QUOTE
    ensures ReadChar([u] + tail) == Some((u, 1))
  {
  }

  /** How many code units of `s` the printer handles at once. */
  function Group(s: Text): (n: nat)
    requires s != []
  {
    if |s| > 1 && IsLead(s[0]) && IsTrail(s[1]) then 2 else 1
  }

  lemma QuotedGroup(s: Text, end: Text)
    requires s != []
    ensures QuoteBody(s) + end
            == (if Group(s) == 2 then [s[0], s[1]] else EscapeUnit(s[0])) + (QuoteBody(s[Group(s)..]) + end)
    ensures s[..Group(s)] == if Group(s) == 2 then [s[0], s[1]] else [s[0]]
  {
  }

  lemma ReadGroup(s: Text, rest: Text)
    requires s != [] && ReadString(rest).Some?
    ensures ReadString((if Group(s) == 2 then [s[0], s[1]] else EscapeUnit(s[0])) + rest)
            == Some((s[..Group(s)] + ReadString(rest).value.0, ReadString(rest).value.1))
  {
    QuotedGroup(s, []);
    if Group(s) == 2 {
      ReadPair(s[0], s[1], rest);
    } else {
      ReadEscapedChar(s[0], rest);
      ReadStringStep(EscapeUnit(s[0]), s[0], rest);
    }
  }

  /** The reader undoes the escaping of every string, lone surrogates included. */
  lemma {:induction false} ReadQuoted(s: Text, tail: Text)
    ensures ReadString(QuoteBody(s) + ([QUOTE] + tail)) == Some((s, tail))
  {
    var end := [QUOTE] + tail;
    if s == [] {
      assert QuoteBody(s) + end == end;
      assert end[1..] == tail;
    } else {
      ReadQuoted(s[Group(s)..], tail);
      QuotedGroup(s, end);
      ReadGroup(s, QuoteBody(s[Group(s)..]) + end);
      assert s[..Group(s)] + s[Group(s)..] == s;
    }
  }

  lemma {:induction false} ReadPrintedNat(n: nat, tail: Text)
    ensures PrintNat(n) != [] && IsDigit(PrintNat(n)[0])
    ensures ReadNat(PrintNat(n) + tail, 0) == ReadNat(tail, n)
  {
    if n < 10 {
      assert (PrintNat(n) + tail)[1..] == tail;
    } else {
      var last: Text := [48 + (n % 10) as Unit];
      ReadPrintedNat(n / 10, last + tail);
      assert PrintNat(n) + tail == PrintNat(n / 10) + (last + tail);
      assert (last + tail)[1..] == tail;
    }
  }

  /** What may follow a printed value: the end, a comma or a closing bracket. */
  predicate Delimited(tail: Text) {
    tail == [] || tail[0] == COMMA || tail[0] == RBRACKET || tail[0] == RBRACE
  }

  lemma ReadPrintedInt(n: int, tail: Text)
    requires Delimited(tail)
    ensures ReadValue(PrintInt(n) + tail) == Some((Int(n), tail))
  {
    ReadPrintedNat(if n < 0 then -n else n, tail);
    var digits := PrintNat(if n < 0 then -n else n);
    var t := PrintInt(n) + tail;
    assert Unsigned(t) == digits + tail;
    ReadNatEnds(tail, if n < 0 then -n else n);
    ReadDigits(t, tail);
  }

  lemma ReadNatEnds(tail: Text, acc: nat)
    requires Delimited(tail)
    ensures ReadNat(tail, acc) == (acc, tail)
  {
  }

  /** A number without fraction or exponent, read by its digits. */
  lemma ReadDigits(t: Text, tail: Text)
    requires t != [] && (t[0] == MINUS || IsDigit(t[0]))
    requires var d := Unsigned(t); d != [] && IsDigit(d[0]) && ReadNat(d, 0).1 == tail
    requires Delimited(tail)
    ensures var n := ReadNat(Unsigned(t), 0).0 as int;
            ReadValue(t) == Some((Int(if t[0] == MINUS then -n else n), tail))
  {
    var d := Unsigned(t);
    assert ReadNat(d, 0) == ReadNat(d[1..], (d[0] - 48) as nat);
  }

  lemma {:induction false} ReadNatStops(d: Text, acc: nat, tail: Text)
    requires ReadNat(d, acc).1 != []
    ensures ReadNat(d + tail, acc) == (ReadNat(d, acc).0, ReadNat(d, acc).1 + tail)
    decreases |d|
  {
    if IsDigit(d[0]) {
      ReadNatStops(d[1..], acc * 10 + (d[0] - 48) as nat, tail);
      assert (d + tail)[1..] == d[1..] + tail;
    }
  }

  lemma {:induction false} NumeralRunStops(t: Text, tail: Text)
    requires NumeralRun(t) == |t| && Delimited(tail)
    ensures NumeralRun(t + tail) == |t|
  {
    if t == [] {
      assert t + tail == tail;
    } else {
      NumeralRunStops(t[1..], tail);
      assert (t + tail)[1..] == t[1..] + tail;
    }
  }

  /** A number with a fraction or an exponent reads back as spelled. */
  lemma ReadSpelled(s: Spelling, tail: Text)
    requires Delimited(tail)
    ensures ReadValue(s + tail) == Some((Num(s), tail))
  {
    var d, t := Unsigned(s), s + tail;
    var rest := ReadNat(d, 0).1;
    SpellingParts(s);
    SignApart(s, tail);
    ReadNatStops(d, 0, tail);
    NumeralRunStops(rest, tail);
    NumberIsRead(t);
    hide *;
    SpelledNumber(t, rest + tail, |rest|);
    assert (rest + tail)[|rest|..] == tail;
    assert t[..|t| - |rest + tail| + |rest|] == s;
  }

  lemma SpellingParts(s: Spelling)
    ensures s != [] && (s[0] == MINUS || IsDigit(s[0]))
    ensures var d := Unsigned(s);
            && d != [] && IsDigit(d[0])
            && var rest := ReadNat(d, 0).1; OpensFraction(rest) && NumeralRun(rest) == |rest|
  {
  }

  lemma SpelledNumber(t: Text, rest: Text, k: nat)
    requires t != [] && Unsigned(t) != [] && IsDigit(Unsigned(t)[0]) && ReadNat(Unsigned(t), 0).1 == rest
    requires OpensFraction(rest) && NumeralRun(rest) == k <= |rest| <= |t| && IsSpelling(t[..|t| - |rest| + k])
    ensures ReadNumber(t) == Some((Num(t[..|t| - |rest| + k]), rest[k..]))
  {
    hide ReadNat, NumeralRun, IsSpelling;
    ReadNatFirst(Unsigned(t));
  }

  lemma SignApart(s: Text, tail: Text)
    requires s != []
    ensures Unsigned(s + tail) == Unsigned(s) + tail
  {
  }

  lemma ReadNatFirst(d: Text)
    requires d != [] && IsDigit(d[0])
    ensures ReadNat(d, 0) == ReadNat(d[1..], (d[0] - 48) as nat)
  {
  }

  lemma NumberIsRead(t: Text)
    requires t != [] && (t[0] == MINUS || IsDigit(t[0]))
    ensures ReadValue(t) == ReadNumber(t)
  {
    hide ReadNumber;
  }

  // ----- Single steps of the reader -----------------------------------------

  lemma ReadStringValue(s: Text, tail: Text)
    ensures ReadValue(Quote(s) + tail) == Some((Str(s), tail))
  {
    ReadQuoted(s, tail);
    assert (Quote(s) + tail)[1..] == QuoteBody(s) + ([QUOTE] + tail);
  }

  lemma ReadArray(t: Text, items: seq<Value>, tail: Text)
    requires t != [] && t[0] != RBRACKET && ReadItems(t) == Some((items, tail))
    ensures ReadValue([LBRACKET] + t) == Some((Arr(items), tail))
  {
    var u := [LBRACKET] + t;
    assert u[0] == LBRACKET && u[1] == t[0] && u[1..] == t;
  }

  lemma ReadObject(t: Text, fields: seq<Field>, tail: Text)
    requires t != [] && t[0] == QUOTE && ReadFields(t) == Some((fields, tail))
    ensures ReadValue([LBRACE] + t) == Some((Obj(fields), tail))
  {
    var u := [LBRACE] + t;
    assert u[0] == LBRACE && u[1] == t[0] && u[1..] == t;
  }

  lemma ReadLastItem(t: Text, v: Value, tail: Text)
    requires ReadValue(t) == Some((v, [RBRACKET] + tail))
    ensures ReadItems(t) == Some(([v], tail))
  {
    assert ([RBRACKET] + tail)[1..] == tail;
  }

  lemma ReadNextItem(t: Text, v: Value, next: Text)
    requires ReadValue(t) == Some((v, [COMMA] + next)) && ReadItems(next).Some?
    ensures ReadItems(t) == Some(([v] + ReadItems(next).value.0, ReadItems(next).value.1))
  {
    assert ([COMMA] + next)[1..] == next;
  }

  /** Reads `"key":value` and says what the reader sees next. */
  lemma ReadKey(k: Text, body: Text)
    ensures var t := Quote(k) + ([COLON] + body);
            t[0] == QUOTE && ReadString(t[1..]) == Some((k, [COLON] + body)) && ([COLON] + body)[1..] == body
  {
    var t := Quote(k) + ([COLON] + body);
    ReadQuoted(k, [COLON] + body);
    assert t[1..] == QuoteBody(k) + ([QUOTE] + ([COLON] + body));
  }

  lemma ReadLastField(k: Text, body: Text, v: Value, tail: Text)
    requires ReadValue(body) == Some((v, [RBRACE] + tail))
    ensures ReadFields(Quote(k) + ([COLON] + body)) == Some(([Field(k, v)], tail))
  {
    ReadKey(k, body);
    assert ([RBRACE] + tail)[1..] == tail;
  }

  lemma ReadNextField(k: Text, body: Text, v: Value, next: Text)
    requires ReadValue(body) == Some((v, [COMMA] + next)) && ReadFields(next).Some?
    ensures ReadFields(Quote(k) + ([COLON] + body))
            == Some(([Field(k, v)] + ReadFields(next).value.0, ReadFields(next).value.1))
  {
    ReadKey(k, body);
    assert ([COMMA] + next)[1..] == next;
  }

  // ----- Round trip -------------------------------------------------------

  /** Reading a printed value yields its normal form and leaves exactly what followed it. */
  lemma {:induction false} ReadCanonical(v: Value, tail: Text)
    requires Canonicalize(v).Some? && Delimited(tail)
    ensures ReadValue(Canonicalize(v).value + tail) == Some((Normalize(v), tail))
    decreases v, 1, 0
  {
    match v
    case Int(n) => ReadPrintedInt(n, tail);
    case Num(spelling) => ReadSpelled(spelling, tail);
    case Str(s) => ReadStringValue(s, tail);
    case Arr(items) => ReadCanonicalArray(v, tail);
    case Obj(fields) => ReadCanonicalObject(v, tail);
    case _ => ReadWord(v, tail);
  }

  lemma ReadWord(v: Value, tail: Text)
    requires v.Undefined? || v.Opaque? || v.Null? || v.Bool? || v.NonFinite?
    requires Canonicalize(v).Some?
    ensures ReadValue(Canonicalize(v).value + tail) == Some((Normalize(v), tail))
  {
    var word := Canonicalize(v).value;
    var t := word + tail;
    assert t[0] == word[0] && t[|word|..] == tail;
  }

  lemma ReadEmptyArray(tail: Text)
    ensures ReadValue([LBRACKET] + (Join([]) + ([RBRACKET] + tail))) == Some((Arr([]), tail))
  {
    var t := [LBRACKET] + (Join([]) + ([RBRACKET] + tail));
    assert t[0] == LBRACKET && t[1] == RBRACKET && t[2..] == tail;
  }

  lemma {:induction false} ReadCanonicalArray(v: Value, tail: Text)
    requires v.Arr? && Canonicalize(v).Some?
    ensures ReadValue(Canonicalize(v).value + tail) == Some((Normalize(v), tail))
    decreases v, 0, |v.items| + 1
  {
    var parts := CanonItems(v, 0).value;
    Enclosed(LBRACKET, Join(parts), RBRACKET, tail);
    if v.items == [] {
      ReadEmptyArray(tail);
    } else {
      ReadCanonicalItems(v, 0, tail);
      ReadArray(Join(parts) + ([RBRACKET] + tail), NormItems(v, 0), tail);
    }
  }

  lemma ReadEmptyObject(tail: Text)
    ensures ReadValue([LBRACE] + (Join([]) + ([RBRACE] + tail))) == Some((Obj([]), tail))
  {
    var t := [LBRACE] + (Join([]) + ([RBRACE] + tail));
    assert t[0] == LBRACE && t[1] == RBRACE && t[2..] == tail;
  }

  lemma Enclosed(open: Unit, inner: Text, close: Unit, tail: Text)
    ensures [open] + inner + [close] + tail == [open] + (inner + ([close] + tail))
  {
  }

  lemma {:induction false} ReadCanonicalObject(v: Value, tail: Text)
    requires v.Obj? && Canonicalize(v).Some?
    ensures ReadValue(Canonicalize(v).value + tail) == Some((Normalize(v), tail))
    decreases v, 0, |SortedKeys(v.fields)| + 1
  {
    var keys := SortedKeys(v.fields);
    SortedKeysPresent(v.fields);
    var parts := CanonPairs(v, keys).value;
    Enclosed(LBRACE, Join(parts), RBRACE, tail);
    if keys == [] {
      ReadEmptyObject(tail);
    } else {
      ReadCanonicalPairs(v, keys, tail);
      ReadObject(Join(parts) + ([RBRACE] + tail), NormFields(v, keys), tail);
    }
  }

  /** A printed value never starts with a closing bracket. */
  lemma FirstUnit(v: Value)
    requires Canonicalize(v).Some?
    ensures Canonicalize(v).value != [] && Canonicalize(v).value[0] != RBRACKET
  {
    if v.Int? { ReadPrintedNat(if v.n < 0 then -v.n else v.n, []); }
  }

  lemma JoinCons(head: Text, rest: seq<Text>, end: Text)
    ensures Join([head] + rest) + end
            == head + (if rest == [] then end else [COMMA] + (Join(rest) + end))
  {
    assert ([head] + rest)[1..] == rest;
  }

  lemma {:induction false} ReadCanonicalItems(v: Value, from: nat, tail: Text)
    requires v.Arr? && from < |v.items| && CanonItems(v, from).Some?
    ensures var t := Join(CanonItems(v, from).value) + ([RBRACKET] + tail);
            t[0] != RBRACKET && ReadItems(t) == Some((NormItems(v, from), tail))
    decreases v, 0, |v.items| - from
  {
    var end := [RBRACKET] + tail;
    var item := v.items[from];
    var head := Canonicalize(item).value;
    var rest := CanonItems(v, from + 1).value;
    JoinCons(head, rest, end);
    FirstUnit(item);
    if from + 1 == |v.items| {
      ReadCanonical(item, end);
      ReadLastItem(head + end, Normalize(item), tail);
      assert NormItems(v, from) == [Normalize(item)];
    } else {
      var next := Join(rest) + end;
      ReadCanonical(item, [COMMA] + next);
      ReadCanonicalItems(v, from + 1, tail);
      ReadNextItem(head + ([COMMA] + next), Normalize(item), next);
    }
  }

  lemma PairText(k: Text, body: Text, after: Text)
    ensures Quote(k) + [COLON] + body + after == Quote(k) + ([COLON] + (body + after))
    ensures (Quote(k) + [COLON] + body + after)[0] == QUOTE
  {
  }

  lemma {:induction false} ReadCanonicalPairs(v: Value, keys: seq<Text>, tail: Text)
    requires v.Obj? && keys != [] && HasKeys(v.fields, keys) && CanonPairs(v, keys).Some?
    ensures var t := Join(CanonPairs(v, keys).value) + ([RBRACE] + tail);
            t[0] == QUOTE && ReadFields(t) == Some((NormFields(v, keys), tail))
    decreases v, 0, |keys|
  {
    var end := [RBRACE] + tail;
    var child := v.fields[IndexOf(v.fields, keys[0])].val;
    var body := Canonicalize(child).value;
    var rest := CanonPairs(v, keys[1..]).value;
    var after := if rest == [] then end else [COMMA] + (Join(rest) + end);
    JoinCons(Quote(keys[0]) + [COLON] + body, rest, end);
    PairText(keys[0], body, after);
    ReadCanonical(child, after);
    assert NormFields(v, keys) == [Field(keys[0], Normalize(child))] + NormFields(v, keys[1..]);
    if |keys| == 1 {
      assert NormFields(v, keys) == [Field(keys[0], Normalize(child))];
      ReadLastField(keys[0], body + after, Normalize(child), tail);
    } else {
      ReadCanonicalPairs(v, keys[1..], tail);
      ReadNextField(keys[0], body + after, Normalize(child), Join(rest) + end);
    }
  }

  /** A parser recovers the key-sorted value from the canonical text. */
  lemma ParseCanonical(v: Value)
    requires Canonicalize(v).Some?
    ensures Parse(Canonicalize(v).value) == Some(Normalize(v))
  {
    ReadCanonical(v, []);
    assert Canonicalize(v).value + [] == Canonicalize(v).value;
  }

  // ----- Unique decodability ----------------------------------------------

  /** Field positions of one key agree with the visible-key listing. */
  lemma VisibleField(fields: seq<Field>, k: Text)
    requires WellFormed(Obj(fields)) && k in VisibleKeys(fields)
    ensures exists j :: 0 <= j < |fields| && fields[j].key == k
    ensures fields[IndexOf(fields, k)].val != Undefined
  {
    VisibleKeysExact(fields, k);
  }

  lemma SameSortedKeys(f: seq<Field>, g: seq<Field>)
    requires WellFormed(Obj(f)) && WellFormed(Obj(g))
    ensures Elements(VisibleKeys(f)) == Elements(VisibleKeys(g)) <==> SortedKeys(f) == SortedKeys(g)
    ensures forall k :: k in SortedKeys(f) <==> k in VisibleKeys(f)
  {
    VisibleKeysDistinct(f);
    VisibleKeysDistinct(g);
    SortKeysAscending(VisibleKeys(f));
    SortKeysAscending(VisibleKeys(g));
    if Elements(VisibleKeys(f)) == Elements(VisibleKeys(g)) { AscendingUnique(SortedKeys(f), SortedKeys(g)); }
    forall k ensures k in SortedKeys(f) <==> k in VisibleKeys(f) {
      assert k in SortedKeys(f) <==> k in Elements(SortedKeys(f));
    }
  }

  /** Values equal up to key order print the same text, or fail alike. */
  lemma {:induction false} EquivalentPrintSame(v: Value, w: Value)
    requires WellFormed(v) && WellFormed(w) && Equivalent(v, w)
    ensures Canonicalize(v) == Canonicalize(w)
    decreases v, 1, 0
  {
    if v.Arr? && w.Arr? {
      EquivalentItems(v, w, 0);
    } else if v.Obj? && w.Obj? {
      SortedKeysPresent(v.fields);
      SortedKeysPresent(w.fields);
      SameSortedKeys(v.fields, w.fields);
      EquivalentPairs(v, w, SortedKeys(v.fields));
    }
  }

  lemma {:induction false} EquivalentItems(v: Value, w: Value, from: nat)
    requires WellFormed(v) && WellFormed(w) && v.Arr? && w.Arr? && Equivalent(v, w) && from <= |v.items|
    ensures CanonItems(v, from) == CanonItems(w, from)
    decreases v, 0, |v.items| - from
  {
    if from < |v.items| {
      EquivalentPrintSame(v.items[from], w.items[from]);
      EquivalentItems(v, w, from + 1);
    }
  }

  lemma {:induction false} EquivalentPairs(v: Value, w: Value, keys: seq<Text>)
    requires WellFormed(v) && WellFormed(w) && v.Obj? && w.Obj? && Equivalent(v, w)
    requires HasKeys(v.fields, keys) && HasKeys(w.fields, keys)
    requires forall i | 0 <= i < |keys| :: keys[i] in VisibleKeys(v.fields)
    ensures CanonPairs(v, keys) == CanonPairs(w, keys)
    decreases v, 0, |keys|
  {
    if keys != [] {
      assert keys[0] in Elements(VisibleKeys(w.fields));
      VisibleField(v.fields, keys[0]);
      VisibleField(w.fields, keys[0]);
      var i, j := IndexOf(v.fields, keys[0]), IndexOf(w.fields, keys[0]);
      EquivalentPrintSame(v.fields[i].val, w.fields[j].val);
      EquivalentPairs(v, w, keys[1..]);
    }
  }

  /** Values with one normal form are equal up to key order. */
  lemma {:induction false} NormalFormSeparates(v: Value, w: Value)
    requires WellFormed(v) && WellFormed(w) && Normalize(v) == Normalize(w)
    ensures Equivalent(v, w)
    decreases v, 1
  {
    if v.Arr? && w.Arr? {
      var a, b := NormItems(v, 0), NormItems(w, 0);
      forall i | 0 <= i < |v.items| ensures Equivalent(v.items[i], w.items[i]) {
        assert a[i] == b[i];
        NormalFormSeparates(v.items[i], w.items[i]);
      }
    } else if v.Obj? && w.Obj? {
      SameNormalKeys(v, w);
      SameSortedKeys(v.fields, w.fields);
      forall i, j | 0 <= i < |v.fields| && 0 <= j < |w.fields| && v.fields[i].key == w.fields[j].key
                    && v.fields[i].val != Undefined && w.fields[j].val != Undefined
        ensures Equivalent(v.fields[i].val, w.fields[j].val)
      {
        SameNormalField(v, w, i, j);
        NormalFormSeparates(v.fields[i].val, w.fields[j].val);
      }
    }
  }

  lemma SameNormalKeys(v: Value, w: Value)
    requires v.Obj? && w.Obj? && Normalize(v) == Normalize(w)
    ensures SortedKeys(v.fields) == SortedKeys(w.fields)
  {
    SortedKeysPresent(v.fields);
    SortedKeysPresent(w.fields);
    var a, b := NormFields(v, SortedKeys(v.fields)), NormFields(w, SortedKeys(w.fields));
    assert a == b;
    forall i | 0 <= i < |a| ensures SortedKeys(v.fields)[i] == SortedKeys(w.fields)[i] { assert a[i] == b[i]; }
  }

  lemma SameNormalField(v: Value, w: Value, i: nat, j: nat)
    requires v.Obj? && w.Obj? && WellFormed(v) && WellFormed(w) && Normalize(v) == Normalize(w)
    requires i < |v.fields| && j < |w.fields| && v.fields[i].key == w.fields[j].key
    requires v.fields[i].val != Undefined
    ensures Normalize(v.fields[i].val) == Normalize(w.fields[j].val)
  {
    var f, g := v.fields, w.fields;
    SameNormalKeys(v, w);
    SameSortedKeys(f, f);
    SortedKeysPresent(f);
    SortedKeysPresent(g);
    VisibleKeysExact(f, f[i].key);
    var n :| 0 <= n < |SortedKeys(f)| && SortedKeys(f)[n] == f[i].key;
    assert NormFields(v, SortedKeys(f))[n] == NormFields(w, SortedKeys(g))[n];
    assert IndexOf(f, f[i].key) == i && IndexOf(g, g[j].key) == j;
  }

  /** Canonical JSON is uniquely decodable: two values print the same text exactly when they
      are equal up to object key order. */
  lemma SameTextIffEquivalent(v: Value, w: Value)
    requires WellFormed(v) && WellFormed(w) && Canonicalize(v).Some?
    ensures Canonicalize(v) == Canonicalize(w) <==> Equivalent(v, w)
  {
    if Equivalent(v, w) { EquivalentPrintSame(v, w); }
    if Canonicalize(v) == Canonicalize(w) {
      ParseCanonical(v);
      ParseCanonical(w);
      NormalFormSeparates(v, w);
    }
  }

  /** The normal form is a value of its own class, with no undefined part. */
  lemma {:induction false} NormalFormEquivalent(v: Value)
    requires WellFormed(v)
    ensures WellFormed(Normalize(v)) && Equivalent(v, Normalize(v)) && Normalize(v) != Undefined
  {
    if v.Arr? {
      var a := NormItems(v, 0);
      forall i | 0 <= i < |a| ensures WellFormed(a[i]) && Equivalent(v.items[i], a[i]) {
        NormalFormEquivalent(v.items[i]);
      }
    } else if v.Obj? {
      SortedKeysPresent(v.fields);
      var a := NormFields(v, SortedKeys(v.fields));
      forall i | 0 <= i < |a|
        ensures WellFormed(a[i].val) && a[i].val != Undefined
        ensures Equivalent(v.fields[IndexOf(v.fields, a[i].key)].val, a[i].val)
      {
        NormalFormEquivalent(v.fields[IndexOf(v.fields, a[i].key)].val);
      }
      hide WellFormed, Equivalent;
      NormalObject(v, a);
    }
  }

  /** An object is equal to its normal form if each of its fields is. */
  lemma NormalObject(v: Value, a: seq<Field>)
    requires WellFormed(v) && v.Obj? && Normalize(v) == Obj(a)
    requires forall i | 0 <= i < |a| :: WellFormed(a[i].val) && a[i].val != Undefined
    requires forall i | 0 <= i < |a| :: exists j :: 0 <= j < |v.fields| && v.fields[j].key == a[i].key
    requires forall i | 0 <= i < |a| :: Equivalent(v.fields[IndexOf(v.fields, a[i].key)].val, a[i].val)
    ensures WellFormed(Obj(a)) && Equivalent(v, Obj(a))
  {
    hide Normalize, NormFields, Equivalent;
    NormalKeys(v);
    forall i, j | 0 <= i < |v.fields| && 0 <= j < |a| && v.fields[i].key == a[j].key
      ensures Equivalent(v.fields[i].val, a[j].val)
    {
      assert IndexOf(v.fields, a[j].key) == i;
    }
    ObjectsEquivalent(v.fields, a);
  }

  lemma ObjectsEquivalent(f: seq<Field>, g: seq<Field>)
    requires Elements(VisibleKeys(f)) == Elements(VisibleKeys(g))
    requires forall i, j | 0 <= i < |f| && 0 <= j < |g| && f[i].key == g[j].key :: Equivalent(f[i].val, g[j].val)
    ensures Equivalent(Obj(f), Obj(g))
  {
  }

  lemma NormalKeys(v: Value)
    requires WellFormed(v) && v.Obj?
    requires forall i | 0 <= i < |Normalize(v).fields| :: Normalize(v).fields[i].val != Undefined
    ensures var a := Normalize(v).fields;
            && Elements(VisibleKeys(v.fields)) == Elements(VisibleKeys(a))
            && forall i, j | 0 <= i < j < |a| :: a[i].key != a[j].key
  {
    SortedKeysPresent(v.fields);
    VisibleKeysDistinct(v.fields);
    SortKeysAscending(VisibleKeys(v.fields));
    ListedKeys(NormFields(v, SortedKeys(v.fields)), SortedKeys(v.fields));
  }

  lemma ListedKeys(a: seq<Field>, keys: seq<Text>)
    requires |a| == |keys| && Ascending(keys)
    requires forall i | 0 <= i < |a| :: a[i].key == keys[i] && a[i].val != Undefined
    ensures Elements(VisibleKeys(a)) == Elements(keys)
    ensures forall i, j | 0 <= i < j < |a| :: a[i].key != a[j].key
  {
    forall i, j | 0 <= i < j < |a| ensures a[i].key != a[j].key { LessTotal(keys[i], keys[j]); }
    forall k ensures k in VisibleKeys(a) <==> k in keys {
      VisibleKeysExact(a, k);
      if k in keys { var i :| 0 <= i < |keys| && keys[i] == k; assert a[i].key == k; }
    }
  }

  /** Parsing canonical text and printing it again gives the same text. */
  lemma CanonicalTextIsStable(v: Value)
    requires WellFormed(v) && Canonicalize(v).Some?
    ensures var parsed := Parse(Canonicalize(v).value);
            parsed.Some? && Canonicalize(parsed.value) == Canonicalize(v)
  {
    ParseCanonical(v);
    NormalFormEquivalent(v);
    EquivalentPrintSame(v, Normalize(v));
  }

  /** The error is raised exactly for values that hold a non-finite number. */
  lemma {:induction false} ThrowsIffNonFinite(v: Value)
    requires WellFormed(v)
    ensures Canonicalize(v).None? <==> ReachesNonFinite(v)
    decreases v, 1, 0
  {
    if v.Arr? {
      ItemsThrow(v, 0);
    } else if v.Obj? {
      SortedKeysPresent(v.fields);
      PairsThrow(v, SortedKeys(v.fields));
      AnyFieldIsPrinted(v.fields);
    }
  }

  /** Whether the value printed for key `k` holds a non-finite number. */
  ghost predicate KeyThrows(fields: seq<Field>, k: Text) {
    exists j :: 0 <= j < |fields| && fields[j].key == k && ReachesNonFinite(fields[j].val)
  }

  lemma AnyFieldIsPrinted(fields: seq<Field>)
    requires WellFormed(Obj(fields))
    ensures ReachesNonFinite(Obj(fields)) <==> exists k :: k in SortedKeys(fields) && KeyThrows(fields, k)
  {
    SameSortedKeys(fields, fields);
    if i :| 0 <= i < |fields| && ReachesNonFinite(fields[i].val) {
      VisibleKeysExact(fields, fields[i].key);
      assert KeyThrows(fields, fields[i].key);
    }
  }

  lemma {:induction false} ItemsThrow(v: Value, from: nat)
    requires WellFormed(v) && v.Arr? && from <= |v.items|
    ensures CanonItems(v, from).None? <==> exists i :: from <= i < |v.items| && ReachesNonFinite(v.items[i])
    decreases v, 0, |v.items| - from
  {
    if from < |v.items| {
      ThrowsIffNonFinite(v.items[from]);
      ItemsThrow(v, from + 1);
    }
  }

  lemma {:induction false} PairsThrow(v: Value, keys: seq<Text>)
    requires WellFormed(v) && v.Obj? && HasKeys(v.fields, keys)
    ensures CanonPairs(v, keys).None? <==> exists k :: k in keys && KeyThrows(v.fields, k)
    decreases v, 0, |keys|
  {
    if keys != [] {
      var i := IndexOf(v.fields, keys[0]);
      ThrowsIffNonFinite(v.fields[i].val);
      assert KeyThrows(v.fields, keys[0]) <==> ReachesNonFinite(v.fields[i].val);
      PairsThrow(v, keys[1..]);
      assert forall k :: k in keys <==> k == keys[0] || k in keys[1..];
    }
  }
}

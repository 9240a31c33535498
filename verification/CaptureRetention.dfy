/** Retention of committed captures (pi-extension/src/actions/capture_upload_handler.ts): a file cap per day,
    then a byte cap over all days, oldest first, the capture just committed counting as the newest.

    A capture's `name` stands for its file name's place in name order; names in a directory are distinct. */
module CaptureRetention {
  import opened Prelude
  import CaptureUpload

  const MAX_FILES_PER_DAY: nat := 16
  const MAX_TOTAL_BYTES: nat := 8_388_608

  datatype Capture = Capture(name: nat, day: nat, bytes: nat)

  ghost predicate DistinctNames(cs: seq<Capture>) {
    forall i, j | 0 <= i < j < |cs| :: cs[i].name != cs[j].name
  }

  /** The order captures are given up in: by name, the current one last. */
  predicate Before(a: Capture, b: Capture, current: nat) {
    a.name != current && (b.name == current || a.name < b.name)
  }

  ghost predicate Ordered(cs: seq<Capture>, current: nat) {
    forall i, j | 0 <= i < j < |cs| :: Before(cs[i], cs[j], current)
  }

  function Insert(c: Capture, cs: seq<Capture>, current: nat): seq<Capture> {
    if cs == [] || Before(c, cs[0], current) then [c] + cs else [cs[0]] + Insert(c, cs[1..], current)
  }

  function Sort(cs: seq<Capture>, current: nat): seq<Capture> {
    if cs == [] then [] else Insert(cs[0], Sort(cs[1..], current), current)
  }

  function OfDay(cs: seq<Capture>, day: nat): seq<Capture> {
    if cs == [] then [] else (if cs[0].day == day then [cs[0]] else []) + OfDay(cs[1..], day)
  }

  function Names(cs: seq<Capture>): set<nat> { set i | 0 <= i < |cs| :: cs[i].name }

  function Total(cs: seq<Capture>): nat { if cs == [] then 0 else cs[0].bytes + Total(cs[1..]) }

  /** What a day's list keeps, and what it gives up from its front. */
  function Last(s: seq<Capture>, cap: nat): seq<Capture> { if |s| <= cap then s else s[|s| - cap..] }
  function Excess(s: seq<Capture>, cap: nat): seq<Capture> { if |s| <= cap then [] else s[..|s| - cap] }

  /** A capture survives the day pass when fewer than `cap` captures of its day come after it. */
  function DayKept(cs: seq<Capture>, cap: nat): seq<Capture> {
    if cs == [] then []
    else (if |OfDay(cs[1..], cs[0].day)| >= cap then [] else [cs[0]]) + DayKept(cs[1..], cap)
  }

  function DayDropped(cs: seq<Capture>, cap: nat): seq<Capture> {
    if cs == [] then []
    else (if |OfDay(cs[1..], cs[0].day)| >= cap then [cs[0]] else []) + DayDropped(cs[1..], cap)
  }

  /** The longest suffix within the byte cap. */
  function ByteKept(cs: seq<Capture>, cap: nat): seq<Capture> {
    if cs == [] || Total(cs) <= cap then cs else ByteKept(cs[1..], cap)
  }

  function Survivors(listed: seq<Capture>, current: nat, dayCap: nat, byteCap: nat): seq<Capture> {
    ByteKept(DayKept(Sort(listed, current), dayCap), byteCap)
  }

  // ----- The source's loops ---------------------------------------------------------------------

  /** One day's loop. */
  method DropOldest(sameDay: seq<Capture>, cap: nat, removals: set<nat>) returns (r: set<nat>)
    ensures r == removals + Names(Excess(sameDay, cap))
  {
    var rest := sameDay;
    r := removals;
    while |rest| > cap
      invariant |rest| <= |sameDay| && rest == sameDay[|sameDay| - |rest|..]
      invariant |sameDay| > cap ==> |rest| >= cap
      invariant |sameDay| <= cap ==> rest == sameDay
      invariant r == removals + Names(sameDay[..|sameDay| - |rest|])
    {
      var n := |sameDay| - |rest|;
      assert sameDay[..n + 1] == sameDay[..n] + [rest[0]];
      NamesConcat(sameDay[..n], [rest[0]]);
      r := r + {rest[0].name};
      rest := rest[1..];
    }
  }

  /** The byte loop: the running total is that of what is left. */
  method ShedBytes(retained: seq<Capture>, cap: nat, removals: set<nat>) returns (kept: seq<Capture>, r: set<nat>)
    ensures kept == ByteKept(retained, cap) && |kept| <= |retained|
    ensures r == removals + Names(retained[..|retained| - |kept|])
  {
    kept, r := retained, removals;
    var bytes := SumBytes(retained);
    while bytes > cap && |kept| > 0
      invariant bytes == Total(kept)
      invariant |kept| <= |retained| && kept == retained[|retained| - |kept|..]
      invariant ByteKept(kept, cap) == ByteKept(retained, cap)
      invariant r == removals + Names(retained[..|retained| - |kept|])
    {
      var n := |retained| - |kept|;
      assert retained[..n + 1] == retained[..n] + [kept[0]];
      NamesConcat(retained[..n], [kept[0]]);
      r := r + {kept[0].name};
      bytes := bytes - kept[0].bytes;
      kept := kept[1..];
    }
  }

  /** The `reduce` over retained captures. */
  method SumBytes(cs: seq<Capture>) returns (total: nat)
    ensures total == Total(cs)
  {
    total := 0;
    var i := 0;
    assert cs[0..] == cs;
    while i < |cs|
      invariant 0 <= i <= |cs| && total + Total(cs[i..]) == Total(cs)
    {
      assert cs[i..][0] == cs[i] && cs[i..][1..] == cs[i + 1..];
      total := total + cs[i].bytes;
      i := i + 1;
    }
  }

  /** Groups captures by day, in order. */
  method GroupByDay(cs: seq<Capture>) returns (byDay: map<nat, seq<Capture>>)
    ensures forall d :: OfDay(cs, d) == if d in byDay then byDay[d] else []
  {
    byDay := map[];
    var i := 0;
    while i < |cs|
      invariant 0 <= i <= |cs|
      invariant forall d :: OfDay(cs[..i], d) == if d in byDay then byDay[d] else []
    {
      var c := cs[i];
      assert cs[..i + 1] == cs[..i] + [c];
      forall d ensures OfDay(cs[..i + 1], d) == OfDay(cs[..i], d) + if c.day == d then [c] else [] {
        OfDayConcat(cs[..i], [c], d);
        OfDayOne(c, d);
      }
      var sameDay := if c.day in byDay then byDay[c.day] else [];
      byDay := byDay[c.day := sameDay + [c]];
      i := i + 1;
    }
    assert cs[..|cs|] == cs;
  }

  method Retained(cs: seq<Capture>, removals: set<nat>) returns (r: seq<Capture>)
    ensures r == Without(cs, removals)
  {
    r := [];
    var i := 0;
    assert cs[0..] == cs;
    while i < |cs|
      invariant 0 <= i <= |cs| && r + Without(cs[i..], removals) == Without(cs, removals)
    {
      assert cs[i..][0] == cs[i] && cs[i..][1..] == cs[i + 1..];
      if cs[i].name !in removals {
        ConcatShift(r, cs[i], Without(cs[i + 1..], removals));
        r := r + [cs[i]];
      }
      i := i + 1;
    }
    assert r + [] == r;
  }

  function Without(cs: seq<Capture>, removals: set<nat>): seq<Capture> {
    if cs == [] then []
    else (if cs[0].name in removals then [] else [cs[0]]) + Without(cs[1..], removals)
  }

  /** `enforceCaptureRetention`: exactly the captures that do not survive are removed. */
  method EnforceRetention(listed: seq<Capture>, current: nat, dayCap: nat, byteCap: nat)
    returns (removals: set<nat>)
    requires DistinctNames(listed)
    ensures removals == Names(listed) - Names(Survivors(listed, current, dayCap, byteCap))
  {
    hide Sort, OfDay, DayKept, DayDropped, ByteKept, Names, Without, Excess;
    var captures := Sort(listed, current);
    SortPermutes(listed, current);
    var byDay := GroupByDay(captures);
    removals := {};
    var todo := byDay.Keys;
    while todo != {}
      invariant todo <= byDay.Keys
      invariant forall x :: x in removals <==> exists d :: d in byDay && d !in todo && ExcessOnDay(captures, dayCap, d, x)
      decreases todo
    {
      var d :| d in todo;
      removals := DropOldest(byDay[d], dayCap, removals);
      todo := todo - {d};
    }
    RemovalsAreDropped(captures, dayCap, byDay, removals);
    var retained := Retained(captures, removals);
    WithoutDropped(captures, dayCap);
    var kept, all := ShedBytes(retained, byteCap, removals);
    DropsAreTheRest(captures, dayCap, byteCap);
    removals := all;
  }

  // ----- Small facts about lists -------------------------------------------------------------

  lemma NamesConcat(a: seq<Capture>, b: seq<Capture>)
    ensures Names(a + b) == Names(a) + Names(b)
  {
    forall x | x in Names(a) + Names(b) ensures x in Names(a + b) {
      if x in Names(a) {
        var i :| 0 <= i < |a| && a[i].name == x;
        assert (a + b)[i].name == x;
      } else {
        var i :| 0 <= i < |b| && b[i].name == x;
        assert (a + b)[|a| + i].name == x;
      }
    }
  }

  lemma NameOne(c: Capture)
    ensures Names([c]) == {c.name}
  {
    assert [c][0].name in Names([c]);
  }

  lemma ConcatShift(a: seq<Capture>, c: Capture, b: seq<Capture>)
    ensures a + ([c] + b) == (a + [c]) + b
  {
  }

  lemma {:induction false} OfDayConcat(a: seq<Capture>, b: seq<Capture>, day: nat)
    ensures OfDay(a + b, day) == OfDay(a, day) + OfDay(b, day)
  {
    if a == [] {
      assert a + b == b;
    } else {
      assert (a + b)[0] == a[0] && (a + b)[1..] == a[1..] + b;
      OfDayConcat(a[1..], b, day);
      ConcatAssociates(if a[0].day == day then [a[0]] else [], OfDay(a[1..], day), OfDay(b, day));
    }
  }

  lemma OfDayOne(c: Capture, day: nat)
    ensures OfDay([c], day) == if c.day == day then [c] else []
  {
    assert [c][1..] == [];
  }

  lemma NameIn(cs: seq<Capture>, c: Capture)
    requires c in cs
    ensures c.name in Names(cs)
  {
    var i :| 0 <= i < |cs| && cs[i] == c;
  }

  // ----- Sorting ---------------------------------------------------------------------------------

  lemma {:induction false} InsertContents(c: Capture, cs: seq<Capture>, current: nat)
    ensures Names(Insert(c, cs, current)) == Names(cs) + {c.name}
    ensures forall x :: x in Insert(c, cs, current) <==> x == c || x in cs
  {
    NameOne(c);
    NamesConcat([c], cs);
    if cs != [] && !Before(c, cs[0], current) {
      assert cs == [cs[0]] + cs[1..];
      NamesConcat([cs[0]], cs[1..]);
      InsertContents(c, cs[1..], current);
      NamesConcat([cs[0]], Insert(c, cs[1..], current));
    }
  }

  lemma OrderedCons(h: Capture, t: seq<Capture>, current: nat)
    requires Ordered(t, current) && forall x | x in t :: Before(h, x, current)
    ensures Ordered([h] + t, current)
  {
    var r := [h] + t;
    forall i, j | 0 <= i < j < |r| ensures Before(r[i], r[j], current) {
      assert r[j] == t[j - 1] && t[j - 1] in t;
      if i > 0 { assert r[i] == t[i - 1]; }
    }
  }

  lemma OrderedHead(cs: seq<Capture>, current: nat)
    requires cs != [] && Ordered(cs, current)
    ensures Ordered(cs[1..], current) && forall x | x in cs[1..] :: Before(cs[0], x, current)
  {
    forall x | x in cs[1..] ensures Before(cs[0], x, current) {
      var i :| 0 <= i < |cs| - 1 && cs[1..][i] == x;
      assert cs[i + 1] == x;
    }
  }

  lemma {:induction false} InsertSorts(c: Capture, cs: seq<Capture>, current: nat)
    requires Ordered(cs, current) && c.name !in Names(cs)
    ensures Ordered(Insert(c, cs, current), current)
  {
    if cs == [] {
      OrderedCons(c, cs, current);
    } else {
      OrderedHead(cs, current);
      NameIn(cs, cs[0]);
      if Before(c, cs[0], current) {
        assert forall x | x in cs :: x == cs[0] || x in cs[1..];
        OrderedCons(c, cs, current);
      } else {
        assert cs == [cs[0]] + cs[1..];
        NamesConcat([cs[0]], cs[1..]);
        InsertSorts(c, cs[1..], current);
        InsertContents(c, cs[1..], current);
        OrderedCons(cs[0], Insert(c, cs[1..], current), current);
      }
    }
  }

  /** Sorting keeps exactly the listed captures and puts the current one last. */
  lemma {:induction false} SortPermutes(cs: seq<Capture>, current: nat)
    requires DistinctNames(cs)
    ensures Ordered(Sort(cs, current), current) && Names(Sort(cs, current)) == Names(cs)
    ensures forall c :: c in Sort(cs, current) <==> c in cs
    ensures DistinctNames(Sort(cs, current))
  {
    if cs != [] {
      SortPermutes(cs[1..], current);
      assert cs == [cs[0]] + cs[1..];
      NamesConcat([cs[0]], cs[1..]);
      assert cs[0].name !in Names(cs[1..]);
      NameOne(cs[0]);
      InsertSorts(cs[0], Sort(cs[1..], current), current);
      InsertContents(cs[0], Sort(cs[1..], current), current);
    }
    OrderedDistinct(Sort(cs, current), current);
  }

  lemma OrderedDistinct(cs: seq<Capture>, current: nat)
    requires Ordered(cs, current)
    ensures DistinctNames(cs)
  {
    forall i, j | 0 <= i < j < |cs| ensures cs[i].name != cs[j].name { assert Before(cs[i], cs[j], current); }
  }

  // ----- The day pass ------------------------------------------------------------------------------

  lemma LastCons(c: Capture, r: seq<Capture>, cap: nat)
    ensures Last([c] + r, cap) == if |r| >= cap then Last(r, cap) else [c] + r
    ensures Excess([c] + r, cap) == if |r| >= cap then [c] + Excess(r, cap) else []
  {
  }

  /** Of each day the pass keeps the last captures up to the cap, and drops the rest. */
  lemma {:induction false} DayPass(cs: seq<Capture>, cap: nat, day: nat)
    ensures OfDay(DayKept(cs, cap), day) == Last(OfDay(cs, day), cap)
    ensures OfDay(DayDropped(cs, cap), day) == Excess(OfDay(cs, day), cap)
  {
    if cs != [] {
      var c, rest := cs[0], cs[1..];
      DayPass(rest, cap, day);
      var k, d := DayKept(rest, cap), DayDropped(rest, cap);
      OfDayCons(c, k, day);
      OfDayCons(c, d, day);
      assert [] + k == k && [] + d == d;
      OfDayHead(cs, day);
      if c.day == day { LastCons(c, OfDay(rest, day), cap); }
    }
  }

  lemma OfDayCons(c: Capture, s: seq<Capture>, day: nat)
    ensures OfDay([c] + s, day) == if c.day == day then [c] + OfDay(s, day) else OfDay(s, day)
  {
    assert ([c] + s)[1..] == s;
    assert [] + OfDay(s, day) == OfDay(s, day);
  }

  lemma OfDayHead(cs: seq<Capture>, day: nat)
    requires cs != []
    ensures OfDay(cs, day) == if cs[0].day == day then [cs[0]] + OfDay(cs[1..], day) else OfDay(cs[1..], day)
  {
    assert cs == [cs[0]] + cs[1..];
    OfDayCons(cs[0], cs[1..], day);
  }

  lemma {:induction false} DroppedNames(cs: seq<Capture>, cap: nat)
    requires DistinctNames(cs)
    ensures Names(DayDropped(cs, cap)) + Names(DayKept(cs, cap)) == Names(cs)
    ensures Names(DayDropped(cs, cap)) !! Names(DayKept(cs, cap))
  {
    if cs != [] {
      var c, rest := cs[0], cs[1..];
      DroppedNames(rest, cap);
      assert cs == [c] + rest;
      NamesConcat([c], rest);
      NamesConcat([c], DayDropped(rest, cap));
      NamesConcat([c], DayKept(rest, cap));
      assert c.name !in Names(rest);
      assert [] + DayKept(rest, cap) == DayKept(rest, cap) && [] + DayDropped(rest, cap) == DayDropped(rest, cap);
    }
  }

  ghost predicate OnDay(cs: seq<Capture>, day: nat, x: nat) { x in Names(OfDay(cs, day)) }

  ghost predicate ExcessOnDay(cs: seq<Capture>, cap: nat, day: nat, x: nat) { x in Names(Excess(OfDay(cs, day), cap)) }

  lemma OnDayHead(cs: seq<Capture>, day: nat, x: nat)
    requires cs != []
    ensures OnDay(cs, day, x) <==> (cs[0].day == day && x == cs[0].name) || OnDay(cs[1..], day, x)
  {
    hide Names, OfDay;
    OfDayHead(cs, day);
    NamesConcat([cs[0]], OfDay(cs[1..], day));
    NameOne(cs[0]);
  }

  lemma {:induction false} InOfDay(cs: seq<Capture>, x: nat)
    ensures x in Names(cs) <==> exists d: nat :: OnDay(cs, d, x)
  {
    if cs == [] {
      assert forall d: nat :: !OnDay(cs, d, x);
    } else {
      hide OnDay, Names;
      var c, rest := cs[0], cs[1..];
      InOfDay(rest, x);
      assert cs == [c] + rest;
      NamesConcat([c], rest);
      NameOne(c);
      forall d: nat ensures OnDay(cs, d, x) <==> (c.day == d && x == c.name) || OnDay(rest, d, x) { OnDayHead(cs, d, x); }
      if x == c.name { assert OnDay(cs, c.day, x); }
    }
  }

  /** The names collected day by day are those of the dropped captures. */
  lemma RemovalsAreDropped(cs: seq<Capture>, cap: nat, byDay: map<nat, seq<Capture>>, removals: set<nat>)
    requires forall d: nat :: OfDay(cs, d) == if d in byDay then byDay[d] else []
    requires forall x :: x in removals <==> exists d :: d in byDay && ExcessOnDay(cs, cap, d, x)
    ensures removals == Names(DayDropped(cs, cap))
  {
    hide DayDropped, Names, OfDay;
    var dropped := DayDropped(cs, cap);
    forall x ensures x in removals <==> x in Names(dropped) {
      InOfDay(dropped, x);
      forall d: nat ensures OnDay(dropped, d, x) <==> d in byDay && ExcessOnDay(cs, cap, d, x) {
        DayPass(cs, cap, d);
        NoNames();
      }
      hide OnDay, ExcessOnDay;
    }
  }

  lemma NoNames()
    ensures Names([]) == {}
  {
  }

  lemma {:induction false} WithoutMore(cs: seq<Capture>, a: set<nat>, x: nat)
    requires x !in Names(cs)
    ensures Without(cs, a + {x}) == Without(cs, a)
  {
    if cs != [] {
      assert cs == [cs[0]] + cs[1..];
      NamesConcat([cs[0]], cs[1..]);
      assert cs[0].name in Names([cs[0]]);
      WithoutMore(cs[1..], a, x);
    }
  }

  /** Filtering out the dropped names leaves the captures the day pass keeps. */
  lemma {:induction false} WithoutDropped(cs: seq<Capture>, cap: nat)
    requires DistinctNames(cs)
    ensures Without(cs, Names(DayDropped(cs, cap))) == DayKept(cs, cap)
  {
    if cs != [] {
      var c, rest := cs[0], cs[1..];
      WithoutDropped(rest, cap);
      assert c.name !in Names(rest);
      DroppedNames(rest, cap);
      var dropped := DayDropped(rest, cap);
      NamesConcat([c], dropped);
      NameOne(c);
      assert [] + dropped == dropped;
      assert {c.name} + Names(dropped) == Names(dropped) + {c.name};
      WithoutMore(rest, Names(dropped), c.name);
    }
  }

  // ----- The byte pass -------------------------------------------------------------------------------

  lemma {:induction false} ByteKeptIsSuffix(cs: seq<Capture>, cap: nat)
    ensures var k := ByteKept(cs, cap);
            |k| <= |cs| && k == cs[|cs| - |k|..] && Total(k) <= cap
  {
    if cs != [] && Total(cs) > cap { ByteKeptIsSuffix(cs[1..], cap); }
  }

  lemma {:induction false} TotalOfSuffix(cs: seq<Capture>, i: nat)
    requires i <= |cs|
    ensures Total(cs[i..]) <= Total(cs)
  {
    if i > 0 {
      TotalOfSuffix(cs[1..], i - 1);
      assert cs[1..][i - 1..] == cs[i..];
    }
  }

  /** The byte pass removes no more than it must: any longer suffix exceeds the cap. */
  lemma {:induction false} ByteKeptIsLongest(cs: seq<Capture>, cap: nat, i: nat)
    requires i <= |cs| && Total(cs[i..]) <= cap
    ensures |cs[i..]| <= |ByteKept(cs, cap)|
  {
    assert cs[0..] == cs;
    if cs != [] && Total(cs) > cap {
      assert cs[1..][i - 1..] == cs[i..];
      ByteKeptIsLongest(cs[1..], cap, i - 1);
    }
  }

  /** What the byte pass shifts off, with what the day pass dropped, is everything that does not survive. */
  lemma DropsAreTheRest(cs: seq<Capture>, dayCap: nat, byteCap: nat)
    requires DistinctNames(cs)
    ensures var retained := DayKept(cs, dayCap);
            var kept := ByteKept(retained, byteCap);
            && |kept| <= |retained|
            && Names(DayDropped(cs, dayCap)) + Names(retained[..|retained| - |kept|]) == Names(cs) - Names(kept)
  {
    hide Names, DayKept, DayDropped, ByteKept;
    var retained := DayKept(cs, dayCap);
    var kept := ByteKept(retained, byteCap);
    ByteKeptIsSuffix(retained, byteCap);
    DroppedNames(cs, dayCap);
    DayKeptDistinct(cs, dayCap);
    var n := |retained| - |kept|;
    assert retained == retained[..n] + kept;
    NamesConcat(retained[..n], kept);
    PartsDisjoint(retained, n);
  }

  lemma PartsDisjoint(cs: seq<Capture>, n: nat)
    requires DistinctNames(cs) && n <= |cs|
    ensures Names(cs[..n]) !! Names(cs[n..])
  {
  }

  lemma {:induction false} DayKeptDistinct(cs: seq<Capture>, cap: nat)
    requires DistinctNames(cs)
    ensures DistinctNames(DayKept(cs, cap))
  {
    if cs != [] {
      var c, rest := cs[0], cs[1..];
      DayKeptDistinct(rest, cap);
      DroppedNames(rest, cap);
      assert c.name !in Names(rest);
      var k := DayKept(rest, cap);
      assert forall i | 0 <= i < |k| :: k[i].name in Names(k);
    }
  }

  // ----- What retention guarantees ---------------------------------------------------------------

  lemma {:induction false} OfDaySuffix(cs: seq<Capture>, i: nat, day: nat)
    requires i <= |cs|
    ensures |OfDay(cs[i..], day)| <= |OfDay(cs, day)|
  {
    assert cs == cs[..i] + cs[i..];
    OfDayConcat(cs[..i], cs[i..], day);
  }

  /** Neither cap is exceeded. */
  lemma WithinCaps(listed: seq<Capture>, current: nat, dayCap: nat, byteCap: nat, day: nat)
    ensures var kept := Survivors(listed, current, dayCap, byteCap);
            |OfDay(kept, day)| <= dayCap && Total(kept) <= byteCap
  {
    var retained := DayKept(Sort(listed, current), dayCap);
    var kept := ByteKept(retained, byteCap);
    ByteKeptIsSuffix(retained, byteCap);
    DayPass(Sort(listed, current), dayCap, day);
    OfDaySuffix(retained, |retained| - |kept|, day);
  }

  /** A capture dropped by the day pass precedes every one kept of its day. */
  lemma {:induction false} DroppedPrecedes(cs: seq<Capture>, cap: nat, current: nat, c: Capture, k: Capture)
    requires Ordered(cs, current) && c in DayDropped(cs, cap) && k in DayKept(cs, cap) && c.day == k.day
    ensures Before(c, k, current)
  {
    var h, rest := cs[0], cs[1..];
    OrderedDistinct(cs, current);
    DroppedOnce(cs, cap, c);
    OrderedHead(cs, current);
    if h == c {
      KeptIsListed(rest, cap);
    } else if h == k {
      FirstKeptMeansNoneDropped(cs, cap, c);
    } else {
      DroppedPrecedes(rest, cap, current, c, k);
    }
  }

  lemma {:induction false} KeptIsListed(cs: seq<Capture>, cap: nat)
    ensures forall c | c in DayKept(cs, cap) :: c in cs
    ensures forall c | c in DayDropped(cs, cap) :: c in cs
  {
    if cs != [] { KeptIsListed(cs[1..], cap); }
  }

  /** No capture is both kept and dropped. */
  lemma DroppedOnce(cs: seq<Capture>, cap: nat, c: Capture)
    requires DistinctNames(cs)
    ensures !(c in DayDropped(cs, cap) && c in DayKept(cs, cap))
  {
    DroppedNames(cs, cap);
    if c in DayDropped(cs, cap) && c in DayKept(cs, cap) {
      NameIn(DayDropped(cs, cap), c);
      NameIn(DayKept(cs, cap), c);
    }
  }

  /** If the first capture is kept, no later one of its day is dropped. */
  lemma FirstKeptMeansNoneDropped(cs: seq<Capture>, cap: nat, c: Capture)
    requires cs != [] && DistinctNames(cs) && c != cs[0] && c.day == cs[0].day && cs[0] in DayKept(cs, cap)
    ensures c !in DayDropped(cs, cap)
  {
    var rest := cs[1..];
    DroppedOnce(cs, cap, cs[0]);
    DayPass(rest, cap, c.day);
    NotInOwnDay(DayDropped(rest, cap), c);
  }

  lemma {:induction false} NotInOwnDay(cs: seq<Capture>, c: Capture)
    requires c !in OfDay(cs, c.day)
    ensures c !in cs
  {
    if cs != [] { NotInOwnDay(cs[1..], c); }
  }

  /** Every removed capture precedes every surviving capture of its day: the newest of a day are kept. */
  lemma RemovedPrecedesKept(listed: seq<Capture>, current: nat, dayCap: nat, byteCap: nat, c: Capture, k: Capture)
    requires DistinctNames(listed) && c in listed && c.day == k.day
    requires c !in Survivors(listed, current, dayCap, byteCap) && k in Survivors(listed, current, dayCap, byteCap)
    ensures Before(c, k, current)
  {
    hide Sort, DayKept, DayDropped, ByteKept, Total, Names;
    var cs := Sort(listed, current);
    var retained := DayKept(cs, dayCap);
    var kept := ByteKept(retained, byteCap);
    SortPermutes(listed, current);
    ByteKeptIsSuffix(retained, byteCap);
    assert k in retained;
    KeptOrDropped(cs, dayCap, c);
    if c in DayDropped(cs, dayCap) {
      DroppedPrecedes(cs, dayCap, current, c, k);
    } else {
      DayKeptOrdered(cs, dayCap, current);
      var n := |retained| - |kept|;
      forall i | n <= i < |retained| ensures retained[i] in kept { assert kept[i - n] == retained[i]; }
      var i :| 0 <= i < |retained| && retained[i] == c;
      var j :| 0 <= j < |kept| && kept[j] == k;
      assert retained[n + j] == k;
    }
  }

  lemma {:induction false} KeptOrDropped(cs: seq<Capture>, cap: nat, c: Capture)
    requires c in cs
    ensures c in DayKept(cs, cap) || c in DayDropped(cs, cap)
  {
    if cs[0] != c { KeptOrDropped(cs[1..], cap, c); }
  }

  lemma {:induction false} DayKeptOrdered(cs: seq<Capture>, cap: nat, current: nat)
    requires Ordered(cs, current)
    ensures Ordered(DayKept(cs, cap), current)
  {
    if cs != [] {
      var c, rest := cs[0], cs[1..];
      DayKeptOrdered(rest, cap, current);
      KeptIsListed(rest, cap);
      var k := DayKept(rest, cap);
      forall j | 0 <= j < |k| ensures Before(c, k[j], current) {
        assert k[j] in rest;
        var i :| 0 <= i < |rest| && rest[i] == k[j];
        assert cs[i + 1] == k[j];
      }
    }
  }

  /** The capture just committed survives exactly when the day cap allows any file and it fits the byte cap
      by itself. */
  lemma CurrentSurvives(listed: seq<Capture>, c: Capture, dayCap: nat, byteCap: nat)
    requires DistinctNames(listed) && c in listed
    ensures c in Survivors(listed, c.name, dayCap, byteCap) <==> dayCap >= 1 && c.bytes <= byteCap
  {
    var cs := Sort(listed, c.name);
    SortPermutes(listed, c.name);
    CurrentIsLast(cs, c);
    var retained := DayKept(cs, dayCap);
    ByteKeptIsSuffix(retained, byteCap);
    if dayCap >= 1 {
      LastIsKept(cs, dayCap);
      LastSurvives(retained, byteCap);
      DayKeptDistinct(cs, dayCap);
      SuffixMember(retained, ByteKept(retained, byteCap), c);
    } else {
      NothingKept(cs);
    }
  }

  /** So with the caps in force every capture an upload can deliver survives its own retention. */
  lemma DeliveredSurvives(listed: seq<Capture>, c: Capture)
    requires DistinctNames(listed) && c in listed && c.bytes <= CaptureUpload.MAX_TOTAL
    ensures c in Survivors(listed, c.name, MAX_FILES_PER_DAY, MAX_TOTAL_BYTES)
  {
    CurrentSurvives(listed, c, MAX_FILES_PER_DAY, MAX_TOTAL_BYTES);
  }

  lemma CurrentIsLast(cs: seq<Capture>, c: Capture)
    requires Ordered(cs, c.name) && c in cs
    ensures cs[|cs| - 1] == c
  {
    var i :| 0 <= i < |cs| && cs[i] == c;
    assert i < |cs| - 1 ==> Before(cs[i], cs[|cs| - 1], c.name);
  }

  lemma {:induction false} LastIsKept(cs: seq<Capture>, cap: nat)
    requires cs != [] && cap >= 1
    ensures DayKept(cs, cap) != [] && DayKept(cs, cap)[|DayKept(cs, cap)| - 1] == cs[|cs| - 1]
  {
    if |cs| == 1 {
      assert cs[1..] == [];
    } else {
      LastIsKept(cs[1..], cap);
    }
  }

  lemma {:induction false} NothingKept(cs: seq<Capture>)
    ensures DayKept(cs, 0) == []
  {
    if cs != [] { NothingKept(cs[1..]); }
  }

  lemma {:induction false} LastSurvives(cs: seq<Capture>, cap: nat)
    requires cs != []
    ensures ByteKept(cs, cap) != [] <==> cs[|cs| - 1].bytes <= cap
  {
    var i := |cs| - 1;
    assert cs[i..] == [cs[i]];
    assert [cs[i]][1..] == [];
    assert Total([cs[i]]) == cs[i].bytes;
    if cs[i].bytes <= cap {
      ByteKeptIsLongest(cs, cap, i);
    } else {
      var k := ByteKept(cs, cap);
      ByteKeptIsSuffix(cs, cap);
      if k != [] { LastFits(k); }
    }
  }

  lemma LastFits(cs: seq<Capture>)
    requires cs != []
    ensures cs[|cs| - 1].bytes <= Total(cs)
  {
    var i := |cs| - 1;
    TotalOfSuffix(cs, i);
    assert cs[i..] == [cs[i]];
    assert [cs[i]][1..] == [];
  }

  lemma SuffixMember(cs: seq<Capture>, k: seq<Capture>, c: Capture)
    requires cs != [] && cs[|cs| - 1] == c && |k| <= |cs| && k == cs[|cs| - |k|..] && DistinctNames(cs)
    ensures c in k <==> k != []
  {
    if k != [] { assert k[|k| - 1] == c; }
  }
}

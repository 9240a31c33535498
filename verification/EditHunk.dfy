/** Edit previews: from a file, an offset and an old/new text to one unified hunk
    (pi-extension/src/index.ts, `_buildEditHunk`), proved to be a correct patch. */
module EditHunk {
  import opened Prelude

  const NEWLINE: Unit := 10
  const CONTEXT := 4

  datatype DiffLine =
    | Context(oldLine: int, newLine: int, text: Text)
    | Remove(oldLine: int, text: Text)
    | Add(newLine: int, text: Text)
    | Ellipsis

  // ----- Lines ----------------------------------------------------------------

  /** `text.split("\n")`. */
  function Lines(t: Text): (r: seq<Text>)
    ensures |r| == 1 + Newlines(t)
  {
    if t == [] then [[]]
    else
      var rest := Lines(t[1..]);
      if t[0] == NEWLINE then [[]] + rest else Extend(t[0], rest)
  }

  /** One more character in front of the first line. */
  function Extend(c: Unit, lines: seq<Text>): (r: seq<Text>)
    requires lines != []
    ensures |r| == |lines|
  {
    [[c] + lines[0]] + lines[1..]
  }

  function Newlines(t: Text): nat {
    if t == [] then 0 else (if t[0] == NEWLINE then 1 else 0) + Newlines(t[1..])
  }

  predicate EndsLine(t: Text) { t == [] || t[|t| - 1] == NEWLINE }

  /** `_splitPreviewLines`: the empty piece after a final newline is dropped. */
  function PreviewLines(t: Text): (r: seq<Text>) {
    if t == [] then []
    else
      var lines := Lines(t);
      if lines[|lines| - 1] == [] then lines[..|lines| - 1] else lines
  }

  function Clamp(offset: int, length: nat): (k: nat)
    ensures k <= length
  {
    if offset < 0 then 0 else if offset > length then length else offset
  }

  function Least(a: int, b: int): int { if a < b then a else b }
  function Most(a: int, b: int): int { if a < b then b else a }

  /** `_lineNumberAt`: one more than the newlines before the offset. */
  method LineNumberAt(text: Text, offset: int) returns (line: nat)
    ensures line == 1 + Newlines(text[..Clamp(offset, |text|)])
  {
    line := 1;
    var i := 0;
    while i < Most(0, offset)
      invariant 0 <= i <= Most(0, offset)
      invariant line == 1 + Newlines(text[..Clamp(i, |text|)])
    {
      if i < |text| {
        NewlinesAppend(text[..i], [text[i]]);
        assert text[..i + 1] == text[..i] + [text[i]];
        if text[i] == NEWLINE { line := line + 1; }
      }
      i := i + 1;
    }
  }

  lemma {:induction false} NewlinesAppend(s: Text, t: Text)
    ensures Newlines(s + t) == Newlines(s) + Newlines(t)
  {
    if s == [] {
      assert s + t == t;
    } else {
      NewlinesAppend(s[1..], t);
      assert (s + t)[1..] == s[1..] + t;
    }
  }

  // ----- Common prefix and suffix -----------------------------------------------

  /** `p` old lines and `p` new lines at the front agree, and the next pair does not. */
  ghost predicate IsCommonPrefix(was: seq<Text>, now: seq<Text>, p: nat) {
    && p <= |was| && p <= |now| && was[..p] == now[..p]
    && (p < |was| && p < |now| ==> was[p] != now[p])
  }

  /** After `p` front lines, `q` lines at the back agree without overlap, and no more do. */
  ghost predicate IsCommonSuffix(was: seq<Text>, now: seq<Text>, p: nat, q: nat) {
    && p + q <= |was| && p + q <= |now| && was[|was| - q..] == now[|now| - q..]
    && (p + q < |was| && p + q < |now| ==> was[|was| - 1 - q] != now[|now| - 1 - q])
  }

  method CommonPrefix(was: seq<Text>, now: seq<Text>) returns (p: nat)
    ensures IsCommonPrefix(was, now, p)
  {
    p := 0;
    while p < |was| && p < |now| && was[p] == now[p]
      invariant p <= |was| && p <= |now| && was[..p] == now[..p]
    {
      p := p + 1;
    }
  }

  method CommonSuffix(was: seq<Text>, now: seq<Text>, p: nat) returns (q: nat)
    requires p <= |was| && p <= |now|
    ensures IsCommonSuffix(was, now, p, q)
  {
    q := 0;
    while q < |was| - p && q < |now| - p && was[|was| - 1 - q] == now[|now| - 1 - q]
      invariant p + q <= |was| && p + q <= |now| && was[|was| - q..] == now[|now| - q..]
    {
      assert was[|was| - q - 1..] == [was[|was| - 1 - q]] + was[|was| - q..];
      assert now[|now| - q - 1..] == [now[|now| - 1 - q]] + now[|now| - q..];
      q := q + 1;
    }
  }

  // ----- The hunk -----------------------------------------------------------------

  datatype Kind = Shared | Gone | Fresh

  function MakeLine(kind: Kind, oldLine: int, newLine: int, text: Text): DiffLine {
    match kind
    case Shared => Context(oldLine, newLine, text)
    case Gone => Remove(oldLine, text)
    case Fresh => Add(newLine, text)
  }

  /** Consecutive lines of one kind. */
  function Run(kind: Kind, lines: seq<Text>, oldFrom: int, newFrom: int): seq<DiffLine> {
    if lines == [] then []
    else [MakeLine(kind, oldFrom, newFrom, lines[0])] + Run(kind, lines[1..], oldFrom + 1, newFrom + 1)
  }

  lemma {:induction false} RunGrows(kind: Kind, lines: seq<Text>, last: Text, oldFrom: int, newFrom: int)
    ensures Run(kind, lines + [last], oldFrom, newFrom)
            == Run(kind, lines, oldFrom, newFrom) + [MakeLine(kind, oldFrom + |lines|, newFrom + |lines|, last)]
  {
    var all := lines + [last];
    if lines == [] {
      assert all[1..] == [] && Run(kind, all[1..], oldFrom + 1, newFrom + 1) == [];
    } else {
      assert all[1..] == lines[1..] + [last] && all[0] == lines[0];
      RunGrows(kind, lines[1..], last, oldFrom + 1, newFrom + 1);
      ConcatAssociates([MakeLine(kind, oldFrom, newFrom, lines[0])], Run(kind, lines[1..], oldFrom + 1, newFrom + 1),
                       [MakeLine(kind, oldFrom + |lines|, newFrom + |lines|, last)]);
    }
  }

  function EllipsisIf(shown: bool): seq<DiffLine> { if shown then [Ellipsis] else [] }

  /** Where the hunk sits in the file: `start` is the index of the first was line. */
  datatype Window = Window(file: seq<Text>, start: nat, was: seq<Text>, now: seq<Text>) {
    predicate Valid() { start < |file| }
    function BeforeStart(): nat { Most(0, start - CONTEXT) }
    function AfterStart(): nat { start + |was| }
    function AfterEnd(): nat { Least(|file|, AfterStart() + CONTEXT) }
    function Before(): seq<Text> requires Valid() { file[BeforeStart()..start] }
    function After(): seq<Text> { if AfterStart() <= AfterEnd() then file[AfterStart()..AfterEnd()] else [] }

    /** Everything above the changed lines. */
    function Top(p: nat): seq<DiffLine>
      requires Valid() && p <= |was|
    {
      EllipsisIf(BeforeStart() > 0)
      + Run(Shared, Before(), BeforeStart() + 1, BeforeStart() + 1)
      + Run(Shared, was[..p], start + 1, start + 1)
    }

    /** The changed lines. */
    function Middle(p: nat, q: nat): seq<DiffLine>
      requires p + q <= |was| && p + q <= |now|
    {
      Run(Gone, was[p..|was| - q], start + 1 + p, 0) + Run(Fresh, now[p..|now| - q], 0, start + 1 + p)
    }

    /** Everything below the changed lines. */
    function Bottom(q: nat): seq<DiffLine>
      requires q <= |was|
    {
      Run(Shared, was[|was| - q..], start + 1 + |was| - q, start + 1 + |now| - q)
      + Run(Shared, After(), AfterStart() + 1, start + 1 + |now|)
      + EllipsisIf(AfterEnd() < |file|)
    }

    /** The whole hunk for a common prefix of `p` and a common suffix of `q` lines. */
    function Layout(p: nat, q: nat): seq<DiffLine>
      requires Valid() && p + q <= |was| && p + q <= |now|
    {
      Top(p) + Middle(p, q) + Bottom(q)
    }
  }

  function WindowAt(fileText: Text, startOffset: int, oldText: Text, newText: Text): (w: Window)
    ensures w.Valid()
  {
    var k := Clamp(startOffset, |fileText|);
    NewlinesAppend(fileText[..k], fileText[k..]);
    assert fileText == fileText[..k] + fileText[k..];
    Window(Lines(fileText), Newlines(fileText[..k]), PreviewLines(oldText), PreviewLines(newText))
  }

  /** The loops of `_buildEditHunk` that push one run of lines. */
  method PushRun(out: seq<DiffLine>, kind: Kind, lines: seq<Text>, oldFrom: int, newFrom: int)
    returns (r: seq<DiffLine>)
    ensures r == out + Run(kind, lines, oldFrom, newFrom)
  {
    r := out;
    for i := 0 to |lines|
      invariant r == out + Run(kind, lines[..i], oldFrom, newFrom)
    {
      RunGrows(kind, lines[..i], lines[i], oldFrom, newFrom);
      assert lines[..i + 1] == lines[..i] + [lines[i]];
      r := r + [MakeLine(kind, oldFrom + i, newFrom + i, lines[i])];
    }
    assert lines[..|lines|] == lines;
  }

  /** The window laid out around its maximal common prefix and suffix. */
  ghost predicate IsHunk(w: Window, out: seq<DiffLine>)
    requires w.Valid()
  {
    exists p: nat, q: nat ::
      IsCommonPrefix(w.was, w.now, p) && IsCommonSuffix(w.was, w.now, p, q) && out == w.Layout(p, q)
  }

  /** `_buildEditHunk`. */
  method BuildEditHunk(fileText: Text, startOffset: int, oldText: Text, newText: Text)
    returns (out: seq<DiffLine>)
    ensures var w := WindowAt(fileText, startOffset, oldText, newText);
            && IsHunk(w, out)
            && OldRows(out) == Numbered(w.Before() + w.was + w.After(), w.BeforeStart() + 1)
            && NewRows(out) == Numbered(w.Before() + w.now + w.After(), w.BeforeStart() + 1)
  {
    hide Run, Lines, PreviewLines, Newlines, Window.Bottom, OldRows, NewRows, Numbered;
    var fileLines := Lines(fileText);
    var oldLines := PreviewLines(oldText);
    var newLines := PreviewLines(newText);
    var oldStart := LineNumberAt(fileText, startOffset);
    var startIndex := oldStart - 1;
    ghost var w := WindowAt(fileText, startOffset, oldText, newText);
    assert w == Window(fileLines, startIndex, oldLines, newLines);

    var beforeStart := Most(0, startIndex - CONTEXT);
    out := if beforeStart > 0 then [Ellipsis] else [];
    out := PushRun(out, Shared, fileLines[beforeStart..startIndex], beforeStart + 1, beforeStart + 1);
    var commonPrefix := CommonPrefix(oldLines, newLines);
    var commonSuffix := CommonSuffix(oldLines, newLines, commonPrefix);
    ghost var p: nat, q: nat := commonPrefix, commonSuffix;
    out := PushRun(out, Shared, oldLines[..commonPrefix], oldStart, oldStart);
    assert out == w.Top(p);
    out := PushRun(out, Gone, oldLines[commonPrefix..|oldLines| - commonSuffix], oldStart + commonPrefix, 0);
    out := PushRun(out, Fresh, newLines[commonPrefix..|newLines| - commonSuffix], 0, oldStart + commonPrefix);
    assert out == w.Top(p) + w.Middle(p, q);
    out := PushBottom(out, fileLines, startIndex, oldLines, newLines, commonSuffix);
    assert out == w.Layout(p, q);
    HunkIsPatch(w, p, q);
  }

  method PushBottom(top: seq<DiffLine>, fileLines: seq<Text>, startIndex: nat,
                    oldLines: seq<Text>, newLines: seq<Text>, commonSuffix: nat)
    returns (out: seq<DiffLine>)
    requires startIndex < |fileLines| && commonSuffix <= |oldLines|
    ensures out == top + Window(fileLines, startIndex, oldLines, newLines).Bottom(commonSuffix)
  {
    hide Run;
    var oldStart := startIndex + 1;
    var afterStart := startIndex + |oldLines|;
    var afterEnd := Least(|fileLines|, afterStart + CONTEXT);
    var suffix := oldLines[|oldLines| - commonSuffix..];
    var after := if afterStart <= afterEnd then fileLines[afterStart..afterEnd] else [];
    ghost var a := Run(Shared, suffix, oldStart + |oldLines| - commonSuffix, oldStart + |newLines| - commonSuffix);
    ghost var b := Run(Shared, after, afterStart + 1, oldStart + |newLines|);
    out := PushRun(top, Shared, suffix, oldStart + |oldLines| - commonSuffix, oldStart + |newLines| - commonSuffix);
    out := PushRun(out, Shared, after, afterStart + 1, oldStart + |newLines|);
    BottomAssembled(top, a, b, afterEnd < |fileLines|);
    if afterEnd < |fileLines| { out := out + [Ellipsis]; }
  }

  lemma BottomAssembled(top: seq<DiffLine>, a: seq<DiffLine>, b: seq<DiffLine>, shown: bool)
    ensures top + a + b + EllipsisIf(shown) == top + (a + b + EllipsisIf(shown))
    ensures !shown ==> top + a + b == top + (a + b + EllipsisIf(shown))
  {
    ConcatAssociates(top, a, b);
    ConcatAssociates(top, a + b, EllipsisIf(shown));
    assert !shown ==> a + b + EllipsisIf(shown) == a + b;
  }

  // ----- The two sides of a hunk --------------------------------------------------

  function OldRow(line: DiffLine): seq<(int, Text)> {
    match line
    case Context(o, _, t) => [(o, t)]
    case Remove(o, t) => [(o, t)]
    case _ => []
  }

  function NewRow(line: DiffLine): seq<(int, Text)> {
    match line
    case Context(_, n, t) => [(n, t)]
    case Add(n, t) => [(n, t)]
    case _ => []
  }

  /** The numbered lines a hunk shows of the old file, top to bottom. */
  function OldRows(hunk: seq<DiffLine>): seq<(int, Text)> {
    if hunk == [] then [] else OldRow(hunk[0]) + OldRows(hunk[1..])
  }

  /** The numbered lines a hunk shows of the new file. */
  function NewRows(hunk: seq<DiffLine>): seq<(int, Text)> {
    if hunk == [] then [] else NewRow(hunk[0]) + NewRows(hunk[1..])
  }

  /** Lines numbered consecutively from `from`. */
  function Numbered(lines: seq<Text>, from: int): seq<(int, Text)> {
    if lines == [] then [] else [(from, lines[0])] + Numbered(lines[1..], from + 1)
  }

  lemma {:induction false} RowsAppend(a: seq<DiffLine>, b: seq<DiffLine>)
    ensures OldRows(a + b) == OldRows(a) + OldRows(b)
    ensures NewRows(a + b) == NewRows(a) + NewRows(b)
  {
    if a == [] {
      assert a + b == b;
    } else {
      RowsAppend(a[1..], b);
      assert (a + b)[1..] == a[1..] + b && (a + b)[0] == a[0];
      ConcatAssociates(OldRow(a[0]), OldRows(a[1..]), OldRows(b));
      ConcatAssociates(NewRow(a[0]), NewRows(a[1..]), NewRows(b));
    }
  }

  lemma {:induction false} RunRows(kind: Kind, lines: seq<Text>, o: int, n: int)
    ensures OldRows(Run(kind, lines, o, n)) == if kind == Fresh then [] else Numbered(lines, o)
    ensures NewRows(Run(kind, lines, o, n)) == if kind == Gone then [] else Numbered(lines, n)
  {
    if lines != [] {
      RunRows(kind, lines[1..], o + 1, n + 1);
      assert Run(kind, lines, o, n)[1..] == Run(kind, lines[1..], o + 1, n + 1);
    }
  }

  lemma {:induction false} NumberedAppend(a: seq<Text>, b: seq<Text>, from: int)
    ensures Numbered(a + b, from) == Numbered(a, from) + Numbered(b, from + |a|)
  {
    if a == [] {
      assert a + b == b;
    } else {
      NumberedAppend(a[1..], b, from + 1);
      assert (a + b)[1..] == a[1..] + b && (a + b)[0] == a[0];
      ConcatAssociates([(from, a[0])], Numbered(a[1..], from + 1), Numbered(b, from + |a|));
    }
  }

  lemma EllipsisRows(shown: bool)
    ensures OldRows(EllipsisIf(shown)) == [] && NewRows(EllipsisIf(shown)) == []
  {
    if shown { assert [Ellipsis][1..] == []; }
  }

  lemma TopRows(w: Window, p: nat)
    requires w.Valid() && p <= |w.was|
    ensures OldRows(w.Top(p)) == Numbered(w.Before() + w.was[..p], w.BeforeStart() + 1)
    ensures NewRows(w.Top(p)) == Numbered(w.Before() + w.was[..p], w.BeforeStart() + 1)
  {
    hide OldRows, NewRows, Run, Numbered;
    var a := EllipsisIf(w.BeforeStart() > 0);
    var b := Run(Shared, w.Before(), w.BeforeStart() + 1, w.BeforeStart() + 1);
    var c := Run(Shared, w.was[..p], w.start + 1, w.start + 1);
    EllipsisRows(w.BeforeStart() > 0);
    RunRows(Shared, w.Before(), w.BeforeStart() + 1, w.BeforeStart() + 1);
    RunRows(Shared, w.was[..p], w.start + 1, w.start + 1);
    RowsAppend(a, b);
    RowsAppend(a + b, c);
    NumberedAppend(w.Before(), w.was[..p], w.BeforeStart() + 1);
  }

  lemma MiddleRows(w: Window, p: nat, q: nat)
    requires p + q <= |w.was| && p + q <= |w.now|
    ensures OldRows(w.Middle(p, q)) == Numbered(w.was[p..|w.was| - q], w.start + 1 + p)
    ensures NewRows(w.Middle(p, q)) == Numbered(w.now[p..|w.now| - q], w.start + 1 + p)
  {
    hide OldRows, NewRows, Run, Numbered;
    RunRows(Gone, w.was[p..|w.was| - q], w.start + 1 + p, 0);
    RunRows(Fresh, w.now[p..|w.now| - q], 0, w.start + 1 + p);
    RowsAppend(Run(Gone, w.was[p..|w.was| - q], w.start + 1 + p, 0), Run(Fresh, w.now[p..|w.now| - q], 0, w.start + 1 + p));
  }

  lemma BottomRows(w: Window, q: nat)
    requires q <= |w.was|
    ensures OldRows(w.Bottom(q)) == Numbered(w.was[|w.was| - q..] + w.After(), w.start + 1 + |w.was| - q)
    ensures NewRows(w.Bottom(q)) == Numbered(w.was[|w.was| - q..] + w.After(), w.start + 1 + |w.now| - q)
  {
    hide OldRows, NewRows, Run, Numbered;
    var shared := w.was[|w.was| - q..];
    var o, n := w.start + 1 + |w.was| - q, w.start + 1 + |w.now| - q;
    var a := Run(Shared, shared, o, n);
    var b := Run(Shared, w.After(), w.AfterStart() + 1, w.start + 1 + |w.now|);
    var c := EllipsisIf(w.AfterEnd() < |w.file|);
    RunRows(Shared, shared, o, n);
    RunRows(Shared, w.After(), w.AfterStart() + 1, w.start + 1 + |w.now|);
    EllipsisRows(w.AfterEnd() < |w.file|);
    RowsAppend(a, b);
    RowsAppend(a + b, c);
    NumberedAppend(shared, w.After(), o);
    NumberedAppend(shared, w.After(), n);
  }

  /** A hunk is a correct patch of its window: its old side is context, old lines, context;
      its new side context, new lines, context; and each side's line numbers are consecutive. */
  lemma HunkIsPatch(w: Window, p: nat, q: nat)
    requires w.Valid() && IsCommonPrefix(w.was, w.now, p) && IsCommonSuffix(w.was, w.now, p, q)
    ensures OldRows(w.Layout(p, q)) == Numbered(w.Before() + w.was + w.After(), w.BeforeStart() + 1)
    ensures NewRows(w.Layout(p, q)) == Numbered(w.Before() + w.now + w.After(), w.BeforeStart() + 1)
  {
    hide OldRows, NewRows, Numbered, Window.Top, Window.Middle, Window.Bottom;
    TopRows(w, p);
    MiddleRows(w, p, q);
    BottomRows(w, q);
    RowsAppend(w.Top(p), w.Middle(p, q));
    RowsAppend(w.Top(p) + w.Middle(p, q), w.Bottom(q));
    assert w.was[..p] == w.now[..p] && w.was[|w.was| - q..] == w.now[|w.now| - q..];
    Reassembled(w.Before(), w.was, w.After(), p, q, w.BeforeStart() + 1);
    Reassembled(w.Before(), w.now, w.After(), p, q, w.BeforeStart() + 1);
  }

  lemma Reassembled(before: seq<Text>, lines: seq<Text>, after: seq<Text>, p: nat, q: nat, from: int)
    requires p + q <= |lines|
    ensures Numbered(before + lines + after, from)
            == Numbered(before + lines[..p], from)
               + Numbered(lines[p..|lines| - q], from + |before| + p)
               + Numbered(lines[|lines| - q..] + after, from + |before| + |lines| - q)
  {
    var a, b, c := before + lines[..p], lines[p..|lines| - q], lines[|lines| - q..] + after;
    assert before + lines + after == a + b + c;
    NumberedAppend(a, b, from);
    NumberedAppend(a + b, c, from);
  }

  // ----- The shape of a hunk ----------------------------------------------------------

  datatype Mark = Skipped | Same | Removed | Added

  function MarkOf(line: DiffLine): Mark {
    match line
    case Ellipsis => Skipped
    case Context(_, _, _) => Same
    case Remove(_, _) => Removed
    case Add(_, _) => Added
  }

  function Marks(hunk: seq<DiffLine>): seq<Mark> {
    seq(|hunk|, i requires 0 <= i < |hunk| => MarkOf(hunk[i]))
  }

  function Times(m: Mark, n: nat): seq<Mark> { seq(n, _ => m) }

  lemma MarksAppend(a: seq<DiffLine>, b: seq<DiffLine>)
    ensures Marks(a + b) == Marks(a) + Marks(b)
  {
  }

  function KindMark(kind: Kind): Mark {
    match kind
    case Shared => Same
    case Gone => Removed
    case Fresh => Added
  }

  lemma {:induction false} RunMarks(kind: Kind, lines: seq<Text>, o: int, n: int)
    ensures Marks(Run(kind, lines, o, n)) == Times(KindMark(kind), |lines|)
  {
    if lines != [] {
      RunMarks(kind, lines[1..], o + 1, n + 1);
      MarksAppend([MakeLine(kind, o, n, lines[0])], Run(kind, lines[1..], o + 1, n + 1));
    }
  }

  lemma TopMarks(w: Window, p: nat)
    requires w.Valid() && p <= |w.was|
    ensures Marks(w.Top(p)) == Times(Skipped, if w.start > 4 then 1 else 0)
                               + Times(Same, if w.start > 4 then 4 else w.start) + Times(Same, p)
  {
    var a := EllipsisIf(w.BeforeStart() > 0);
    var b := Run(Shared, w.Before(), w.BeforeStart() + 1, w.BeforeStart() + 1);
    var c := Run(Shared, w.was[..p], w.start + 1, w.start + 1);
    RunMarks(Shared, w.Before(), w.BeforeStart() + 1, w.BeforeStart() + 1);
    RunMarks(Shared, w.was[..p], w.start + 1, w.start + 1);
    hide Run;
    MarksAppend(a, b);
    MarksAppend(a + b, c);
    assert Marks(a) == Times(Skipped, if w.start > 4 then 1 else 0);
  }

  /** The number of lines of the file below the changed ones. */
  function Below(w: Window): nat { if w.AfterStart() > |w.file| then 0 else |w.file| - w.AfterStart() }

  lemma BottomMarks(w: Window, q: nat)
    requires w.Valid() && q <= |w.was|
    ensures Marks(w.Bottom(q)) == Times(Same, q) + Times(Same, if Below(w) > 4 then 4 else Below(w))
                                  + Times(Skipped, if Below(w) > 4 then 1 else 0)
  {
    var o, n := w.start + 1 + |w.was| - q, w.start + 1 + |w.now| - q;
    var a := Run(Shared, w.was[|w.was| - q..], o, n);
    var b := Run(Shared, w.After(), w.AfterStart() + 1, w.start + 1 + |w.now|);
    var c := EllipsisIf(w.AfterEnd() < |w.file|);
    RunMarks(Shared, w.was[|w.was| - q..], o, n);
    RunMarks(Shared, w.After(), w.AfterStart() + 1, w.start + 1 + |w.now|);
    BelowSize(w);
    hide Run, Times, Below, Window.After, Window.AfterEnd;
    MarksAppend(a, b);
    MarksAppend(a + b, c);
    EllipsisMarks(Below(w) > 4);
  }

  lemma BelowSize(w: Window)
    ensures |w.After()| == (if Below(w) > 4 then 4 else Below(w)) && (w.AfterEnd() < |w.file| <==> Below(w) > 4)
  {
  }

  lemma EllipsisMarks(shown: bool)
    ensures Marks(EllipsisIf(shown)) == Times(Skipped, if shown then 1 else 0)
  {
  }

  lemma MiddleMarks(w: Window, p: nat, q: nat)
    requires p + q <= |w.was| && p + q <= |w.now|
    ensures Marks(w.Middle(p, q)) == Times(Removed, |w.was| - p - q) + Times(Added, |w.now| - p - q)
  {
    var gone := Run(Gone, w.was[p..|w.was| - q], w.start + 1 + p, 0);
    var added := Run(Fresh, w.now[p..|w.now| - q], 0, w.start + 1 + p);
    RunMarks(Gone, w.was[p..|w.was| - q], w.start + 1 + p, 0);
    RunMarks(Fresh, w.now[p..|w.now| - q], 0, w.start + 1 + p);
    hide Run, Marks, Times;
    MarksAppend(gone, added);
  }

  lemma LayoutMarks(w: Window, p: nat, q: nat)
    requires w.Valid() && p + q <= |w.was| && p + q <= |w.now|
    ensures Marks(w.Layout(p, q)) == Marks(w.Top(p)) + Marks(w.Middle(p, q)) + Marks(w.Bottom(q))
  {
    hide Window.Top, Window.Middle, Window.Bottom, Marks;
    MarksAppend(w.Top(p), w.Middle(p, q));
    MarksAppend(w.Top(p) + w.Middle(p, q), w.Bottom(q));
  }

  /** A hunk is up to four lines above, the shared lines, every removed line, every added one, the shared lines, and
      up to four lines below, with a mark wherever more of the file is left out; it removes and adds no more lines
      than the common prefix and suffix leave over. */
  lemma HunkShape(w: Window, p: nat, q: nat)
    requires w.Valid() && p + q <= |w.was| && p + q <= |w.now|
    ensures var above, below := if w.start > 4 then 4 else w.start, if Below(w) > 4 then 4 else Below(w);
            Marks(w.Layout(p, q))
            == Times(Skipped, if w.start > 4 then 1 else 0) + Times(Same, above + p)
               + Times(Removed, |w.was| - p - q) + Times(Added, |w.now| - p - q)
               + Times(Same, q + below) + Times(Skipped, if Below(w) > 4 then 1 else 0)
  {
    hide *;
    var above, below := if w.start > 4 then 4 else w.start, if Below(w) > 4 then 4 else Below(w);
    var a, h := Times(Skipped, if w.start > 4 then 1 else 0), Times(Skipped, if Below(w) > 4 then 1 else 0);
    var b, c, d := Times(Same, above), Times(Same, p), Times(Removed, |w.was| - p - q);
    var e, f, g := Times(Added, |w.now| - p - q), Times(Same, q), Times(Same, below);
    assert Marks(w.Layout(p, q)) == a + (b + c) + d + e + (f + g) + h by {
      TopMarks(w, p);
      MiddleMarks(w, p, q);
      BottomMarks(w, q);
      LayoutMarks(w, p, q);
      Arranged(a, b, c, d, e, f, g, h);
    }
    assert b + c == Times(Same, above + p) by { TimesAppend(Same, above, p); }
    assert f + g == Times(Same, q + below) by { TimesAppend(Same, q, below); }
  }

  lemma Arranged<T>(a: seq<T>, b: seq<T>, c: seq<T>, d: seq<T>, e: seq<T>, f: seq<T>, g: seq<T>, h: seq<T>)
    ensures (a + b + c) + (d + e) + (f + g + h) == a + (b + c) + d + e + (f + g) + h
  {
    ConcatAssociates(a, b, c);
    ConcatAssociates(a + (b + c), d, e);
    ConcatAssociates(a + (b + c) + d + e, f + g, h);
  }

  lemma TimesAppend(m: Mark, a: nat, b: nat)
    ensures Times(m, a) + Times(m, b) == Times(m, a + b)
  {
  }

  // ----- Against the edited file ----------------------------------------------------

  function Texts(rows: seq<(int, Text)>): seq<Text> {
    if rows == [] then [] else [rows[0].1] + Texts(rows[1..])
  }

  lemma {:induction false} TextsOfNumbered(lines: seq<Text>, from: int)
    ensures Texts(Numbered(lines, from)) == lines
  {
    if lines != [] {
      TextsOfNumbered(lines[1..], from + 1);
      assert Numbered(lines, from)[1..] == Numbered(lines[1..], from + 1);
    }
  }

  /** The file's lines with the hunk's old rows replaced by its new rows. */
  function Patched(w: Window, p: nat, q: nat): seq<Text>
    requires w.Valid() && p + q <= |w.was| && p + q <= |w.now|
  {
    w.file[..w.BeforeStart()] + Texts(NewRows(w.Layout(p, q))) + w.file[w.AfterEnd()..]
  }

  lemma {:induction false} LastLine(t: Text)
    ensures var ls := Lines(t); ls[|ls| - 1] == [] <==> EndsLine(t)
  {
    if |t| == 1 {
      assert Lines(t[1..]) == [[]];
    } else if |t| > 1 {
      LastLine(t[1..]);
    }
  }

  /** Two line lists joined by merging the last line of the first with the first of the second. */
  function Glue(a: seq<Text>, b: seq<Text>): (r: seq<Text>)
    requires a != [] && b != []
    ensures r != []
  {
    a[..|a| - 1] + [a[|a| - 1] + b[0]] + b[1..]
  }

  lemma GlueCons(line: Text, a: seq<Text>, b: seq<Text>)
    requires a != [] && b != []
    ensures Glue([line] + a, b) == [line] + Glue(a, b)
  {
    assert ([line] + a)[..|a|] == [line] + a[..|a| - 1];
  }

  lemma GlueExtend(c: Unit, a: seq<Text>, b: seq<Text>)
    requires a != [] && b != []
    ensures Glue(Extend(c, a), b) == Extend(c, Glue(a, b))
  {
    if |a| == 1 {
      ConcatAssociates([c], a[0], b[0]);
      assert Glue(a, b) == [a[0] + b[0]] + b[1..];
    } else {
      assert a == [a[0]] + a[1..];
      GlueCons(a[0], a[1..], b);
      GlueCons([c] + a[0], a[1..], b);
      assert Glue(a, b)[1..] == Glue(a[1..], b);
    }
  }

  lemma GlueEmpty(a: seq<Text>, b: seq<Text>)
    requires a != [] && b != []
    ensures a[|a| - 1] == [] ==> Glue(a, b) == a[..|a| - 1] + b
    ensures b[0] == [] ==> Glue(a, b) == a + b[1..]
  {
    if a[|a| - 1] == [] {
      assert a[|a| - 1] + b[0] == b[0];
      ConcatAssociates(a[..|a| - 1], [b[0]], b[1..]);
      assert [b[0]] + b[1..] == b;
    }
    if b[0] == [] {
      assert a[|a| - 1] + b[0] == a[|a| - 1];
      assert a[..|a| - 1] + [a[|a| - 1]] == a;
    }
  }

  /** Concatenation of texts glues their lines. */
  lemma {:induction false} LinesAppend(s: Text, t: Text)
    ensures Lines(s + t) == Glue(Lines(s), Lines(t))
  {
    var b := Lines(t);
    if s == [] {
      assert s + t == t;
      GlueEmpty([[]], b);
    } else {
      LinesAppend(s[1..], t);
      assert (s + t)[1..] == s[1..] + t && (s + t)[0] == s[0];
      if s[0] == NEWLINE { GlueCons([], Lines(s[1..]), b); } else { GlueExtend(s[0], Lines(s[1..]), b); }
    }
  }

  /** The hole left for `x` ends at a line boundary of the surrounding text. */
  predicate EndsAtBoundary(x: Text, rest: Text) { EndsLine(x) || rest == [] || rest[0] == NEWLINE }

  lemma FirstLine(t: Text)
    ensures Lines(t)[0] == [] <==> t == [] || t[0] == NEWLINE
  {
  }

  /** Lines that continue the unfinished line `open`. */
  function Continued(open: Text, lines: seq<Text>): seq<Text>
    requires lines != []
  {
    [open + lines[0]] + lines[1..]
  }

  /** The line of `prefix` that is left unfinished, and the finished ones before it. */
  function OpenLine(prefix: Text): Text { Lines(prefix)[Newlines(prefix)] }
  function ClosedLines(prefix: Text): (r: seq<Text>)
    ensures |r| == Newlines(prefix)
  {
    Lines(prefix)[..Newlines(prefix)]
  }

  /** The lines of a text with `x` in its hole. */
  lemma LinesAround(prefix: Text, x: Text, rest: Text)
    ensures Lines(prefix + x + rest) == ClosedLines(prefix) + Continued(OpenLine(prefix), Glue(Lines(x), Lines(rest)))
  {
    ConcatAssociates(prefix, x, rest);
    LinesAppend(prefix, x + rest);
    LinesAppend(x, rest);
    ConcatAssociates(ClosedLines(prefix), [OpenLine(prefix) + Lines(x + rest)[0]], Lines(x + rest)[1..]);
  }

  lemma PreviewSize(x: Text)
    ensures PreviewLines(x) == Lines(x)[..Newlines(x) + if EndsLine(x) then 0 else 1]
  {
    LastLine(x);
  }

  /** The file's lines after the hole left for `x`, on whose first line `open` may stand. */
  function LinesAfter(open: Text, x: Text, r: seq<Text>): seq<Text>
    requires r != []
  {
    if x == [] then Continued(open, r) else if EndsLine(x) then r else r[1..]
  }

  lemma AfterHole(open: Text, x: Text, r: seq<Text>)
    requires r != []
    ensures var c := Continued(open, Glue(Lines(x), r));
            |PreviewLines(x)| <= |c| && c[|PreviewLines(x)|..] == LinesAfter(open, x, r)
  {
    hide Lines, Glue, PreviewLines;
    var now := PreviewLines(x);
    EmptyPreview(x);
    if EndsLine(x) {
      WholePreview(x, r);
      if x == [] {
        assert now + r == r && Continued(open, r)[0..] == Continued(open, r);
      } else {
        ContinuedTail(open, now + r, |now|);
        assert (now + r)[|now|..] == r;
      }
    } else {
      PreviewSize(x);
      GlueSize(Lines(x), r);
      ContinuedTail(open, Glue(Lines(x), r), |now|);
    }
  }

  lemma ContinuedTail(open: Text, lines: seq<Text>, i: nat)
    requires 0 < i <= |lines|
    ensures |Continued(open, lines)| == |lines| && Continued(open, lines)[i..] == lines[i..]
  {
  }

  lemma GlueSize(a: seq<Text>, b: seq<Text>)
    requires a != [] && b != []
    ensures |Glue(a, b)| == |a| + |b| - 1 && Glue(a, b)[|a|..] == b[1..]
    ensures Glue(a, b)[0] == if |a| == 1 then a[0] + b[0] else a[0]
    ensures Glue(a, b)[|a| - 1] == a[|a| - 1] + b[0]
  {
  }

  lemma NothingAdded(a: Text, x: Text, b: Text)
    ensures x == a + x + b <==> a == [] && b == []
  {
    if a == [] && b == [] { assert a + x + b == x; }
    if x == a + x + b { assert |x| == |a| + |x| + |b|; }
  }

  /** Whether the new lines, put in the hole of the old ones, read like the new text in its place. */
  lemma HoleMatches(open: Text, oldText: Text, newText: Text, r: seq<Text>)
    requires r != [] && EndsLine(oldText) == EndsLine(newText)
    ensures PreviewLines(newText) + LinesAfter(open, oldText, r) == Continued(open, Glue(Lines(newText), r))
            <==> (oldText == [] && newText == []) || (open == [] && (EndsLine(oldText) || r[0] == []))
  {
    hide Lines, Continued, LinesAfter, PreviewLines, Glue;
    if EndsLine(newText) {
      WholeLinesMatch(open, oldText, newText, r);
    } else {
      PartLinesMatch(open, oldText, newText, r);
    }
  }

  lemma WholeLinesMatch(open: Text, oldText: Text, newText: Text, r: seq<Text>)
    requires r != [] && EndsLine(oldText) && EndsLine(newText)
    ensures PreviewLines(newText) + LinesAfter(open, oldText, r) == Continued(open, Glue(Lines(newText), r))
            <==> (oldText == [] && newText == []) || open == []
  {
    hide Lines, Glue, PreviewLines, Continued;
    var now := PreviewLines(newText);
    EmptyPreview(newText);
    WholePreview(newText, r);
    ContinuedSame(open, r);
    var left, right := now + LinesAfter(open, oldText, r), Continued(open, now + r);
    if now == [] {
      assert now + r == r && left == LinesAfter(open, oldText, r);
    } else {
      ContinuedSame(open, now + r);
      ContinuedFirst(open, now + r);
      assert left[0] == now[0] == (now + r)[0];
      NothingAdded(open, now[0], []);
      assert open + now[0] + [] == open + now[0];
    }
  }

  lemma ContinuedSame(open: Text, lines: seq<Text>)
    requires lines != []
    ensures Continued(open, lines) == lines <==> open == []
  {
    NothingAdded(open, lines[0], []);
    assert open + lines[0] + [] == open + lines[0];
    assert lines == [lines[0]] + lines[1..];
    ContinuedFirst(open, lines);
  }

  lemma ContinuedFirst(open: Text, lines: seq<Text>)
    requires lines != []
    ensures Continued(open, lines)[0] == open + lines[0]
  {
  }

  lemma WholePreview(x: Text, r: seq<Text>)
    requires EndsLine(x) && r != []
    ensures Glue(Lines(x), r) == PreviewLines(x) + r
  {
    hide Lines, Glue;
    PreviewSize(x);
    LastLine(x);
    GlueEmpty(Lines(x), r);
  }

  lemma EmptyPreview(x: Text)
    ensures PreviewLines(x) == [] <==> x == []
  {
    if x != [] && x[|x| - 1] == NEWLINE {
      NewlinesAppend(x[..|x| - 1], [NEWLINE]);
      assert x == x[..|x| - 1] + [NEWLINE];
    }
  }

  lemma PartLinesMatch(open: Text, oldText: Text, newText: Text, r: seq<Text>)
    requires r != [] && !EndsLine(oldText) && !EndsLine(newText)
    ensures PreviewLines(newText) + LinesAfter(open, oldText, r) == Continued(open, Glue(Lines(newText), r))
            <==> open == [] && r[0] == []
  {
    hide Lines, Glue;
    var now := Lines(newText);
    PreviewSize(newText);
    assert PreviewLines(newText) == now;
    GlueSize(now, r);
    var left, right := now + r[1..], Continued(open, Glue(now, r));
    var last := |now| - 1;
    NothingAdded(open, now[0], if last == 0 then r[0] else []);
    NothingAdded([], now[last], r[0]);
    assert [] + now[last] + r[0] == now[last] + r[0];
    if last == 0 {
      ConcatAssociates(open, now[0], r[0]);
      assert left[0] == now[0] && right[0] == open + now[0] + r[0];
    } else {
      assert open + now[0] + [] == open + now[0];
      assert left[0] == now[0] && right[0] == open + now[0];
      assert left[last] == now[last] && right[last] == now[last] + r[0];
    }
    if open == [] && r[0] == [] {
      GlueEmpty(now, r);
      assert right == Glue(now, r);
    }
  }

  /** Replacing whole lines: the patched lines are the new text's lines in place of the old ones. */
  lemma PatchedLines(w: Window, p: nat, q: nat)
    requires w.Valid() && IsCommonPrefix(w.was, w.now, p) && IsCommonSuffix(w.was, w.now, p, q)
    requires w.AfterStart() <= |w.file|
    ensures Patched(w, p, q) == w.file[..w.start] + w.now + w.file[w.AfterStart()..]
  {
    hide Texts, NewRows, OldRows, Numbered, Window.Layout;
    HunkIsPatch(w, p, q);
    TextsOfNumbered(w.Before() + w.now + w.After(), w.BeforeStart() + 1);
    Rejoined(w.file, w.BeforeStart(), w.start, w.now, w.AfterStart(), w.AfterEnd());
  }

  lemma Rejoined(file: seq<Text>, i: nat, j: nat, mid: seq<Text>, k: nat, l: nat)
    requires i <= j <= |file| && k <= l <= |file|
    ensures file[..i] + (file[i..j] + mid + file[k..l]) + file[l..] == file[..j] + mid + file[k..]
  {
    assert file[..i] + file[i..j] == file[..j];
    assert file[k..l] + file[l..] == file[k..];
  }

  /** The edit is of whole lines: it starts and ends at line boundaries, and old and new text agree on
      whether they end a line. An edit of nothing by nothing is fine anywhere. */
  predicate WholeLines(prefix: Text, oldText: Text, newText: Text, rest: Text) {
    || (oldText == [] && newText == [])
    || (EndsLine(prefix) && EndsAtBoundary(oldText, rest) && (EndsLine(oldText) <==> EndsLine(newText)))
  }

  /** For any edit, wherever it starts and ends, the hunk turns the file's lines into exactly the edited
      file's lines if and only if the edit is of whole lines. */
  lemma HunkPatchesFile(prefix: Text, oldText: Text, newText: Text, rest: Text, p: nat, q: nat)
    requires var w := WindowAt(prefix + oldText + rest, |prefix|, oldText, newText);
             IsCommonPrefix(w.was, w.now, p) && IsCommonSuffix(w.was, w.now, p, q)
    ensures var w := WindowAt(prefix + oldText + rest, |prefix|, oldText, newText);
            Patched(w, p, q) == Lines(prefix + newText + rest) <==> WholeLines(prefix, oldText, newText, rest)
  {
    hide Lines, Newlines, PreviewLines, LinesAfter, Patched, Continued, Glue, OpenLine, ClosedLines;
    var file := prefix + oldText + rest;
    var w := WindowAt(file, |prefix|, oldText, newText);
    assert file[..|prefix|] == prefix;
    var closed, open, r := ClosedLines(prefix), OpenLine(prefix), Lines(rest);
    LinesAround(prefix, oldText, rest);
    LinesAround(prefix, newText, rest);
    AfterHole(open, oldText, r);
    var c := Continued(open, Glue(Lines(oldText), r));
    assert w.file == closed + c && w.start == |closed|;
    assert (closed + c)[..|closed|] == closed;
    assert (closed + c)[|closed| + |w.was|..] == c[|w.was|..];
    PatchedLines(w, p, q);
    ConcatAssociates(closed, w.now, LinesAfter(open, oldText, r));
    SamePart(closed, w.now + LinesAfter(open, oldText, r), Continued(open, Glue(Lines(newText), r)));
    OpenLineEmpty(prefix);
    FirstLine(rest);
    if EndsLine(oldText) == EndsLine(newText) {
      HoleMatches(open, oldText, newText, r);
    } else {
      DifferentSizes(open, oldText, newText, r);
    }
  }

  lemma OpenLineEmpty(prefix: Text)
    ensures OpenLine(prefix) == [] <==> EndsLine(prefix)
  {
    LastLine(prefix);
  }

  lemma SamePart(a: seq<Text>, b: seq<Text>, c: seq<Text>)
    ensures a + b == a + c <==> b == c
  {
    if a + b == a + c {
      assert b == (a + b)[|a|..] && c == (a + c)[|a|..];
    }
  }

  /** If only one of the texts ends a line, the number of lines gives the hunk away. */
  lemma DifferentSizes(open: Text, oldText: Text, newText: Text, r: seq<Text>)
    requires r != [] && EndsLine(oldText) != EndsLine(newText)
    ensures |PreviewLines(newText) + LinesAfter(open, oldText, r)| != |Continued(open, Glue(Lines(newText), r))|
  {
    hide Lines, Glue;
    PreviewSize(newText);
    GlueSize(Lines(newText), r);
  }

  /** Such an edit: replacing "a\n" by "b" before "c" joins two lines, and the hunk does not show it. */
  lemma JoinedLinesNotShown(p: nat, q: nat)
    requires var w := WindowAt([97, NEWLINE, 99], 0, [97, NEWLINE], [98]);
             IsCommonPrefix(w.was, w.now, p) && IsCommonSuffix(w.was, w.now, p, q)
    ensures var w := WindowAt([97, NEWLINE, 99], 0, [97, NEWLINE], [98]);
            Patched(w, p, q) != Lines([98, 99])
  {
    hide Lines, Patched, WindowAt, IsCommonPrefix, IsCommonSuffix;
    assert [] + [97, NEWLINE] + [99] == [97, NEWLINE, 99] && [] + [98] + [99] == [98, 99];
    HunkPatchesFile([], [97, NEWLINE], [98], [99], p, q);
  }

  /** Another: replacing "b" by "c" inside the line "ub" shows the fragments as if they were lines. */
  lemma FragmentsShownAsLines(p: nat, q: nat)
    requires var w := WindowAt([117, 98], 1, [98], [99]);
             IsCommonPrefix(w.was, w.now, p) && IsCommonSuffix(w.was, w.now, p, q)
    ensures var w := WindowAt([117, 98], 1, [98], [99]);
            Patched(w, p, q) != Lines([117, 99])
  {
    hide Lines, Patched, WindowAt, IsCommonPrefix, IsCommonSuffix;
    assert [117] + [98] + [] == [117, 98] && [117] + [99] + [] == [117, 99];
    HunkPatchesFile([117], [98], [99], [], p, q);
  }
}

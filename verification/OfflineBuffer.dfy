/** The offline owner's two-slot frame buffer (pi-extension/src/extension/owner_multiplexer.ts), and what it
    means: a function of everything that happened since the owner went offline. */
module OfflineBuffer {
  import opened Prelude

  /** A server frame: an opaque identity, its serialized size (`None` when it cannot be serialized), and
      the replay-suppression key of a timestamped compaction. */
  datatype Message = Message(id: nat, bytes: Option<nat>, compactionKey: Option<string>)

  const MAX_FRAMES: nat := 2_048
  const MAX_BYTES: nat := 8 * 1024 * 1024

  datatype Buffered = Buffered(message: Message, bytes: nat)
  datatype Buffer = Buffer(completed: seq<Buffered>, completedBytes: int,
                           current: seq<Buffered>, currentBytes: int, currentOverflowed: bool)

  const EMPTY := Buffer([], 0, [], 0, false)

  // ----- What the buffer should hold -----------------------------------------------

  /** What happens to an offline owner: a broadcast frame, or the end of a turn. */
  datatype Happening = Sent(message: Message) | TurnEnd

  /** Every frame broadcast since the owner went offline. */
  function Frames(h: seq<Happening>): seq<Message> {
    if h == [] then []
    else match h[|h| - 1]
      case Sent(m) => Frames(h[..|h| - 1]) + [m]
      case TurnEnd => Frames(h[..|h| - 1])
  }

  /** The frames of the open turn interval. */
  function OpenInterval(h: seq<Happening>): seq<Message> {
    if h == [] then []
    else match h[|h| - 1]
      case Sent(m) => OpenInterval(h[..|h| - 1]) + [m]
      case TurnEnd => []
  }

  /** The frames of the last sealed interval that had any. */
  function LastSealed(h: seq<Happening>): seq<Message> {
    if h == [] then []
    else match h[|h| - 1]
      case Sent(m) => LastSealed(h[..|h| - 1])
      case TurnEnd => if OpenInterval(h[..|h| - 1]) != [] then OpenInterval(h[..|h| - 1]) else LastSealed(h[..|h| - 1])
  }

  function Size(m: Message): nat { if m.bytes.Some? then m.bytes.value else 0 }

  function TotalSize(ms: seq<Message>): nat {
    if ms == [] then 0 else TotalSize(ms[..|ms| - 1]) + Size(ms[|ms| - 1])
  }

  predicate Fits(ms: seq<Message>) {
    && (forall i | 0 <= i < |ms| :: ms[i].bytes.Some?)
    && |ms| <= MAX_FRAMES && TotalSize(ms) <= MAX_BYTES
  }

  /** The frames an owner gets back on return: whole intervals only, the sealed one given up first. */
  function Kept(h: seq<Happening>): seq<Message> {
    if !Fits(OpenInterval(h)) then []
    else if Fits(LastSealed(h) + OpenInterval(h)) then LastSealed(h) + OpenInterval(h)
    else OpenInterval(h)
  }

  function Tagged(ms: seq<Message>): (r: seq<Buffered>)
    ensures |r| == |ms| && forall i | 0 <= i < |ms| :: r[i] == Buffered(ms[i], Size(ms[i]))
  {
    if ms == [] then [] else Tagged(ms[..|ms| - 1]) + [Buffered(ms[|ms| - 1], Size(ms[|ms| - 1]))]
  }

  /** The buffer's exact contents after the happenings `h`. */
  function Meaning(h: seq<Happening>): Buffer {
    var open := OpenInterval(h);
    if !Fits(open) then Buffer([], 0, [], 0, true)
    else
      var sealed := if Fits(LastSealed(h) + open) then LastSealed(h) else [];
      Buffer(Tagged(sealed), TotalSize(sealed), Tagged(open), TotalSize(open), false)
  }

  // ----- The source's operations on one buffer ----------------------------------------

  /** `bufferOfflineMessage`, on the buffer it found or created. */
  method BufferMessage(b: Buffer, m: Message, ghost h: seq<Happening>) returns (r: Buffer)
    requires b == Meaning(h)
    ensures r == Meaning(h + [Sent(m)])
  {
    hide Fits, Tagged, TotalSize, OpenInterval, LastSealed;
    ghost var open, last := OpenInterval(h), LastSealed(h);
    NothingOpen();
    AfterSent(h, m);
    FitsGrows(open, m);
    FitsGrows(last + open, m);
    ConcatAssociates(last, open, [m]);
    FitsSplit(last, open);
    FitsSplit(last, open + [m]);
    r := b;
    if r.currentOverflowed { return; }
    SizeOfConcat(last, open);
    var wouldExceedCombinedCap := m.bytes.None?
      || |r.completed| + |r.current| + 1 > MAX_FRAMES
      || r.completedBytes + r.currentBytes + m.bytes.value > MAX_BYTES;
    if wouldExceedCombinedCap {
      r := r.(completed := [], completedBytes := 0);
    }
    var currentCannotFit := m.bytes.None?
      || |r.current| + 1 > MAX_FRAMES
      || r.currentBytes + m.bytes.value > MAX_BYTES;
    if currentCannotFit {
      r := r.(current := [], currentBytes := 0, currentOverflowed := true);
      return;
    }
    TaggedGrows(open, m);
    r := r.(current := r.current + [Buffered(m, m.bytes.value)], currentBytes := r.currentBytes + m.bytes.value);
    SizeGrows(open, m);
  }

  lemma NothingOpen()
    ensures Fits([]) && Tagged([]) == [] && TotalSize([]) == 0
  {
  }

  /** One buffer's part of `completeOfflineTurn`. */
  method SealTurn(b: Buffer, ghost h: seq<Happening>) returns (r: Buffer)
    requires b == Meaning(h)
    ensures r == Meaning(h + [TurnEnd])
  {
    hide Fits, Tagged, TotalSize, OpenInterval, LastSealed;
    AfterTurnEnd(h);
    NothingOpen();
    ghost var open, last := OpenInterval(h), LastSealed(h);
    assert open + [] == open && last + [] == last;
    assert open == [] ==> last + open == last;
    FitsSplit(last, open);
    r := b;
    if !r.currentOverflowed && |r.current| > 0 {
      r := r.(completed := r.current, completedBytes := r.currentBytes);
    }
    r := r.(current := [], currentBytes := 0, currentOverflowed := false);
  }

  /** `takeNextBufferedMessage`: completed frames first, then current ones, counters kept in step. */
  method TakeNext(b: Buffer) returns (next: Option<Message>, r: Buffer)
    ensures var all := b.completed + b.current;
            && next == (if all == [] then None else Some(all[0].message))
            && r.completed + r.current == (if all == [] then [] else all[1..])
    ensures b.completed != [] ==> r.current == b.current && r.currentBytes == b.currentBytes
                                  && r.completedBytes == b.completedBytes - b.completed[0].bytes
    ensures b.completed == [] ==> r.completed == [] && r.completedBytes == b.completedBytes
                                  && r.currentBytes == b.currentBytes - (if b.current == [] then 0 else b.current[0].bytes)
    ensures r.currentOverflowed == b.currentOverflowed
  {
    if |b.completed| > 0 {
      next := Some(b.completed[0].message);
      r := b.(completed := b.completed[1..], completedBytes := b.completedBytes - b.completed[0].bytes);
    } else if |b.current| > 0 {
      next := Some(b.current[0].message);
      r := b.(current := b.current[1..], currentBytes := b.currentBytes - b.current[0].bytes);
    } else {
      next, r := None, b;
    }
  }

  // ----- Steps of the history ---------------------------------------------------------

  lemma AfterSent(h: seq<Happening>, m: Message)
    ensures OpenInterval(h + [Sent(m)]) == OpenInterval(h) + [m]
    ensures LastSealed(h + [Sent(m)]) == LastSealed(h)
    ensures Frames(h + [Sent(m)]) == Frames(h) + [m]
  {
    assert (h + [Sent(m)])[..|h|] == h;
  }

  lemma AfterTurnEnd(h: seq<Happening>)
    ensures OpenInterval(h + [TurnEnd]) == []
    ensures LastSealed(h + [TurnEnd]) == if OpenInterval(h) != [] then OpenInterval(h) else LastSealed(h)
    ensures Frames(h + [TurnEnd]) == Frames(h)
  {
    assert (h + [TurnEnd])[..|h|] == h;
  }

  lemma SizeGrows(ms: seq<Message>, m: Message)
    ensures TotalSize(ms + [m]) == TotalSize(ms) + Size(m)
  {
    assert (ms + [m])[..|ms|] == ms;
  }

  lemma TaggedGrows(ms: seq<Message>, m: Message)
    ensures Tagged(ms + [m]) == Tagged(ms) + [Buffered(m, Size(m))]
  {
    assert (ms + [m])[..|ms|] == ms;
  }

  lemma {:induction false} SizeOfConcat(a: seq<Message>, b: seq<Message>)
    ensures TotalSize(a + b) == TotalSize(a) + TotalSize(b)
  {
    if b == [] {
      assert a + b == a;
    } else {
      SizeOfConcat(a, b[..|b| - 1]);
      assert (a + b)[..|a + b| - 1] == a + b[..|b| - 1];
    }
  }

  /** One frame more fits exactly when the frames fitted and the caps have room for it. */
  lemma FitsGrows(ms: seq<Message>, m: Message)
    ensures Fits(ms + [m]) <==>
            Fits(ms) && m.bytes.Some? && |ms| + 1 <= MAX_FRAMES && TotalSize(ms) + Size(m) <= MAX_BYTES
  {
    SizeGrows(ms, m);
    assert (ms + [m])[|ms|] == m;
    assert forall i | 0 <= i < |ms| :: (ms + [m])[i] == ms[i];
  }

  lemma FitsSplit(a: seq<Message>, b: seq<Message>)
    ensures Fits(a + b) ==> Fits(a) && Fits(b)
  {
    SizeOfConcat(a, b);
    if Fits(a + b) {
      forall i | 0 <= i < |a| ensures a[i].bytes.Some? { assert (a + b)[i] == a[i]; }
      forall i | 0 <= i < |b| ensures b[i].bytes.Some? { assert (a + b)[|a| + i] == b[i]; }
    }
  }

  // ----- What an owner can rely on ------------------------------------------------------

  lemma {:induction false} IntervalsAreSuffix(h: seq<Happening>)
    ensures Suffix(LastSealed(h) + OpenInterval(h), Frames(h)) && Suffix(OpenInterval(h), Frames(h))
  {
    if h != [] {
      var g := h[..|h| - 1];
      IntervalsAreSuffix(g);
      match h[|h| - 1]
      case Sent(m) =>
        ConcatAssociates(LastSealed(g), OpenInterval(g), [m]);
      case TurnEnd =>
        assert OpenInterval(g) + [] == OpenInterval(g);
        if OpenInterval(g) == [] { assert LastSealed(g) + OpenInterval(g) == LastSealed(g) == LastSealed(g) + []; }
    }
  }

  /** An open turn too big to hold gives everything up, the turns before it included. */
  lemma OverflowKeepsNothing(h: seq<Happening>)
    ensures (!Fits(OpenInterval(h)) <==> Meaning(h).currentOverflowed)
    ensures !Fits(OpenInterval(h)) ==> Kept(h) == [] && Meaning(h) == EMPTY.(currentOverflowed := true)
  {
  }

  /** The replayed frames are a contiguous suffix of everything broadcast while offline. */
  lemma KeptIsSuffix(h: seq<Happening>)
    ensures Suffix(Kept(h), Frames(h))
  {
    IntervalsAreSuffix(h);
  }

  /** The buffer holds exactly the kept frames, its counters are their sums, and both caps hold. */
  lemma MeaningIsKept(h: seq<Happening>)
    ensures var b := Meaning(h);
            && b.completed + b.current == Tagged(Kept(h))
            && b.completedBytes + b.currentBytes == TotalSize(Kept(h)) <= MAX_BYTES
            && |b.completed| + |b.current| <= MAX_FRAMES
            && (b.currentOverflowed <==> !Fits(OpenInterval(h)))
  {
    hide OpenInterval, LastSealed, Tagged, TotalSize;
    var open, last := OpenInterval(h), LastSealed(h);
    NoneFits();
    NoneTagged();
    SizeOfConcat(last, open);
    assert [] + Tagged(open) == Tagged(open);
    TaggedConcat(last, open);
  }

  lemma NoneTagged()
    ensures Tagged([]) == []
  {
  }

  lemma {:induction false} TaggedConcat(a: seq<Message>, b: seq<Message>)
    ensures Tagged(a + b) == Tagged(a) + Tagged(b)
  {
  }

  /** How many turns with frames have ended. */
  function SealedIntervals(h: seq<Happening>): nat {
    if h == [] then 0
    else SealedIntervals(h[..|h| - 1]) + if h[|h| - 1].TurnEnd? && OpenInterval(h[..|h| - 1]) != [] then 1 else 0
  }

  /** A place in the history where a turn interval begins. */
  predicate Boundary(h: seq<Happening>, i: nat): (here: bool)
    ensures here ==> i <= |h|
  {
    i <= |h| && (i == 0 || h[i - 1] == TurnEnd)
  }

  lemma {:induction false} FewIntervals(h: seq<Happening>)
    ensures SealedIntervals(h) == 0 ==> LastSealed(h) == [] && Frames(h) == OpenInterval(h)
    ensures SealedIntervals(h) == 1 ==> LastSealed(h) != [] && Frames(h) == LastSealed(h) + OpenInterval(h)
  {
    if h != [] {
      var g := h[..|h| - 1];
      FewIntervals(g);
      match h[|h| - 1]
      case Sent(m) => ConcatAssociates(LastSealed(g), OpenInterval(g), [m]);
      case TurnEnd => assert LastSealed(g) + [] == LastSealed(g) && OpenInterval(g) + [] == OpenInterval(g);
    }
  }

  /** From a boundary on, a history has the same open interval, and the same sealed one if any. */
  lemma {:induction false} FromBoundary(h: seq<Happening>, i: nat)
    requires Boundary(h, i)
    ensures OpenInterval(h[i..]) == OpenInterval(h)
    ensures SealedIntervals(h[i..]) > 0 ==> LastSealed(h[i..]) == LastSealed(h)
    decreases |h|
  {
    if i < |h| {
      var g := h[..|h| - 1];
      assert g[i..] == h[i..][..|h[i..]| - 1] && h[i..][|h[i..]| - 1] == h[|h| - 1];
      FromBoundary(g, i);
    } else {
      assert h[i..] == [];
    }
  }

  /** The kept frames are the longest that fit among the suffixes made of whole intervals that two slots can
      hold: no more than one sealed interval with frames, and all of the open one. */
  lemma KeptIsGenerous(h: seq<Happening>, i: nat)
    requires Boundary(h, i) && SealedIntervals(h[i..]) <= 1 && Fits(Frames(h[i..]))
    ensures |Frames(h[i..])| <= |Kept(h)|
  {
    hide Fits, Frames;
    FewIntervals(h[i..]);
    FromBoundary(h, i);
    FitsSplit(LastSealed(h), OpenInterval(h));
  }

  lemma TailOfInit(h: seq<Happening>, i: nat)
    requires h != [] && i < |h|
    ensures h[i..] != [] && h[i..][..|h[i..]| - 1] == h[..|h| - 1][i..] && h[i..][|h[i..]| - 1] == h[|h| - 1]
  {
  }

  /** Where the last `n` finished turns with frames begin. */
  lemma {:induction false} LastTurns(h: seq<Happening>, n: nat) returns (i: nat)
    requires n <= SealedIntervals(h)
    ensures Boundary(h, i) && SealedIntervals(h[i..]) == n
    decreases |h|
  {
    i := |h|;
    assert h[i..] == [];
    if h != [] {
      var g, last := h[..|h| - 1], h[|h| - 1];
      var ends := last.TurnEnd? && OpenInterval(g) != [];
      if last.TurnEnd? && n == 0 { return; }
      i := LastTurns(g, if ends then n - 1 else n);
      if last.Sent? || n > 0 {
        TailOfInit(h, i);
        FromBoundary(g, i);
      }
    }
  }

  /** And they are such a suffix themselves, unless the open interval alone does not fit. */
  lemma KeptIsWhole(h: seq<Happening>) returns (i: nat)
    requires Fits(OpenInterval(h))
    ensures Boundary(h, i) && SealedIntervals(h[i..]) <= 1 && Kept(h) == Frames(h[i..])
  {
    hide Fits, Frames, SealedIntervals, Boundary, OpenInterval, LastSealed;
    var both := Fits(LastSealed(h) + OpenInterval(h)) && SealedIntervals(h) > 0;
    i := LastTurns(h, if both then 1 else 0);
    FewIntervals(h[i..]);
    FromBoundary(h, i);
    if SealedIntervals(h) == 0 {
      FewIntervals(h);
      assert LastSealed(h) + OpenInterval(h) == OpenInterval(h);
    }
  }

  lemma {:induction false} FramesConcat(g: seq<Happening>, h: seq<Happening>)
    ensures Frames(g + h) == Frames(g) + Frames(h)
  {
    if h == [] {
      assert g + h == g && Frames(g) + [] == Frames(g);
    } else {
      var init, last := h[..|h| - 1], h[|h| - 1];
      FramesConcat(g, init);
      assert (g + h)[..|g + h| - 1] == g + init;
      if last.Sent? { ConcatAssociates(Frames(g), Frames(init), [last.message]); }
    }
  }

  /** Splitting a history at a boundary splits its finished turns. */
  lemma {:induction false} SealedSplit(h: seq<Happening>, i: nat)
    requires Boundary(h, i)
    ensures SealedIntervals(h) == SealedIntervals(h[..i]) + SealedIntervals(h[i..])
    decreases |h|
  {
    if i == |h| {
      assert h[..i] == h && h[i..] == [];
    } else {
      var g := h[..|h| - 1];
      TailOfInit(h, i);
      assert g[..i] == h[..i];
      SealedSplit(g, i);
      FromBoundary(g, i);
    }
  }

  lemma {:induction false} SilentTurns(h: seq<Happening>)
    requires Frames(h) == []
    ensures SealedIntervals(h) == 0 && OpenInterval(h) == []
  {
    if h != [] { SilentTurns(h[..|h| - 1]); }
  }

  /** A suffix from a turn boundary that fits the caps. */
  predicate FittingSuffix(h: seq<Happening>, i: nat): (fits: bool)
    ensures fits ==> i <= |h|
  {
    Boundary(h, i) && Fits(Frames(h[i..]))
  }

  lemma BoundaryWithin(h: seq<Happening>, i: nat, j: nat)
    requires Boundary(h, i) && Boundary(h[i..], j)
    ensures Boundary(h, i + j) && h[i..][j..] == h[i + j..]
  {
    if j > 0 { assert h[i..][j - 1] == h[i + j - 1]; }
  }

  /** What fits from `i` fits from any later boundary. */
  lemma FitsLater(h: seq<Happening>, i: nat, j: nat)
    requires FittingSuffix(h, i) && Boundary(h[i..], j)
    ensures FittingSuffix(h, i + j) && Frames(h[i..]) == Frames(h[i..][..j]) + Frames(h[i + j..])
  {
    hide Fits, Frames;
    var g := h[i..];
    BoundaryWithin(h, i, j);
    assert g == g[..j] + g[j..];
    FramesConcat(g[..j], g[j..]);
    FitsSplit(Frames(g[..j]), Frames(g[j..]));
  }

  /** If the last two finished turns and the open one fit together, more fits than is kept. */
  lemma TwoTurnsOutgrow(h: seq<Happening>, i: nat)
    requires FittingSuffix(h, i) && SealedIntervals(h[i..]) == 2
    ensures |Frames(h[i..])| > |Kept(h)|
  {
    hide Fits, Frames, SealedIntervals, OpenInterval, LastSealed, Boundary;
    var g := h[i..];
    var j := LastTurns(g, 1);
    FitsLater(h, i, j);
    BoundaryWithin(h, i, j);
    FewIntervals(h[i + j..]);
    FromBoundary(h, i + j);
    KeptTogether(h);
    SealedSplit(g, j);
    if Frames(g[..j]) == [] { SilentTurns(g[..j]); }
  }

  lemma KeptTogether(h: seq<Happening>)
    ensures Fits(LastSealed(h) + OpenInterval(h)) ==> Kept(h) == LastSealed(h) + OpenInterval(h)
  {
    FitsSplit(LastSealed(h), OpenInterval(h));
  }

  /** A fitting suffix longer than what is kept holds two finished turns or more. */
  lemma LongerHoldsTwo(h: seq<Happening>, i: nat) returns (j: nat)
    requires FittingSuffix(h, i) && |Frames(h[i..])| > |Kept(h)|
    ensures FittingSuffix(h, j) && SealedIntervals(h[j..]) == 2
  {
    hide Fits, Frames, SealedIntervals, OpenInterval, LastSealed, Boundary, Kept;
    if SealedIntervals(h[i..]) <= 1 { KeptIsGenerous(h, i); }
    var k := LastTurns(h[i..], 2);
    FitsLater(h, i, k);
    BoundaryWithin(h, i, k);
    j := i + k;
  }

  /** The kept frames are the longest fitting suffix made of whole turns exactly when the last two finished
      turns with frames do not fit together with the open one. */
  lemma KeptIsLongestIff(h: seq<Happening>)
    ensures (forall i: nat | FittingSuffix(h, i) :: |Frames(h[i..])| <= |Kept(h)|)
            <==> !exists i: nat :: FittingSuffix(h, i) && SealedIntervals(h[i..]) == 2
  {
    hide FittingSuffix, Frames, SealedIntervals, Kept;
    if i: nat :| FittingSuffix(h, i) && SealedIntervals(h[i..]) == 2 {
      TwoTurnsOutgrow(h, i);
    }
    if i: nat :| FittingSuffix(h, i) && |Frames(h[i..])| > |Kept(h)| {
      var j := LongerHoldsTwo(h, i);
    }
  }

  /** Two slots hold no more: of two small finished turns the older is given up although both fit. */
  lemma OlderTurnGivenUp(m: Message)
    requires m.bytes == Some(1)
    ensures var h := [Sent(m), TurnEnd, Sent(m), TurnEnd];
            Fits(Frames(h)) && Frames(h) == [m, m] && Kept(h) == [m]
  {
    NothingYet();
    SmallFits(m);
    hide Fits, Frames, OpenInterval, LastSealed;
    var h1 := [] + [Sent(m)];
    var h2 := h1 + [TurnEnd];
    var h3 := h2 + [Sent(m)];
    AfterSent([], m);
    AfterTurnEnd(h1);
    AfterSent(h2, m);
    AfterTurnEnd(h3);
    assert h3 + [TurnEnd] == [Sent(m), TurnEnd, Sent(m), TurnEnd];
    assert [] + [m] == [m] && [m] + [m] == [m, m] && [m] + [] == [m];
  }

  lemma NothingYet()
    ensures Frames([]) == [] && OpenInterval([]) == [] && LastSealed([]) == []
  {
  }

  lemma SmallFits(m: Message)
    requires m.bytes == Some(1)
    ensures Fits([]) && Fits([m]) && Fits([m, m])
  {
    NoneFits();
    hide Fits, TotalSize;
    FitsGrows([], m);
    SizeGrows([], m);
    FitsGrows([m], m);
    assert [] + [m] == [m] && [m] + [m] == [m, m];
  }

  lemma NoneFits()
    ensures Fits([]) && TotalSize([]) == 0
  {
  }
}

/** What each message of a capture upload does, said of the decoded bytes it carries: a reference for the upload
    handler that knows of no buffer, no counters and no base64 arithmetic. */
module UploadProtocol {
  import opened Prelude
  import opened Base64
  import opened CaptureUpload

  /** The active upload is the sender's. */
  ghost predicate Mine(s: Handler, owner: nat, channel: nat, id: nat) {
    s.active.Some? && s.active.value in s.uploads
    && var u := s.uploads[s.active.value]; u.owner == owner && u.channel == channel && u.id == id
  }

  /** `t` is `s` with one more reply, and with nothing active if `drops`. */
  ghost predicate Answers(s: Handler, t: Handler, drops: bool, r: Reply) {
    t == s.(active := if drops then None else s.active, replies := s.replies + [r])
  }

  // ----- Begin ---------------------------------------------------------------------------------------

  /** An upload begins if its size is allowed and nothing else is going on. */
  ghost predicate Begins(s: Handler, step: Step, t: Handler)
    requires step.Begin?
  {
    if !(0 < step.total <= MAX_TOTAL) then Answers(s, t, false, Error(step.channel, TooLarge))
    else if s.disposed then Answers(s, t, false, Error(step.channel, NotFound))
    else if s.active.Some? then Answers(s, t, false, Error(step.channel, Busy))
    else
      && s.nextSerial !in s.uploads && s.nextSerial in t.uploads
      && t == s.(uploads := s.uploads[s.nextSerial := t.uploads[s.nextSerial]], active := Some(s.nextSerial),
                 nextSerial := s.nextSerial + 1, replies := s.replies + [BeginAck(step.channel, s.nextSerial)])
      && var u := t.uploads[s.nextSerial];
         u.owner == step.owner && u.channel == step.channel && u.id == step.id && u.total == step.total
         && u.touchedAt == step.now && !u.finalizing && u.chunks == []
  }

  lemma BeginLaw(s: Handler, step: Step)
    requires Consistent(s) && step.Begin?
    ensures Begins(s, step, Next(s, step))
  {
    hide Zeros, Committing, Acknowledged, Assembled;
  }

  // ----- Chunk ---------------------------------------------------------------------------------------

  /** The payload is the standard encoding of `bytes`, which come next and fit: at most 8 KiB, no more than
      declared, and at least 1 KiB unless they are the last. */
  predicate Fits(u: Upload, sequence: int, payload: Text, bytes: seq<Byte>) {
    var held := |Joined(u.chunks)|;
    && sequence == |u.chunks| && payload == Encode(bytes) && 0 < |bytes| <= MAX_CHUNK
    && held + |bytes| <= u.total && (held + |bytes| == u.total || |bytes| >= MIN_CHUNK)
  }

  /** Only the bytes held, their sum, their place in the buffer and the time change. */
  predicate Grown(u: Upload, v: Upload, bytes: seq<Byte>, now: nat) {
    v == u.(chunks := u.chunks + [bytes], touchedAt := now, bytes := v.bytes, received := v.received, nextSequence := v.nextSequence)
  }

  /** A chunk of the active upload adds its bytes if they fit, and drops the upload if they do not; a chunk of any
      other upload, or one too late, changes nothing. */
  ghost predicate Takes(s: Handler, step: Step, t: Handler)
    requires step.Chunk?
  {
    if !Mine(s, step.owner, step.channel, step.id) then Answers(s, t, false, Error(step.channel, NotFound))
    else
      var k := s.active.value;
      var u := s.uploads[k];
      if u.finalizing then Answers(s, t, false, Error(step.channel, Busy))
      else if step.sequence != |u.chunks| then Answers(s, t, true, Error(step.channel, BadSequence))
      else if !exists bytes: seq<Byte> :: Fits(u, step.sequence, step.payload, bytes) then Answers(s, t, true, Error(step.channel, TooLarge))
      else
        forall bytes | Fits(u, step.sequence, step.payload, bytes) ::
          && k in t.uploads && Grown(u, t.uploads[k], bytes, step.now)
          && t == s.(uploads := s.uploads[k := t.uploads[k]],
                     replies := s.replies + [ChunkAck(step.channel, k, |u.chunks| + 1, |Joined(u.chunks)| + |bytes|)])
  }

  /** The handler's own test of a payload agrees, and the bytes are those it decodes. */
  lemma FitsExactly(u: Upload, payload: Text, bytes: seq<Byte>)
    requires Assembled(u)
    ensures Fits(u, |u.chunks|, payload, bytes) <==> Admissible(u, payload) == Some(|bytes|) && bytes == NodeDecode(payload) && payload == Encode(bytes)
  {
    HeldIs(u);
    AdmissibleExactly(u, payload, |bytes|);
    DecodeEncode(bytes);
    hide Encode, Admissible, NodeDecode;
    if Admissible(u, payload) == Some(|bytes|) && payload == Encode(bytes) {
      var other: seq<Byte> :| Encode(other) == payload && |other| == |bytes| && 0 < |bytes| <= MAX_CHUNK
                              && u.received + |bytes| <= u.total && (u.received + |bytes| == u.total || |bytes| >= MIN_CHUNK);
    }
  }

  lemma HeldIs(u: Upload)
    requires Assembled(u)
    ensures |Joined(u.chunks)| == u.received && |u.chunks| == u.nextSequence
  {
  }

  /** A payload that passes fits with the bytes it decodes to. */
  lemma AdmissibleFits(u: Upload, payload: Text)
    requires Assembled(u) && Admissible(u, payload).Some?
    ensures Fits(u, |u.chunks|, payload, NodeDecode(payload))
  {
    AdmissibleEncodes(u, payload);
    hide Encode, Admissible, NodeDecode, Fits, Assembled;
    FitsExactly(u, payload, NodeDecode(payload));
  }

  lemma EncodesBack(payload: Text)
    ensures CanonicalDecodedLength(payload).Some? ==> Encode(NodeDecode(payload)) == payload
  {
    if CanonicalDecodedLength(payload).Some? { CanonicalGroups(payload); }
  }

  lemma AdmissibleEncodes(u: Upload, payload: Text)
    requires Admissible(u, payload).Some?
    ensures Admissible(u, payload).value == |NodeDecode(payload)| && Encode(NodeDecode(payload)) == payload
  {
    LengthIsExact(payload);
    EncodesBack(payload);
    hide Encode, NodeDecode, CanonicalDecodedLength;
  }

  lemma FitsAdmissible(u: Upload, payload: Text)
    requires Assembled(u)
    ensures Admissible(u, payload).Some? <==> exists bytes: seq<Byte> :: Fits(u, |u.chunks|, payload, bytes)
    ensures forall bytes: seq<Byte> | Fits(u, |u.chunks|, payload, bytes) :: bytes == NodeDecode(payload)
  {
    hide Admissible, NodeDecode, Fits, Assembled, Encode;
    forall bytes: seq<Byte> | Fits(u, |u.chunks|, payload, bytes) ensures Admissible(u, payload).Some? && bytes == NodeDecode(payload) {
      FitsExactly(u, payload, bytes);
    }
    if Admissible(u, payload).Some? { AdmissibleFits(u, payload); }
  }

  lemma FilledGrows(u: Upload, payload: Text, now: nat)
    requires Assembled(u) && Admissible(u, payload).Some?
    ensures var v := Filled(u, Admissible(u, payload).value, payload, now);
            Grown(u, v, NodeDecode(payload), now) && v.nextSequence == |u.chunks| + 1
            && v.received == |Joined(u.chunks)| + |NodeDecode(payload)|
  {
    FilledAssembled(u, payload, now);
    HeldIs(u);
    hide Assembled, Admissible, NodeDecode, Joined;
  }

  lemma ChunkLaw(s: Handler, step: Step)
    requires Consistent(s) && step.Chunk?
    ensures Takes(s, step, Next(s, step))
  {
    hide Consistent, Admissible, Fits, Filled, Grown, Assembled, Joined;
    if Mine(s, step.owner, step.channel, step.id) {
      var u := s.uploads[s.active.value];
      ActiveAssembled(s);
      HeldIs(u);
      FitsAdmissible(u, step.payload);
      if Admissible(u, step.payload).Some? { FilledGrows(u, step.payload, step.now); }
    }
  }

  // ----- End, commit and release ---------------------------------------------------------------------

  /** Why an end is refused: bytes are missing, they are not the ones hashed, or they are no capture. */
  ghost predicate Refused(s: Handler, u: Upload, sha256: nat, code: Code) {
    var held := Joined(u.chunks);
    if |held| < u.total then code == BadSequence
    else if s.sha(held) != sha256 then code == ChecksumMismatch
    else s.events(held).None? && code == InvalidCapture
  }

  /** An end either starts the commit or drops the upload, which is final from then on. */
  ghost predicate Closes(s: Handler, step: Step, t: Handler)
    requires step.End?
  {
    if !Mine(s, step.owner, step.channel, step.id) then Answers(s, t, false, Error(step.channel, NotFound))
    else
      var k := s.active.value;
      var u := s.uploads[k];
      if u.finalizing then Answers(s, t, false, Error(step.channel, Busy))
      else
        var final := s.(uploads := s.uploads[k := u.(finalizing := true, sha256 := step.sha256)]);
        if exists code :: Refused(s, u, step.sha256, code)
        then exists code :: Refused(s, u, step.sha256, code) && Answers(final, t, true, Error(step.channel, code))
        else t == final.(commits := s.commits[k := false])
  }

  lemma RefusedExactly(s: Handler, u: Upload, sha256: nat, code: Code)
    requires Assembled(u)
    ensures Refused(s, u, sha256, code) <==> Refusal(s, u, sha256) == Some(code)
  {
    if u.received == u.total { assert u.bytes == Joined(u.chunks); }
  }

  lemma EndLaw(s: Handler, step: Step)
    requires Consistent(s) && step.End?
    ensures Closes(s, step, Next(s, step))
  {
    hide Consistent, Refusal, Refused, Assembled, Joined;
    if Mine(s, step.owner, step.channel, step.id) {
      var u := s.uploads[s.active.value];
      ActiveAssembled(s);
      forall code ensures Refused(s, u, step.sha256, code) <==> Refusal(s, u, step.sha256) == Some(code) {
        RefusedExactly(s, u, step.sha256, code);
      }
      if Refusal(s, u, step.sha256).Some? { assert Refused(s, u, step.sha256, Refusal(s, u, step.sha256).value); }
    }
  }

  /** What committing and releasing do: a commit in flight writes the bytes held, once, and its end removes the file
      of a failure; a release makes nothing active; and nothing else changes but the replies of an end. */
  ghost predicate Carries(s: Handler, step: Step, t: Handler) {
    if step.CommitWrites? then
      if step.serial in s.commits && !s.commits[step.serial]
      then step.serial in s.uploads
           && t == s.(commits := s.commits[step.serial := true], files := s.files[step.serial := Joined(s.uploads[step.serial].chunks)])
      else t == s
    else if step.CommitSettles? then
      if Settles(s, step, step.serial)
      then t == s.(commits := s.commits - {step.serial}, files := if step.ok then s.files else s.files - {step.serial},
                   active := if s.active == Some(step.serial) then None else s.active, replies := t.replies)
      else t == s
    else t == s.(active := if Releases(s, step) then None else s.active, disposed := s.disposed || step.Dispose?)
  }

  lemma CommittedBytes(s: Handler, k: nat)
    requires Consistent(s) && k in s.commits
    ensures k in s.uploads && s.uploads[k].bytes == Joined(s.uploads[k].chunks)
  {
    hide Acknowledged;
    var u := s.uploads[k];
    assert Joined(u.chunks) + Zeros(0) == Joined(u.chunks);
  }

  lemma CarryLaw(s: Handler, step: Step)
    requires Consistent(s) && !step.Begin? && !step.Chunk? && !step.End?
    ensures Carries(s, step, Next(s, step))
  {
    hide Uploading, Acknowledged, Complete, Joined;
    match step
    case CommitWrites(k) => if k in s.commits { CommittedBytes(s, k); }
    case _ =>
  }

  // ----- A client that follows the protocol ------------------------------------------------------------

  datatype Client = Client(owner: nat, channel: nat, id: nat)

  /** Pieces of a capture: none empty or too long, all but the last of at least 1 KiB, and not too much in all. */
  predicate Pieces(chunks: seq<seq<Byte>>) {
    && 0 < |Joined(chunks)| <= MAX_TOTAL
    && (forall i | 0 <= i < |chunks| :: 0 < |chunks[i]| <= MAX_CHUNK && (i < |chunks| - 1 ==> |chunks[i]| >= MIN_CHUNK))
  }

  function ChunkSteps(c: Client, chunks: seq<seq<Byte>>, now: nat): seq<Step> {
    seq(|chunks|, i requires 0 <= i < |chunks| => Chunk(c.owner, c.channel, c.id, i, Encode(chunks[i]), now))
  }

  function ChunkAcks(c: Client, k: nat, chunks: seq<seq<Byte>>): seq<Reply> {
    seq(|chunks|, i requires 0 <= i < |chunks| => ChunkAck(c.channel, k, i + 1, |Joined(chunks[..i + 1])|))
  }

  /** The first pieces have been taken. */
  ghost predicate Filling(s: Handler, c: Client, k: nat, total: nat, chunks: seq<seq<Byte>>) {
    && Consistent(s) && s.active == Some(k) && k in s.uploads && k !in s.commits
    && Mine(s, c.owner, c.channel, c.id)
    && var u := s.uploads[k]; u.total == total && u.chunks == chunks && !u.finalizing
  }

  lemma {:induction false} JoinedShorter(chunks: seq<seq<Byte>>, n: nat)
    requires n <= |chunks|
    ensures |Joined(chunks[..n])| <= |Joined(chunks)|
    decreases |chunks|
  {
    if n < |chunks| {
      var init := chunks[..|chunks| - 1];
      assert init[..n] == chunks[..n];
      JoinedShorter(init, n);
    } else {
      assert chunks[..n] == chunks;
    }
  }

  lemma PieceFits(u: Upload, chunks: seq<seq<Byte>>, i: nat)
    requires Pieces(chunks) && i < |chunks| && u.total == |Joined(chunks)| && u.chunks == chunks[..i]
    ensures Fits(u, i, Encode(chunks[i]), chunks[i])
  {
    hide Encode;
    JoinedMore(chunks[..i], chunks[i]);
    assert chunks[..i] + [chunks[i]] == chunks[..i + 1];
    JoinedShorter(chunks, i + 1);
    if i == |chunks| - 1 { assert chunks[..i + 1] == chunks; }
  }

  /** The next piece is taken. */
  lemma PieceTaken(s: Handler, c: Client, k: nat, chunks: seq<seq<Byte>>, i: nat, now: nat)
    requires Pieces(chunks) && i < |chunks| && Filling(s, c, k, |Joined(chunks)|, chunks[..i])
    ensures var t := Next(s, Chunk(c.owner, c.channel, c.id, i, Encode(chunks[i]), now));
            && Filling(t, c, k, |Joined(chunks)|, chunks[..i + 1])
            && t == s.(uploads := s.uploads[k := t.uploads[k]],
                       replies := s.replies + [ChunkAck(c.channel, k, i + 1, |Joined(chunks[..i + 1])|)])
  {
    hide Consistent, Next, Encode, Fits, Pieces, Joined;
    var step := Chunk(c.owner, c.channel, c.id, i, Encode(chunks[i]), now);
    PieceFits(s.uploads[k], chunks, i);
    ChunkLaw(s, step);
    StepConsistent(s, step);
    JoinedMore(chunks[..i], chunks[i]);
    assert chunks[..i] + [chunks[i]] == chunks[..i + 1];
  }

  lemma {:induction false} PiecesTaken(s: Handler, c: Client, k: nat, chunks: seq<seq<Byte>>, i: nat, now: nat)
    requires Pieces(chunks) && i <= |chunks| && Filling(s, c, k, |Joined(chunks)|, chunks[..i])
    ensures var t := Run(s, ChunkSteps(c, chunks, now)[i..]);
            && Filling(t, c, k, |Joined(chunks)|, chunks)
            && t == s.(uploads := s.uploads[k := t.uploads[k]], replies := s.replies + ChunkAcks(c, k, chunks)[i..])
    decreases |chunks| - i
  {
    hide Consistent, Next, Encode, Fits, Pieces, Joined;
    var steps, acks := ChunkSteps(c, chunks, now), ChunkAcks(c, k, chunks);
    if i == |chunks| {
      assert steps[i..] == [] && acks[i..] == [] && chunks[..i] == chunks;
      assert s.uploads[k := s.uploads[k]] == s.uploads;
    } else {
      PieceTaken(s, c, k, chunks, i, now);
      assert steps[i..][0] == Chunk(c.owner, c.channel, c.id, i, Encode(chunks[i]), now) && steps[i..][1..] == steps[i + 1..];
      assert acks[i..] == [ChunkAck(c.channel, k, i + 1, |Joined(chunks[..i + 1])|)] + acks[i + 1..];
      var t := Next(s, steps[i]);
      PiecesTaken(t, c, k, chunks, i + 1, now);
      Regrouped(s.replies, [ChunkAck(c.channel, k, i + 1, |Joined(chunks[..i + 1])|)], acks[i + 1..]);
    }
  }

  lemma Regrouped<T>(a: seq<T>, b: seq<T>, c: seq<T>)
    ensures a + b + c == a + (b + c)
  {
  }

  lemma {:induction false} RunConcat(s: Handler, a: seq<Step>, b: seq<Step>)
    ensures Run(s, a + b) == Run(Run(s, a), b)
    decreases |a|
  {
    hide Next;
    if a == [] {
      assert a + b == b;
    } else {
      assert (a + b)[1..] == a[1..] + b;
      RunConcat(Next(s, a[0]), a[1..], b);
    }
  }

  lemma Opens(s: Handler, c: Client, total: nat, now: nat)
    requires Consistent(s) && s.active.None? && !s.disposed && 0 < total <= MAX_TOTAL
    ensures var t, k := Next(s, Begin(c.owner, c.channel, c.id, total, now)), s.nextSerial;
            && Filling(t, c, k, total, []) && t.replies == s.replies + [BeginAck(c.channel, k)]
            && t == s.(uploads := t.uploads, active := Some(k), nextSerial := t.nextSerial, replies := t.replies)
  {
    var step := Begin(c.owner, c.channel, c.id, total, now);
    BeginLaw(s, step);
    StepConsistent(s, step);
    NotCommitting(s);
    hide Consistent, Next;
  }

  lemma NotCommitting(s: Handler)
    requires Consistent(s)
    ensures s.nextSerial !in s.commits
  {
    hide Acknowledged, Assembled, Complete;
  }

  lemma Finishes(s: Handler, c: Client, k: nat, chunks: seq<seq<Byte>>)
    requires Filling(s, c, k, |Joined(chunks)|, chunks) && s.events(Joined(chunks)).Some?
    ensures var end := Next(s, End(c.owner, c.channel, c.id, s.sha(Joined(chunks))));
            var t := Next(Next(end, CommitWrites(k)), CommitSettles(k, true));
            && t.active.None? && t.files == s.files[k := Joined(chunks)] && t.commits == s.commits
            && t.replies == s.replies + [Delivered(c.channel, k, Joined(chunks), s.events(Joined(chunks)).value)]
  {
    hide Consistent, Next, Joined;
    var step := End(c.owner, c.channel, c.id, s.sha(Joined(chunks)));
    EndLaw(s, step);
    StepConsistent(s, step);
    var end := Next(s, step);
    CarryLaw(end, CommitWrites(k));
    StepConsistent(end, CommitWrites(k));
    var landed := Next(end, CommitWrites(k));
    CarryLaw(landed, CommitSettles(k, true));
    SettlingReplies(landed, k, true);
    CommittedBytes(landed, k);
    assert s.commits[k := false][k := true] - {k} == s.commits;
  }

  /** A client that sends its capture piece by piece, undisturbed, has each piece acknowledged with the bytes so far,
      finds exactly its bytes on disk, and is told so. */
  lemma CaptureIsDelivered(s: Handler, c: Client, chunks: seq<seq<Byte>>, now: nat)
    requires Consistent(s) && s.active.None? && !s.disposed && Pieces(chunks) && s.events(Joined(chunks)).Some?
    ensures var k, capture := s.nextSerial, Joined(chunks);
            var t := Run(s, [Begin(c.owner, c.channel, c.id, |capture|, now)] + ChunkSteps(c, chunks, now)
                            + [End(c.owner, c.channel, c.id, s.sha(capture)), CommitWrites(k), CommitSettles(k, true)]);
            && t.active.None? && t.files == s.files[k := capture] && t.commits == s.commits
            && t.replies == s.replies + [BeginAck(c.channel, k)] + ChunkAcks(c, k, chunks)
                            + [Delivered(c.channel, k, capture, s.events(capture).value)]
  {
    hide Consistent, Next, Joined, Encode, Run, Filling, ChunkSteps, ChunkAcks;
    var k, capture := s.nextSerial, Joined(chunks);
    var begin, rest := Begin(c.owner, c.channel, c.id, |capture|, now), ChunkSteps(c, chunks, now);
    var last := [End(c.owner, c.channel, c.id, s.sha(capture)), CommitWrites(k), CommitSettles(k, true)];
    Opens(s, c, |capture|, now);
    var t := Next(s, begin);
    assert chunks[..0] == [];
    PiecesTaken(t, c, k, chunks, 0, now);
    var u := Run(t, rest[0..]);
    assert rest[0..] == rest && ChunkAcks(c, k, chunks)[0..] == ChunkAcks(c, k, chunks);
    Finishes(u, c, k, chunks);
    RunConcat(s, [begin] + rest, last);
    RunCons(s, begin, rest);
    RunThree(u, last[0], last[1], last[2]);
  }

  lemma RunThree(s: Handler, a: Step, b: Step, c: Step)
    ensures Run(s, [a, b, c]) == Next(Next(Next(s, a), b), c)
  {
    hide Next, Run;
    assert [a, b, c] == [a] + [b, c] && [b, c] == [b] + [c] && [c] == [c] + [];
    RunCons(s, a, [b, c]);
    RunCons(Next(s, a), b, [c]);
    RunCons(Next(Next(s, a), b), c, []);
    NothingRun(Next(Next(Next(s, a), b), c));
  }
}

/** Capture reassembly (pi-extension/src/actions/capture_upload_handler.ts): one bounded upload at a time,
    filled chunk by chunk, hashed, committed by an asynchronous write, and acknowledged.

    Uploads are objects told apart by a serial number. The hash and the event count of the original are
    uninterpreted functions of the bytes; the write and its outcome are steps. */
module CaptureUpload {
  import opened Prelude
  import opened Base64

  const MIN_CHUNK: nat := 1024
  const MAX_CHUNK: nat := 8192
  const MAX_TOTAL: nat := 2_097_152

  /** An upload object; `chunks` is the history of its decoded chunks and `sha256` what its end declared. */
  datatype Upload = Upload(id: nat, total: nat, bytes: seq<Byte>, owner: nat, channel: nat, nextSequence: nat,
                           received: nat, touchedAt: nat, finalizing: bool, chunks: seq<seq<Byte>>, sha256: nat)

  datatype Code = TooLarge | NotFound | Busy | BadSequence | ChecksumMismatch | InvalidCapture | IoError

  datatype Reply =
    | BeginAck(channel: nat, serial: nat)
    | ChunkAck(channel: nat, serial: nat, nextSequence: nat, received: nat)
    | Delivered(channel: nat, serial: nat, bytes: seq<Byte>, events: nat)
    | Error(channel: nat, code: Code)

  datatype Handler = Handler(
    sha: seq<Byte> -> nat,
    events: seq<Byte> -> Option<nat>,
    staleAfter: nat,
    uploads: map<nat, Upload>,
    nextSerial: nat,
    active: Option<nat>,
    disposed: bool,
    commits: map<nat, bool>,          // commits in flight, and whether their file has landed
    files: map<nat, seq<Byte>>,       // files written
    replies: seq<Reply>)              // history

  function Fresh(sha: seq<Byte> -> nat, events: seq<Byte> -> Option<nat>, staleAfter: nat): Handler {
    Handler(sha, events, staleAfter, map[], 0, None, false, map[], map[], [])
  }

  datatype Step =
    | Begin(owner: nat, channel: nat, id: nat, total: int, now: nat)
    | Chunk(owner: nat, channel: nat, id: nat, sequence: int, payload: Text, now: nat)
    | End(owner: nat, channel: nat, id: nat, sha256: nat)
    | CommitWrites(serial: nat)
    | CommitSettles(serial: nat, ok: bool)
    | DetachOwner(owner: nat)
    | DetachChannel(owner: nat, channel: nat)
    | DetachAll
    | Dispose
    | Gc(now: nat)

  function Zeros(n: nat): (r: seq<Byte>)
    ensures |r| == n
  {
    seq(n, i => 0)
  }

  function Replied(s: Handler, r: Reply): Handler { s.(replies := s.replies + [r]) }
  function Failed(s: Handler, channel: nat, code: Code): Handler { Replied(s, Error(channel, code)) }
  function Aborted(s: Handler, channel: nat, code: Code): Handler { Failed(s.(active := None), channel, code) }

  function Begun(s: Handler, owner: nat, channel: nat, id: nat, total: int, now: nat): Handler {
    if total <= 0 || total > MAX_TOTAL then Failed(s, channel, TooLarge)
    else if s.disposed then Failed(s, channel, NotFound)
    else if s.active.Some? then Failed(s, channel, Busy)
    else
      var u := Upload(id, total, Zeros(total), owner, channel, 0, 0, now, false, [], 0);
      Replied(s.(uploads := s.uploads[s.nextSerial := u], active := Some(s.nextSerial), nextSerial := s.nextSerial + 1),
              BeginAck(channel, s.nextSerial))
  }

  /** `ownedActive`. */
  function OwnedActive(s: Handler, owner: nat, channel: nat, id: nat): (r: Option<nat>)
    ensures r.Some? ==> s.active == r && r.value in s.uploads
  {
    if s.active.Some? && s.active.value in s.uploads
       && s.uploads[s.active.value].owner == owner && s.uploads[s.active.value].channel == channel
       && s.uploads[s.active.value].id == id
    then s.active else None
  }

  /** The size of a chunk that may be written to `u`, or why it may not. */
  function Admissible(u: Upload, payload: Text): Option<nat> {
    var length := CanonicalDecodedLength(payload);
    if length.None? || length.value == 0 || length.value > MAX_CHUNK then None
    else if length.value > u.total - u.received || length.value > MAX_TOTAL - u.received then None
    else if u.received + length.value != u.total && length.value < MIN_CHUNK then None
    else length
  }

  /** `Buffer.write` of as many decoded bytes as `length` and the buffer allow. */
  function Written(bytes: seq<Byte>, offset: nat, length: nat, decoded: seq<Byte>): seq<Byte>
    requires offset + length <= |bytes| && length <= |decoded|
  {
    bytes[..offset] + decoded[..length] + bytes[offset + length..]
  }

  function Filled(u: Upload, n: nat, payload: Text, now: nat): Upload {
    if |NodeDecode(payload)| < n || u.received + n > |u.bytes| then u
    else
      u.(bytes := Written(u.bytes, u.received, n, NodeDecode(payload)), received := u.received + n,
         nextSequence := u.nextSequence + 1, touchedAt := now, chunks := u.chunks + [NodeDecode(payload)[..n]])
  }

  function Chunked(s: Handler, owner: nat, channel: nat, id: nat, sequence: int, payload: Text, now: nat): Handler {
    var serial := OwnedActive(s, owner, channel, id);
    if serial.None? then Failed(s, channel, NotFound)
    else
      var u := s.uploads[serial.value];
      if u.finalizing then Failed(s, channel, Busy)
      else if sequence != u.nextSequence then Aborted(s, channel, BadSequence)
      else
        var n := Admissible(u, payload);
        if n.None? then Aborted(s, channel, TooLarge)
        else
          var v := Filled(u, n.value, payload, now);
          Replied(s.(uploads := s.uploads[serial.value := v]), ChunkAck(channel, serial.value, v.nextSequence, v.received))
  }

  /** Why an end is refused, if it is. */
  function Refusal(s: Handler, u: Upload, sha256: nat): Option<Code> {
    if u.received != u.total then Some(BadSequence)
    else if s.sha(u.bytes) != sha256 then Some(ChecksumMismatch)
    else if s.events(u.bytes).None? then Some(InvalidCapture)
    else None
  }

  /** `end` up to the commit. */
  function Ended(s: Handler, owner: nat, channel: nat, id: nat, sha256: nat): Handler {
    var serial := OwnedActive(s, owner, channel, id);
    if serial.None? then Failed(s, channel, NotFound)
    else
      var u := s.uploads[serial.value];
      if u.finalizing then Failed(s, channel, Busy)
      else
        var t := s.(uploads := s.uploads[serial.value := u.(finalizing := true, sha256 := sha256)]);
        var refusal := Refusal(s, u, sha256);
        if refusal.Some? then Aborted(t, channel, refusal.value) else t.(commits := t.commits[serial.value := false])
  }

  /** The commit writes the upload's buffer as it is at that moment. */
  function Landed(s: Handler, serial: nat): Handler {
    if serial !in s.commits || serial !in s.uploads || s.commits[serial] then s
    else s.(commits := s.commits[serial := true], files := s.files[serial := s.uploads[serial].bytes])
  }

  /** `end` after the commit, and its `finally`. A commit succeeds only once its file has landed, and a
      failure removes a landed file. */
  function Settled(s: Handler, serial: nat, ok: bool): Handler {
    if serial !in s.commits || serial !in s.uploads || (ok && !s.commits[serial]) then s
    else
      var u := s.uploads[serial];
      var t := s.(commits := s.commits - {serial}, files := if ok then s.files else s.files - {serial});
      if s.active != Some(serial) then t
      else
        var v := t.(active := None);
        if s.disposed then v
        else if !ok then Failed(v, u.channel, IoError)
        else if s.events(u.bytes).None? then v
        else Replied(v, Delivered(u.channel, serial, u.bytes, s.events(u.bytes).value))
  }

  function ActiveUpload(s: Handler): Option<Upload> {
    if s.active.Some? && s.active.value in s.uploads then Some(s.uploads[s.active.value]) else None
  }

  function Released(s: Handler): Handler { s.(active := None) }

  function Next(s: Handler, step: Step): Handler {
    match step
    case Begin(owner, channel, id, total, now) => Begun(s, owner, channel, id, total, now)
    case Chunk(owner, channel, id, sequence, payload, now) => Chunked(s, owner, channel, id, sequence, payload, now)
    case End(owner, channel, id, sha256) => Ended(s, owner, channel, id, sha256)
    case CommitWrites(serial) => Landed(s, serial)
    case CommitSettles(serial, ok) => Settled(s, serial, ok)
    case DetachOwner(owner) => if ActiveUpload(s).Some? && ActiveUpload(s).value.owner == owner then Released(s) else s
    case DetachChannel(owner, channel) =>
      if ActiveUpload(s).Some? && ActiveUpload(s).value.owner == owner && ActiveUpload(s).value.channel == channel
      then Released(s) else s
    case DetachAll => Released(s)
    case Dispose => Released(s).(disposed := true)
    case Gc(now) =>
      if ActiveUpload(s).Some? && now - ActiveUpload(s).value.touchedAt >= s.staleAfter then Released(s) else s
  }

  function Run(s: Handler, steps: seq<Step>): Handler
    decreases |steps|
  {
    if steps == [] then s else Run(Next(s, steps[0]), steps[1..])
  }

  // ----- What an upload holds -----------------------------------------------------------------

  function Joined(chunks: seq<seq<Byte>>): seq<Byte> {
    if chunks == [] then [] else Joined(chunks[..|chunks| - 1]) + chunks[|chunks| - 1]
  }

  /** The buffer is the decoded chunks in order, then zeros; only the final chunk may be small. */
  ghost predicate Assembled(u: Upload) {
    && 0 < u.total <= MAX_TOTAL && u.received <= u.total
    && u.bytes == Joined(u.chunks) + Zeros(u.total - u.received)
    && |Joined(u.chunks)| == u.received && |u.chunks| == u.nextSequence
    && (forall i | 0 <= i < |u.chunks| :: 0 < |u.chunks[i]| <= MAX_CHUNK)
    && (forall i | 0 <= i < |u.chunks| :: |u.chunks[i]| < MIN_CHUNK ==> i == |u.chunks| - 1 && u.received == u.total)
  }

  /** What a finished upload owes its file and its acknowledgement. */
  ghost predicate Complete(u: Upload, sha: seq<Byte> -> nat, events: seq<Byte> -> Option<nat>) {
    u.finalizing && u.received == u.total && sha(u.bytes) == u.sha256 && events(u.bytes).Some?
  }

  ghost predicate Uploading(uploads: map<nat, Upload>, nextSerial: nat) {
    forall k | k in uploads :: k < nextSerial && Assembled(uploads[k])
  }

  /** Commits and files belong to complete uploads and hold their bytes; the active upload is finalizing only
      while its commit is in flight. */
  ghost predicate Committing(s: Handler) {
    && (s.active.Some? ==> s.active.value in s.uploads && !s.disposed)
    && (s.active.Some? && s.uploads[s.active.value].finalizing ==> s.active.value in s.commits)
    && (forall k | k in s.commits :: k in s.uploads && Complete(s.uploads[k], s.sha, s.events))
    && (forall k | k in s.commits && s.commits[k] :: k in s.files)
    && (forall k | k in s.files :: k in s.uploads && s.files[k] == s.uploads[k].bytes && Complete(s.uploads[k], s.sha, s.events))
  }

  ghost predicate Truthful(r: Reply, uploads: map<nat, Upload>, commits: map<nat, bool>, files: map<nat, seq<Byte>>,
                           events: seq<Byte> -> Option<nat>) {
    r.Delivered? ==>
      && r.serial in uploads && r.channel == uploads[r.serial].channel && r.bytes == uploads[r.serial].bytes
      && r.serial in files && r.serial !in commits && events(r.bytes) == Some(r.events)
  }

  /** A delivery is acknowledged on its own channel, with the bytes on disk, and once. */
  ghost predicate Acknowledged(s: Handler) {
    && (forall i | 0 <= i < |s.replies| :: Truthful(s.replies[i], s.uploads, s.commits, s.files, s.events))
    && (forall i, j | 0 <= i < j < |s.replies| && s.replies[i].Delivered? && s.replies[j].Delivered? ::
          s.replies[i].serial != s.replies[j].serial)
  }

  ghost predicate Consistent(s: Handler) {
    Uploading(s.uploads, s.nextSerial) && Committing(s) && Acknowledged(s)
  }

  lemma FreshConsistent(sha: seq<Byte> -> nat, events: seq<Byte> -> Option<nat>, staleAfter: nat)
    ensures Consistent(Fresh(sha, events, staleAfter))
  {
  }

  /** The base64 length test and the write agree, so the branch for an inconsistent length is dead. */
  lemma LengthIsExact(payload: Text)
    ensures CanonicalDecodedLength(payload).Some? ==> CanonicalDecodedLength(payload).value == |NodeDecode(payload)|
  {
    if CanonicalDecodedLength(payload).Some? { CanonicalGroups(payload); }
  }

  lemma FilledAssembled(u: Upload, payload: Text, now: nat)
    requires Assembled(u) && Admissible(u, payload).Some?
    ensures var n := Admissible(u, payload).value;
            var v := Filled(u, n, payload, now);
            && Assembled(v) && v.chunks == u.chunks + [NodeDecode(payload)] && n == |NodeDecode(payload)|
            && v.received == u.received + n && v.finalizing == u.finalizing && v.channel == u.channel
  {
    hide NodeDecode, CanonicalDecodedLength, Zeros, Written, Joined;
    LengthIsExact(payload);
    var d := NodeDecode(payload);
    assert d[..|d|] == d;
    WrittenAfter(Joined(u.chunks), d, u.total - u.received);
    JoinedMore(u.chunks, d);
    LastChunkFull(u);
  }

  /** Writing `d` behind `j` into a zeroed rest. */
  lemma WrittenAfter(j: seq<Byte>, d: seq<Byte>, room: nat)
    requires |d| <= room
    ensures Written(j + Zeros(room), |j|, |d|, d) == j + d + Zeros(room - |d|)
  {
    hide Zeros;
    var bytes := j + Zeros(room);
    assert bytes[..|j|] == j && d[..|d|] == d;
    ZerosRest(j, room, |d|);
  }

  lemma ZerosRest(j: seq<Byte>, room: nat, n: nat)
    requires n <= room
    ensures (j + Zeros(room))[|j| + n..] == Zeros(room - n)
  {
    var rest := (j + Zeros(room))[|j| + n..];
    assert |rest| == room - n;
    forall i | 0 <= i < |rest| ensures rest[i] == Zeros(room - n)[i] {}
  }

  lemma JoinedMore(chunks: seq<seq<Byte>>, d: seq<Byte>)
    ensures Joined(chunks + [d]) == Joined(chunks) + d
  {
    assert (chunks + [d])[..|chunks|] == chunks;
  }

  /** While bytes are missing, no accepted chunk was small. */
  lemma LastChunkFull(u: Upload)
    requires Assembled(u) && u.received < u.total
    ensures forall i | 0 <= i < |u.chunks| :: |u.chunks[i]| >= MIN_CHUNK
  {
  }

  /** A chunk is accepted exactly when its payload is the standard encoding of some bytes that fit the
      declared size, of at most 8 KiB, and of at least 1 KiB unless they complete the upload. */
  lemma AdmissibleExactly(u: Upload, payload: Text, n: nat)
    requires Assembled(u)
    ensures Admissible(u, payload) == Some(n) <==>
              exists bytes: seq<Byte> :: Encode(bytes) == payload && |bytes| == n && 0 < n <= MAX_CHUNK
                                       && u.received + n <= u.total && (u.received + n == u.total || n >= MIN_CHUNK)
  {
    hide Encode, CanonicalDecodedLength, Assembled;
    AssembledBounds(u);
    AcceptsExactlyEncodings(payload, n);
  }

  lemma AssembledBounds(u: Upload)
    requires Assembled(u)
    ensures u.received <= u.total <= MAX_TOTAL
  {
  }

  lemma {:induction false} JoinedAtLeast(chunks: seq<seq<Byte>>)
    requires forall i | 0 <= i < |chunks| :: |chunks[i]| >= MIN_CHUNK
    ensures |Joined(chunks)| >= MIN_CHUNK * |chunks|
  {
    if chunks != [] { JoinedAtLeast(chunks[..|chunks| - 1]); }
  }

  /** A sender cannot make the handler accept more than one chunk per KiB declared, rounded up. */
  lemma ChunksAreBounded(u: Upload)
    requires Assembled(u)
    ensures |u.chunks| <= (u.total + MIN_CHUNK - 1) / MIN_CHUNK
  {
    if u.chunks != [] {
      var front := u.chunks[..|u.chunks| - 1];
      assert forall i | 0 <= i < |front| :: front[i] == u.chunks[i];
      JoinedAtLeast(front);
      assert u.received > MIN_CHUNK * (|u.chunks| - 1);
    }
  }

  // ----- Every step ------------------------------------------------------------------------------

  lemma RepliedConsistent(s: Handler, r: Reply)
    requires Consistent(s) && !r.Delivered?
    ensures Consistent(Replied(s, r))
  {
    hide Uploading;
    RepliedAcknowledged(s, r);
    hide Acknowledged;
  }

  lemma RepliedAcknowledged(s: Handler, r: Reply)
    requires Acknowledged(s) && !r.Delivered?
    ensures Acknowledged(Replied(s, r))
  {
    hide Complete;
  }

  lemma ReleasedConsistent(s: Handler)
    requires Consistent(s)
    ensures Consistent(Released(s)) && Consistent(Released(s).(disposed := true))
  {
    hide Uploading, Truthful, Complete;
  }

  lemma FreshAssembled(id: nat, total: nat, owner: nat, channel: nat, now: nat)
    requires 0 < total <= MAX_TOTAL
    ensures Assembled(Upload(id, total, Zeros(total), owner, channel, 0, 0, now, false, [], 0))
  {
    assert [] + Zeros(total) == Zeros(total);
  }

  lemma BegunConsistent(s: Handler, owner: nat, channel: nat, id: nat, total: int, now: nat)
    requires Consistent(s)
    ensures Consistent(Begun(s, owner, channel, id, total, now))
  {
    hide Zeros, Assembled, Replied, Complete;
    if 0 < total <= MAX_TOTAL && !s.disposed && s.active.None? {
      FreshAssembled(id, total, owner, channel, now);
      var u := Upload(id, total, Zeros(total), owner, channel, 0, 0, now, false, [], 0);
      var t := s.(uploads := s.uploads[s.nextSerial := u], active := Some(s.nextSerial), nextSerial := s.nextSerial + 1);
      assert Consistent(t);
      RepliedConsistent(t, BeginAck(channel, s.nextSerial));
    } else {
      RepliedConsistent(s, Error(channel, if total <= 0 || total > MAX_TOTAL then TooLarge else if s.disposed then NotFound else Busy));
    }
  }

  /** Changing the active upload, while it is in no commit, file or acknowledgement, upsets nothing else. */
  lemma ChangedConsistent(s: Handler, v: Upload)
    requires Consistent(s) && s.active.Some? && s.active.value in s.uploads && !s.uploads[s.active.value].finalizing
    requires Assembled(v) && v.channel == s.uploads[s.active.value].channel
    ensures var t := s.(uploads := s.uploads[s.active.value := v]);
            Consistent(t.(active := None)) && (!v.finalizing ==> Consistent(t))
            && (Complete(v, s.sha, s.events) ==> Consistent(t.(commits := s.commits[s.active.value := false])))
  {
    hide Assembled;
    assert forall i | 0 <= i < |s.replies| && s.replies[i].Delivered? :: s.replies[i].serial in s.files;
    assert s.active.value !in s.files && s.active.value !in s.commits;
  }

  lemma ChunkedConsistent(s: Handler, owner: nat, channel: nat, id: nat, sequence: int, payload: Text, now: nat)
    requires Consistent(s)
    ensures Consistent(Chunked(s, owner, channel, id, sequence, payload, now))
  {
    hide Consistent, Replied, Filled, Admissible, Assembled;
    var serial := OwnedActive(s, owner, channel, id);
    ReleasedConsistent(s);
    if serial.None? {
      RepliedConsistent(s, Error(channel, NotFound));
    } else {
      var u := s.uploads[serial.value];
      ActiveAssembled(s);
      if u.finalizing {
        RepliedConsistent(s, Error(channel, Busy));
      } else if sequence == u.nextSequence && Admissible(u, payload).Some? {
        var v := Filled(u, Admissible(u, payload).value, payload, now);
        FilledAssembled(u, payload, now);
        ChangedConsistent(s, v);
        RepliedConsistent(s.(uploads := s.uploads[serial.value := v]), ChunkAck(channel, serial.value, v.nextSequence, v.received));
      } else {
        RepliedConsistent(Released(s), Error(channel, if sequence != u.nextSequence then BadSequence else TooLarge));
      }
    }
  }

  lemma ActiveAssembled(s: Handler)
    requires Consistent(s) && s.active.Some?
    ensures s.active.value in s.uploads && Assembled(s.uploads[s.active.value])
  {
    hide Acknowledged, Assembled, Complete;
  }

  lemma FinalizingAssembled(u: Upload, sha256: nat)
    requires Assembled(u)
    ensures Assembled(u.(finalizing := true, sha256 := sha256))
  {
  }

  lemma EndedConsistent(s: Handler, owner: nat, channel: nat, id: nat, sha256: nat)
    requires Consistent(s)
    ensures Consistent(Ended(s, owner, channel, id, sha256))
  {
    hide Consistent, Replied, Assembled;
    var serial := OwnedActive(s, owner, channel, id);
    if serial.None? {
      RepliedConsistent(s, Error(channel, NotFound));
    } else {
      var u := s.uploads[serial.value];
      ActiveAssembled(s);
      if u.finalizing {
        RepliedConsistent(s, Error(channel, Busy));
      } else {
        var v := u.(finalizing := true, sha256 := sha256);
        FinalizingAssembled(u, sha256);
        ChangedConsistent(s, v);
        var t := s.(uploads := s.uploads[serial.value := v], active := None);
        if Refusal(s, u, sha256).Some? { RepliedConsistent(t, Error(channel, Refusal(s, u, sha256).value)); }
      }
    }
  }

  lemma LandedConsistent(s: Handler, serial: nat)
    requires Consistent(s)
    ensures Consistent(Landed(s, serial))
  {
    hide Uploading, Complete;
    var t := Landed(s, serial);
    assert Committing(t);
    assert forall i | 0 <= i < |s.replies| :: Truthful(s.replies[i], s.uploads, s.commits, s.files, s.events);
    assert forall i | 0 <= i < |s.replies| :: Truthful(s.replies[i], t.uploads, t.commits, t.files, t.events);
  }

  lemma SettledConsistent(s: Handler, serial: nat, ok: bool)
    requires Consistent(s)
    ensures Consistent(Settled(s, serial, ok))
  {
    hide Uploading, Replied, Complete;
    if serial in s.commits && (ok ==> s.commits[serial]) {
      var u := s.uploads[serial];
      var t := s.(commits := s.commits - {serial}, files := if ok then s.files else s.files - {serial});
      assert forall i | 0 <= i < |s.replies| && s.replies[i].Delivered? :: s.replies[i].serial != serial;
      if s.active != Some(serial) {
        assert Consistent(t);
      } else {
        var v := t.(active := None);
        assert Consistent(v);
        if !ok {
          RepliedConsistent(v, Error(u.channel, IoError));
        } else if s.events(u.bytes).Some? {
          DeliveredConsistent(v, serial);
        }
      }
    }
  }

  lemma DeliveredConsistent(s: Handler, serial: nat)
    requires Consistent(s) && serial in s.files && serial !in s.commits && serial in s.uploads
    requires forall i | 0 <= i < |s.replies| && s.replies[i].Delivered? :: s.replies[i].serial != serial
    requires s.events(s.uploads[serial].bytes).Some?
    ensures var u := s.uploads[serial];
            Consistent(Replied(s, Delivered(u.channel, serial, u.bytes, s.events(u.bytes).value)))
  {
    hide Uploading, Complete;
  }

  /** The bytes hashed, committed and acknowledged are those of the upload: its decoded chunks in order. */
  lemma StepConsistent(s: Handler, step: Step)
    requires Consistent(s)
    ensures Consistent(Next(s, step))
  {
    hide Consistent, Begun, Chunked, Ended, Landed, Settled, Released;
    match step
    case Begin(owner, channel, id, total, now) => BegunConsistent(s, owner, channel, id, total, now);
    case Chunk(owner, channel, id, sequence, payload, now) => ChunkedConsistent(s, owner, channel, id, sequence, payload, now);
    case End(owner, channel, id, sha256) => EndedConsistent(s, owner, channel, id, sha256);
    case CommitWrites(serial) => LandedConsistent(s, serial);
    case CommitSettles(serial, ok) => SettledConsistent(s, serial, ok);
    case _ => ReleasedConsistent(s);
  }

  lemma {:induction false} RunConsistent(s: Handler, steps: seq<Step>)
    requires Consistent(s)
    ensures Consistent(Run(s, steps))
    decreases |steps|
  {
    hide Consistent, Next;
    if steps != [] {
      StepConsistent(s, steps[0]);
      RunConsistent(Next(s, steps[0]), steps[1..]);
    }
  }

  /** In any run, an acknowledged delivery names exactly the concatenation of the accepted chunks, of the
      declared length and hash, as written to its file. */
  lemma DeliveredBytes(s: Handler, i: nat)
    requires Consistent(s) && i < |s.replies| && s.replies[i].Delivered?
    ensures var k := s.replies[i].serial;
            && k in s.uploads && k in s.files
            && var u := s.uploads[k];
               && s.replies[i].bytes == s.files[k] == Joined(u.chunks) && |Joined(u.chunks)| == u.total
               && s.sha(s.replies[i].bytes) == u.sha256 && s.replies[i].channel == u.channel
  {
    var u := s.uploads[s.replies[i].serial];
    assert Truthful(s.replies[i], s.uploads, s.commits, s.files, s.events);
    assert Joined(u.chunks) + Zeros(0) == Joined(u.chunks);
  }

  /** From its hash on, an upload never changes, and neither does one that is no longer active. */
  lemma StepFreezes(s: Handler, step: Step, k: nat)
    requires Consistent(s) && k in s.uploads && (s.uploads[k].finalizing || s.active != Some(k))
    ensures var t := Next(s, step);
            k in t.uploads && t.uploads[k] == s.uploads[k] && (t.uploads[k].finalizing || t.active != Some(k))
  {
    hide Consistent, Begun, Chunked, Ended;
    match step
    case Begin(owner, channel, id, total, now) => BegunFreezes(s, owner, channel, id, total, now, k);
    case Chunk(owner, channel, id, sequence, payload, now) => ChunkedFreezes(s, owner, channel, id, sequence, payload, now, k);
    case End(owner, channel, id, sha256) => EndedFreezes(s, owner, channel, id, sha256, k);
    case CommitSettles(serial, ok) => SettledFreezes(s, serial, ok);
    case _ =>
  }

  lemma SettledFreezes(s: Handler, serial: nat, ok: bool)
    ensures var t := Settled(s, serial, ok); t.uploads == s.uploads && (t.active == s.active || t.active == None)
  {
  }

  lemma BegunFreezes(s: Handler, owner: nat, channel: nat, id: nat, total: int, now: nat, k: nat)
    requires Consistent(s) && k in s.uploads
    ensures var t := Begun(s, owner, channel, id, total, now);
            k in t.uploads && t.uploads[k] == s.uploads[k] && (t.active == s.active || t.active == Some(s.nextSerial)) && k < s.nextSerial
  {
    hide Committing, Acknowledged, Assembled, Zeros;
  }

  lemma ChunkedFreezes(s: Handler, owner: nat, channel: nat, id: nat, sequence: int, payload: Text, now: nat, k: nat)
    requires k in s.uploads && (s.uploads[k].finalizing || s.active != Some(k))
    ensures var t := Chunked(s, owner, channel, id, sequence, payload, now);
            k in t.uploads && t.uploads[k] == s.uploads[k] && (t.active == s.active || t.active == None)
  {
    hide Admissible, Filled;
  }

  lemma EndedFreezes(s: Handler, owner: nat, channel: nat, id: nat, sha256: nat, k: nat)
    requires k in s.uploads && (s.uploads[k].finalizing || s.active != Some(k))
    ensures var t := Ended(s, owner, channel, id, sha256);
            k in t.uploads && t.uploads[k] == s.uploads[k] && (t.active == s.active || t.active == None)
  {
    hide Refusal;
  }

  lemma {:induction false} RunFreezes(s: Handler, steps: seq<Step>, k: nat)
    requires Consistent(s) && k in s.uploads && (s.uploads[k].finalizing || s.active != Some(k))
    ensures k in Run(s, steps).uploads && Run(s, steps).uploads[k] == s.uploads[k]
    decreases |steps|
  {
    hide Consistent, Next;
    if steps != [] {
      StepConsistent(s, steps[0]);
      StepFreezes(s, steps[0], k);
      RunFreezes(Next(s, steps[0]), steps[1..], k);
    }
  }

  /** Finishing one upload neither clears nor acknowledges another. */
  lemma FinishingTouchesOnlyItself(s: Handler, serial: nat, ok: bool)
    requires Consistent(s)
    ensures var t := Next(s, CommitSettles(serial, ok));
            && t.uploads == s.uploads
            && (s.active != Some(serial) ==> t.active == s.active && t.replies == s.replies)
            && (|t.replies| == |s.replies|
                || (t.replies == s.replies + [t.replies[|s.replies|]] && t.active.None? && s.active == Some(serial)
                    && (t.replies[|s.replies|].Delivered? ==> t.replies[|s.replies|].serial == serial)))
  {
    hide Assembled, Acknowledged, Complete;
  }

  lemma BegunReplies(s: Handler, owner: nat, channel: nat, id: nat, total: int, now: nat)
    ensures |Begun(s, owner, channel, id, total, now).replies| == |s.replies| + 1
  {
    hide Zeros;
  }

  lemma ChunkedReplies(s: Handler, owner: nat, channel: nat, id: nat, sequence: int, payload: Text, now: nat)
    ensures |Chunked(s, owner, channel, id, sequence, payload, now).replies| == |s.replies| + 1
  {
    hide Admissible, Filled;
  }

  /** An end that goes on to its commit: nothing is replied yet. */
  ghost predicate CommitStarted(s: Handler, t: Handler) {
    && t.replies == s.replies && t.active == s.active && s.active.Some? && s.active.value in s.uploads
    && !s.uploads[s.active.value].finalizing && s.active.value in t.commits
  }

  lemma EndedReplies(s: Handler, owner: nat, channel: nat, id: nat, sha256: nat)
    ensures var t := Ended(s, owner, channel, id, sha256); |t.replies| == |s.replies| + 1 || CommitStarted(s, t)
  {
    hide Refusal;
  }

  /** A begin or a chunk gets one reply at once, and so does an end unless its commit goes ahead. */
  lemma OneReply(s: Handler, step: Step)
    requires step.Begin? || step.Chunk? || step.End?
    ensures var t := Next(s, step); |t.replies| == |s.replies| + 1 || (step.End? && CommitStarted(s, t))
  {
    hide Begun, Chunked, Ended, CommitStarted;
    match step
    case Begin(owner, channel, id, total, now) => BegunReplies(s, owner, channel, id, total, now);
    case Chunk(owner, channel, id, sequence, payload, now) => ChunkedReplies(s, owner, channel, id, sequence, payload, now);
    case End(owner, channel, id, sha256) => EndedReplies(s, owner, channel, id, sha256);
  }

  // ----- Whether an end is answered ------------------------------------------------------------

  /** The commit of upload `k` settles in this step. */
  predicate Settles(s: Handler, step: Step, k: nat) {
    step.CommitSettles? && step.serial == k && k in s.commits && (step.ok ==> s.commits[k])
  }

  /** The step drops the active upload. */
  predicate Releases(s: Handler, step: Step) {
    var u := ActiveUpload(s);
    u.Some? && match step
      case DetachOwner(owner) => u.value.owner == owner
      case DetachChannel(owner, channel) => u.value.owner == owner && u.value.channel == channel
      case DetachAll => true
      case Dispose => true
      case Gc(now) => now - u.value.touchedAt >= s.staleAfter
      case _ => false
  }

  /** A settling commit replies exactly when its upload is still active, on the upload's own channel. */
  lemma SettlingReplies(s: Handler, k: nat, ok: bool)
    requires Consistent(s) && Settles(s, CommitSettles(k, ok), k)
    ensures var t := Next(s, CommitSettles(k, ok));
            && k in s.uploads && k !in t.commits && t.active != Some(k)
            && if s.active != Some(k) then t.replies == s.replies
               else var u := s.uploads[k];
                    s.events(u.bytes).Some?
                    && t.replies == s.replies + [if ok then Delivered(u.channel, k, u.bytes, s.events(u.bytes).value)
                                                 else Error(u.channel, IoError)]
  {
    hide Assembled, Acknowledged;
  }

  /** While its commit is in flight, an active upload stays active exactly when no step releases it. */
  lemma StaysActive(s: Handler, step: Step, k: nat)
    requires Consistent(s) && s.active == Some(k) && k in s.commits && !Settles(s, step, k)
    ensures k in Next(s, step).commits
    ensures Next(s, step).active == Some(k) <==> !Releases(s, step)
  {
    hide Assembled, Acknowledged, Begun, Chunked, Ended, Settled;
    match step
    case Begin(owner, channel, id, total, now) => BegunWhileBusy(s, owner, channel, id, total, now);
    case Chunk(owner, channel, id, sequence, payload, now) => ChunkedWhileBusy(s, owner, channel, id, sequence, payload, now);
    case End(owner, channel, id, sha256) => EndedWhileBusy(s, owner, channel, id, sha256);
    case CommitSettles(serial, ok) => SettledElsewhere(s, serial, ok, k);
    case _ =>
  }

  /** Once released, it is not active again. */
  lemma StaysReleased(s: Handler, step: Step, k: nat)
    requires Consistent(s) && s.active != Some(k) && k in s.commits && !Settles(s, step, k)
    ensures k in Next(s, step).commits && Next(s, step).active != Some(k)
  {
    hide Assembled, Acknowledged, Complete, Begun, Chunked, Ended, Settled;
    match step
    case Begin(owner, channel, id, total, now) =>
      BegunFreezes(s, owner, channel, id, total, now, k);
      BegunCommits(s, owner, channel, id, total, now);
    case Chunk(owner, channel, id, sequence, payload, now) =>
      ChunkedFreezes(s, owner, channel, id, sequence, payload, now, k);
      ChunkedCommits(s, owner, channel, id, sequence, payload, now);
    case End(owner, channel, id, sha256) =>
      EndedFreezes(s, owner, channel, id, sha256, k);
      EndedCommits(s, owner, channel, id, sha256, k);
    case CommitSettles(serial, ok) => SettledElsewhere(s, serial, ok, k);
    case _ =>
  }

  lemma BegunWhileBusy(s: Handler, owner: nat, channel: nat, id: nat, total: int, now: nat)
    requires s.active.Some?
    ensures var t := Begun(s, owner, channel, id, total, now); t.active == s.active && t.commits == s.commits
  {
    hide Zeros;
  }

  lemma ChunkedWhileBusy(s: Handler, owner: nat, channel: nat, id: nat, sequence: int, payload: Text, now: nat)
    requires s.active.Some? && s.active.value in s.uploads && s.uploads[s.active.value].finalizing
    ensures var t := Chunked(s, owner, channel, id, sequence, payload, now); t.active == s.active && t.commits == s.commits
  {
    hide Admissible, Filled;
  }

  lemma EndedWhileBusy(s: Handler, owner: nat, channel: nat, id: nat, sha256: nat)
    requires s.active.Some? && s.active.value in s.uploads && s.uploads[s.active.value].finalizing
    ensures var t := Ended(s, owner, channel, id, sha256); t.active == s.active && t.commits == s.commits
  {
    hide Refusal;
  }

  lemma BegunCommits(s: Handler, owner: nat, channel: nat, id: nat, total: int, now: nat)
    ensures Begun(s, owner, channel, id, total, now).commits == s.commits
  {
    hide Zeros;
  }

  lemma ChunkedCommits(s: Handler, owner: nat, channel: nat, id: nat, sequence: int, payload: Text, now: nat)
    ensures Chunked(s, owner, channel, id, sequence, payload, now).commits == s.commits
  {
    hide Admissible, Filled;
  }

  /** An end starts a commit for the active upload only, and only if it was not finalizing. */
  lemma EndedCommits(s: Handler, owner: nat, channel: nat, id: nat, sha256: nat, k: nat)
    ensures var t := Ended(s, owner, channel, id, sha256);
            && (k in s.commits ==> k in t.commits)
            && (k in t.commits && k !in s.commits ==> s.active == Some(k) && k in s.uploads && !s.uploads[k].finalizing)
  {
    hide Refusal;
  }

  lemma SettledElsewhere(s: Handler, serial: nat, ok: bool, k: nat)
    requires !Settles(s, CommitSettles(serial, ok), k) && k in s.commits
    ensures var t := Settled(s, serial, ok);
            k in t.commits && (s.active == Some(k) ==> t.active == Some(k)) && (t.active == s.active || t.active == None)
  {
  }

  /** Once settled, a commit is over. */
  lemma StaysSettled(s: Handler, step: Step, k: nat)
    requires k !in s.commits && k in s.uploads && s.uploads[k].finalizing
    ensures k !in Next(s, step).commits
  {
    hide Begun, Chunked, Ended;
    match step
    case Begin(owner, channel, id, total, now) => BegunCommits(s, owner, channel, id, total, now);
    case Chunk(owner, channel, id, sequence, payload, now) => ChunkedCommits(s, owner, channel, id, sequence, payload, now);
    case End(owner, channel, id, sha256) => EndedCommits(s, owner, channel, id, sha256, k);
    case _ =>
  }

  /** How many replies the settling of `k`'s commit makes over a run. */
  function RepliesTo(s: Handler, steps: seq<Step>, k: nat): int
    decreases |steps|
  {
    if steps == [] then 0
    else
      var t := Next(s, steps[0]);
      (if steps[0].CommitSettles? && steps[0].serial == k then |t.replies| - |s.replies| else 0) + RepliesTo(t, steps[1..], k)
  }

  /** No step of the run releases the upload before its commit settles. */
  ghost predicate Unreleased(s: Handler, steps: seq<Step>, k: nat)
    decreases |steps|
  {
    steps != [] ==> Settles(s, steps[0], k) || (!Releases(s, steps[0]) && Unreleased(Next(s, steps[0]), steps[1..], k))
  }

  lemma {:induction false} NoReplyOnceSettled(s: Handler, steps: seq<Step>, k: nat)
    requires Consistent(s) && k !in s.commits && k in s.uploads && s.uploads[k].finalizing
    ensures RepliesTo(s, steps, k) == 0
    decreases |steps|
  {
    hide Consistent, Next;
    if steps != [] {
      StepConsistent(s, steps[0]);
      StepFreezes(s, steps[0], k);
      StaysSettled(s, steps[0], k);
      NotSettling(s, steps[0], k);
      NoReplyOnceSettled(Next(s, steps[0]), steps[1..], k);
    }
  }

  lemma NotSettling(s: Handler, step: Step, k: nat)
    requires step.CommitSettles? && step.serial == k ==> !Settles(s, step, k)
    ensures step.CommitSettles? && step.serial == k ==> Next(s, step) == s
  {
  }

  lemma {:induction false} NoReplyOnceReleased(s: Handler, steps: seq<Step>, k: nat)
    requires Consistent(s) && k in s.commits && s.active != Some(k)
    ensures RepliesTo(s, steps, k) == 0
    decreases |steps|
  {
    hide Consistent, Next, Settles;
    if steps != [] {
      StepConsistent(s, steps[0]);
      if Settles(s, steps[0], k) {
        SettlingEnds(s, steps[0], k);
        NoReplyOnceSettled(Next(s, steps[0]), steps[1..], k);
      } else {
        NotSettling(s, steps[0], k);
        StaysReleased(s, steps[0], k);
        NoReplyOnceReleased(Next(s, steps[0]), steps[1..], k);
      }
    }
  }

  lemma SettlingEnds(s: Handler, step: Step, k: nat)
    requires Consistent(s) && Settles(s, step, k)
    ensures var t := Next(s, step);
            && step.CommitSettles? && step.serial == k
            && |t.replies| == |s.replies| + (if s.active == Some(k) then 1 else 0)
            && k !in t.commits && k in t.uploads && t.uploads[k].finalizing
  {
    hide Assembled, Acknowledged;
    SettlingReplies(s, k, step.ok);
    SettledFreezes(s, k, step.ok);
  }

  /** An upload whose commit settles in a run gets exactly one reply from it if and only if nothing released
      the upload before, and none otherwise. */
  lemma {:induction false} RepliedUnlessReleased(s: Handler, steps: seq<Step>, k: nat)
    requires Consistent(s) && s.active == Some(k) && k in s.commits && k !in Run(s, steps).commits
    ensures RepliesTo(s, steps, k) == if Unreleased(s, steps, k) then 1 else 0
    decreases |steps|
  {
    hide Consistent, Next, Settles, Releases;
    if steps != [] {
      StepConsistent(s, steps[0]);
      if Settles(s, steps[0], k) {
        SettlingEnds(s, steps[0], k);
        NoReplyOnceSettled(Next(s, steps[0]), steps[1..], k);
      } else {
        NotSettling(s, steps[0], k);
        StaysActive(s, steps[0], k);
        if Releases(s, steps[0]) {
          NoReplyOnceReleased(Next(s, steps[0]), steps[1..], k);
        } else {
          RepliedUnlessReleased(Next(s, steps[0]), steps[1..], k);
        }
      }
    }
  }

  /** So an end that goes on to its commit, which settles in the run that follows, gets exactly one reply if
      and only if no step of the run releases the upload before. */
  lemma EndRepliedExactly(s: Handler, owner: nat, channel: nat, id: nat, sha256: nat, rest: seq<Step>)
    requires Consistent(s) && CommitStarted(s, Next(s, End(owner, channel, id, sha256)))
    requires s.active.value !in Run(Next(s, End(owner, channel, id, sha256)), rest).commits
    ensures var t, k := Next(s, End(owner, channel, id, sha256)), s.active.value;
            t.replies == s.replies && RepliesTo(t, rest, k) == if Unreleased(t, rest, k) then 1 else 0
  {
    hide Consistent, Next, Run, RepliesTo, Unreleased;
    StepConsistent(s, End(owner, channel, id, sha256));
    RepliedUnlessReleased(Next(s, End(owner, channel, id, sha256)), rest, s.active.value);
  }

  /** The payload of one zero byte. */
  lemma OneByteAdmissible(u: Upload)
    requires u.total == 1 && u.received == 0
    ensures Admissible(u, Encode([0])) == Some(1) && |NodeDecode(Encode([0]))| == 1
  {
    AcceptsExactlyEncodings(Encode([0]), 1);
    LengthIsExact(Encode([0]));
  }

  // The states of a run that leaves an end unanswered.
  function Begun1(sha: seq<Byte> -> nat, events: seq<Byte> -> Option<nat>): Handler {
    Handler(sha, events, 60_000, map[0 := Upload(3, 1, Zeros(1), 1, 2, 0, 0, 0, false, [], 0)], 1, Some(0), false,
            map[], map[], [BeginAck(2, 0)])
  }

  function Filled1(sha: seq<Byte> -> nat, events: seq<Byte> -> Option<nat>): Handler {
    var s := Begun1(sha, events);
    s.(uploads := map[0 := Filled(s.uploads[0], 1, Encode([0]), 0)], replies := [BeginAck(2, 0), ChunkAck(2, 0, 1, 1)])
  }

  lemma BeginsOne(sha: seq<Byte> -> nat, events: seq<Byte> -> Option<nat>)
    ensures Next(Fresh(sha, events, 60_000), Begin(1, 2, 3, 1, 0)) == Begun1(sha, events)
  {
    hide Zeros;
  }

  lemma FillsOne(sha: seq<Byte> -> nat, events: seq<Byte> -> Option<nat>)
    ensures Next(Begun1(sha, events), Chunk(1, 2, 3, 0, Encode([0]), 0)) == Filled1(sha, events)
  {
    var s := Begun1(sha, events);
    OneByteAdmissible(s.uploads[0]);
    OneByteFilled(s.uploads[0]);
    hide Zeros, Admissible, Filled, Encode, Chunked;
    ChunkAccepted(s, 0, 1, 2, 3, Encode([0]), 0);
    assert s.uploads[0 := Filled(s.uploads[0], 1, Encode([0]), 0)] == map[0 := Filled(s.uploads[0], 1, Encode([0]), 0)];
    assert [BeginAck(2, 0)] + [ChunkAck(2, 0, 1, 1)] == [BeginAck(2, 0), ChunkAck(2, 0, 1, 1)];
  }

  lemma ChunkAccepted(s: Handler, k: nat, owner: nat, channel: nat, id: nat, payload: Text, now: nat)
    requires OwnedActive(s, owner, channel, id) == Some(k) && !s.uploads[k].finalizing
    requires Admissible(s.uploads[k], payload).Some?
    ensures var v := Filled(s.uploads[k], Admissible(s.uploads[k], payload).value, payload, now);
            Chunked(s, owner, channel, id, s.uploads[k].nextSequence, payload, now)
            == Replied(s.(uploads := s.uploads[k := v]), ChunkAck(channel, k, v.nextSequence, v.received))
  {
    hide Admissible, Filled;
  }

  lemma EndAccepted(s: Handler, k: nat, owner: nat, channel: nat, id: nat, sha256: nat)
    requires OwnedActive(s, owner, channel, id) == Some(k) && !s.uploads[k].finalizing
    requires Refusal(s, s.uploads[k], sha256).None?
    ensures Ended(s, owner, channel, id, sha256)
            == s.(uploads := s.uploads[k := s.uploads[k].(finalizing := true, sha256 := sha256)], commits := s.commits[k := false])
  {
    hide Refusal;
  }

  lemma OneByteFilled(u: Upload)
    requires u.total == 1 && u.received == 0 && |u.bytes| == 1 && u.nextSequence == 0
    ensures var v := Filled(u, 1, Encode([0]), 0);
            v == u.(bytes := v.bytes, received := 1, nextSequence := 1, touchedAt := 0, chunks := v.chunks)
  {
    OneByteAdmissible(u);
    hide NodeDecode, Encode;
  }

  /** The end is accepted, goes stale, and its commit lands and succeeds. */
  lemma EndsOne(sha: seq<Byte> -> nat, events: seq<Byte> -> Option<nat>)
    requires forall b :: sha(b) == 0 && events(b) == Some(1)
    ensures var t := Next(Filled1(sha, events), End(1, 2, 3, 0));
            && t.active == Some(0) && t.commits == map[0 := false] && t.files == map[]
            && t.uploads.Keys == {0} && t.uploads[0].touchedAt == 0 && t.staleAfter == 60_000 && !t.disposed
            && t.replies == Filled1(sha, events).replies
  {
    OneByteFilled(Begun1(sha, events).uploads[0]);
    hide Filled, Zeros, Encode, Ended;
    EndAccepted(Filled1(sha, events), 0, 1, 2, 3, 0);
  }

  lemma StaleOne(s: Handler)
    requires s.active == Some(0) && s.commits == map[0 := false] && 0 in s.uploads && s.uploads[0].touchedAt == 0
    requires s.staleAfter == 60_000
    ensures var t := Next(Next(Next(s, Gc(60_000)), CommitWrites(0)), CommitSettles(0, true));
            t.replies == s.replies && 0 in t.files
  {
    var t := Next(s, Gc(60_000));
    assert t == s.(active := None);
    var u := Next(t, CommitWrites(0));
    assert u == t.(commits := u.commits, files := u.files) && u.commits[0] && 0 in u.files;
  }

  /** From the start: an upload of one byte is begun, filled and ended; it goes stale while its commit is in
      flight; the commit lands and succeeds; and its end is never answered. */
  lemma EndUnanswered(sha: seq<Byte> -> nat, events: seq<Byte> -> Option<nat>)
    requires forall b :: sha(b) == 0 && events(b) == Some(1)
    ensures var s := Fresh(sha, events, 60_000);
            var run := [Begin(1, 2, 3, 1, 0), Chunk(1, 2, 3, 0, Encode([0]), 0), End(1, 2, 3, 0),
                        Gc(60_000), CommitWrites(0), CommitSettles(0, true)];
            Run(s, run).replies == [BeginAck(2, 0), ChunkAck(2, 0, 1, 1)] && 0 in Run(s, run).files
  {
    hide Next, Run, Encode, Filled, Zeros;
    var s := Fresh(sha, events, 60_000);
    RunSix(s, Begin(1, 2, 3, 1, 0), Chunk(1, 2, 3, 0, Encode([0]), 0), End(1, 2, 3, 0),
           Gc(60_000), CommitWrites(0), CommitSettles(0, true));
    BeginsOne(sha, events);
    FillsOne(sha, events);
    EndsOne(sha, events);
    StaleOne(Next(Filled1(sha, events), End(1, 2, 3, 0)));
  }

  lemma RunCons(s: Handler, step: Step, rest: seq<Step>)
    ensures Run(s, [step] + rest) == Run(Next(s, step), rest)
  {
    assert ([step] + rest)[1..] == rest;
  }

  lemma RunSix(s: Handler, a: Step, b: Step, c: Step, d: Step, e: Step, f: Step)
    ensures Run(s, [a, b, c, d, e, f]) == Next(Next(Next(Next(Next(Next(s, a), b), c), d), e), f)
  {
    var t := Next(Next(Next(s, a), b), c);
    RunCons(s, a, [b, c, d, e, f]);
    RunCons(Next(s, a), b, [c, d, e, f]);
    RunCons(Next(Next(s, a), b), c, [d, e, f]);
    RunCons(t, d, [e, f]);
    RunCons(Next(t, d), e, [f]);
    RunCons(Next(Next(t, d), e), f, []);
    hide Next, Run;
    assert [a, b, c, d, e, f] == [a] + [b, c, d, e, f] && [b, c, d, e, f] == [b] + [c, d, e, f];
    assert [c, d, e, f] == [c] + [d, e, f] && [d, e, f] == [d] + [e, f] && [e, f] == [e] + [f] && [f] == [f] + [];
    NothingRun(Next(Next(Next(t, d), e), f));
  }

  lemma NothingRun(s: Handler)
    ensures Run(s, []) == s
  {
  }

  // ----- The handler ------------------------------------------------------------------------------

  class CaptureUploadHandler {
    var state: Handler

    constructor (sha: seq<Byte> -> nat, events: seq<Byte> -> Option<nat>, staleAfter: nat)
      ensures state == Fresh(sha, events, staleAfter) && Consistent(state)
    {
      hide Consistent;
      FreshConsistent(sha, events, staleAfter);
      state := Fresh(sha, events, staleAfter);
    }

    method Send(reply: Reply)
      modifies this
      ensures state == Replied(old(state), reply)
    {
      state := state.(replies := state.replies + [reply]);
    }

    /** `begin`. */
    method Begin(owner: nat, channel: nat, id: nat, total: int, now: nat)
      requires Consistent(state)
      modifies this
      ensures state == Next(old(state), Step.Begin(owner, channel, id, total, now)) && Consistent(state)
    {
      hide Consistent, Zeros;
      BegunConsistent(state, owner, channel, id, total, now);
      if total <= 0 || total > MAX_TOTAL { Send(Error(channel, TooLarge)); return; }
      if state.disposed { Send(Error(channel, NotFound)); return; }
      if state.active.Some? { Send(Error(channel, Busy)); return; }
      var serial := state.nextSerial;
      var upload := Upload(id, total, Zeros(total), owner, channel, 0, 0, now, false, [], 0);
      state := state.(uploads := state.uploads[serial := upload], nextSerial := serial + 1);
      state := state.(active := Some(serial));
      Send(BeginAck(channel, serial));
    }

    method AbortWith(channel: nat, code: Code)
      modifies this
      ensures state == Aborted(old(state), channel, code)
    {
      state := state.(active := None);
      Send(Error(channel, code));
    }

    /** `chunk`: the checks in order, then the write; the bytes written always match the length checked. */
    method Chunk(owner: nat, channel: nat, id: nat, sequence: int, payload: Text, now: nat)
      requires Consistent(state)
      modifies this
      ensures state == Next(old(state), Step.Chunk(owner, channel, id, sequence, payload, now)) && Consistent(state)
    {
      hide Consistent, CanonicalDecodedLength, NodeDecode;
      ChunkedConsistent(state, owner, channel, id, sequence, payload, now);
      var serial := OwnedActive(state, owner, channel, id);
      if serial.None? { Send(Error(channel, NotFound)); return; }
      var active := state.uploads[serial.value];
      if active.finalizing { Send(Error(channel, Busy)); return; }
      if sequence != active.nextSequence { AbortWith(channel, BadSequence); return; }
      var length := CanonicalDecodedLength(payload);
      if length.None? || length.value == 0 || length.value > MAX_CHUNK { AbortWith(channel, TooLarge); return; }
      var n, offset := length.value, active.received;
      if n > active.total - offset || n > MAX_TOTAL - offset { AbortWith(channel, TooLarge); return; }
      var isFinalChunk := offset + n == active.total;
      if !isFinalChunk && n < MIN_CHUNK { AbortWith(channel, TooLarge); return; }
      LengthIsExact(payload);
      ActiveRoom(state);
      var decoded := NodeDecode(payload);
      active := active.(bytes := Written(active.bytes, offset, n, decoded), chunks := active.chunks + [decoded[..n]]);
      active := active.(received := active.received + n);
      active := active.(nextSequence := active.nextSequence + 1);
      active := active.(touchedAt := now);
      state := state.(uploads := state.uploads[serial.value := active]);
      Send(ChunkAck(channel, serial.value, active.nextSequence, active.received));
    }

    /** `end`, up to its await. */
    method End(owner: nat, channel: nat, id: nat, sha256: nat)
      requires Consistent(state)
      modifies this
      ensures state == Next(old(state), Step.End(owner, channel, id, sha256)) && Consistent(state)
    {
      hide Consistent;
      EndedConsistent(state, owner, channel, id, sha256);
      var serial := OwnedActive(state, owner, channel, id);
      if serial.None? { Send(Error(channel, NotFound)); return; }
      var active := state.uploads[serial.value];
      if active.finalizing { Send(Error(channel, Busy)); return; }
      active := active.(finalizing := true, sha256 := sha256);
      state := state.(uploads := state.uploads[serial.value := active]);
      if active.received != active.total { AbortWith(channel, BadSequence); return; }
      if state.sha(active.bytes) != sha256 { AbortWith(channel, ChecksumMismatch); return; }
      if state.events(active.bytes).None? { AbortWith(channel, InvalidCapture); return; }
      state := state.(commits := state.commits[serial.value := false]);
    }

    /** `end`, after its await, with the `finally`. */
    method CommitReturned(serial: nat, ok: bool)
      requires Consistent(state) && serial in state.commits && (ok ==> state.commits[serial])
      modifies this
      ensures state == Next(old(state), CommitSettles(serial, ok)) && Consistent(state)
    {
      hide Consistent;
      SettledConsistent(state, serial, ok);
      CommitEvents(state, serial);
      var upload := state.uploads[serial];
      state := state.(commits := state.commits - {serial});
      if !ok { state := state.(files := state.files - {serial}); }
      var current := state.active == Some(serial);
      if current { state := state.(active := None); }
      if current && !state.disposed {
        if !ok {
          Send(Error(upload.channel, IoError));
        } else {
          Send(Delivered(upload.channel, serial, upload.bytes, state.events(upload.bytes).value));
        }
      }
    }

    method DetachOwner(owner: nat)
      requires Consistent(state)
      modifies this
      ensures state == Next(old(state), Step.DetachOwner(owner)) && Consistent(state)
    {
      hide Consistent;
      ReleasedConsistent(state);
      if state.active.Some? && state.active.value in state.uploads && state.uploads[state.active.value].owner == owner {
        state := state.(active := None);
      }
    }

    method DetachChannel(owner: nat, channel: nat)
      requires Consistent(state)
      modifies this
      ensures state == Next(old(state), Step.DetachChannel(owner, channel)) && Consistent(state)
    {
      hide Consistent;
      ReleasedConsistent(state);
      if state.active.Some? && state.active.value in state.uploads {
        var active := state.uploads[state.active.value];
        if active.owner == owner && active.channel == channel { state := state.(active := None); }
      }
    }

    method DetachAll()
      requires Consistent(state)
      modifies this
      ensures state == Next(old(state), Step.DetachAll) && Consistent(state) && state.active.None?
    {
      hide Consistent;
      ReleasedConsistent(state);
      state := state.(active := None);
    }

    /** `dispose`: nothing is active afterwards, and no upload begins any more. */
    method Dispose()
      requires Consistent(state)
      modifies this
      ensures state == Next(old(state), Step.Dispose) && Consistent(state) && state.active.None? && state.disposed
    {
      hide Consistent;
      ReleasedConsistent(state);
      if state.disposed { NothingActiveOnceDisposed(state); }
      if state.disposed { return; }
      state := state.(disposed := true);
      state := state.(active := None);
    }

    method Gc(now: nat)
      requires Consistent(state)
      modifies this
      ensures state == Next(old(state), Step.Gc(now)) && Consistent(state)
    {
      hide Consistent;
      ReleasedConsistent(state);
      if state.active.Some? && state.active.value in state.uploads
         && now - state.uploads[state.active.value].touchedAt >= state.staleAfter {
        state := state.(active := None);
      }
    }
  }

  lemma NothingActiveOnceDisposed(s: Handler)
    requires Consistent(s) && s.disposed
    ensures s.active.None?
  {
  }

  lemma ActiveRoom(s: Handler)
    requires Consistent(s) && s.active.Some?
    ensures s.active.value in s.uploads
    ensures var u := s.uploads[s.active.value]; u.received <= u.total == |u.bytes|
  {
    ActiveAssembled(s);
  }

  lemma CommitEvents(s: Handler, serial: nat)
    requires Consistent(s) && serial in s.commits
    ensures serial in s.uploads && s.events(s.uploads[serial].bytes).Some?
  {
  }
}

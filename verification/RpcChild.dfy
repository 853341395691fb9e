/**
 Stream decoding in the RPC child (packages/core/src/rpc-child.ts): newline framing
 and chunk reassembly. JSON parsing of a line is a function; what a frame does once
 dispatched is not part of this model.
 */
module RpcChild {
  import opened Wrappers
  import opened JsText
  import opened Base64

  // ----- framing -----

  /** What is complete in a stream: its lines, trimmed, without the empty ones. */
  function Framed(stream: string): seq<string> {
    NonEmpty(Split(stream, '\n')[..|Split(stream, '\n')| - 1])
  }

  /** What is still to be completed. */
  function Tail(stream: string): string {
    Split(stream, '\n')[|Split(stream, '\n')| - 1]
  }

  function NonEmpty(pieces: seq<string>): seq<string> {
    if pieces == [] then []
    else (if Trim(pieces[0]) == "" then [] else [Trim(pieces[0])]) + NonEmpty(pieces[1..])
  }

  lemma {:induction false} NonEmptyAppend(a: seq<string>, b: seq<string>)
    ensures NonEmpty(a + b) == NonEmpty(a) + NonEmpty(b)
  {
    if a == [] {
      assert a + b == b;
    } else {
      assert (a + b)[1..] == a[1..] + b;
      NonEmptyAppend(a[1..], b);
    }
  }

  /** The first of some pieces extended by one character. */
  function Extended(c: char, pieces: seq<string>): seq<string>
    requires pieces != []
  {
    if c == '\n' then [""] + pieces else [[c] + pieces[0]] + pieces[1..]
  }

  lemma SplitFirst(s: string)
    requires s != ""
    ensures Split(s, '\n') == Extended(s[0], Split(s[1..], '\n'))
  {
  }

  /** Joining pieces after their first character, where the last of `rest` is continued by `more`. */
  lemma ExtendedJoins(c: char, rest: seq<string>, more: seq<string>)
    requires |rest| > 0 && |more| > 0 && (|rest| > 1 || c == '\n')
    ensures var sa := Extended(c, rest);
      Extended(c, rest[..|rest| - 1] + more) == sa[..|sa| - 1] + more && sa[|sa| - 1] == rest[|rest| - 1]
  {
    var sa := Extended(c, rest);
    var joined := rest[..|rest| - 1] + more;
    if c == '\n' {
      assert sa[..|sa| - 1] == [""] + rest[..|rest| - 1];
      Regroup([""], rest[..|rest| - 1], more);
    } else {
      assert joined[0] == rest[0] && joined[1..] == rest[1..|rest| - 1] + more;
      assert sa[..|sa| - 1] == [[c] + rest[0]] + rest[1..|rest| - 1];
      Regroup([[c] + rest[0]], rest[1..|rest| - 1], more);
    }
  }

  /** Splitting more input continues the last piece. */
  lemma {:induction false} SplitAppend(a: string, b: string)
    ensures var sa, sb := Split(a, '\n'), Split(Tail(a) + b, '\n');
      Split(a + b, '\n') == sa[..|sa| - 1] + sb
    decreases |a|
  {
    if a == "" {
      assert a + b == b && Tail(a) + b == b;
    } else {
      hide Split, Tail, Extended;
      var rest := Split(a[1..], '\n');
      var more := Split(Tail(a[1..]) + b, '\n');
      SplitAppend(a[1..], b);
      assert (a + b)[1..] == a[1..] + b;
      SplitFirst(a);
      SplitFirst(a + b);
      if |rest| == 1 && a[0] != '\n' {
        LastGrows(a, b);
        OneLine(a[0], Tail(a[1..]) + b, Tail(a) + b);
        assert rest[..0] + more == more;
      } else {
        LastStays(a);
        ExtendedJoins(a[0], rest, more);
      }
    }
  }

  lemma LastGrows(a: string, b: string)
    requires a != "" && |Split(a[1..], '\n')| == 1 && a[0] != '\n'
    ensures |Split(a, '\n')| == 1 && Tail(a) + b == [a[0]] + (Tail(a[1..]) + b)
  {
    SplitFirst(a);
    hide Split;
  }

  lemma LastStays(a: string)
    requires a != "" && (|Split(a[1..], '\n')| > 1 || a[0] == '\n')
    ensures Tail(a) == Tail(a[1..])
  {
    SplitFirst(a);
    hide Split;
  }

  lemma OneLine(c: char, tail: string, line: string)
    requires line == [c] + tail
    ensures Split(line, '\n') == Extended(c, Split(tail, '\n'))
  {
    assert line[1..] == tail;
    SplitFirst(line);
  }

  /** Lines do not depend on where the stream was cut. */
  lemma FramedAppend(a: string, b: string)
    ensures Framed(a + b) == Framed(a) + Framed(Tail(a) + b) && Tail(a + b) == Tail(Tail(a) + b)
  {
    var sa, sb := Split(a, '\n'), Split(Tail(a) + b, '\n');
    SplitAppend(a, b);
    assert (sa[..|sa| - 1] + sb)[..|sa| - 1 + |sb| - 1] == sa[..|sa| - 1] + sb[..|sb| - 1];
    NonEmptyAppend(sa[..|sa| - 1], sb[..|sb| - 1]);
  }

  // ----- chunks -----

  const CHUNK_PAYLOAD_BYTES := 262144
  const MAX_SAFE_INTEGER := 9007199254740991

  /** The protocol version in force and the limits the ready frame declared. */
  datatype Limits = Limits(version: nat, maxFrame: int, maxReassembled: int)

  datatype Chunk = Chunk(chunkId: string, index: int, count: int, byteLength: int, data: string)

  datatype Pending = Pending(chunkId: string, count: int, byteLength: int, nextIndex: nat, chunks: seq<seq<Byte>>, receivedBytes: nat)

  datatype ChunkError =
    | BeforeNegotiation | InvalidId | InvalidIndex | InvalidCount | IndexOutOfRange | TooManyChunks | InvalidLength
    | BelowFrameLimit | AboveReassemblyLimit | NotAtStart | SequenceMismatch | InvalidData | PayloadTooLarge
    | TooManyBytes | LengthMismatch

  datatype Outcome = Nothing | Failed(error: ChunkError) | Payload(bytes: seq<Byte>)

  function CeilDiv(n: int, d: int): int
    requires d > 0
  {
    if n % d == 0 then n / d else n / d + 1
  }

  predicate SafeInteger(n: int) {
    -MAX_SAFE_INTEGER <= n <= MAX_SAFE_INTEGER
  }

  /** The metadata checks, in order. */
  function Problem(limits: Limits, c: Chunk): Option<ChunkError> {
    if limits.version < 2 then Some(BeforeNegotiation)
    else if c.chunkId == "" || |c.chunkId| > 128 then Some(InvalidId)
    else if !SafeInteger(c.index) || c.index < 0 then Some(InvalidIndex)
    else if !SafeInteger(c.count) || c.count < 2 then Some(InvalidCount)
    else if c.index >= c.count then Some(IndexOutOfRange)
    else if c.count > CeilDiv(limits.maxReassembled, CHUNK_PAYLOAD_BYTES) then Some(TooManyChunks)
    else if !SafeInteger(c.byteLength) || c.byteLength < 0 then Some(InvalidLength)
    else if c.byteLength < limits.maxFrame then Some(BelowFrameLimit)
    else if c.byteLength > limits.maxReassembled then Some(AboveReassemblyLimit)
    else None
  }

  function Concat(chunks: seq<seq<Byte>>): seq<Byte> {
    if chunks == [] then [] else chunks[0] + Concat(chunks[1..])
  }

  function Total(chunks: seq<seq<Byte>>): nat {
    |Concat(chunks)|
  }

  /** What one sequence's entry becomes: gone, or updated. */
  datatype Change = Change(entry: Option<Pending>, outcome: Outcome)

  /** One chunk against its own entry. */
  function StepEntry(limits: Limits, entry: Option<Pending>, c: Chunk): Change {
    if Problem(limits, c).Some? then Change(entry, Failed(Problem(limits, c).value))
    else if entry.None? && c.index != 0 then Change(None, Failed(NotAtStart))
    else
      var p := if entry.Some? then entry.value else Pending(c.chunkId, c.count, c.byteLength, 0, [], 0);
      if p.chunkId != c.chunkId || p.count != c.count || p.byteLength != c.byteLength || p.nextIndex != c.index
      then Change(None, Failed(SequenceMismatch))
      else if c.data == "" || Canonical(c.data).None? then Change(None, Failed(InvalidData))
      else
        var bytes := Canonical(c.data).value;
        var received := p.receivedBytes + |bytes|;
        if |bytes| > CHUNK_PAYLOAD_BYTES then Change(None, Failed(PayloadTooLarge))
        else if received > p.byteLength then Change(None, Failed(TooManyBytes))
        else if p.nextIndex + 1 < p.count then
          Change(Some(p.(chunks := p.chunks + [bytes], nextIndex := p.nextIndex + 1, receivedBytes := received)), Nothing)
        else if received != p.byteLength then Change(None, Failed(LengthMismatch))
        else Change(None, Payload(Concat(p.chunks + [bytes])))
  }

  function Lookup(pending: map<string, Pending>, id: string): Option<Pending> {
    if id in pending then Some(pending[id]) else None
  }

  function Store(pending: map<string, Pending>, id: string, entry: Option<Pending>): map<string, Pending> {
    if entry.Some? then pending[id := entry.value] else pending - {id}
  }

  /** Only one entry is touched. */
  lemma StoredIsUpdated(before: map<string, Pending>, after: map<string, Pending>, id: string)
    requires forall other :: other != id ==> Lookup(after, other) == Lookup(before, other)
    ensures after == Store(before, id, Lookup(after, id))
  {
    forall other | other in after || other in Store(before, id, Lookup(after, id))
      ensures other in after && other in Store(before, id, Lookup(after, id)) && after[other] == Store(before, id, Lookup(after, id))[other]
    {
      assert other != id ==> Lookup(after, other) == Lookup(before, other);
    }
  }

  /** Bookkeeping of a sequence under way: its bytes are counted exactly and never pass the declared length. */
  predicate Sound(id: string, p: Pending) {
    && p.chunkId == id && p.nextIndex == |p.chunks| < p.count
    && p.receivedBytes == Total(p.chunks) <= p.byteLength
    && forall i :: 0 <= i < |p.chunks| ==> |p.chunks[i]| <= CHUNK_PAYLOAD_BYTES
  }

  lemma {:induction false} ConcatAppend(chunks: seq<seq<Byte>>, bytes: seq<Byte>)
    ensures Concat(chunks + [bytes]) == Concat(chunks) + bytes
  {
    if chunks == [] {
      assert [bytes][1..] == [];
      assert Concat([bytes]) == bytes + [];
    } else {
      assert (chunks + [bytes])[1..] == chunks[1..] + [bytes];
      ConcatAppend(chunks[1..], bytes);
    }
  }

  lemma StepKeepsSound(limits: Limits, entry: Option<Pending>, c: Chunk)
    requires entry.Some? ==> Sound(c.chunkId, entry.value)
    ensures var change := StepEntry(limits, entry, c); change.entry.Some? ==> Sound(c.chunkId, change.entry.value)
  {
    var p := if entry.Some? then entry.value else Pending(c.chunkId, c.count, c.byteLength, 0, [], 0);
    if Canonical(c.data).Some? {
      ConcatAppend(p.chunks, Canonical(c.data).value);
    }
    hide Canonical, Concat;
    assert Concat([]) == [] by {
      ConcatNothing();
    }
  }

  /**
   What comes out was declared, within the limits, in more than one chunk, and by the
   last of them; a chunk that fails drops its sequence, unless its metadata does not
   even pass, which leaves every sequence alone.
   */
  lemma OutcomesWithinLimits(limits: Limits, entry: Option<Pending>, c: Chunk)
    requires entry.Some? ==> Sound(c.chunkId, entry.value)
    ensures var change := StepEntry(limits, entry, c);
      && (change.outcome.Payload? ==>
            && limits.version >= 2 && 1 <= |c.chunkId| <= 128
            && 1 <= c.index == c.count - 1 && c.count <= CeilDiv(limits.maxReassembled, CHUNK_PAYLOAD_BYTES)
            && limits.maxFrame <= |change.outcome.bytes| == c.byteLength <= limits.maxReassembled
            && change.entry.None?)
      && (change.outcome.Nothing? ==> change.entry.Some? && change.entry.value.nextIndex == c.index + 1 < c.count)
      && (change.outcome.Failed? ==> change.entry == if Problem(limits, c).Some? then entry else None)
  {
    var p := if entry.Some? then entry.value else Pending(c.chunkId, c.count, c.byteLength, 0, [], 0);
    if Canonical(c.data).Some? {
      ConcatAppend(p.chunks, Canonical(c.data).value);
    }
    ConcatNothing();
    hide Canonical, Concat;
  }

  lemma ConcatNothing()
    ensures Concat([]) == []
  {
  }

  // ----- runs of chunks -----

  /** Outcomes of a stream of chunks against one entry. */
  function RunEntry(limits: Limits, entry: Option<Pending>, cs: seq<Chunk>): (Option<Pending>, seq<Outcome>)
    decreases |cs|
  {
    if cs == [] then (entry, [])
    else
      var change := StepEntry(limits, entry, cs[0]);
      var rest := RunEntry(limits, change.entry, cs[1..]);
      (rest.0, [change.outcome] + rest.1)
  }

  /** Outcomes of a stream of chunks, each against the entry its id selects. */
  function RunAll(limits: Limits, pending: map<string, Pending>, cs: seq<Chunk>): (map<string, Pending>, seq<Outcome>)
    decreases |cs|
  {
    if cs == [] then (pending, [])
    else
      var change := StepEntry(limits, Lookup(pending, cs[0].chunkId), cs[0]);
      var rest := RunAll(limits, Store(pending, cs[0].chunkId, change.entry), cs[1..]);
      (rest.0, [change.outcome] + rest.1)
  }

  function Only(cs: seq<Chunk>, id: string): seq<Chunk> {
    if cs == [] then [] else (if cs[0].chunkId == id then [cs[0]] else []) + Only(cs[1..], id)
  }

  function OutcomesOf(cs: seq<Chunk>, outcomes: seq<Outcome>, id: string): seq<Outcome>
    requires |outcomes| == |cs|
  {
    if cs == [] then [] else (if cs[0].chunkId == id then [outcomes[0]] else []) + OutcomesOf(cs[1..], outcomes[1..], id)
  }

  lemma {:induction false} OneOutcomeEach(limits: Limits, pending: map<string, Pending>, cs: seq<Chunk>)
    ensures |RunAll(limits, pending, cs).1| == |cs|
    decreases |cs|
  {
    if cs != [] {
      OneOutcomeEach(limits, Store(pending, cs[0].chunkId, StepEntry(limits, Lookup(pending, cs[0].chunkId), cs[0]).entry), cs[1..]);
    }
  }

  /**
   Sequences do not disturb each other: in any interleaving, well formed or not, the
   outcomes for one id are those of its own chunks alone.
   */
  lemma {:induction false} Independent(limits: Limits, pending: map<string, Pending>, cs: seq<Chunk>, id: string)
    ensures |RunAll(limits, pending, cs).1| == |cs|
    ensures var alone := RunEntry(limits, Lookup(pending, id), Only(cs, id));
      && OutcomesOf(cs, RunAll(limits, pending, cs).1, id) == alone.1
      && Lookup(RunAll(limits, pending, cs).0, id) == alone.0
    decreases |cs|
  {
    OneOutcomeEach(limits, pending, cs);
    if cs != [] {
      hide StepEntry;
      var c := cs[0];
      var change := StepEntry(limits, Lookup(pending, c.chunkId), c);
      var next := Store(pending, c.chunkId, change.entry);
      Independent(limits, next, cs[1..], id);
      var all := RunAll(limits, pending, cs);
      assert all.1[1..] == RunAll(limits, next, cs[1..]).1;
      if c.chunkId == id {
        assert Only(cs, id)[1..] == Only(cs[1..], id);
      } else {
        assert [] + Only(cs[1..], id) == Only(cs[1..], id);
        assert Lookup(next, id) == Lookup(pending, id);
      }
    }
  }

  // ----- one payload -----

  /** The chunks a sender makes of some pieces. */
  function ChunksOf(id: string, pieces: seq<seq<Byte>>): seq<Chunk> {
    seq(|pieces|, i requires 0 <= i < |pieces| => Chunk(id, i, |pieces|, Total(pieces), Encode(pieces[i])))
  }

  /** Pieces within the declared limits. */
  predicate Sendable(limits: Limits, id: string, pieces: seq<seq<Byte>>) {
    && limits.version >= 2 && 1 <= |id| <= 128 && limits.maxReassembled <= MAX_SAFE_INTEGER
    && 2 <= |pieces| <= CeilDiv(limits.maxReassembled, CHUNK_PAYLOAD_BYTES)
    && 0 <= limits.maxFrame <= Total(pieces) <= limits.maxReassembled
    && forall i :: 0 <= i < |pieces| ==> 0 < |pieces[i]| <= CHUNK_PAYLOAD_BYTES
  }

  /** The entry once the first `n` pieces have arrived. */
  function After(id: string, pieces: seq<seq<Byte>>, n: nat): Option<Pending>
    requires n <= |pieces|
  {
    if n == 0 then None else Some(Pending(id, |pieces|, Total(pieces), n, pieces[..n], Total(pieces[..n])))
  }

  lemma {:induction false} ConcatSplit(pieces: seq<seq<Byte>>, n: nat)
    requires n <= |pieces|
    ensures Concat(pieces[..n]) + Concat(pieces[n..]) == Concat(pieces)
    decreases n
  {
    if n > 0 {
      assert pieces[..n][1..] == pieces[1..][..n - 1] && pieces[1..][n - 1..] == pieces[n..];
      ConcatSplit(pieces[1..], n - 1);
      assert pieces[..n][0] == pieces[0];
    } else {
      assert pieces[..0] == [] && pieces[0..] == pieces;
    }
  }

  lemma CountFits(limits: Limits, pieces: seq<seq<Byte>>)
    requires limits.maxReassembled <= MAX_SAFE_INTEGER && |pieces| <= CeilDiv(limits.maxReassembled, CHUNK_PAYLOAD_BYTES)
    ensures |pieces| <= MAX_SAFE_INTEGER
  {
  }

  /** A chunk that fits its entry is stored, or completes the payload. */
  lemma ChunkStored(limits: Limits, entry: Option<Pending>, c: Chunk, p: Pending, bytes: seq<Byte>)
    requires Problem(limits, c).None? && c.data != "" && Canonical(c.data) == Some(bytes)
    requires entry == Some(p) || (entry.None? && p == Pending(c.chunkId, c.count, c.byteLength, 0, [], 0))
    requires p.chunkId == c.chunkId && p.count == c.count && p.byteLength == c.byteLength && p.nextIndex == c.index < p.count
    requires |bytes| <= CHUNK_PAYLOAD_BYTES && p.receivedBytes + |bytes| <= p.byteLength
    requires p.nextIndex + 1 == p.count ==> p.receivedBytes + |bytes| == p.byteLength
    ensures StepEntry(limits, entry, c) ==
      if p.nextIndex + 1 < p.count
      then Change(Some(p.(chunks := p.chunks + [bytes], nextIndex := p.nextIndex + 1, receivedBytes := p.receivedBytes + |bytes|)), Nothing)
      else Change(None, Payload(Concat(p.chunks + [bytes])))
  {
    hide Canonical, Problem, Concat;
  }

  lemma ChunkIsFine(limits: Limits, id: string, pieces: seq<seq<Byte>>, n: nat)
    requires Sendable(limits, id, pieces) && n < |pieces|
    ensures var c := Chunk(id, n, |pieces|, Total(pieces), Encode(pieces[n]));
      && ChunksOf(id, pieces)[n] == c
      && Problem(limits, c).None? && c.data != "" && Canonical(c.data) == Some(pieces[n])
      && 0 < |pieces[n]| <= CHUNK_PAYLOAD_BYTES
  {
    hide Canonical, Encode, Concat, Decode;
    CountFits(limits, pieces);
    CanonicalExactly(Encode(pieces[n]), pieces[n]);
    EncodeSomething(pieces[n]);
  }

  /** Bytes so far, with one piece more, and in the end. */
  lemma TotalsAdd(pieces: seq<seq<Byte>>, n: nat)
    requires n < |pieces|
    ensures Concat(pieces[..n] + [pieces[n]]) == Concat(pieces[..n + 1])
    ensures Total(pieces[..n + 1]) == Total(pieces[..n]) + |pieces[n]| <= Total(pieces)
    ensures n + 1 == |pieces| ==> pieces[..n + 1] == pieces
    ensures Total([]) == 0
  {
    assert pieces[..n + 1] == pieces[..n] + [pieces[n]];
    ConcatAppend(pieces[..n], pieces[n]);
    ConcatSplit(pieces, n + 1);
  }

  lemma AfterNext(id: string, pieces: seq<seq<Byte>>, n: nat)
    requires n < |pieces|
    ensures var p := Pending(id, |pieces|, Total(pieces), n, pieces[..n], Total(pieces[..n]));
      && (n > 0 ==> After(id, pieces, n) == Some(p))
      && (n == 0 ==> After(id, pieces, n) == None && p == Pending(id, |pieces|, Total(pieces), 0, [], 0))
      && After(id, pieces, n + 1) == Some(p.(chunks := p.chunks + [pieces[n]], nextIndex := n + 1, receivedBytes := p.receivedBytes + |pieces[n]|))
  {
    TotalsAdd(pieces, n);
    hide Total, Concat;
    assert pieces[..n + 1] == pieces[..n] + [pieces[n]];
    assert pieces[..0] == [];
  }

  /** Piece `n` of a sendable payload is accepted, and the last one returns them all. */
  lemma PieceAccepted(limits: Limits, id: string, pieces: seq<seq<Byte>>, n: nat)
    requires Sendable(limits, id, pieces) && n < |pieces|
    ensures StepEntry(limits, After(id, pieces, n), ChunksOf(id, pieces)[n])
         == if n + 1 < |pieces| then Change(After(id, pieces, n + 1), Nothing) else Change(None, Payload(Concat(pieces)))
  {
    hide StepEntry, Problem, Canonical, Total, Concat, Encode, Sendable, After, ChunksOf;
    ChunkIsFine(limits, id, pieces, n);
    TotalsAdd(pieces, n);
    AfterNext(id, pieces, n);
    var p := Pending(id, |pieces|, Total(pieces), n, pieces[..n], Total(pieces[..n]));
    var c := Chunk(id, n, |pieces|, Total(pieces), Encode(pieces[n]));
    ChunkStored(limits, After(id, pieces, n), c, p, pieces[n]);
  }

  lemma EncodeSomething(bytes: seq<Byte>)
    requires bytes != []
    ensures Encode(bytes) != ""
  {
  }

  function Silence(n: nat): seq<Outcome> {
    seq(n, i => Nothing)
  }

  lemma {:induction false} PayloadFrom(limits: Limits, id: string, pieces: seq<seq<Byte>>, n: nat)
    requires Sendable(limits, id, pieces) && n < |pieces|
    ensures RunEntry(limits, After(id, pieces, n), ChunksOf(id, pieces)[n..])
         == (None, Silence(|pieces| - 1 - n) + [Payload(Concat(pieces))])
    decreases |pieces| - n
  {
    hide StepEntry, Sendable, Concat, After, ChunksOf, Total;
    var cs := ChunksOf(id, pieces);
    ChunksLength(id, pieces);
    PieceAccepted(limits, id, pieces, n);
    assert cs[n..][0] == cs[n] && cs[n..][1..] == cs[n + 1..];
    var last := [Payload(Concat(pieces))];
    if n + 1 < |pieces| {
      PayloadFrom(limits, id, pieces, n + 1);
      assert [Nothing] + (Silence(|pieces| - 2 - n) + last) == Silence(|pieces| - 1 - n) + last;
    } else {
      assert cs[n + 1..] == [];
      assert last + [] == Silence(0) + last;
    }
  }

  lemma ChunksLength(id: string, pieces: seq<seq<Byte>>)
    ensures |ChunksOf(id, pieces)| == |pieces|
  {
  }

  /**
   A payload sent within the limits under a fresh id comes out once, whole, however
   its chunks are interleaved with others': nothing until the last chunk, then the
   concatenation of the pieces, and nothing left pending.
   */
  lemma PayloadOnce(limits: Limits, pending: map<string, Pending>, cs: seq<Chunk>, id: string, pieces: seq<seq<Byte>>)
    requires Sendable(limits, id, pieces) && id !in pending && Only(cs, id) == ChunksOf(id, pieces)
    ensures |RunAll(limits, pending, cs).1| == |cs|
    ensures OutcomesOf(cs, RunAll(limits, pending, cs).1, id) == Silence(|pieces| - 1) + [Payload(Concat(pieces))]
    ensures id !in RunAll(limits, pending, cs).0
  {
    Independent(limits, pending, cs, id);
    PayloadFrom(limits, id, pieces, 0);
    assert ChunksOf(id, pieces)[0..] == ChunksOf(id, pieces);
    hide RunAll, RunEntry, OutcomesOf, Sendable;
  }

  // ----- the child -----

  /** What a line parses to: no JSON, no object, a chunk, or any other frame. */
  datatype Frame = Malformed | NoObject | ChunkFrame(chunk: Chunk) | Other(frame: int)

  datatype Event = ParseError(line: string) | Dispatched(frame: int) | Errored(error: ChunkError) | Reassembled(bytes: seq<Byte>)

  datatype Machine = Machine(pending: map<string, Pending>, log: seq<Event>)

  function Settle(log: seq<Event>, outcome: Outcome): seq<Event> {
    match outcome
    case Nothing => log
    case Failed(error) => log + [Errored(error)]
    case Payload(bytes) => log + [Reassembled(bytes)]
  }

  function LineStep(limits: Limits, parse: string -> Frame, m: Machine, line: string): Machine {
    match parse(line)
    case Malformed => m.(log := m.log + [ParseError(line)])
    case NoObject => m
    case Other(frame) => m.(log := m.log + [Dispatched(frame)])
    case ChunkFrame(c) =>
      var change := StepEntry(limits, Lookup(m.pending, c.chunkId), c);
      Machine(Store(m.pending, c.chunkId, change.entry), Settle(m.log, change.outcome))
  }

  function LineSteps(limits: Limits, parse: string -> Frame, m: Machine, lines: seq<string>): Machine
    decreases |lines|
  {
    if lines == [] then m else LineSteps(limits, parse, LineStep(limits, parse, m, lines[0]), lines[1..])
  }

  lemma {:induction false} LineStepsAppend(limits: Limits, parse: string -> Frame, m: Machine, a: seq<string>, b: seq<string>)
    ensures LineSteps(limits, parse, m, a + b) == LineSteps(limits, parse, LineSteps(limits, parse, m, a), b)
    decreases |a|
  {
    hide LineStep;
    if a == [] {
      assert a + b == b;
    } else {
      assert (a + b)[1..] == a[1..] + b;
      LineStepsAppend(limits, parse, LineStep(limits, parse, m, a[0]), a[1..], b);
    }
  }

  /** A line that is not empty is one step; an empty one is none. */
  lemma StepFirst(limits: Limits, parse: string -> Frame, m: Machine, line: string, rest: seq<string>)
    ensures LineSteps(limits, parse, m, (if line == "" then [] else [line]) + rest)
         == LineSteps(limits, parse, if line == "" then m else LineStep(limits, parse, m, line), rest)
  {
    hide LineStep;
    assert [] + rest == rest;
    assert ([line] + rest)[1..] == rest;
  }

  class Child {
    const limits: Limits
    const parse: string -> Frame
    var buffer: string
    var pendingChunks: map<string, Pending>
    var log: seq<Event>

    constructor (limits: Limits, parse: string -> Frame)
      ensures this.limits == limits && this.parse == parse && buffer == "" && pendingChunks == map[] && log == []
    {
      this.limits, this.parse, buffer, pendingChunks, log := limits, parse, "", map[], [];
    }

    function Now(): Machine
      reads this
    {
      Machine(pendingChunks, log)
    }

    ghost predicate Valid()
      reads this
    {
      forall id :: id in pendingChunks ==> Sound(id, pendingChunks[id])
    }

    /** Take whole lines off the buffer while there are any. */
    method OnStdoutData(data: string)
      requires Valid()
      modifies this
      ensures Valid()
      ensures buffer == Tail(old(buffer) + data)
      ensures Now() == LineSteps(limits, parse, old(Now()), Framed(old(buffer) + data))
    {
      hide LineStep, Framed, Tail, Sound, Trim;
      buffer := buffer + data;
      ghost var all := buffer;
      while '\n' in buffer
        invariant Valid()
        invariant Tail(buffer) == Tail(all)
        invariant LineSteps(limits, parse, Now(), Framed(buffer)) == LineSteps(limits, parse, old(Now()), Framed(all))
        decreases |buffer|
      {
        var nl := IndexOf(buffer);
        var line := Trim(buffer[..nl]);
        CutLine(buffer, nl);
        StepFirst(limits, parse, Now(), line, Framed(buffer[nl + 1..]));
        buffer := buffer[nl + 1..];
        if line != "" {
          ProcessLine(line);
        }
      }
      NoLine(buffer);
    }

    method ProcessLine(line: string)
      requires Valid()
      modifies this`pendingChunks, this`log
      ensures Valid() && Now() == LineStep(limits, parse, old(Now()), line)
    {
      match parse(line)
      case Malformed => log := log + [ParseError(line)];
      case NoObject =>
      case Other(frame) => log := log + [Dispatched(frame)];
      case ChunkFrame(chunk) =>
        var outcome := ProcessChunk(chunk);
        StoredIsUpdated(old(pendingChunks), pendingChunks, chunk.chunkId);
        if outcome.Failed? {
          log := log + [Errored(outcome.error)];
        } else if outcome.Payload? {
          log := log + [Reassembled(outcome.bytes)];
        }
    }

    /** Reassemble one chunk. */
    method ProcessChunk(chunk: Chunk) returns (outcome: Outcome)
      requires Valid()
      modifies this`pendingChunks
      ensures Valid()
      ensures var change := StepEntry(limits, Lookup(old(pendingChunks), chunk.chunkId), chunk);
        outcome == change.outcome && Lookup(pendingChunks, chunk.chunkId) == change.entry
      ensures forall id :: id != chunk.chunkId ==> Lookup(pendingChunks, id) == Lookup(old(pendingChunks), id)
    {
      hide Problem, Canonical, Concat, Sound;
      StepKeepsSound(limits, Lookup(pendingChunks, chunk.chunkId), chunk);
      var problem := Problem(limits, chunk);
      if problem.Some? {
        return Failed(problem.value);
      }
      var id := chunk.chunkId;
      if id !in pendingChunks {
        if chunk.index != 0 {
          return Failed(NotAtStart);
        }
        pendingChunks := pendingChunks[id := Pending(id, chunk.count, chunk.byteLength, 0, [], 0)];
      }
      var pending := pendingChunks[id];
      if pending.chunkId != id || pending.count != chunk.count || pending.byteLength != chunk.byteLength
         || pending.nextIndex != chunk.index {
        pendingChunks := pendingChunks - {id};
        return Failed(SequenceMismatch);
      }
      if chunk.data == "" || Canonical(chunk.data).None? {
        pendingChunks := pendingChunks - {id};
        return Failed(InvalidData);
      }
      var bytes := Canonical(chunk.data).value;
      if |bytes| > CHUNK_PAYLOAD_BYTES {
        pendingChunks := pendingChunks - {id};
        return Failed(PayloadTooLarge);
      }
      pending := pending.(receivedBytes := pending.receivedBytes + |bytes|);
      if pending.receivedBytes > pending.byteLength {
        pendingChunks := pendingChunks - {id};
        return Failed(TooManyBytes);
      }
      pending := pending.(chunks := pending.chunks + [bytes], nextIndex := pending.nextIndex + 1);
      pendingChunks := pendingChunks[id := pending];
      if pending.nextIndex < pending.count {
        return Nothing;
      }
      pendingChunks := pendingChunks - {id};
      return if pending.receivedBytes != pending.byteLength then Failed(LengthMismatch) else Payload(Concat(pending.chunks));
    }
  }

  method IndexOf(s: string) returns (i: nat)
    requires '\n' in s
    ensures i < |s| && s[i] == '\n' && '\n' !in s[..i]
  {
    i := 0;
    while s[i] != '\n'
      invariant i < |s| && '\n' !in s[..i]
      decreases |s| - i
    {
      i := i + 1;
    }
  }

  lemma {:induction false} SplitAt(s: string, nl: nat)
    requires nl < |s| && s[nl] == '\n' && '\n' !in s[..nl]
    ensures Split(s, '\n') == [s[..nl]] + Split(s[nl + 1..], '\n')
    decreases nl
  {
    if nl > 0 {
      assert s[..nl][0] == s[0];
      assert s[1..][..nl - 1] == s[..nl][1..] && s[1..][nl..] == s[nl + 1..];
      SplitAt(s[1..], nl - 1);
      assert [s[0]] + s[1..][..nl - 1] == s[..nl];
    } else {
      assert s[..0] == "";
    }
  }

  lemma CutLine(s: string, nl: nat)
    requires nl < |s| && s[nl] == '\n' && '\n' !in s[..nl]
    ensures Framed(s) == (if Trim(s[..nl]) == "" then [] else [Trim(s[..nl])]) + Framed(s[nl + 1..])
    ensures Tail(s) == Tail(s[nl + 1..])
  {
    SplitAt(s, nl);
    var rest := Split(s[nl + 1..], '\n');
    assert ([s[..nl]] + rest)[..|rest|] == [s[..nl]] + rest[..|rest| - 1];
    assert ([s[..nl]] + rest[..|rest| - 1])[1..] == rest[..|rest| - 1];
  }

  lemma {:induction false} NoLine(s: string)
    requires '\n' !in s
    ensures Split(s, '\n') == [s] && Framed(s) == [] && Tail(s) == s
  {
    if s != "" {
      assert s[0] in s;
      NoLine(s[1..]);
      assert [s[0]] + s[1..] == s;
    }
  }

  // ----- cuts do not matter -----

  /** The state after feeding some pieces one by one. */
  function FeedAll(limits: Limits, parse: string -> Frame, m: Machine, buffer: string, pieces: seq<string>): (Machine, string)
    decreases |pieces|
  {
    if pieces == [] then (m, buffer)
    else FeedAll(limits, parse, LineSteps(limits, parse, m, Framed(buffer + pieces[0])), Tail(buffer + pieces[0]), pieces[1..])
  }

  function Stream(pieces: seq<string>): string {
    if pieces == [] then "" else pieces[0] + Stream(pieces[1..])
  }

  /**
   However the child's output is cut into data events, what is dispatched and what
   stays buffered depend on the concatenation alone.
   */
  lemma {:induction false} CutsDoNotMatter(limits: Limits, parse: string -> Frame, m: Machine, buffer: string, pieces: seq<string>)
    requires Framed(buffer) == [] && Tail(buffer) == buffer
    ensures FeedAll(limits, parse, m, buffer, pieces)
         == (LineSteps(limits, parse, m, Framed(buffer + Stream(pieces))), Tail(buffer + Stream(pieces)))
    decreases |pieces|
  {
    hide Framed, Tail;
    if pieces == [] {
      assert buffer + "" == buffer;
    } else {
      var first := buffer + pieces[0];
      TailIsOpen(first);
      CutsDoNotMatter(limits, parse, LineSteps(limits, parse, m, Framed(first)), Tail(first), pieces[1..]);
      assert buffer + Stream(pieces) == first + Stream(pieces[1..]);
      FramedAppend(first, Stream(pieces[1..]));
      LineStepsAppend(limits, parse, m, Framed(first), Framed(Tail(first) + Stream(pieces[1..])));
    }
  }

  /** What stays buffered holds no complete line. */
  lemma TailIsOpen(s: string)
    ensures Framed(Tail(s)) == [] && Tail(Tail(s)) == Tail(s)
  {
    SplitJoins(s, '\n');
    assert Tail(s) in Split(s, '\n');
    NoLine(Tail(s));
  }

  // ----- what comes of each line -----

  /** Some lines, each ended. */
  function Ended(lines: seq<string>): string {
    if lines == [] then "" else lines[0] + ['\n'] + Ended(lines[1..])
  }

  /** A stream of ended lines and one that is not: every line that is not blank comes through, trimmed and in order. */
  lemma {:induction false} LinesComeThrough(lines: seq<string>, rest: string)
    requires (forall i :: 0 <= i < |lines| ==> '\n' !in lines[i]) && '\n' !in rest
    ensures Framed(Ended(lines) + rest) == NonEmpty(lines) && Tail(Ended(lines) + rest) == rest
    decreases |lines|
  {
    var stream := Ended(lines) + rest;
    if lines == [] {
      assert stream == rest;
      NoLine(rest);
    } else {
      var nl := |lines[0]|;
      assert stream[..nl] == lines[0] && stream[nl] == '\n' && stream[nl + 1..] == Ended(lines[1..]) + rest;
      CutLine(stream, nl);
      LinesComeThrough(lines[1..], rest);
    }
  }

  lemma OneNonEmpty(line: string)
    ensures NonEmpty([line]) == if Blank(line) then [] else [Trim(line)]
  {
    var before, after := TrimCuts(line);
    assert [line][1..] == [];
    hide Trim;
  }

  function FramesOf(parse: string -> Frame, lines: seq<string>): seq<int> {
    if lines == [] then [] else (if parse(lines[0]).Other? then [parse(lines[0]).frame] else []) + FramesOf(parse, lines[1..])
  }

  function MalformedOf(parse: string -> Frame, lines: seq<string>): seq<string> {
    if lines == [] then [] else (if parse(lines[0]).Malformed? then [lines[0]] else []) + MalformedOf(parse, lines[1..])
  }

  function ChunksIn(parse: string -> Frame, lines: seq<string>): seq<Chunk> {
    if lines == [] then [] else (if parse(lines[0]).ChunkFrame? then [parse(lines[0]).chunk] else []) + ChunksIn(parse, lines[1..])
  }

  function DispatchedIn(log: seq<Event>): seq<int> {
    if log == [] then [] else DispatchedIn(log[..|log| - 1]) + (if log[|log| - 1].Dispatched? then [log[|log| - 1].frame] else [])
  }

  function ParseErrorsIn(log: seq<Event>): seq<string> {
    if log == [] then [] else ParseErrorsIn(log[..|log| - 1]) + (if log[|log| - 1].ParseError? then [log[|log| - 1].line] else [])
  }

  /** The events that chunks led to, as outcomes. */
  function OutcomesIn(log: seq<Event>): seq<Outcome> {
    if log == [] then []
    else
      var last := match log[|log| - 1]
        case Errored(error) => [Failed(error)]
        case Reassembled(bytes) => [Payload(bytes)]
        case _ => [];
      OutcomesIn(log[..|log| - 1]) + last
  }

  function Telling(outcomes: seq<Outcome>): seq<Outcome> {
    if outcomes == [] then [] else (if outcomes[0].Nothing? then [] else [outcomes[0]]) + Telling(outcomes[1..])
  }

  lemma Logged(log: seq<Event>, event: Event)
    ensures DispatchedIn(log + [event]) == DispatchedIn(log) + (if event.Dispatched? then [event.frame] else [])
    ensures ParseErrorsIn(log + [event]) == ParseErrorsIn(log) + (if event.ParseError? then [event.line] else [])
    ensures OutcomesIn(log + [event]) == OutcomesIn(log) +
      (if event.Errored? then [Failed(event.error)] else if event.Reassembled? then [Payload(event.bytes)] else [])
  {
    assert (log + [event])[..|log|] == log;
  }

  /** One line: a frame is dispatched, a malformed line reported, a chunk taken up; only chunks touch the sequences under way. */
  lemma LineIsTaken(limits: Limits, parse: string -> Frame, m: Machine, line: string)
    ensures var t, change := LineStep(limits, parse, m, line), OfLine(limits, m, parse(line));
      && DispatchedIn(t.log) == DispatchedIn(m.log) + (if parse(line).Other? then [parse(line).frame] else [])
      && ParseErrorsIn(t.log) == ParseErrorsIn(m.log) + (if parse(line).Malformed? then [line] else [])
      && OutcomesIn(t.log) == OutcomesIn(m.log) + Telling(change.1)
      && t.pending == change.0 && m.log <= t.log && |t.log| <= |m.log| + 1
  {
    var event := match parse(line)
      case Malformed => ParseError(line)
      case Other(frame) => Dispatched(frame)
      case NoObject => ParseError(line)
      case ChunkFrame(c) =>
        var outcome := StepEntry(limits, Lookup(m.pending, c.chunkId), c).outcome;
        if outcome.Failed? then Errored(outcome.error) else if outcome.Payload? then Reassembled(outcome.bytes) else ParseError(line);
    Logged(m.log, event);
    if parse(line).ChunkFrame? {
      OneChunk(limits, m.pending, parse(line).chunk);
    }
    hide StepEntry, RunAll, DispatchedIn, ParseErrorsIn, OutcomesIn;
  }

  lemma OneChunk(limits: Limits, pending: map<string, Pending>, c: Chunk)
    ensures var change := StepEntry(limits, Lookup(pending, c.chunkId), c);
      && RunAll(limits, pending, [c]) == (Store(pending, c.chunkId, change.entry), [change.outcome])
      && Telling([change.outcome]) == if change.outcome.Nothing? then [] else [change.outcome]
  {
    var change := StepEntry(limits, Lookup(pending, c.chunkId), c);
    var next := Store(pending, c.chunkId, change.entry);
    hide StepEntry, Store, Lookup;
    assert [c][1..] == [] && [change.outcome][1..] == [];
    assert RunAll(limits, next, []) == (next, []);
    assert [change.outcome] + [] == [change.outcome];
    assert Telling([]) == [];
  }

  /** The chunks of one line, run against the sequences under way. */
  function OfLine(limits: Limits, m: Machine, frame: Frame): (map<string, Pending>, seq<Outcome>) {
    RunAll(limits, m.pending, if frame.ChunkFrame? then [frame.chunk] else [])
  }

  lemma {:induction false} RunAllAppend(limits: Limits, pending: map<string, Pending>, a: seq<Chunk>, b: seq<Chunk>)
    ensures var first := RunAll(limits, pending, a);
      RunAll(limits, pending, a + b) == (RunAll(limits, first.0, b).0, first.1 + RunAll(limits, first.0, b).1)
    decreases |a|
  {
    hide StepEntry, Store, Lookup;
    if a == [] {
      assert a + b == b;
      assert [] + RunAll(limits, pending, b).1 == RunAll(limits, pending, b).1;
    } else {
      var change := StepEntry(limits, Lookup(pending, a[0].chunkId), a[0]);
      var next := Store(pending, a[0].chunkId, change.entry);
      assert (a + b)[1..] == a[1..] + b && (a + b)[0] == a[0];
      RunAllAppend(limits, next, a[1..], b);
      var first := RunAll(limits, next, a[1..]);
      Regroup([change.outcome], first.1, RunAll(limits, first.0, b).1);
    }
  }

  lemma {:induction false} TellingAppend(a: seq<Outcome>, b: seq<Outcome>)
    ensures Telling(a + b) == Telling(a) + Telling(b)
  {
    if a == [] {
      assert a + b == b;
    } else {
      assert (a + b)[1..] == a[1..] + b;
      TellingAppend(a[1..], b);
    }
  }

  /**
   What a stream of lines comes to, from `parse` and the lines alone: the frames of the
   lines that are frames are dispatched, each once and in order; exactly the malformed
   lines are reported; the chunks run in order against the sequences under way, which
   nothing else touches; and nothing else is logged.
   */
  lemma {:induction false} StreamIsTaken(limits: Limits, parse: string -> Frame, m: Machine, lines: seq<string>)
    ensures var t, chunks := LineSteps(limits, parse, m, lines), RunAll(limits, m.pending, ChunksIn(parse, lines));
      && DispatchedIn(t.log) == DispatchedIn(m.log) + FramesOf(parse, lines)
      && ParseErrorsIn(t.log) == ParseErrorsIn(m.log) + MalformedOf(parse, lines)
      && OutcomesIn(t.log) == OutcomesIn(m.log) + Telling(chunks.1)
      && t.pending == chunks.0 && m.log <= t.log
    decreases |lines|
  {
    hide LineStep, StepEntry, DispatchedIn, ParseErrorsIn, OutcomesIn, Telling;
    if lines == [] {
      assert Telling([]) == [] by {
        NothingToTell();
      }
    } else {
      hide RunAll;
      var mid := LineStep(limits, parse, m, lines[0]);
      var first, rest := if parse(lines[0]).ChunkFrame? then [parse(lines[0]).chunk] else [], ChunksIn(parse, lines[1..]);
      LineIsTaken(limits, parse, m, lines[0]);
      StreamIsTaken(limits, parse, mid, lines[1..]);
      RunAllAppend(limits, m.pending, first, rest);
      TellingAppend(RunAll(limits, m.pending, first).1, RunAll(limits, mid.pending, rest).1);
      assert ChunksIn(parse, lines) == first + rest;
      Regroup(OutcomesIn(m.log), Telling(RunAll(limits, m.pending, first).1), Telling(RunAll(limits, mid.pending, rest).1));
      Regroup(DispatchedIn(m.log), if parse(lines[0]).Other? then [parse(lines[0]).frame] else [], FramesOf(parse, lines[1..]));
      Regroup(ParseErrorsIn(m.log), if parse(lines[0]).Malformed? then [lines[0]] else [], MalformedOf(parse, lines[1..]));
    }
  }

  lemma NothingToTell()
    ensures Telling([]) == []
  {
  }

  /**
   And line by line, so in the order of the stream: after any part of it, the next line
   adds its own event, if it has one, at the end.
   */
  lemma NextLineAdds(limits: Limits, parse: string -> Frame, m: Machine, lines: seq<string>, n: nat)
    requires n < |lines|
    ensures var t, u := LineSteps(limits, parse, m, lines[..n]), LineSteps(limits, parse, m, lines[..n + 1]);
      && (parse(lines[n]).Other? ==> u.log == t.log + [Dispatched(parse(lines[n]).frame)])
      && (parse(lines[n]).Malformed? ==> u.log == t.log + [ParseError(lines[n])])
      && (parse(lines[n]).NoObject? ==> u.log == t.log)
      && (!parse(lines[n]).ChunkFrame? ==> u.pending == t.pending)
      && t.log <= u.log && |u.log| <= |t.log| + 1
  {
    var t := LineSteps(limits, parse, m, lines[..n]);
    assert lines[..n + 1] == lines[..n] + [lines[n]];
    LineStepsAppend(limits, parse, m, lines[..n], [lines[n]]);
    OneLineStep(limits, parse, t, lines[n]);
    hide LineSteps, StepEntry;
  }

  lemma OneLineStep(limits: Limits, parse: string -> Frame, m: Machine, line: string)
    ensures LineSteps(limits, parse, m, [line]) == LineStep(limits, parse, m, line)
  {
    assert [line][1..] == [];
    hide LineStep;
    assert LineSteps(limits, parse, LineStep(limits, parse, m, line), []) == LineStep(limits, parse, m, line);
  }

  /** A payload sent within the limits is logged, whole, by the line that brings its last chunk. */
  lemma PayloadIsLogged(limits: Limits, parse: string -> Frame, m: Machine, lines: seq<string>, n: nat, id: string, pieces: seq<seq<Byte>>)
    requires n < |lines| && Sendable(limits, id, pieces) && id !in m.pending
    requires parse(lines[n]).ChunkFrame? && parse(lines[n]).chunk.chunkId == id
    requires Only(ChunksIn(parse, lines[..n]), id) == ChunksOf(id, pieces)[..|pieces| - 1]
    requires parse(lines[n]).chunk == ChunksOf(id, pieces)[|pieces| - 1]
    ensures LineSteps(limits, parse, m, lines[..n + 1]).log == LineSteps(limits, parse, m, lines[..n]).log + [Reassembled(Concat(pieces))]
  {
    hide StepEntry, RunAll, RunEntry, LineSteps, ChunksOf, Only, Concat;
    var last := |pieces| - 1;
    var t, c := LineSteps(limits, parse, m, lines[..n]), parse(lines[n]).chunk;
    assert lines[..n + 1] == lines[..n] + [lines[n]];
    LineStepsAppend(limits, parse, m, lines[..n], [lines[n]]);
    OneLineStep(limits, parse, t, lines[n]);
    StreamIsTaken(limits, parse, m, lines[..n]);
    Independent(limits, m.pending, ChunksIn(parse, lines[..n]), id);
    PiecesSoFar(limits, id, pieces, last);
    PieceAccepted(limits, id, pieces, last);
  }

  lemma {:induction false} PiecesSoFar(limits: Limits, id: string, pieces: seq<seq<Byte>>, n: nat)
    requires Sendable(limits, id, pieces) && n < |pieces|
    ensures RunEntry(limits, None, ChunksOf(id, pieces)[..n]).0 == After(id, pieces, n)
  {
    hide StepEntry, Sendable, Concat, ChunksOf, Total;
    var cs := ChunksOf(id, pieces);
    ChunksLength(id, pieces);
    if n > 0 {
      PiecesSoFar(limits, id, pieces, n - 1);
      PieceAccepted(limits, id, pieces, n - 1);
      assert cs[..n] == cs[..n - 1] + [cs[n - 1]];
      RunEntryLast(limits, None, cs[..n - 1], cs[n - 1]);
    } else {
      assert cs[..0] == [];
    }
  }

  lemma {:induction false} RunEntryLast(limits: Limits, entry: Option<Pending>, cs: seq<Chunk>, c: Chunk)
    ensures RunEntry(limits, entry, cs + [c]).0 == StepEntry(limits, RunEntry(limits, entry, cs).0, c).entry
    decreases |cs|
  {
    hide StepEntry;
    if cs == [] {
      assert [] + [c] == [c] && [c][1..] == [];
      assert RunEntry(limits, StepEntry(limits, entry, c).entry, []).0 == StepEntry(limits, entry, c).entry;
    } else {
      assert (cs + [c])[1..] == cs[1..] + [c];
      RunEntryLast(limits, StepEntry(limits, entry, cs[0]).entry, cs[1..], c);
    }
  }
}

/**
 * `EncodingDetector.detectEncoding`: feed a byte stream, chunk by chunk, to a
 * statistical charset prober until the prober is sure, the sample ceiling is
 * passed or the stream ends; flush and finish the prober; and fall back to the
 * caller's charset when no usable name comes out or anything at all throws.
 *
 * The prober (juniversalchardet's `UniversalDetector`) is foreign: its answers
 * are given by a `ProberBehaviour`, functions of the calls it has received.
 * The stream is the list of what its successive `read(buf)` calls do.
 */
module EncodingDetection {
  import opened Wrappers
  import opened JavaLang

  type Byte = bv8

  /** Length of the sampling buffer `buf`. */
  const BufferSize: nat := 4096

  // ---------------------------------------------------------------------------
  // The input stream
  // ---------------------------------------------------------------------------

  /** What one `InputStream.read(buf)` call does. */
  datatype ReadResult =
    | Bytes(data: seq<Byte>)  // stores `data` at the front of `buf` and returns |data|
    | EndOfStream             // returns -1
    | ReadFailure             // throws an IOException

  /** A read into the 4096-byte buffer delivers between 1 and 4096 bytes. */
  predicate WellFormed(results: seq<ReadResult>) {
    forall i :: 0 <= i < |results| && results[i].Bytes? ==> 1 <= |results[i].data| <= BufferSize
  }

  /** What the read at `position` does; past the listed reads the stream stays at its end. */
  function ReadAt(results: seq<ReadResult>, position: nat): ReadResult {
    if position < |results| then results[position] else EndOfStream
  }

  function NextPosition(results: seq<ReadResult>, position: nat): nat {
    if position < |results| then position + 1 else position
  }

  /** The buffer after a read that delivered `data`: the rest keeps the bytes of earlier reads. */
  function Refilled(buf: seq<Byte>, data: seq<Byte>): (r: seq<Byte>)
    requires |data| <= |buf|
    ensures |r| == |buf| && r[..|data|] == data
  {
    data + buf[|data|..]
  }

  class InputStream {
    const results: seq<ReadResult>
    var position: nat

    ghost predicate Valid()
      reads this
    {
      position <= |results| && WellFormed(results)
    }

    constructor (results: seq<ReadResult>)
      requires WellFormed(results)
      ensures Valid() && this.results == results && position == 0
    {
      this.results := results;
      position := 0;
    }

    /** `read(buf)`: `failed` stands for the IOException; otherwise `n` is what read returns. */
    method Read(buf: array<Byte>) returns (n: int, failed: bool)
      requires Valid() && buf.Length == BufferSize
      modifies this, buf
      ensures Valid()
      ensures position == NextPosition(results, old(position))
      ensures failed <==> ReadAt(results, old(position)).ReadFailure?
      ensures ReadAt(results, old(position)).EndOfStream? ==> n == -1 && buf[..] == old(buf[..])
      ensures ReadAt(results, old(position)).Bytes? ==>
        var data := ReadAt(results, old(position)).data;
        n == |data| && buf[..] == Refilled(old(buf[..]), data)
    {
      var r := ReadAt(results, position);
      position := NextPosition(results, position);
      match r
      case ReadFailure =>
        n, failed := 0, true;
      case EndOfStream =>
        n, failed := -1, false;
      case Bytes(data) =>
        forall i | 0 <= i < |data| {
          buf[i] := data[i];
        }
        assert buf[..] == Refilled(old(buf[..]), data);
        n, failed := |data|, false;
    }
  }

  // ---------------------------------------------------------------------------
  // The prober
  // ---------------------------------------------------------------------------

  /** A call made on the prober, in the order it receives them. */
  datatype Call =
    | HandleData(data: seq<Byte>, length: int)  // handleData(buf, 0, length); `data` is what of buf it covers
    | IsDone
    | DataEnd
    | GetDetectedCharset
    | Reset

  /**
   * How the foreign prober answers. Each function is applied to every call the
   * prober has received, the current one last: `throws` says whether that call
   * throws, `done` what `isDone()` answers and `detected` what
   * `getDetectedCharset()` answers (None standing for null).
   */
  datatype ProberBehaviour = ProberBehaviour(
    done: seq<Call> -> bool,
    detected: seq<Call> -> Option<string>,
    throws: seq<Call> -> bool)

  /** The bytes `handleData(buf, 0, length)` covers: none for a non-positive length. */
  function Chunk(buf: seq<Byte>, length: int): (r: seq<Byte>)
    ensures |r| <= |buf|
    ensures 0 <= length <= |buf| ==> r == buf[..length]
  {
    if length <= 0 then [] else if length <= |buf| then buf[..length] else buf
  }

  class UniversalDetector {
    const behaviour: ProberBehaviour
    /** Every call received since construction. */
    var calls: seq<Call>

    constructor (behaviour: ProberBehaviour)
      ensures this.behaviour == behaviour && calls == []
    {
      this.behaviour := behaviour;
      calls := [];
    }

    method HandleData(buf: array<Byte>, length: int) returns (thrown: bool)
      modifies this
      ensures calls == old(calls) + [Call.HandleData(Chunk(buf[..], length), length)]
      ensures thrown == behaviour.throws(calls)
    {
      calls := calls + [Call.HandleData(Chunk(buf[..], length), length)];
      thrown := behaviour.throws(calls);
    }

    method IsDone() returns (done: bool, thrown: bool)
      modifies this
      ensures calls == old(calls) + [Call.IsDone]
      ensures thrown == behaviour.throws(calls) && done == behaviour.done(calls)
    {
      calls := calls + [Call.IsDone];
      thrown, done := behaviour.throws(calls), behaviour.done(calls);
    }

    method DataEnd() returns (thrown: bool)
      modifies this
      ensures calls == old(calls) + [Call.DataEnd]
      ensures thrown == behaviour.throws(calls)
    {
      calls := calls + [Call.DataEnd];
      thrown := behaviour.throws(calls);
    }

    method GetDetectedCharset() returns (name: Option<string>, thrown: bool)
      modifies this
      ensures calls == old(calls) + [Call.GetDetectedCharset]
      ensures thrown == behaviour.throws(calls) && name == behaviour.detected(calls)
    {
      calls := calls + [Call.GetDetectedCharset];
      thrown, name := behaviour.throws(calls), behaviour.detected(calls);
    }

    method Reset() returns (thrown: bool)
      modifies this
      ensures calls == old(calls) + [Call.Reset]
      ensures thrown == behaviour.throws(calls)
    {
      calls := calls + [Call.Reset];
      thrown := behaviour.throws(calls);
    }
  }

  // ---------------------------------------------------------------------------
  // Charsets
  // ---------------------------------------------------------------------------

  datatype Charset = Charset(name: string)

  /** `Charset.isSupported` and `Charset.forName`, both foreign. */
  datatype CharsetSupport = CharsetSupport(isSupported: string -> bool, forName: string -> Charset)

  // ---------------------------------------------------------------------------
  // What detectEncoding does, as functions
  // ---------------------------------------------------------------------------

  /** Why the sampling loop stopped. */
  datatype ExitReason = CeilingPassed | StreamEnded | ProberDone

  /** The variables of detectEncoding at the head of its loop. */
  datatype Sampling = Sampling(position: nat, totalBytesRead: int, bytesRead: int, buf: seq<Byte>, calls: seq<Call>)

  datatype LoopOutcome = Exited(state: Sampling, reason: ExitReason) | Aborted(calls: seq<Call>)

  /** The state on entry: nothing read, a zeroed buffer and a fresh prober. */
  function InitialSampling(position: nat): Sampling {
    Sampling(position, 0, 0, seq(BufferSize, _ => 0 as Byte), [])
  }

  ghost predicate SamplingValid(results: seq<ReadResult>, s: Sampling) {
    WellFormed(results) && |s.buf| == BufferSize && s.position <= |results|
  }

  /**
   * The sampling loop. Each round first checks the ceiling (none when it is 0 or
   * less), then reads into the buffer and stops unless bytes came, then asks the
   * prober whether it is done; only when all three let it go on does it hand the
   * chunk to the prober and add its size to the count. `Aborted` when a read or
   * a prober call throws.
   */
  function SampleLoop(b: ProberBehaviour, results: seq<ReadResult>, limitSize: int, s: Sampling): LoopOutcome
    requires SamplingValid(results, s)
    decreases |results| - s.position
  {
    if !(limitSize <= 0 || s.totalBytesRead <= limitSize) then Exited(s, CeilingPassed)
    else
      var r := ReadAt(results, s.position);
      var s1 := s.(position := NextPosition(results, s.position));
      match r
      case ReadFailure => Aborted(s1.calls)
      case EndOfStream => Exited(s1.(bytesRead := -1), StreamEnded)
      case Bytes(data) =>
        var s2 := s1.(bytesRead := |data|, buf := Refilled(s1.buf, data), calls := s1.calls + [IsDone]);
        if b.throws(s2.calls) then Aborted(s2.calls)
        else if b.done(s2.calls) then Exited(s2, ProberDone)
        else
          var s3 := s2.(calls := s2.calls + [HandleData(data, |data|)]);
          if b.throws(s3.calls) then Aborted(s3.calls)
          else SampleLoop(b, results, limitSize, s3.(totalBytesRead := s3.totalBytesRead + |data|))
  }

  /** All calls made on the prober, and the charset name the try block leaves (None: null). */
  datatype Probe = Probe(calls: seq<Call>, charsetName: Option<string>, threw: bool)

  /**
   * The flush after the loop: ask whether the prober is done, hand it the front
   * `bytesRead` bytes of the buffer once more, end the data, ask for the name and
   * reset it; the first call that throws ends the probe without a name.
   */
  function FinishProbe(b: ProberBehaviour, s: Sampling): Probe {
    var c1 := s.calls + [IsDone];
    if b.throws(c1) then Probe(c1, None, true) else
    var c2 := c1 + [HandleData(Chunk(s.buf, s.bytesRead), s.bytesRead)];
    if b.throws(c2) then Probe(c2, None, true) else
    var c3 := c2 + [DataEnd];
    if b.throws(c3) then Probe(c3, None, true) else
    var c4 := c3 + [GetDetectedCharset];
    if b.throws(c4) then Probe(c4, None, true) else
    var c5 := c4 + [Reset];
    if b.throws(c5) then Probe(c5, None, true) else Probe(c5, b.detected(c4), false)
  }

  /** The whole try block, starting from the stream's current position with a fresh prober. */
  function ProbeStream(b: ProberBehaviour, results: seq<ReadResult>, position: nat, limitSize: int): Probe
    requires WellFormed(results) && position <= |results|
  {
    match SampleLoop(b, results, limitSize, InitialSampling(position))
    case Aborted(calls) => Probe(calls, None, true)
    case Exited(s, _) => FinishProbe(b, s)
  }

  /** The charset detectEncoding returns. */
  function DetectEncodingSpec(b: ProberBehaviour, results: seq<ReadResult>, position: nat,
                              defaultCharset: Charset, limitSize: int, charsets: CharsetSupport): Charset
    requires WellFormed(results) && position <= |results|
  {
    var name := ProbeStream(b, results, position, limitSize).charsetName;
    if name.Some? && charsets.isSupported(name.value) then charsets.forName(name.value) else defaultCharset
  }

  // ---------------------------------------------------------------------------
  // What the loop guarantees
  // ---------------------------------------------------------------------------

  function Last<T>(s: seq<T>): T
    requires s != []
  {
    s[|s| - 1]
  }

  /** The number of bytes the given calls passed to handleData. */
  function HandledBytes(calls: seq<Call>): int {
    if calls == [] then 0
    else HandledBytes(calls[..|calls| - 1]) + (if Last(calls).HandleData? then Last(calls).length else 0)
  }

  /** Every handleData call covers between 1 and 4096 bytes, all of them read from the stream. */
  predicate ChunksInRange(calls: seq<Call>) {
    forall i :: 0 <= i < |calls| && calls[i].HandleData? ==>
      1 <= calls[i].length <= BufferSize && |calls[i].data| == calls[i].length
  }

  lemma HandledBytesAppend(calls: seq<Call>, c: Call)
    ensures HandledBytes(calls + [c]) == HandledBytes(calls) + (if c.HandleData? then c.length else 0)
  {
    assert (calls + [c])[..|calls|] == calls;
  }

  /** One round that asks isDone and then hands over a chunk keeps the count equal to the bytes handed over. */
  lemma RoundKeepsCount(calls: seq<Call>, total: int, data: seq<Byte>)
    requires total == HandledBytes(calls) && ChunksInRange(calls)
    requires 1 <= |data| <= BufferSize
    ensures var after := calls + [IsDone] + [HandleData(data, |data|)];
      total + |data| == HandledBytes(after) && ChunksInRange(after)
  {
    HandledBytesAppend(calls, IsDone);
    HandledBytesAppend(calls + [IsDone], HandleData(data, |data|));
  }

  /** The loop counts exactly the bytes it hands to the prober, in chunks of 1 to 4096 bytes. */
  lemma {:induction false} LoopCountsHandledBytes(b: ProberBehaviour, results: seq<ReadResult>, limitSize: int, s: Sampling)
    requires SamplingValid(results, s)
    requires s.totalBytesRead == HandledBytes(s.calls) && ChunksInRange(s.calls)
    ensures var o := SampleLoop(b, results, limitSize, s);
      o.Exited? ==> o.state.totalBytesRead == HandledBytes(o.state.calls) && ChunksInRange(o.state.calls)
    decreases |results| - s.position
  {
    if limitSize <= 0 || s.totalBytesRead <= limitSize {
      var r := ReadAt(results, s.position);
      var s1 := s.(position := NextPosition(results, s.position));
      if r.Bytes? {
        var data := r.data;
        assert s.position < |results| && r == results[s.position];
        var s2 := s1.(bytesRead := |data|, buf := Refilled(s1.buf, data), calls := s1.calls + [IsDone]);
        var s3 := s2.(calls := s2.calls + [HandleData(data, |data|)]);
        if !b.throws(s2.calls) && !b.done(s2.calls) && !b.throws(s3.calls) {
          var next := s3.(totalBytesRead := s3.totalBytesRead + |data|);
          assert SampleLoop(b, results, limitSize, s) == SampleLoop(b, results, limitSize, next);
          RoundKeepsCount(s.calls, s.totalBytesRead, data);
          LoopCountsHandledBytes(b, results, limitSize, next);
        } else if !b.throws(s2.calls) && b.done(s2.calls) {
          assert SampleLoop(b, results, limitSize, s) == Exited(s2, ProberDone);
          HandledBytesAppend(s.calls, IsDone);
        }
      }
    }
  }

  /** With a positive ceiling, a read starts only while the count is within it, so at most one more chunk is counted. */
  lemma {:induction false} LoopStaysNearCeiling(b: ProberBehaviour, results: seq<ReadResult>, limitSize: int, s: Sampling)
    requires SamplingValid(results, s)
    requires limitSize > 0 && s.totalBytesRead <= limitSize + BufferSize
    ensures var o := SampleLoop(b, results, limitSize, s);
      o.Exited? ==> o.state.totalBytesRead <= limitSize + BufferSize
    decreases |results| - s.position
  {
    if s.totalBytesRead <= limitSize {
      var r := ReadAt(results, s.position);
      if r.Bytes? {
        assert s.position < |results| && r == results[s.position];
        var data := r.data;
        var s1 := s.(position := NextPosition(results, s.position));
        var s2 := s1.(bytesRead := |data|, buf := Refilled(s1.buf, data), calls := s1.calls + [IsDone]);
        var s3 := s2.(calls := s2.calls + [HandleData(data, |data|)]);
        if !b.throws(s2.calls) && !b.done(s2.calls) && !b.throws(s3.calls) {
          LoopStaysNearCeiling(b, results, limitSize, s3.(totalBytesRead := s3.totalBytesRead + |data|));
        }
      }
    }
  }

  /** What each way out of the loop leaves behind. */
  lemma {:induction false} LoopExitReasons(b: ProberBehaviour, results: seq<ReadResult>, limitSize: int, s: Sampling)
    requires SamplingValid(results, s)
    ensures var o := SampleLoop(b, results, limitSize, s);
      && (o.Exited? && o.reason == CeilingPassed ==> 0 < limitSize < o.state.totalBytesRead)
      && (o.Exited? && o.reason == StreamEnded ==> o.state.bytesRead == -1)
      && (o.Exited? && o.reason == ProberDone ==>
            1 <= o.state.bytesRead <= BufferSize && o.state.calls != [] && Last(o.state.calls) == IsDone
            && b.done(o.state.calls))
    decreases |results| - s.position
  {
    if limitSize <= 0 || s.totalBytesRead <= limitSize {
      var r := ReadAt(results, s.position);
      if r.Bytes? {
        assert s.position < |results| && r == results[s.position];
        var data := r.data;
        var s1 := s.(position := NextPosition(results, s.position));
        var s2 := s1.(bytesRead := |data|, buf := Refilled(s1.buf, data), calls := s1.calls + [IsDone]);
        var s3 := s2.(calls := s2.calls + [HandleData(data, |data|)]);
        if !b.throws(s2.calls) && !b.done(s2.calls) && !b.throws(s3.calls) {
          LoopExitReasons(b, results, limitSize, s3.(totalBytesRead := s3.totalBytesRead + |data|));
        }
      }
    }
  }

  /**
   * Once something has been counted, the last prober call handed it the bytes at
   * the front of `buf`, `bytesRead` of them: when the ceiling ends the loop, the
   * flush after the loop hands the prober the same chunk a second time.
   */
  lemma {:induction false} LoopLastCallRepeatsChunk(b: ProberBehaviour, results: seq<ReadResult>, limitSize: int, s: Sampling)
    requires SamplingValid(results, s) && s.totalBytesRead >= 0
    requires s.totalBytesRead > 0 ==>
      s.calls != [] && Last(s.calls) == HandleData(Chunk(s.buf, s.bytesRead), s.bytesRead)
    ensures var o := SampleLoop(b, results, limitSize, s);
      o.Exited? && o.reason == CeilingPassed ==>
        o.state.calls != [] && Last(o.state.calls) == HandleData(Chunk(o.state.buf, o.state.bytesRead), o.state.bytesRead)
    decreases |results| - s.position
  {
    if limitSize <= 0 || s.totalBytesRead <= limitSize {
      var r := ReadAt(results, s.position);
      if r.Bytes? {
        assert s.position < |results| && r == results[s.position];
        var data := r.data;
        var s1 := s.(position := NextPosition(results, s.position));
        var s2 := s1.(bytesRead := |data|, buf := Refilled(s1.buf, data), calls := s1.calls + [IsDone]);
        var s3 := s2.(calls := s2.calls + [HandleData(data, |data|)]);
        if !b.throws(s2.calls) && !b.done(s2.calls) && !b.throws(s3.calls) {
          assert Chunk(s3.buf, s3.bytesRead) == data;
          LoopLastCallRepeatsChunk(b, results, limitSize, s3.(totalBytesRead := s3.totalBytesRead + |data|));
        }
      }
    }
  }

  /** No read of the stream from `position` on throws. */
  ghost predicate ReadsSucceed(results: seq<ReadResult>, position: nat) {
    forall i :: position <= i < |results| ==> !results[i].ReadFailure?
  }

  /** No prober call throws. */
  ghost predicate NeverThrows(b: ProberBehaviour) {
    forall calls :: !b.throws(calls)
  }

  lemma {:induction false} LoopEndsNormally(b: ProberBehaviour, results: seq<ReadResult>, limitSize: int, s: Sampling)
    requires SamplingValid(results, s)
    requires ReadsSucceed(results, s.position) && NeverThrows(b)
    ensures SampleLoop(b, results, limitSize, s).Exited?
    decreases |results| - s.position
  {
    if limitSize <= 0 || s.totalBytesRead <= limitSize {
      var r := ReadAt(results, s.position);
      if r.Bytes? {
        assert s.position < |results| && r == results[s.position];
        var data := r.data;
        var s1 := s.(position := NextPosition(results, s.position));
        var s2 := s1.(bytesRead := |data|, buf := Refilled(s1.buf, data), calls := s1.calls + [IsDone]);
        var s3 := s2.(calls := s2.calls + [HandleData(data, |data|)]);
        assert !b.throws(s2.calls) && !b.throws(s3.calls);
        if !b.done(s2.calls) {
          LoopEndsNormally(b, results, limitSize, s3.(totalBytesRead := s3.totalBytesRead + |data|));
        }
      } else {
        assert r != ReadFailure by {
          if s.position < |results| {
            assert r == results[s.position];
          }
        }
      }
    }
  }

  /** The bytes delivered by the reads from `from` up to `to`, all of which deliver bytes. */
  function BytesDelivered(results: seq<ReadResult>, from: nat, to: nat): nat
    requires from <= to <= |results|
    requires forall i :: from <= i < to ==> results[i].Bytes?
    decreases |results| - from
  {
    if from == to then 0 else |results[from].data| + BytesDelivered(results, from + 1, to)
  }

  /** A prober that never throws and never reports itself done. */
  ghost predicate Undecided(b: ProberBehaviour) {
    forall calls :: !b.throws(calls) && !b.done(calls)
  }

  /**
   * With an undecided prober, a read that fails after reads that all delivered
   * bytes, none of them passing the ceiling, aborts the loop.
   */
  lemma {:induction false} LoopAbortsAtReadFailure(b: ProberBehaviour, results: seq<ReadResult>, limitSize: int,
                                                   s: Sampling, k: nat)
    requires SamplingValid(results, s)
    requires s.position <= k < |results| && results[k].ReadFailure?
    requires forall i :: s.position <= i < k ==> results[i].Bytes?
    requires Undecided(b)
    requires limitSize <= 0 || s.totalBytesRead + BytesDelivered(results, s.position, k) <= limitSize
    ensures SampleLoop(b, results, limitSize, s).Aborted?
    decreases k - s.position
  {
    if s.position < k {
      var data := results[s.position].data;
      var s1 := s.(position := NextPosition(results, s.position));
      var s2 := s1.(bytesRead := |data|, buf := Refilled(s1.buf, data), calls := s1.calls + [IsDone]);
      var s3 := s2.(calls := s2.calls + [HandleData(data, |data|)]);
      assert !b.throws(s2.calls) && !b.done(s2.calls) && !b.throws(s3.calls);
      LoopAbortsAtReadFailure(b, results, limitSize, s3.(totalBytesRead := s3.totalBytesRead + |data|), k);
    }
  }

  // ---------------------------------------------------------------------------
  // What detectEncoding guarantees
  // ---------------------------------------------------------------------------

  /** The loop counts exactly the bytes it feeds, 1 to 4096 per chunk; with a positive ceiling at most 4096 beyond it. */
  lemma SampledBytes(b: ProberBehaviour, results: seq<ReadResult>, position: nat, limitSize: int)
    requires WellFormed(results) && position <= |results|
    ensures var o := SampleLoop(b, results, limitSize, InitialSampling(position));
      && (o.Exited? ==> o.state.totalBytesRead == HandledBytes(o.state.calls) && ChunksInRange(o.state.calls))
      && (o.Exited? && limitSize > 0 ==> o.state.totalBytesRead <= limitSize + BufferSize)
  {
    LoopCountsHandledBytes(b, results, limitSize, InitialSampling(position));
    if limitSize > 0 {
      LoopStaysNearCeiling(b, results, limitSize, InitialSampling(position));
    }
  }

  /** Without a ceiling the loop ends only at the end of the stream or when the prober is done. */
  lemma UnlimitedSamplingHasNoCeiling(b: ProberBehaviour, results: seq<ReadResult>, position: nat, limitSize: int)
    requires WellFormed(results) && position <= |results| && limitSize <= 0
    ensures var o := SampleLoop(b, results, limitSize, InitialSampling(position));
      o.Exited? ==> o.reason == StreamEnded || o.reason == ProberDone
  {
    LoopExitReasons(b, results, limitSize, InitialSampling(position));
  }

  /**
   * When nothing throws, the loop is followed by exactly isDone(), a last
   * handleData with the final `bytesRead` and the buffer as it stands, dataEnd(),
   * getDetectedCharset() and reset(); the name is what getDetectedCharset answered.
   */
  lemma ProbeFinishesInOrder(b: ProberBehaviour, results: seq<ReadResult>, position: nat, limitSize: int)
    requires WellFormed(results) && position <= |results|
    requires ReadsSucceed(results, position) && NeverThrows(b)
    ensures SampleLoop(b, results, limitSize, InitialSampling(position)).Exited?
    ensures var s := SampleLoop(b, results, limitSize, InitialSampling(position)).state;
      var asked := s.calls + [IsDone, HandleData(Chunk(s.buf, s.bytesRead), s.bytesRead), DataEnd, GetDetectedCharset];
      ProbeStream(b, results, position, limitSize) == Probe(asked + [Reset], b.detected(asked), false)
  {
    LoopEndsNormally(b, results, limitSize, InitialSampling(position));
    var s := SampleLoop(b, results, limitSize, InitialSampling(position)).state;
    var c1 := s.calls + [IsDone];
    var c2 := c1 + [HandleData(Chunk(s.buf, s.bytesRead), s.bytesRead)];
    var c3 := c2 + [DataEnd];
    var c4 := c3 + [GetDetectedCharset];
    assert !b.throws(c1) && !b.throws(c2) && !b.throws(c3) && !b.throws(c4) && !b.throws(c4 + [Reset]);
    assert c4 == s.calls + [IsDone, HandleData(Chunk(s.buf, s.bytesRead), s.bytesRead), DataEnd, GetDetectedCharset];
  }

  /** A loop ended by the ceiling re-feeds its last chunk in the flush after the loop. */
  lemma CeilingExitRefeedsLastChunk(b: ProberBehaviour, results: seq<ReadResult>, position: nat, limitSize: int)
    requires WellFormed(results) && position <= |results|
    requires var o := SampleLoop(b, results, limitSize, InitialSampling(position));
      o.Exited? && o.reason == CeilingPassed && !b.throws(o.state.calls + [IsDone])
    ensures var s := SampleLoop(b, results, limitSize, InitialSampling(position)).state;
      var p := ProbeStream(b, results, position, limitSize);
      |s.calls| >= 1 && |p.calls| >= |s.calls| + 2 && p.calls[|s.calls| + 1] == p.calls[|s.calls| - 1] && p.calls[|s.calls| - 1].HandleData?
  {
    LoopLastCallRepeatsChunk(b, results, limitSize, InitialSampling(position));
  }

  /** A probe that ran to the end reset its prober last; one that threw leaves no charset name. */
  lemma ProbeResetsOrFallsBack(b: ProberBehaviour, results: seq<ReadResult>, position: nat, limitSize: int)
    requires WellFormed(results) && position <= |results|
    ensures var p := ProbeStream(b, results, position, limitSize);
      && (p.threw ==> p.charsetName == None)
      && (!p.threw ==> p.calls != [] && Last(p.calls) == Reset)
  {
  }

  /** The detected charset is returned exactly when its name is non-null and supported; otherwise the fallback, unchanged. */
  lemma DetectedOrDefault(b: ProberBehaviour, results: seq<ReadResult>, position: nat,
                          defaultCharset: Charset, limitSize: int, charsets: CharsetSupport)
    requires WellFormed(results) && position <= |results|
    ensures var p := ProbeStream(b, results, position, limitSize);
      var r := DetectEncodingSpec(b, results, position, defaultCharset, limitSize, charsets);
      && (p.threw ==> r == defaultCharset)
      && (p.charsetName == None ==> r == defaultCharset)
      && (p.charsetName.Some? && !charsets.isSupported(p.charsetName.value) ==> r == defaultCharset)
      && (p.charsetName.Some? && charsets.isSupported(p.charsetName.value) ==> r == charsets.forName(p.charsetName.value))
  {
    ProbeResetsOrFallsBack(b, results, position, limitSize);
  }

  /** An IOException from the first read is swallowed, whatever the prober does: the fallback charset comes back. */
  lemma FirstReadFailureFallsBack(b: ProberBehaviour, results: seq<ReadResult>, position: nat,
                                  defaultCharset: Charset, limitSize: int, charsets: CharsetSupport)
    requires WellFormed(results) && position < |results| && results[position].ReadFailure?
    ensures ProbeStream(b, results, position, limitSize).threw
    ensures DetectEncodingSpec(b, results, position, defaultCharset, limitSize, charsets) == defaultCharset
  {
  }

  /**
   * An IOException from any later read is swallowed too: when every read before
   * it delivered bytes, the ceiling was not passed and the prober never decided,
   * the fallback charset comes back.
   */
  lemma ReadFailureFallsBack(b: ProberBehaviour, results: seq<ReadResult>, position: nat,
                             defaultCharset: Charset, limitSize: int, charsets: CharsetSupport, k: nat)
    requires WellFormed(results) && position <= k < |results| && results[k].ReadFailure?
    requires forall i :: position <= i < k ==> results[i].Bytes?
    requires Undecided(b)
    requires limitSize <= 0 || BytesDelivered(results, position, k) <= limitSize
    ensures ProbeStream(b, results, position, limitSize).threw
    ensures DetectEncodingSpec(b, results, position, defaultCharset, limitSize, charsets) == defaultCharset
  {
    LoopAbortsAtReadFailure(b, results, limitSize, InitialSampling(position), k);
  }

  // ---------------------------------------------------------------------------
  // The method
  // ---------------------------------------------------------------------------

  /** `detectEncoding(inputStream, defaultCharset, limitSize)`; `detector` is the prober it creates. */
  method DetectEncoding(inputStream: InputStream, defaultCharset: Charset, limitSize: Long,
                        behaviour: ProberBehaviour, charsets: CharsetSupport)
    returns (r: Charset, ghost detector: UniversalDetector)
    requires inputStream.Valid()
    modifies inputStream
    ensures inputStream.Valid()
    ensures fresh(detector)
    ensures detector.calls == ProbeStream(behaviour, inputStream.results, old(inputStream.position), limitSize).calls
    ensures r == DetectEncodingSpec(behaviour, inputStream.results, old(inputStream.position), defaultCharset, limitSize, charsets)
  {
    var prober := new UniversalDetector(behaviour);
    detector := prober;
    var buf := new Byte[BufferSize](_ => 0 as Byte);
    var totalBytesRead := 0;
    var bytesRead := 0;
    ghost var results := inputStream.results;
    ghost var start := InitialSampling(inputStream.position);
    assert buf[..] == start.buf;
    ghost var reason := StreamEnded;
    var looping, thrown := true, false;
    while looping
      invariant inputStream.Valid() && buf.Length == BufferSize
      invariant prober.behaviour == behaviour
      invariant looping ==> !thrown
      invariant looping ==>
        SampleLoop(behaviour, results, limitSize, Sampling(inputStream.position, totalBytesRead, bytesRead, buf[..], prober.calls))
        == SampleLoop(behaviour, results, limitSize, start)
      invariant !looping && thrown ==> SampleLoop(behaviour, results, limitSize, start) == Aborted(prober.calls)
      invariant !looping && !thrown ==>
        SampleLoop(behaviour, results, limitSize, start)
        == Exited(Sampling(inputStream.position, totalBytesRead, bytesRead, buf[..], prober.calls), reason)
      decreases |results| - inputStream.position, if looping then 1 else 0
    {
      ghost var s := Sampling(inputStream.position, totalBytesRead, bytesRead, buf[..], prober.calls);
      if !(limitSize <= 0 || totalBytesRead <= limitSize) {
        looping, reason := false, CeilingPassed;
      } else {
        var n, failed := inputStream.Read(buf);
        if failed {
          looping, thrown := false, true;
        } else {
          bytesRead := n;
          if bytesRead <= 0 {
            looping, reason := false, StreamEnded;
          } else {
            ghost var data := ReadAt(results, s.position).data;
            var done, t := prober.IsDone();
            if t {
              looping, thrown := false, true;
            } else if done {
              looping, reason := false, ProberDone;
            } else {
              t := prober.HandleData(buf, bytesRead);
              assert Chunk(buf[..], bytesRead) == data;
              if t {
                looping, thrown := false, true;
              } else {
                totalBytesRead := totalBytesRead + bytesRead;
              }
            }
          }
        }
      }
    }

    var charsetName: Option<string> := None;
    if !thrown {
      var _, t := prober.IsDone();
      if !t {
        t := prober.HandleData(buf, bytesRead);
        if !t {
          t := prober.DataEnd();
          if !t {
            var name;
            name, t := prober.GetDetectedCharset();
            if !t {
              t := prober.Reset();
              if !t {
                charsetName := name;
              }
            }
          }
        }
      }
    }

    if charsetName.Some? && charsets.isSupported(charsetName.value) {
      r := charsets.forName(charsetName.value);
    } else {
      r := defaultCharset;
    }
  }
}

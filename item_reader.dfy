/**
 * The reader side of skim's command collector (src/skim/helper/item_reader.rs):
 * the loop that turns the command's output into items, the terminator
 * stripping it applies to each line, the liveness-counter bookkeeping of the
 * two worker threads, and the reader's default options.
 *
 * Threads and channels are not modelled as such: each worker's body is a
 * sequential method. The command's output is a script of read outcomes, the
 * item channel's answers to the reader's sends are a script of booleans, and
 * the two channels are the sequences of values sent on them.
 */
module ItemReader {
  import opened Bytes

  /** The raw pattern `r"[\t\n ]+"`: the backslash escapes are the regular expression's. */
  const DELIMITER_STR: string := "[\\t\\n ]+"
  const READ_BUFFER_SIZE: nat := 1024

  const NUL: u8 := 0
  const LF: u8 := 10
  const CR: u8 := 13

  /** A field range of the field mini-language, kept as its text (its grammar is not modelled). */
  datatype FieldRange = FieldRange(text: string)

  /** `SkimItemReaderOption`; the delimiter regular expression is kept as its pattern. */
  datatype ReaderOption = ReaderOption(
    bufSize: nat,
    useAnsiColor: bool,
    transformFields: seq<FieldRange>,
    matchingFields: seq<FieldRange>,
    delimiter: string,
    lineEnding: u8,
    showError: bool)

  /** `SkimItemReaderOption::default`. */
  function DefaultOption(): (option: ReaderOption)
    ensures option.bufSize == 1024 && option.lineEnding == LF
    ensures !option.useAnsiColor && !option.showError
    ensures option.transformFields == [] && option.matchingFields == []
    ensures option.delimiter == "[\\t\\n ]+" && |option.delimiter| == 8
  {
    ReaderOption(READ_BUFFER_SIZE, false, [], [], DELIMITER_STR, LF, false)
  }

  // ---------------------------------------------------------------------------
  // Terminator stripping

  predicate EndsWith(s: seq<u8>, suffix: seq<u8>) {
    |suffix| <= |s| && s[|s| - |suffix|..] == suffix
  }

  /**
   * What the reader keeps of a chunk: a trailing "\r\n" loses both bytes,
   * otherwise a trailing '\n' or NUL loses one, otherwise nothing is removed.
   */
  function StripLineEnding(chunk: seq<u8>): (line: seq<u8>)
    ensures line <= chunk && |chunk| - 2 <= |line|
  {
    if EndsWith(chunk, [CR, LF]) then chunk[..|chunk| - 2]
    else if EndsWith(chunk, [LF]) || EndsWith(chunk, [NUL]) then chunk[..|chunk| - 1]
    else chunk
  }

  /** The three line terminators the reader recognises. */
  datatype Terminator = Newline | CarriageReturnNewline | NulByte

  function TerminatorBytes(t: Terminator): seq<u8> {
    match t
    case Newline => [LF]
    case CarriageReturnNewline => [CR, LF]
    case NulByte => [NUL]
  }

  /**
   * Stripping undoes terminating a line. A line that itself ends in '\r' and
   * is terminated by '\n' loses that '\r' as well, hence the requirement.
   */
  lemma StripUndoesTerminator(line: seq<u8>, t: Terminator)
    requires t == Newline ==> !EndsWith(line, [CR])
    ensures StripLineEnding(line + TerminatorBytes(t)) == line
  {
    var chunk := line + TerminatorBytes(t);
    match t
    case Newline =>
      assert chunk[..|chunk| - 1] == line;
      assert !EndsWith(chunk, [CR, LF]) by {
        if |line| > 0 {
          assert chunk[|chunk| - 2..] == [line[|line| - 1], LF];
          assert line[|line| - 1..] == [line[|line| - 1]];
        }
      }
    case CarriageReturnNewline =>
      assert chunk[..|chunk| - 2] == line;
    case NulByte =>
      assert chunk[..|chunk| - 1] == line;
      assert chunk[|chunk| - 1] == NUL;
  }

  /** A chunk that does not end in '\n' or NUL is kept whole. */
  lemma UnterminatedChunkKept(chunk: seq<u8>)
    requires !EndsWith(chunk, [LF]) && !EndsWith(chunk, [NUL])
    ensures StripLineEnding(chunk) == chunk
  {
  }

  /**
   * Stripping ignores the configured line ending: with any terminator other
   * than '\n' and NUL (';', say) the terminator stays in the item text.
   */
  lemma CustomTerminatorKept(option: ReaderOption, chunk: seq<u8>)
    requires option.lineEnding != LF && option.lineEnding != NUL
    requires EndsWith(chunk, [option.lineEnding])
    ensures StripLineEnding(chunk) == chunk
  {
    UnterminatedChunkKept(chunk);
  }

  /** With the default options, a line read up to its '\n' comes back without it. */
  lemma DefaultOptionStripsTerminator(line: seq<u8>)
    requires !EndsWith(line, [CR])
    ensures StripLineEnding(line + [DefaultOption().lineEnding]) == line
  {
    StripUndoesTerminator(line, Newline);
  }

  // ---------------------------------------------------------------------------
  // The reader loop, as a function of its inputs

  /**
   * What one `read_until` call returns: the bytes it appended to the buffer
   * (none at end of stream), or an I/O error.
   */
  datatype ReadOutcome = Chunk(bytes: seq<u8>) | ReadError

  /** The lines the loop delivered, in order, and how many reads it made. */
  datatype Transcript = Transcript(lines: seq<seq<u8>>, readCount: nat)

  /** The answers still ahead after `n` sends. */
  function Drop(acks: seq<bool>, n: nat): seq<bool> {
    if n <= |acks| then acks[n..] else []
  }

  /** Whether send number `n` succeeds; beyond the script the consumer is still there. */
  predicate Accepts(acks: seq<bool>, n: nat) {
    n >= |acks| || acks[n]
  }

  /**
   * The reader loop run over `source` (reads beyond the script see end of
   * stream) while the item channel answers the sends as `acks` says: a read
   * error is skipped, end of stream or a refused send ends the loop, and every
   * other read delivers its stripped chunk.
   */
  function Run(source: seq<ReadOutcome>, acks: seq<bool>): (t: Transcript)
    ensures 1 <= t.readCount <= |source| + 1
    ensures |t.lines| < t.readCount
    decreases |source|
  {
    if source == [] then Transcript([], 1)
    else
      match source[0]
      case ReadError =>
        var t := Run(source[1..], acks);
        Transcript(t.lines, t.readCount + 1)
      case Chunk(bytes) =>
        if bytes == [] || !Accepts(acks, 0) then Transcript([], 1)
        else
          var t := Run(source[1..], Drop(acks, 1));
          Transcript([StripLineEnding(bytes)] + t.lines, t.readCount + 1)
  }

  /**
   * `Run` indexed by the loop's position: what the loop still does once
   * `next` reads and `sends` sends are behind it.
   */
  function RunFrom(source: seq<ReadOutcome>, acks: seq<bool>, next: nat, sends: nat): (t: Transcript)
    requires next <= |source|
    decreases |source| - next
  {
    if next == |source| then Transcript([], 1)
    else
      match source[next]
      case ReadError =>
        var t := RunFrom(source, acks, next + 1, sends);
        Transcript(t.lines, t.readCount + 1)
      case Chunk(bytes) =>
        if bytes == [] || !Accepts(acks, sends) then Transcript([], 1)
        else
          var t := RunFrom(source, acks, next + 1, sends + 1);
          Transcript([StripLineEnding(bytes)] + t.lines, t.readCount + 1)
  }

  /** The loop's remainder is the loop run on the rest of both scripts. */
  lemma {:induction false} RunFromIsRun(source: seq<ReadOutcome>, acks: seq<bool>, next: nat, sends: nat)
    requires next <= |source|
    ensures RunFrom(source, acks, next, sends) == Run(source[next..], Drop(acks, sends))
    decreases |source| - next
  {
    if next < |source| {
      assert source[next..][1..] == source[next + 1..];
      assert Drop(Drop(acks, sends), 1) == Drop(acks, sends + 1);
      assert Accepts(acks, sends) == Accepts(Drop(acks, sends), 0);
      RunFromIsRun(source, acks, next + 1, sends);
      RunFromIsRun(source, acks, next + 1, sends + 1);
    }
  }

  /** Every line the stream holds: what a consumer that never hangs up receives. */
  function StreamLines(source: seq<ReadOutcome>): seq<seq<u8>>
    decreases |source|
  {
    if source == [] then []
    else
      match source[0]
      case ReadError => StreamLines(source[1..])
      case Chunk(bytes) =>
        if bytes == [] then [] else [StripLineEnding(bytes)] + StreamLines(source[1..])
  }

  function Min(a: nat, b: nat): nat {
    if a < b then a else b
  }

  /** When every send succeeds, the consumer receives every line of the stream. */
  lemma {:induction false} AllAccepted(source: seq<ReadOutcome>, acks: seq<bool>)
    requires forall k | 0 <= k < |acks| :: acks[k]
    ensures Run(source, acks).lines == StreamLines(source)
    decreases |source|
  {
    if source != [] {
      var rest := Drop(acks, 1);
      forall k | 0 <= k < |rest| ensures rest[k] {
        assert rest[k] == acks[k + 1];
      }
      AllAccepted(source[1..], if source[0].ReadError? then acks else rest);
    }
  }

  /**
   * When send number `k` is the first one refused, the consumer receives the
   * first `k` lines of the stream (all of them if there are fewer).
   */
  lemma {:induction false} FirstRefusalTruncates(source: seq<ReadOutcome>, acks: seq<bool>, k: nat)
    requires k < |acks| && !acks[k]
    requires forall j | 0 <= j < k :: acks[j]
    ensures Run(source, acks).lines == StreamLines(source)[..Min(k, |StreamLines(source)|)]
    decreases |source|
  {
    if source != [] {
      match source[0]
      case ReadError =>
        FirstRefusalTruncates(source[1..], acks, k);
      case Chunk(bytes) =>
        if bytes != [] && k > 0 {
          var rest := Drop(acks, 1);
          forall j | 0 <= j < k - 1 ensures rest[j] {
            assert rest[j] == acks[j + 1];
          }
          FirstRefusalTruncates(source[1..], rest, k - 1);
        }
    }
  }

  /** An end-of-stream read is final: nothing after it is read, and nothing for it is sent. */
  lemma {:induction false} EndOfStreamIsFinal(pre: seq<ReadOutcome>, post: seq<ReadOutcome>, acks: seq<bool>)
    ensures Run(pre + [Chunk([])] + post, acks) == Run(pre, acks)
    decreases |pre|
  {
    var s := pre + [Chunk([])] + post;
    if pre != [] {
      assert s[1..] == pre[1..] + [Chunk([])] + post;
      EndOfStreamIsFinal(pre[1..], post, acks);
      EndOfStreamIsFinal(pre[1..], post, Drop(acks, 1));
    }
  }

  /**
   * A refused send is final: when the loop reaches the non-empty chunk `bytes`
   * after the lines of `pre` went out and the send for it is refused, nothing
   * after it is read and nothing more is delivered.
   */
  lemma {:induction false} RefusalIsFinal(pre: seq<ReadOutcome>, bytes: seq<u8>, post: seq<ReadOutcome>, acks: seq<bool>)
    requires bytes != [] && !Accepts(acks, |StreamLines(pre)|)
    ensures Run(pre + [Chunk(bytes)] + post, acks) == Run(pre + [Chunk(bytes)], acks)
    ensures Run(pre + [Chunk(bytes)] + post, acks) == Run(pre, acks)
    decreases |pre|
  {
    var s := pre + [Chunk(bytes)] + post;
    var t := pre + [Chunk(bytes)];
    if pre == [] {
      assert s[0] == Chunk(bytes) && t[0] == Chunk(bytes);
    } else {
      assert s[1..] == pre[1..] + [Chunk(bytes)] + post;
      assert t[1..] == pre[1..] + [Chunk(bytes)];
      match pre[0]
      case ReadError =>
        RefusalIsFinal(pre[1..], bytes, post, acks);
      case Chunk(first) =>
        if first != [] && Accepts(acks, 0) {
          assert Accepts(Drop(acks, 1), |StreamLines(pre[1..])|) == Accepts(acks, |StreamLines(pre)|);
          RefusalIsFinal(pre[1..], bytes, post, Drop(acks, 1));
        }
    }
  }

  /** A read error delivers nothing and the loop carries on with the next read. */
  lemma {:induction false} ReadErrorSkipped(pre: seq<ReadOutcome>, post: seq<ReadOutcome>, acks: seq<bool>)
    ensures Run(pre + [ReadError] + post, acks).lines == Run(pre + post, acks).lines
    decreases |pre|
  {
    var s := pre + [ReadError] + post;
    if pre == [] {
      assert s[1..] == post;
      assert pre + post == post;
    } else {
      assert s[1..] == pre[1..] + [ReadError] + post;
      assert (pre + post)[1..] == pre[1..] + post;
      ReadErrorSkipped(pre[1..], post, acks);
      ReadErrorSkipped(pre[1..], post, Drop(acks, 1));
    }
  }

  /** A stream whose every read returns a non-empty chunk yields one line per chunk, in order. */
  lemma {:induction false} LineFromOwnChunk(source: seq<ReadOutcome>)
    requires forall i | 0 <= i < |source| :: source[i].Chunk? && source[i].bytes != []
    ensures |StreamLines(source)| == |source|
    ensures forall i | 0 <= i < |source| :: StreamLines(source)[i] == StripLineEnding(source[i].bytes)
    decreases |source|
  {
    if source != [] {
      var tail := source[1..];
      assert forall i | 0 <= i < |tail| :: tail[i] == source[i + 1];
      LineFromOwnChunk(tail);
      assert StreamLines(source) == [StripLineEnding(source[0].bytes)] + StreamLines(tail);
    }
  }

  /** The reads of a command that prints `lines`, each ended by '\n'. */
  function NewlineScript(lines: seq<seq<u8>>): (source: seq<ReadOutcome>)
    ensures |source| == |lines|
  {
    seq(|lines|, i requires 0 <= i < |lines| => Chunk(lines[i] + [LF]))
  }

  /**
   * A command printing newline-terminated lines (none holding a '\n' of its
   * own or ending in '\r') is
   * received as exactly those lines, in order.
   */
  lemma PrintedLinesReceived(lines: seq<seq<u8>>, acks: seq<bool>)
    requires forall i | 0 <= i < |lines| :: LF !in lines[i] && !EndsWith(lines[i], [CR])
    requires forall k | 0 <= k < |acks| :: acks[k]
    ensures Run(NewlineScript(lines), acks).lines == lines
  {
    var source := NewlineScript(lines);
    LineFromOwnChunk(source);
    forall i | 0 <= i < |lines| ensures StreamLines(source)[i] == lines[i] {
      StripUndoesTerminator(lines[i], Newline);
    }
    AllAccepted(source, acks);
  }

  // ---------------------------------------------------------------------------
  // The worker threads' state

  const USIZE_MAX: nat := 0xFFFF_FFFF_FFFF_FFFF

  /** `usize` addition of one, wrapping to zero past the maximum. */
  function WrappingInc(v: nat): (r: nat)
    requires v <= USIZE_MAX
    ensures r <= USIZE_MAX
    ensures r == (v + 1) % (USIZE_MAX + 1)
  {
    if v == USIZE_MAX then 0 else v + 1
  }

  /** `usize` subtraction of one, wrapping to the maximum below zero. */
  function WrappingDec(v: nat): (r: nat)
    requires v <= USIZE_MAX
    ensures r <= USIZE_MAX
    ensures r == (v + USIZE_MAX) % (USIZE_MAX + 1)
  {
    if v == 0 then USIZE_MAX else v - 1
  }

  /** A worker's count-in and count-out cancel, even across the wrap. */
  lemma IncDecCancel(v: nat)
    requires v <= USIZE_MAX
    ensures WrappingDec(WrappingInc(v)) == v
    ensures WrappingInc(WrappingDec(v)) == v
  {
  }

  /** The shared `components_to_stop` counter, an `AtomicUsize` whose additions wrap. */
  class LivenessCounter {
    var value: nat
    /** Every value the counter has taken since it was created, oldest first. */
    ghost var history: seq<nat>

    ghost predicate Valid()
      reads this
    {
      value <= USIZE_MAX
    }

    constructor (initial: nat)
      requires initial <= USIZE_MAX
      ensures Valid() && value == initial && history == []
    {
      value := initial;
      history := [];
    }

    /** `fetch_add(1)`. */
    method FetchAdd()
      requires Valid()
      modifies this
      ensures Valid()
      ensures value == WrappingInc(old(value))
      ensures history == old(history) + [value]
    {
      value := WrappingInc(value);
      history := history + [value];
    }

    /** `fetch_sub(1)`. */
    method FetchSub()
      requires Valid()
      modifies this
      ensures Valid()
      ensures value == WrappingDec(old(value))
      ensures history == old(history) + [value]
    {
      value := WrappingDec(value);
      history := history + [value];
    }
  }

  /**
   * One collector: the shared counter, what has been sent on the item channel
   * and on the interrupt channel, and how many reads the command's output has
   * seen. An item is recorded as the line it was built from: everything else
   * that goes into it is the reader's fixed options.
   */
  class Collector {
    const counter: LivenessCounter
    var items: seq<seq<u8>>
    var interrupts: seq<int>
    var readCalls: nat

    constructor (counter: LivenessCounter)
      ensures this.counter == counter
      ensures items == [] && interrupts == [] && readCalls == 0
    {
      this.counter := counter;
      items, interrupts, readCalls := [], [], 0;
    }

    /**
     * The reader thread: counts itself in, reads until end of stream or a
     * refused send, signals the interrupt channel once and counts itself out.
     */
    method ReaderWorker(source: seq<ReadOutcome>, acks: seq<bool>)
      requires counter.Valid()
      modifies this, counter
      ensures counter.Valid() && counter.value == old(counter.value)
      ensures counter.history == old(counter.history) + [WrappingInc(old(counter.value)), old(counter.value)]
      ensures items == old(items) + Run(source, acks).lines
      ensures interrupts == old(interrupts) + [1]
      ensures readCalls == old(readCalls) + Run(source, acks).readCount
    {
      counter.FetchAdd();
      ReadLines(source, acks, old(counter.value));
      assert source[0..] == source;
      RunFromIsRun(source, acks, 0, 0);
      interrupts := interrupts + [1];
      counter.FetchSub();
      IncDecCancel(old(counter.value));
    }

    /**
     * The reader thread's loop: one read per iteration, one send per line. It
     * runs while the reader is counted in: the counter stands one above its
     * value `outside` from before the reader's `fetch_add`.
     */
    method ReadLines(source: seq<ReadOutcome>, acks: seq<bool>, ghost outside: nat)
      requires outside <= USIZE_MAX && counter.value == WrappingInc(outside)
      modifies this
      ensures items == old(items) + RunFrom(source, acks, 0, 0).lines
      ensures interrupts == old(interrupts)
      ensures readCalls == old(readCalls) + RunFrom(source, acks, 0, 0).readCount
    {
      var next, sends := 0, 0;
      ghost var lines: seq<seq<u8>> := [];
      ghost var total := RunFrom(source, acks, 0, 0);
      while true
        invariant next <= |source| && sends == |lines|
        invariant items == old(items) + lines
        invariant readCalls == old(readCalls) + next
        invariant total.lines == lines + RunFrom(source, acks, next, sends).lines
        invariant total.readCount == next + RunFrom(source, acks, next, sends).readCount
        invariant interrupts == old(interrupts)
        decreases |source| - next
      {
        var outcome := if next < |source| then source[next] else Chunk([]);
        var stop := ReadOnce(outcome, Accepts(acks, sends));
        if stop {
          break;
        }
        if outcome.Chunk? {
          var rest := RunFrom(source, acks, next + 1, sends + 1);
          assert total.lines == (lines + [StripLineEnding(outcome.bytes)]) + rest.lines;
          lines := lines + [StripLineEnding(outcome.bytes)];
          sends := sends + 1;
        }
        next := next + 1;
      }
    }

    /**
     * One pass of the loop body: a read that ends the stream stops the loop;
     * a read error is skipped; any other chunk is stripped of its line ending
     * and sent, and a refused send stops the loop with nothing delivered.
     */
    method ReadOnce(outcome: ReadOutcome, accepted: bool) returns (stop: bool)
      modifies this
      ensures stop <==> outcome.Chunk? && (outcome.bytes == [] || !accepted)
      ensures items == if outcome.Chunk? && !stop then old(items) + [StripLineEnding(outcome.bytes)] else old(items)
      ensures readCalls == old(readCalls) + 1
      ensures interrupts == old(interrupts)
    {
      var buffer: seq<u8> := [];
      readCalls := readCalls + 1;
      stop := false;
      if outcome.Chunk? {
        buffer := buffer + outcome.bytes;
        assert buffer == outcome.bytes;
        if |buffer| == 0 {
          return true;
        }
        buffer := StripLineEnding(buffer);
        if !accepted {
          return true;
        }
        items := items + [buffer];
      }
    }

    /**
     * The teardown thread's bookkeeping: counts itself in, takes one value
     * from the interrupt channel (none is left to take once all senders are
     * gone), and counts itself out.
     */
    method TeardownWorker()
      requires counter.Valid()
      modifies this, counter
      ensures counter.Valid() && counter.value == old(counter.value)
      ensures counter.history == old(counter.history) + [WrappingInc(old(counter.value)), old(counter.value)]
      ensures interrupts == if old(interrupts) == [] then [] else old(interrupts)[1..]
      ensures items == old(items) && readCalls == old(readCalls)
    {
      counter.FetchAdd();
      if interrupts != [] {
        interrupts := interrupts[1..];
      }
      counter.FetchSub();
      IncDecCancel(old(counter.value));
    }
  }
}

/**
 * `LyricsDataPipeline` (main.py): reads song records, summarises each
 * song's lyrics, builds a {prompt, completion} pair per song and writes the
 * pairs out in batches. The summariser (a network call) is a parameter that
 * either answers with a summary or fails with a cause.
 */
module Pipeline {
  import opened Wrappers
  import opened PyText
  import opened Songs
  import opened Jsonl
  import opened Prompts
  import opened Batching

  /** One training pair, as written to the output file. */
  datatype Pair = Pair(prompt: string, completion: string)

  /** What can escape a run. */
  datatype Error =
    | ReadFailed(readError: ReadError)      // the reader's ValueError for an undecodable line
    | SummarizerFailed(cause: string)    // whatever the summariser raised
    | LyricsNotText                      // AttributeError: truthy lyrics that are not a str have no strip
    | NegativeSleep                      // ValueError: time.sleep of a negative delay

  datatype Outcome = Completed | Raised(error: Error)

  /** The summariser: lyrics text to a summary, or the cause of its failure. */
  type Summarizer = string -> Result<string, string>

  /**
   * The effects of processing a prefix of the records: the pairs that got
   * through every step (summary, prompt, completion and throttle), the texts
   * the summariser was called with, and the error that stopped processing,
   * if any.
   */
  datatype Trace = Trace(pairs: seq<Pair>, calls: seq<string>, error: Option<Error>)

  /** Whether `run(max_items)` breaks when it reaches the record at 1-based `position`. */
  predicate Capped(maxItems: Option<int>, position: nat)
  {
    maxItems.Some? && maxItems.value != 0 && position > maxItems.value
  }

  /**
   * How many of `n` records the cap lets through: the records before the
   * first position the cap breaks at, or all of them. The cap counts raw
   * positions, whatever the records hold.
   */
  function Limit(n: nat, maxItems: Option<int>): (k: nat)
    ensures k <= n
    ensures forall position :: 1 <= position <= k ==> !Capped(maxItems, position)
    ensures k < n ==> Capped(maxItems, k + 1)
  {
    match maxItems
    case None => n
    case Some(c) => if c == 0 then n else if c < 0 then 0 else if c < n then c else n
  }

  /**
   * Turning a song with truthy lyrics into a pair: summarise, build the
   * prompt, build the completion, then throttle. Each step can raise, in
   * that order.
   */
  function Attempt(entry: SongEntry, summarize: Summarizer, sleep: real): Result<Pair, Error>
  {
    match summarize(Render(entry.songLyrics))
    case Failure(cause) => Failure(SummarizerFailed(cause))
    case Success(summary) =>
      match AddTitleToLyrics(entry.songTitle, entry.songLyrics)
      case None => Failure(LyricsNotText)
      case Some(completion) =>
        if sleep < 0.0 then Failure(NegativeSleep)
        else Success(Pair(BuildPrompt(entry, summary), completion))
  }

  /**
   * One pass of the loop body of `run` after `before`: a record with falsy
   * lyrics is skipped; any other calls the summariser once and appends one
   * pair, unless a step raises.
   */
  function Step(before: Trace, record: Record, summarize: Summarizer, sleep: real): Trace
  {
    var entry := FromDict(record);
    if before.error.Some? || !Truthy(entry.songLyrics) then before
    else
      var calls := before.calls + [Render(entry.songLyrics)];
      match Attempt(entry, summarize, sleep)
      case Failure(e) => Trace(before.pairs, calls, Some(e))
      case Success(pair) => Trace(before.pairs + [pair], calls, None)
  }

  /** The loop body of `run` over the first `n` records, in order; the first error ends processing. */
  function Process(records: seq<Record>, n: nat, summarize: Summarizer, sleep: real): Trace
    requires n <= |records|
    decreases n
  {
    if n == 0 then Trace([], [], None)
    else Step(Process(records, n - 1, summarize, sleep), records[n - 1], summarize, sleep)
  }

  /** The entries of the first `n` records whose lyrics are truthy, in order. */
  function Kept(records: seq<Record>, n: nat): (r: seq<SongEntry>)
    requires n <= |records|
    ensures |r| <= n
    decreases n
  {
    if n == 0 then []
    else
      var entry := FromDict(records[n - 1]);
      Kept(records, n - 1) + (if Truthy(entry.songLyrics) then [entry] else [])
  }

  /**
   * Processing against the kept entries: the pairs are those of the first
   * kept entries, in order, one each; the summariser was called once per
   * kept entry up to and including the one that failed, with its own
   * lyrics; an error is the failure of the first kept entry without a pair.
   */
  lemma {:induction false} ProcessMatchesKept(records: seq<Record>, n: nat, summarize: Summarizer, sleep: real)
    requires n <= |records|
    ensures var t, kept := Process(records, n, summarize, sleep), Kept(records, n);
      var m := |t.pairs|;
      && m <= |kept|
      && (forall j :: 0 <= j < m ==> Attempt(kept[j], summarize, sleep) == Success(t.pairs[j]))
      && (t.error.None? ==> m == |kept|)
      && (t.error.Some? ==> m < |kept| && Attempt(kept[m], summarize, sleep) == Failure(t.error.value))
      && |t.calls| == (if t.error.None? then m else m + 1)
      && (forall j :: 0 <= j < |t.calls| ==> t.calls[j] == Render(kept[j].songLyrics))
    decreases n
  {
    if n != 0 {
      ProcessMatchesKept(records, n - 1, summarize, sleep);
      var before, keptBefore := Process(records, n - 1, summarize, sleep), Kept(records, n - 1);
      var t, kept := Process(records, n, summarize, sleep), Kept(records, n);
      var entry := FromDict(records[n - 1]);
      assert forall j :: 0 <= j < |keptBefore| ==> kept[j] == keptBefore[j];
      assert t == Step(before, records[n - 1], summarize, sleep);
      if before.error.None? && Truthy(entry.songLyrics) {
        assert kept == keptBefore + [entry];
        assert t.calls == before.calls + [Render(entry.songLyrics)];
        match Attempt(entry, summarize, sleep)
        case Failure(e) =>
          assert t == Trace(before.pairs, before.calls + [Render(entry.songLyrics)], Some(e));
        case Success(pair) =>
          assert t == Trace(before.pairs + [pair], before.calls + [Render(entry.songLyrics)], None);
      }
    }
  }

  /** Processing raises nothing exactly when every kept entry yields a pair. */
  lemma ProcessCleanIff(records: seq<Record>, n: nat, summarize: Summarizer, sleep: real)
    requires n <= |records|
    ensures Process(records, n, summarize, sleep).error.None?
        <==> forall j :: 0 <= j < |Kept(records, n)| ==> Attempt(Kept(records, n)[j], summarize, sleep).Success?
  {
    ProcessMatchesKept(records, n, summarize, sleep);
  }

  /** Once processing has raised, the records after that point change nothing. */
  lemma {:induction false} ProcessStops(records: seq<Record>, n: nat, m: nat, summarize: Summarizer, sleep: real)
    requires n <= m <= |records| && Process(records, n, summarize, sleep).error.Some?
    ensures Process(records, m, summarize, sleep) == Process(records, n, summarize, sleep)
    decreases m - n
  {
    if n < m {
      ProcessStops(records, n, m - 1, summarize, sleep);
    }
  }

  /**
   * How a run ends: with the error processing raised; else with the
   * reader's error when the loop used up every yielded record (the cap did
   * not break first); else normally.
   */
  function Verdict(t: Trace, read: ReadOutcome, k: nat): Outcome
  {
    if t.error.Some? then Raised(t.error.value)
    else if k == |read.records| && read.error.Some? then Raised(ReadFailed(read.error.value))
    else Completed
  }

  /** What reaches the output file: every pair on normal completion, only the full batches otherwise. */
  function Written(pairs: seq<Pair>, outcome: Outcome): seq<Pair>
  {
    if outcome.Completed? then pairs else Flushed(pairs)
  }

  /**
   * The batches written by a run are its full batches of 100, then at most
   * one final batch of 1 to 99 pairs, and only on normal completion; laid
   * end to end they are exactly the pairs that reach the file.
   */
  lemma RunBatches(pairs: seq<Pair>, outcome: Outcome)
    ensures Concat(Chunks(Written(pairs, outcome))) == Written(pairs, outcome)
    ensures forall j :: 0 <= j < |Chunks(Written(pairs, outcome))| ==>
      var batch := Chunks(Written(pairs, outcome))[j];
      |batch| == FlushSize ||
      (outcome.Completed? && j == |Chunks(Written(pairs, outcome))| - 1 && 0 < |batch| < FlushSize)
  {
    var w := Written(pairs, outcome);
    ConcatChunks(w);
    ChunkSizes(w);
    if outcome.Raised? {
      assert |w| % FlushSize == 0;
    }
  }

  /**
   * A run that completes writes, for the records the cap lets through, one
   * pair per record with truthy lyrics, in record order, built from that
   * record's entry and its own summary.
   */
  lemma CompletedRunPairs(records: seq<Record>, k: nat, summarize: Summarizer, sleep: real)
    requires k <= |records| && Process(records, k, summarize, sleep).error.None?
    ensures var pairs, kept := Process(records, k, summarize, sleep).pairs, Kept(records, k);
      && |pairs| == |kept|
      && forall j :: 0 <= j < |pairs| ==>
           && summarize(Render(kept[j].songLyrics)).Success?
           && pairs[j].prompt == BuildPrompt(kept[j], summarize(Render(kept[j].songLyrics)).value)
           && Some(pairs[j].completion) == AddTitleToLyrics(kept[j].songTitle, kept[j].songLyrics)
  {
    ProcessMatchesKept(records, k, summarize, sleep);
  }

  /** The pipeline object: its reader input, its writer and its collaborators. */
  class LyricsPipeline {
    /** The input file's physical lines. */
    const input: seq<string>
    /** The JSON decoder applied to each stripped non-blank line. */
    const decode: string -> Option<Record>
    const summarize: Summarizer
    /** The throttle delay after each pair; zero disables it. */
    const rateLimitSleep: real
    const writer: Writer<Pair>
    /** Every text the summariser has been called with, in order. */
    ghost var calls: seq<string>
    /** How many throttle waits have happened. */
    ghost var waits: nat

    /** The writer is opened with overwrite, so the output file starts empty. */
    constructor (input: seq<string>, decode: string -> Option<Record>, summarize: Summarizer,
                 existingOutput: seq<Pair>, rateLimitSleep: real)
      ensures this.input == input && this.decode == decode && this.summarize == summarize
      ensures this.rateLimitSleep == rateLimitSleep
      ensures fresh(writer) && writer.contents == [] && writer.batches == []
      ensures calls == [] && waits == 0
    {
      this.input := input;
      this.decode := decode;
      this.summarize := summarize;
      this.rateLimitSleep := rateLimitSleep;
      writer := new Writer(true, existingOutput);
      calls := [];
      waits := 0;
    }

    /**
     * The steps of `run` for one song with truthy lyrics (main.py:56-70):
     * one summariser call with its lyrics, the prompt, the completion, then
     * the throttle wait when the delay is non-zero. The source appends the
     * pair to its buffer (main.py:66) before a negative delay raises at the
     * sleep (main.py:70); here the pair is returned only once the wait has
     * passed. Nothing observable differs: after a raise the buffer is never
     * written.
     */
    method EmitPair(entry: SongEntry) returns (r: Result<Pair, Error>)
      modifies this
      ensures r == Attempt(entry, summarize, rateLimitSleep)
      ensures calls == old(calls) + [Render(entry.songLyrics)]
      ensures waits == old(waits) + (if r.Success? && rateLimitSleep > 0.0 then 1 else 0)
    {
      var lyricsText := Render(entry.songLyrics);
      calls := calls + [lyricsText];
      var summary := summarize(lyricsText);
      if summary.Failure? {
        return Failure(SummarizerFailed(summary.error));
      }
      var prompt := BuildPrompt(entry, summary.value);
      var completion := AddTitleToLyrics(entry.songTitle, entry.songLyrics);
      if completion.None? {
        return Failure(LyricsNotText);
      }
      if rateLimitSleep != 0.0 {
        if rateLimitSleep < 0.0 {
          return Failure(NegativeSleep);
        }
        waits := waits + 1;
      }
      r := Success(Pair(prompt, completion.value));
    }

    /**
     * What `run` has done so far, relative to the state it started from
     * (`contents0`, `batches0`, `calls0`, `waits0`): the pairs of `t` are
     * the whole batches in `flushed` followed by the buffered `outRows`;
     * `flushed` and nothing else reached the writer, in batches of 100; the
     * summariser saw the texts of `t`; one wait happened per pair when the
     * delay is positive.
     */
    ghost predicate Tracked(t: Trace, outRows: seq<Pair>, flushed: seq<Pair>,
                            contents0: seq<Pair>, batches0: seq<seq<Pair>>, calls0: seq<string>, waits0: nat)
      reads this, writer
    {
      && |flushed| % FlushSize == 0 && t.pairs == flushed + outRows && |outRows| < FlushSize
      && writer.contents == contents0 + flushed
      && writer.batches == batches0 + Chunks(flushed)
      && calls == calls0 + t.calls
      && waits == waits0 + (if rateLimitSleep > 0.0 then |t.pairs| else 0)
    }

    /**
     * The loop body of `run` for one record the cap let through
     * (main.py:52-75): skip it when its lyrics are falsy; otherwise emit its
     * pair into the buffer and flush the buffer once it holds 100 pairs.
     * What was done is one `Step` further, and the error is that step's.
     */
    method Feed(raw: Record, outRows: seq<Pair>, ghost t: Trace, ghost flushed: seq<Pair>,
                ghost contents0: seq<Pair>, ghost batches0: seq<seq<Pair>>, ghost calls0: seq<string>, ghost waits0: nat)
      returns (rows: seq<Pair>, failure: Option<Error>, ghost flushed': seq<Pair>)
      requires t.error.None? && Tracked(t, outRows, flushed, contents0, batches0, calls0, waits0)
      modifies this, writer
      ensures var t' := Step(t, raw, summarize, rateLimitSleep);
        && failure == t'.error
        && Tracked(t', rows, flushed', contents0, batches0, calls0, waits0)
    {
      var entry := FromDict(raw);
      if !Truthy(entry.songLyrics) {
        return outRows, None, flushed;
      }
      var attempt := EmitPair(entry);
      if attempt.Failure? {
        return outRows, Some(attempt.error), flushed;
      }
      rows := outRows + [attempt.value];
      failure := None;
      flushed' := flushed;
      AppendAssoc(flushed, outRows, [attempt.value]);
      if |rows| >= FlushSize {
        writer.WriteMany(rows);
        FlushFull(flushed, rows);
        AppendAssoc(contents0, flushed, rows);
        AppendAssoc(batches0, Chunks(flushed), [rows]);
        flushed' := flushed + rows;
        rows := [];
        assert flushed' + rows == flushed';
      }
    }

    /**
     * The `for` loop of `run` over the records yielded (main.py:45-75): stop
     * at the first position past the cap, feed each record before it, and
     * leave at the first error. `exhausted` says the loop ran out of records
     * rather than breaking at the cap, which is when an error of the reader
     * would surface.
     */
    method Consume(records: seq<Record>, maxItems: Option<int>)
      returns (outRows: seq<Pair>, failure: Option<Error>, exhausted: bool, ghost flushed: seq<Pair>)
      modifies this, writer
      ensures var k := Limit(|records|, maxItems);
        var t := Process(records, k, summarize, rateLimitSleep);
        && failure == t.error
        && (failure.None? ==> (exhausted <==> k == |records|))
        && Tracked(t, outRows, flushed, old(writer.contents), old(writer.batches), old(calls), old(waits))
    {
      ghost var k := Limit(|records|, maxItems);
      outRows, flushed := [], [];
      var i := 0;
      while i < |records|
        invariant i <= k
        invariant Process(records, i, summarize, rateLimitSleep).error.None?
        invariant Tracked(Process(records, i, summarize, rateLimitSleep), outRows, flushed,
                          old(writer.contents), old(writer.batches), old(calls), old(waits))
      {
        var position := i + 1;
        if Capped(maxItems, position) {
          break;
        }
        outRows, failure, flushed := Feed(records[i], outRows, Process(records, i, summarize, rateLimitSleep), flushed,
                                          old(writer.contents), old(writer.batches), old(calls), old(waits));
        assert Process(records, i + 1, summarize, rateLimitSleep)
            == Step(Process(records, i, summarize, rateLimitSleep), records[i], summarize, rateLimitSleep);
        if failure.Some? {
          ProcessStops(records, i + 1, k, summarize, rateLimitSleep);
          exhausted := false;
          return;
        }
        i := i + 1;
      }
      assert i == k;
      failure, exhausted := None, i == |records|;
    }

    /**
     * `run(max_items)`: the records the cap lets through are processed in
     * order; the buffer is flushed whenever it reaches 100 pairs and once
     * more at the end if non-empty, unless something raised.
     */
    method Run(maxItems: Option<int>) returns (outcome: Outcome)
      modifies this, writer
      ensures var read := ReadFrom(input, decode, 1);
        var k := Limit(|read.records|, maxItems);
        var t := Process(read.records, k, summarize, rateLimitSleep);
        && outcome == Verdict(t, read, k)
        && writer.contents == old(writer.contents) + Written(t.pairs, outcome)
        && writer.batches == old(writer.batches) + Chunks(Written(t.pairs, outcome))
        && calls == old(calls) + t.calls
        && waits == old(waits) + (if rateLimitSleep > 0.0 then |t.pairs| else 0)
    {
      var records, readError := Read(input, decode);
      ghost var read := ReadFrom(input, decode, 1);
      assert read.records == records && read.error == readError;
      var outRows, failure, exhausted, flushed := Consume(records, maxItems);
      if failure.Some? {
        FlushedOfBuffered(flushed, outRows);
        return Raised(failure.value);
      }
      if exhausted && readError.Some? {
        FlushedOfBuffered(flushed, outRows);
        return Raised(ReadFailed(readError.value));
      }
      FinalFlush(flushed, outRows);
      AppendAssoc(old(writer.contents), flushed, outRows);
      if |outRows| > 0 {
        writer.WriteMany(outRows);
        AppendAssoc(old(writer.batches), Chunks(flushed), [outRows]);
      }
      outcome := Completed;
    }
  }
}

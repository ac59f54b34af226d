# create_training_pairs, modelled in Dafny

`LyricsDataPipeline.run` turns a JSON-lines file of song records into
`{prompt, completion}` training pairs. It works as follows:

- It reads the records lazily, one per non-blank line.
- It stops at an optional cap on the record position.
- It skips records whose lyrics are falsy.
- For every other record it:
  - asks a summariser for a summary of the lyrics;
  - builds a prompt from the year, the rapper and the summary;
  - builds a completion from the stripped title and lyrics;
  - waits for the throttle delay.
- It buffers the pairs and flushes them to a JSON-lines writer in batches of
  100, then once more for a non-empty remainder at the end.

This project models that loop and the deterministic helpers it calls. It
proves what reaches the output file, in which batches, what the summariser
is asked, how often the pipeline waits, and how a run ends.

Modules, one per concern of the source:

- `Wrappers`: `Option` and `Result`.
- `PyText`: the Python values that occur in records, their truthiness, their
  `str()` text and `str.strip()` over Python's whitespace table.
- `Songs`: `SongEntry.from_dict`.
- `Jsonl`: `JSONLReader.read` (`Read`, specified by `ReadFrom`) and
  `JSONLWriter` (class `Writer`, whose `contents` field is the file, plus a
  ghost log of its `write_many` batches).
- `Prompts`: `PromptBuilder.build_prompt` and
  `LyricsPostProcessor.add_title_to_lyrics`.
- `Batching`: how a sequence of pairs is cut into flushes of 100.
- `Pipeline`: the pipeline object and `run`.
  - The loop's meaning is the function `Process`, built one `Step` per
    record.
  - The imperative `run` is split along the source's own structure:
    - `Consume` is the `for` loop;
    - `Feed` is one pass of the loop body;
    - `EmitPair` is the summarise, build and throttle steps of that body.
  - The ghost fields `calls` and `waits` record every summariser input and
    every throttle wait.

Two edges of `run` worth noting:

- The throttle wait happens only when `rate_limit_sleep` is non-zero
  (main.py:69).
- The cap test is `max_items and i > max_items` (main.py:47). A cap of `0`
  means no cap, and a negative cap stops the run before the first record.

## Model

| member | source | states |
|---|---|---|
| PyText.StripLeftRemovesLeading | utils.py:37 | stripping the front leaves a suffix whose dropped characters are all whitespace and whose first character is not |
| PyText.StripRightRemovesTrailing | utils.py:37 | stripping the back leaves a prefix whose dropped characters are all whitespace and whose last character is not |
| PyText.StripTrims | utils.py:37 | `strip(s)` is a contiguous slice of `s` with only whitespace cut off at both ends and no whitespace left at either end |
| PyText.StripUnique | utils.py:37 | any slice of that shape is `strip(s)`: the result is determined by the whitespace table alone |
| PyText.StripIdempotent | utils.py:118 | stripping twice is stripping once |
| PyText.StripAllWhitespace | utils.py:37-39 | a line of whitespace only strips to the empty string, so the reader skips it |
| PyText.NatText | utils.py:103 | `str()` of a natural number is a non-empty run of digits without a leading zero |
| PyText.NatTextRoundTrip | utils.py:103 | parsing the decimal text of a natural number gives the number back |
| PyText.IntText | utils.py:103 | `str()` of an integer year is canonical decimal: it starts with `-` exactly when the year is negative, its digits have no leading zero and they parse back to the year's magnitude |
| Songs.FromDict | utils.py:17-24 | never fails; each field is the value under `"rapper"`, `"title"`, `"year"`, `"lyrics"` when the key is present and `None` otherwise |
| Songs.FromDictIgnoresOtherKeys | utils.py:17-24 | adding or changing any other key leaves the entry unchanged |
| Jsonl.Read | utils.py:34-43 | the line loop with its 1-based counter returns exactly the records and error of `ReadFrom` over the whole file |
| Jsonl.ReadFromCleanIff | utils.py:36-43 | a pass ends without error exactly when every stripped non-blank line decodes |
| Jsonl.ReadFromCleanRecords | utils.py:36-41 | a pass without error yields one record per non-blank line, decoded from its stripped text, in file order, and nothing for blank lines |
| Jsonl.ReadFromError | utils.py:36-43 | an error names the 1-based physical line number, with blank lines counted, of a non-blank line that does not decode; the records yielded are exactly those of the lines before it, which decode cleanly |
| Jsonl.Writer.constructor | utils.py:48-51 | `overwrite=True` truncates the file to empty; otherwise its existing rows stay; no batch has been written yet |
| Jsonl.Writer.WriteMany | utils.py:53-56 | the file becomes its old rows followed by `rows`, in order, and the call is logged as one batch |
| Prompts.BuildPrompt | utils.py:101-105 | the prompt starts with `"Write a rap song in year "`, ends with the summary and is at least as long as both together |
| Prompts.BuildPromptInjective | utils.py:101-105 | for one entry, different summaries give different prompts |
| Prompts.BuildPromptAbsentFields | utils.py:101-105 | with year and rapper absent, the prompt is exactly `"Write a rap song in year None's None style. The topic is about: "` followed by the summary |
| Prompts.AddTitleToLyrics | utils.py:115-119 | a completion exists exactly when the lyrics are a string; other lyrics raise, because they have no `strip` |
| Prompts.CompletionShape | utils.py:115-119 | every completion ends with the stripped lyrics and has no leading whitespace |
| Prompts.UntitledCompletion | utils.py:116-118 | when the stripped `str(title)` is empty, the completion is the stripped lyrics |
| Prompts.TitledCompletion | utils.py:116-119 | otherwise the completion is the stripped title, then `"\n\n"`, then the stripped lyrics, with inner whitespace preserved |
| Prompts.AbsentTitleCompletion | utils.py:116-119 | an absent title yields the heading `"None"`: the completion is `"None\n\n"` followed by the stripped lyrics |
| Prompts.UntitledCompletionIdempotent | utils.py:116-118 | building an untitled completion from an untitled completion changes nothing |
| Prompts.PaddedTitleExample | utils.py:115-119 | title `" Title \n"` with lyrics `" L1\nL2 "` gives `"Title\n\nL1\nL2"` |
| Batching.Flushed | main.py:73-79 | the part of a run's pairs that full flushes have written is a prefix that is a whole number of batches, missing fewer than 100 pairs |
| Batching.ConcatChunks | main.py:73-79 | laying the batches end to end gives back every pair, in order, with none lost or repeated |
| Batching.ChunkSizes | main.py:73-79 | every batch holds 100 pairs except possibly the last, which holds 1 to 99, exactly when the count is not a multiple of 100; the number of batches is the count divided by 100, rounded up |
| Batching.ChunksAppend | main.py:73-79 | after whole batches, a flush of 1 to 100 pairs adds exactly one batch |
| Batching.FlushedOfBuffered | main.py:73-79 | with whole batches written and fewer than 100 pairs buffered, what has been written is exactly the whole batches |
| Batching.FlushFull | main.py:73-75 | flushing a full buffer keeps the written pairs a whole number of batches and adds that buffer as one batch |
| Batching.FinalFlush | main.py:77-79 | the final flush adds one last short batch for a non-empty remainder and no batch for an empty one |
| Batching.TwoHundredFiftyPairs | main.py:73-79 | 250 pairs are written as batches of 100, 100 and 50 |
| Pipeline.Limit | main.py:45-48 | the loop processes the records at positions 1 to k, where no position up to k is past the cap and position k+1, if present, is; `None` and `0` mean no cap |
| Pipeline.ProcessMatchesKept | main.py:45-70 | over the first n records, the kept entries are those with truthy lyrics, in order. Pair j comes from kept entry j. The summariser was called once per kept entry, with its lyrics, up to and including the one that failed. An error is the failure of the first kept entry without a pair |
| Pipeline.ProcessCleanIff | main.py:45-70 | processing raises nothing exactly when every kept entry yields a pair |
| Pipeline.ProcessStops | main.py:45-70 | once processing has raised, later records change nothing |
| Pipeline.RunBatches | main.py:73-79 | a run's written batches hold every written pair, in order. They are full batches of 100, except a last batch of 1 to 99, and that last batch only on normal completion |
| Pipeline.CompletedRunPairs | main.py:45-79 | on normal completion, the pairs are one per record with truthy lyrics, in record order. Each has the prompt from that entry and its own summary and the completion from its title and lyrics |
| Pipeline.LyricsPipeline.constructor | main.py:28-40 | the writer is opened with overwrite, so the output starts empty; the pipeline keeps its collaborators and delay |
| Pipeline.LyricsPipeline.EmitPair | main.py:56-70 | one summariser call with the lyrics' text; the result is `Attempt`, where a summariser failure, lyrics that are not a string and a negative delay raise in that order; one wait when the pair is emitted and the delay is positive |
| Pipeline.LyricsPipeline.Feed | main.py:50-75 | one more `Step`: a falsy-lyrics record changes nothing; otherwise the pair is buffered. A buffer that reaches 100 is written as one batch and cleared. The buffer stays under 100, and only whole batches have been written |
| Pipeline.LyricsPipeline.Consume | main.py:45-75 | the loop stops at the cap or the first error. Its state is that of `Process` over the records the cap lets through. It reports running out of records exactly when the cap did not stop it |
| Pipeline.LyricsPipeline.Run | main.py:42-79 | the run's outcome is `Verdict`. The file gains `Written`: every pair on completion, only the flushed full batches after an error. The writer's batches are the chunks of what was written. The summariser saw exactly the processed lyrics, and one wait happened per pair when the delay is positive |

## Left out

- `LyricsSummarizer` and the OpenAI client (utils.py:61-92) are network calls. The summariser is a parameter that maps the lyrics' `str()` text to a summary or to the cause of a failure. The request it builds is not modelled.
- `json.loads` and `json.dumps` (utils.py:41, 56) are a library codec. Decoding is a parameter from stripped line text to a record, or to nothing for malformed JSON. Serialising a row is taken as the identity, so the output file is its sequence of rows.
- A line that decodes to JSON other than an object, and field values that are booleans, floats, lists or objects, are not represented. Such a record would make `from_dict` or the prompt behave in ways the model does not cover.
- Opening, encoding and splitting files are left out. The input is its sequence of physical lines, and `strip` removes any line terminator.
- Generator laziness: `Read` reads every line up front. `Run` then raises the reader's error only when the loop ran out of records, that is, when the cap did not stop it first. That is when the lazy generator would have raised, and the pairs, calls and writes are the same.
- `time.sleep` and the float `rate_limit_sleep` (main.py:33, 69-70) are modelled only by the sign of a real number. Zero skips the wait, a negative delay raises, and a positive one counts one wait. NaN and infinities are not modelled.
- Logging (main.py:8-15, 46, 57) is a side effect only and is left out.
- The `__main__` block (main.py:83-101) is left out: the environment check and the fixed paths.
- `get_input_file` is imported at main.py:5 but is not part of this model.
- The other fields of `LyricsDataPipeline.__init__` (the model name, the prompt builder and the post-processor objects) carry no state and are left out.
- Pipeline.LyricsPipeline.Run: gives the `write_many` calls one by one in order, through the writer's batch log, but does not say how they interleave with the summariser calls; `Pipeline.LyricsPipeline.Feed` states that step by step.

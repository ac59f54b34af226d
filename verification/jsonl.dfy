/**
 * Line-delimited JSON input and output (`JSONLReader` and `JSONLWriter` in
 * utils.py). The input file is its sequence of physical lines; the JSON
 * decoder is a parameter that either yields a record or fails.
 */
module Jsonl {
  import opened Wrappers
  import opened PyText
  import opened Songs

  /** The `ValueError` raised for an undecodable line, with its 1-based physical line number. */
  datatype ReadError = InvalidJson(lineNo: nat)

  /** What a full pass of the reader produces: the records yielded, then possibly the error that ended it. */
  datatype ReadOutcome = ReadOutcome(records: seq<Record>, error: Option<ReadError>)

  /** A line the reader skips: nothing but whitespace. */
  predicate Blank(line: string)
  {
    Strip(line) == ""
  }

  /**
   * The reader's behaviour on `lines`, whose first line is physical line
   * `first`: blank lines yield nothing, other lines yield their decoded
   * (stripped) text, and the first line that does not decode ends the pass.
   */
  function ReadFrom(lines: seq<string>, decode: string -> Option<Record>, first: nat): ReadOutcome
    decreases |lines|
  {
    if lines == [] then ReadOutcome([], None)
    else if Blank(lines[0]) then ReadFrom(lines[1..], decode, first + 1)
    else match decode(Strip(lines[0]))
      case None => ReadOutcome([], Some(InvalidJson(first)))
      case Some(rec) =>
        var rest := ReadFrom(lines[1..], decode, first + 1);
        ReadOutcome([rec] + rest.records, rest.error)
  }

  /** The stripped text of the non-blank lines, in file order. */
  function NonBlank(lines: seq<string>): (r: seq<string>)
    ensures |r| <= |lines|
  {
    if lines == [] then []
    else if Blank(lines[0]) then NonBlank(lines[1..])
    else [Strip(lines[0])] + NonBlank(lines[1..])
  }

  /** Every text in `texts` decodes. */
  predicate AllDecode(texts: seq<string>, decode: string -> Option<Record>)
  {
    forall j :: 0 <= j < |texts| ==> decode(texts[j]).Some?
  }

  /** A pass raises no error exactly when every non-blank line decodes. */
  lemma {:induction false} ReadFromCleanIff(lines: seq<string>, decode: string -> Option<Record>, first: nat)
    ensures ReadFrom(lines, decode, first).error.None? <==> AllDecode(NonBlank(lines), decode)
    decreases |lines|
  {
    if lines != [] {
      ReadFromCleanIff(lines[1..], decode, first + 1);
      var nb, nbRest := NonBlank(lines), NonBlank(lines[1..]);
      if !Blank(lines[0]) {
        assert nb == [Strip(lines[0])] + nbRest;
        assert AllDecode(nb, decode) <==> decode(nb[0]).Some? && AllDecode(nbRest, decode) by {
          if decode(nb[0]).Some? && AllDecode(nbRest, decode) {
            forall j | 0 < j < |nb| ensures decode(nb[j]).Some? {
              assert nb[j] == nbRest[j - 1];
            }
          }
          if AllDecode(nb, decode) {
            forall j | 0 <= j < |nbRest| ensures decode(nbRest[j]).Some? {
              assert nb[j + 1] == nbRest[j];
            }
          }
        }
      }
    }
  }

  /** The records the texts decode to, in order. */
  function DecodeAll(texts: seq<string>, decode: string -> Option<Record>): (r: seq<Record>)
    requires AllDecode(texts, decode)
    ensures |r| == |texts|
  {
    if texts == [] then [] else [decode(texts[0]).value] + DecodeAll(texts[1..], decode)
  }

  /**
   * A pass that raises no error yields exactly one record per non-blank
   * line, decoded from that line's stripped text, in file order.
   */
  lemma {:induction false} ReadFromCleanRecords(lines: seq<string>, decode: string -> Option<Record>, first: nat)
    requires ReadFrom(lines, decode, first).error.None?
    ensures AllDecode(NonBlank(lines), decode)
    ensures ReadFrom(lines, decode, first).records == DecodeAll(NonBlank(lines), decode)
    decreases |lines|
  {
    ReadFromCleanIff(lines, decode, first);
    if lines != [] {
      ReadFromCleanRecords(lines[1..], decode, first + 1);
      if !Blank(lines[0]) {
        assert NonBlank(lines)[1..] == NonBlank(lines[1..]);
      }
    }
  }

  /**
   * A pass that fails names the 1-based physical line (blank lines counted)
   * of a non-blank line that does not decode; everything yielded came from
   * the lines before it, which all decode, and nothing after it was read.
   */
  lemma {:induction false} ReadFromError(lines: seq<string>, decode: string -> Option<Record>, first: nat, lineNo: nat)
    requires ReadFrom(lines, decode, first).error == Some(InvalidJson(lineNo))
    ensures first <= lineNo < first + |lines|
    ensures !Blank(lines[lineNo - first]) && decode(Strip(lines[lineNo - first])).None?
    ensures ReadFrom(lines[..lineNo - first], decode, first)
         == ReadOutcome(ReadFrom(lines, decode, first).records, None)
    decreases |lines|
  {
    var tail := lines[1..];
    if Blank(lines[0]) || decode(Strip(lines[0])).Some? {
      ReadFromError(tail, decode, first + 1, lineNo);
      assert lines[..lineNo - first][1..] == tail[..lineNo - (first + 1)];
    }
  }

  /**
   * `JSONLReader.read`: walks the lines with a 1-based line counter,
   * skipping blank ones and stopping at the first line that does not decode.
   */
  method Read(lines: seq<string>, decode: string -> Option<Record>)
    returns (records: seq<Record>, error: Option<ReadError>)
    ensures ReadOutcome(records, error) == ReadFrom(lines, decode, 1)
  {
    records := [];
    var lineNo := 1;
    while lineNo <= |lines|
      invariant 1 <= lineNo <= |lines| + 1
      invariant ReadFrom(lines, decode, 1)
             == var rest := ReadFrom(lines[lineNo - 1..], decode, lineNo);
                ReadOutcome(records + rest.records, rest.error)
    {
      var line := Strip(lines[lineNo - 1]);
      assert lines[lineNo - 1..][1..] == lines[lineNo..];
      if line != "" {
        var decoded := decode(line);
        if decoded.None? {
          return records, Some(InvalidJson(lineNo));
        }
        records := records + [decoded.value];
      }
      lineNo := lineNo + 1;
    }
    error := None;
  }

  /**
   * `JSONLWriter`: the output file, one row per line. Serialising a row is
   * taken as the identity, so the file is its sequence of rows. `batches`
   * logs the argument of every `WriteMany` call.
   */
  class Writer<Row> {
    var contents: seq<Row>
    ghost var batches: seq<seq<Row>>

    /** Opening with `overwrite` truncates the file; otherwise its `existing` rows stay. */
    constructor (overwrite: bool, existing: seq<Row>)
      ensures contents == if overwrite then [] else existing
      ensures batches == []
    {
      if overwrite {
        contents := [];
      } else {
        contents := existing;
      }
      batches := [];
    }

    /** Appends `rows` in order, one line each, after what the file already holds. */
    method WriteMany(rows: seq<Row>)
      modifies this
      ensures contents == old(contents) + rows
      ensures batches == old(batches) + [rows]
    {
      var i := 0;
      while i < |rows|
        invariant 0 <= i <= |rows|
        invariant contents == old(contents) + rows[..i]
        invariant batches == old(batches)
      {
        contents := contents + [rows[i]];
        i := i + 1;
      }
      assert rows[..i] == rows;
      batches := batches + [rows];
    }
  }
}

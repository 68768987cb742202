/**
 * `save_request_in_txt_file`: the log file is a text buffer the function
 * opens, writes to and closes. In append mode a single line break is
 * written first when the file already has content; the record is the
 * response's text, a line break and the current time, with no line
 * break after it. `str(dict)` and `datetime.now()` are opaque strings
 * here.
 */
module RequestLog {

  /** The two `open` modes that write: `"a"` appends, `"w"` truncates first. */
  datatype AccessMode = Append | Write

  /** One record: the response text, a line break, the timestamp. */
  function Record(resultText: string, timestamp: string): (r: string)
    ensures |r| == |resultText| + 1 + |timestamp| && r[|resultText|] == '\n'
    ensures r[..|resultText|] == resultText && r[|resultText| + 1..] == timestamp
  {
    resultText + "\n" + timestamp
  }

  /** What the file holds after one save with the given mode. */
  function AfterSave(contents: string, mode: AccessMode, resultText: string, timestamp: string): (r: string)
    ensures var rec := Record(resultText, timestamp); |rec| <= |r| && r[|r| - |rec|..] == rec
    ensures mode == Append ==> |contents| <= |r| && r[..|contents|] == contents
    ensures mode == Write ==> |r| == |resultText| + 1 + |timestamp|
  {
    match mode
    case Write => Record(resultText, timestamp)
    case Append => contents + (if |contents| != 0 then "\n" else "") + Record(resultText, timestamp)
  }

  /** In append mode the old contents stay as an exact prefix, followed by
      exactly one line break when they were non-empty and by none otherwise,
      and then by the record; in write mode the record replaces them. */
  lemma AfterSaveShape(contents: string, mode: AccessMode, resultText: string, timestamp: string)
    ensures var after := AfterSave(contents, mode, resultText, timestamp);
      var rec := Record(resultText, timestamp);
      && (mode == Append && contents != [] ==> after[..|contents|] == contents && after[|contents|..] == "\n" + rec)
      && (mode == Append && contents == [] ==> after == rec)
      && (mode == Write ==> after == rec)
  {
  }

  class LogFile {
    /** The text of the file. */
    var contents: string

    /** A file that holds `initial`; a missing file is the empty one. */
    constructor (initial: string)
      ensures contents == initial
    {
      contents := initial;
    }

    /** Opens the file in `mode`, writes the separator when appending to a
        non-empty file, then the record. */
    method SaveRequestInTxtFile(resultText: string, timestamp: string, mode: AccessMode)
      modifies this
      ensures contents == AfterSave(old(contents), mode, resultText, timestamp)
    {
      if mode == Write {
        contents := "";
      }
      if mode == Append && |contents| != 0 {
        contents := contents + "\n";
      }
      contents := contents + Record(resultText, timestamp);
    }
  }

  datatype Entry = Entry(resultText: string, timestamp: string)

  /** The file after appending `entries` in order to `start`. */
  function AppendAll(start: string, entries: seq<Entry>): string
    decreases |entries|
  {
    if entries == [] then start
    else
      var last := entries[|entries| - 1];
      AfterSave(AppendAll(start, entries[..|entries| - 1]), Append, last.resultText, last.timestamp)
  }

  /** The records of `entries` joined by single line breaks. */
  function JoinRecords(entries: seq<Entry>): string
    decreases |entries|
  {
    if entries == [] then ""
    else if |entries| == 1 then Record(entries[0].resultText, entries[0].timestamp)
    else
      var last := entries[|entries| - 1];
      JoinRecords(entries[..|entries| - 1]) + "\n" + Record(last.resultText, last.timestamp)
  }

  /** Appending records one by one to an empty file yields the records
      separated by exactly one line break each, with nothing before the
      first record and nothing after the last. */
  lemma {:induction false} AppendsJoin(entries: seq<Entry>)
    ensures AppendAll("", entries) == JoinRecords(entries)
    decreases |entries|
  {
    if entries != [] {
      var init := entries[..|entries| - 1];
      AppendsJoin(init);
      if init != [] {
        var prev := init[|init| - 1];
        assert init[..|init| - 1] == entries[..|entries| - 2];
        assert |AppendAll("", init)| >= |Record(prev.resultText, prev.timestamp)| by {
          assert AppendAll("", init) == AfterSave(AppendAll("", init[..|init| - 1]), Append, prev.resultText, prev.timestamp);
        }
      }
    }
  }

  /** Two saves to an empty log: one line break between the records. */
  lemma TwoRecords(first: Entry, second: Entry)
    ensures AppendAll("", [first, second])
         == Record(first.resultText, first.timestamp) + "\n" + Record(second.resultText, second.timestamp)
  {
    AppendsJoin([first, second]);
    assert [first, second][..1] == [first];
  }
}

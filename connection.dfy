/**
 * The serial-data path of `MicrobitConnectorUSB` (`src/microbit/connection.ts`):
 * a carry-over text buffer cut into newline-terminated records, each record
 * parsed and routed by its `type` to the message handlers, with per-record
 * failures contained.
 *
 * `JSON.parse` is a parameter: a partial function from record text to a
 * typed message, `None` standing for a `SyntaxError`.
 */
module UsbConnection {
  import opened Wrappers
  import opened JsText
  import opened MessageHandler

  /** What `JSON.parse` and the test of the `type` field make of one record. */
  datatype Message =
    | Config(config: GraphConfig)   // `type === "config"`
    | Data(data: DataMessage)       // `type === "data"`
    | OtherType                     // any other non-null value: `type` missing or different
    | NullValue                     // the literal `null`: reading `.type` throws

  /** `JSON.parse` followed by the shape of the value; `None` is a thrown `SyntaxError`. */
  type Parser = string -> Option<Message>

  /** `s` holds no line feed. */
  predicate NoNewline(s: string) {
    '\n' !in s
  }

  /** Every record followed by its `\n`, concatenated. */
  function Join(records: seq<string>): string {
    if records == [] then [] else records[0] + "\n" + Join(records[1..])
  }

  /** The complete records cut out of a buffer and what is left over. */
  datatype Framed = Framed(records: seq<string>, rest: string)

  /**
   * The framing loop of `handleSerialData`: repeatedly cut the text before
   * the first `\n` out of the buffer and drop that `\n`. The records carry
   * no newline and are not trimmed, and the rest holds no newline;
   * `FrameJoin` shows that nothing is lost or reordered.
   */
  function Frame(s: string): (f: Framed)
    ensures NoNewline(f.rest)
    ensures forall i :: 0 <= i < |f.records| ==> NoNewline(f.records[i])
    decreases |s|
  {
    var i := IndexOf(s, '\n');
    if i == -1 then Framed([], s)
    else
      var f := Frame(s[i + 1..]);
      Framed([s[..i]] + f.records, f.rest)
  }

  lemma JoinCons(record: string, records: seq<string>)
    ensures Join([record] + records) == record + "\n" + Join(records)
  {
    var all := [record] + records;
    assert all[0] == record && all[1..] == records;
  }

  lemma SplitAtNewline(s: string, i: nat)
    requires i < |s| && s[i] == '\n'
    ensures s == s[..i] + "\n" + s[i + 1..]
  {
  }

  /** A record cut at the first newline, put back in front of the joined rest, gives the text. */
  lemma JoinedRecord(s: string, i: nat, records: seq<string>, rest: string)
    requires i < |s| && s[i] == '\n'
    requires s[i + 1..] == Join(records) + rest
    ensures s == Join([s[..i]] + records) + rest
  {
    JoinCons(s[..i], records);
    SplitAtNewline(s, i);
    assert s[..i] + "\n" + s[i + 1..] == s[..i] + "\n" + Join(records) + rest;
  }

  /** The records, each put back with its newline, followed by the rest, are exactly the framed text. */
  lemma {:induction false} FrameJoin(s: string)
    ensures s == Join(Frame(s).records) + Frame(s).rest
    decreases |s|
  {
    var i := IndexOf(s, '\n');
    if i != -1 {
      var tail := s[i + 1..];
      var f := Frame(tail);
      assert Frame(s) == Framed([s[..i]] + f.records, f.rest);
      FrameJoin(tail);
      JoinedRecord(s, i, f.records, f.rest);
    }
  }

  lemma {:induction false} JoinAppend(a: seq<string>, b: seq<string>)
    ensures Join(a + b) == Join(a) + Join(b)
    decreases |a|
  {
    if a == [] {
      assert a + b == b;
    } else {
      assert (a + b)[0] == a[0];
      assert (a + b)[1..] == a[1..] + b;
      JoinAppend(a[1..], b);
      calc {
        Join(a + b);
        a[0] + "\n" + Join(a[1..] + b);
        a[0] + "\n" + (Join(a[1..]) + Join(b));
        (a[0] + "\n" + Join(a[1..])) + Join(b);
      }
    }
  }

  /**
   * The framing is the only way to write `s` as newline-free records, each
   * followed by `\n`, and a newline-free rest.
   */
  lemma {:induction false} FrameUnique(s: string, records: seq<string>, rest: string)
    requires forall i :: 0 <= i < |records| ==> NoNewline(records[i])
    requires NoNewline(rest)
    requires s == Join(records) + rest
    ensures Frame(s) == Framed(records, rest)
    decreases |records|
  {
    if records == [] {
      assert s == rest;
    } else {
      var r := records[0];
      var tail := Join(records[1..]) + rest;
      JoinCons(r, records[1..]);
      assert [r] + records[1..] == records;
      assert s == r + "\n" + tail;
      var i := IndexOf(s, '\n');
      assert s[|r|] == '\n';
      assert i == |r|;
      assert s[..i] == r;
      assert s[i + 1..] == tail;
      FrameUnique(tail, records[1..], rest);
    }
  }

  /**
   * Framing `a + b` in one go cuts the records of `a`, then those of what
   * `a` left over followed by `b`: text split across chunks frames the same.
   */
  lemma FrameAppend(a: string, b: string)
    ensures var fa := Frame(a);
            var fb := Frame(fa.rest + b);
            Frame(a + b) == Framed(fa.records + fb.records, fb.rest)
  {
    var fa := Frame(a);
    var fb := Frame(fa.rest + b);
    FrameJoin(a);
    FrameJoin(fa.rest + b);
    JoinedPieces(a, b, fa, fb);
    FrameUnique(a + b, fa.records + fb.records, fb.rest);
  }

  lemma JoinedPieces(a: string, b: string, fa: Framed, fb: Framed)
    requires a == Join(fa.records) + fa.rest
    requires fa.rest + b == Join(fb.records) + fb.rest
    requires forall i :: 0 <= i < |fa.records| ==> NoNewline(fa.records[i])
    requires forall i :: 0 <= i < |fb.records| ==> NoNewline(fb.records[i])
    ensures a + b == Join(fa.records + fb.records) + fb.rest
    ensures forall i :: 0 <= i < |fa.records + fb.records| ==> NoNewline((fa.records + fb.records)[i])
  {
    JoinAppend(fa.records, fb.records);
    calc {
      a + b;
      (Join(fa.records) + fa.rest) + b;
      Join(fa.records) + (fa.rest + b);
      Join(fa.records) + (Join(fb.records) + fb.rest);
      (Join(fa.records) + Join(fb.records)) + fb.rest;
    }
    var records := fa.records + fb.records;
    forall i | 0 <= i < |records|
      ensures NoNewline(records[i])
    {
      if i >= |fa.records| {
        assert records[i] == fb.records[i - |fa.records|];
      }
    }
  }

  /** One turn of the framing loop: the record before the first newline moves from the buffer to the records. */
  lemma CutRecord(whole: string, done: seq<string>, buffer: string, i: nat)
    requires whole == Join(done) + buffer
    requires i < |buffer| && i == IndexOf(buffer, '\n')
    requires forall k :: 0 <= k < |done| ==> NoNewline(done[k])
    ensures NoNewline(buffer[..i])
    ensures forall k :: 0 <= k < |done + [buffer[..i]]| ==> NoNewline((done + [buffer[..i]])[k])
    ensures whole == Join(done + [buffer[..i]]) + buffer[i + 1..]
  {
    SplitAtNewline(buffer, i);
    JoinAppend(done, [buffer[..i]]);
    JoinCons(buffer[..i], []);
    assert [buffer[..i]] + [] == [buffer[..i]];
  }

  /** The state the serial path keeps besides the buffer: `graphConfig`, `plotData` and the render calls made. */
  datatype Session = Session(config: Option<GraphConfig>, plot: PlotEntries, renders: seq<RenderEvent>)

  /**
   * One turn of the framing loop after the record was cut out: a blank
   * record is skipped unparsed; a record that does not parse, or whose
   * handler throws, is dropped; otherwise it goes to the handler its `type`
   * names. Only a config record can change `graphConfig`, and then only to
   * the config it carries.
   */
  function ProcessRecord(parse: Parser, s: Session, record: string): (r: Session)
    ensures IsBlank(record) ==> r == s
    ensures parse(record).None? || parse(record).value.OtherType? || parse(record).value.NullValue? ==> r == s
    ensures !(parse(record).Some? && parse(record).value.Config?) ==> r.config == s.config && r.plot == s.plot
    ensures r.config != s.config ==> parse(record).Some? && parse(record).value.Config? && r.config == Some(parse(record).value.config)
    ensures parse(record).Some? && parse(record).value.Config? && ApplyConfig(parse(record).value.config, s.config, s.plot).completion.Abrupt?
      ==> r.config == s.config && r.renders == s.renders
    ensures |s.renders| <= |r.renders| && r.renders[..|s.renders|] == s.renders
    ensures !IsBlank(record) && parse(record).Some? && parse(record).value.Config? ==>
      var e := ApplyConfig(parse(record).value.config, s.config, s.plot);
      r == Session(if e.completion.Normal? then Some(parse(record).value.config) else s.config, e.plot, s.renders + e.events)
    ensures !IsBlank(record) && parse(record).Some? && parse(record).value.Data? ==>
      match DataEffect(parse(record).value.data, s.config)
      case Normal(events) => r == s.(renders := s.renders + events)
      case Abrupt => r == s
  {
    if |Trim(record)| == 0 then s
    else
      match parse(record)
      case None => s
      case Some(NullValue) => s
      case Some(OtherType) => s
      case Some(Config(c)) =>
        var e := ApplyConfig(c, s.config, s.plot);
        Session(if e.completion.Normal? then Some(e.completion.value) else s.config, e.plot, s.renders + e.events)
      case Some(Data(d)) =>
        match DataEffect(d, s.config)
        case Normal(events) => s.(renders := s.renders + events)
        case Abrupt => s
  }

  /** A record handler: the session one record leaves, given the session before it. */
  type RecordStep = (Session, string) -> Session

  /** `ProcessRecord` with a fixed parser, as a record handler. */
  function Handler(parse: Parser): RecordStep {
    (s, record) => ProcessRecord(parse, s, record)
  }

  /** The records of one chunk handled in order, each from the state the previous one left. */
  function ProcessAll(step: RecordStep, s: Session, records: seq<string>): Session
    decreases |records|
  {
    if records == [] then s
    else step(ProcessAll(step, s, records[..|records| - 1]), records[|records| - 1])
  }

  lemma ProcessAllSnoc(step: RecordStep, s: Session, records: seq<string>, record: string)
    ensures ProcessAll(step, s, records + [record]) == step(ProcessAll(step, s, records), record)
  {
    assert (records + [record])[..|records|] == records;
  }

  lemma {:induction false} ProcessAllAppend(step: RecordStep, s: Session, a: seq<string>, b: seq<string>)
    ensures ProcessAll(step, s, a + b) == ProcessAll(step, ProcessAll(step, s, a), b)
    decreases |b|
  {
    if b == [] {
      assert a + b == a;
    } else {
      assert (a + b)[..|a + b| - 1] == a + b[..|b| - 1];
      ProcessAllAppend(step, s, a, b[..|b| - 1]);
    }
  }

  /**
   * A record that fails to parse is dropped and the records after it are
   * still handled, from the state the records before it left.
   */
  lemma ParseFailureContained(parse: Parser, s: Session, before: seq<string>, record: string, after: seq<string>)
    requires parse(record).None?
    ensures ProcessAll(Handler(parse), s, before + [record] + after) == ProcessAll(Handler(parse), s, before + after)
  {
    ProcessAllAppend(Handler(parse), s, before + [record], after);
    ProcessAllAppend(Handler(parse), s, before, [record]);
    ProcessAllAppend(Handler(parse), s, before, after);
    assert ProcessAll(Handler(parse), ProcessAll(Handler(parse), s, before), [record])
        == ProcessRecord(parse, ProcessAll(Handler(parse), s, before), record);
  }

  /**
   * A config record whose handler throws leaves `graphConfig` and the render
   * calls as they were; the only trace it can leave is the plot data a bar
   * config reshaped before reading its missing axis. The records after it
   * are handled from there, and after any other throwing config exactly as
   * if the record had not been sent.
   */
  lemma HandlerFailureContained(parse: Parser, s: Session, record: string, after: seq<string>)
    requires parse(record).Some? && parse(record).value.Config?
    requires ApplyConfig(parse(record).value.config, s.config, s.plot).completion.Abrupt?
    ensures ProcessRecord(parse, s, record).config == s.config
    ensures ProcessRecord(parse, s, record).renders == s.renders
    ensures ProcessAll(Handler(parse), s, [record] + after)
         == ProcessAll(Handler(parse), s.(plot := ProcessRecord(parse, s, record).plot), after)
    ensures !IsBlank(record) ==>
      ProcessAll(Handler(parse), s, [record] + after)
      == ProcessAll(Handler(parse), s.(plot := ApplyConfig(parse(record).value.config, s.config, s.plot).plot), after)
    ensures parse(record).value.config.graphType != "bar" ==>
      ProcessAll(Handler(parse), s, [record] + after) == ProcessAll(Handler(parse), s, after)
  {
    ProcessAllAppend(Handler(parse), s, [record], after);
    assert ProcessAll(Handler(parse), s, [record]) == ProcessRecord(parse, ProcessAll(Handler(parse), s, []), record);
    assert ProcessRecord(parse, s, record) == s.(plot := ProcessRecord(parse, s, record).plot);
  }

  /**
   * Replaying a config record that was just accepted changes nothing: the
   * second copy finds an identical active config.
   */
  lemma ConfigReplayIsNoOp(parse: Parser, s: Session, record: string)
    requires parse(record).Some? && parse(record).value.Config?
    requires ProcessRecord(parse, s, record).config == Some(parse(record).value.config)
    ensures var once := ProcessRecord(parse, s, record);
            ProcessRecord(parse, once, record) == once
  {
  }

  /** The buffer and the session: everything one serial-data event reads and writes. */
  datatype FeedState = FeedState(buffer: string, session: Session)

  /**
   * One serial-data event: append the chunk, frame, handle the records in
   * order. What is left in the buffer is the newline-free tail of the old
   * buffer and the chunk.
   */
  function Feed(step: RecordStep, st: FeedState, chunk: string): (r: FeedState)
    ensures NoNewline(r.buffer)
    ensures var text := st.buffer + chunk;
      |r.buffer| <= |text| && r.buffer == text[|text| - |r.buffer|..]
  {
    var f := Frame(st.buffer + chunk);
    FrameJoin(st.buffer + chunk);
    FeedState(f.rest, ProcessAll(step, st.session, f.records))
  }

  /** A sequence of chunks delivered one event at a time. */
  function FeedAll(step: RecordStep, st: FeedState, chunks: seq<string>): FeedState
    decreases |chunks|
  {
    if chunks == [] then st
    else Feed(step, FeedAll(step, st, chunks[..|chunks| - 1]), chunks[|chunks| - 1])
  }

  function Concat(chunks: seq<string>): string
    decreases |chunks|
  {
    if chunks == [] then [] else Concat(chunks[..|chunks| - 1]) + chunks[|chunks| - 1]
  }

  /** Framing a buffer followed by two chunks in one go, or the second after what the first left. */
  lemma FrameTwoChunks(buffer: string, a: string, b: string)
    ensures var fa := Frame(buffer + a);
            var fb := Frame(fa.rest + b);
            Frame(buffer + (a + b)) == Framed(fa.records + fb.records, fb.rest)
  {
    assert buffer + (a + b) == buffer + a + b;
    FrameAppend(buffer + a, b);
  }

  /** Two events in a row have the effect of one event carrying both chunks. */
  lemma FeedTwice(step: RecordStep, st: FeedState, a: string, b: string)
    ensures Feed(step, Feed(step, st, a), b) == Feed(step, st, a + b)
  {
    var fa := Frame(st.buffer + a);
    var fb := Frame(fa.rest + b);
    FrameTwoChunks(st.buffer, a, b);
    ProcessAllAppend(step, st.session, fa.records, fb.records);
  }

  /**
   * Splitting a text into chunks at arbitrary boundaries changes neither
   * the records handled nor the final state: it is as if the whole text
   * arrived in one event. The buffer between events holds no newline.
   * This holds whatever a record does to the session, so it is stated for
   * any record handler; `Handler(parse)` is the one the connector uses.
   */
  lemma {:induction false} ChunkingIrrelevant(step: RecordStep, st: FeedState, chunks: seq<string>)
    requires NoNewline(st.buffer)
    ensures FeedAll(step, st, chunks) == Feed(step, st, Concat(chunks))
    decreases |chunks|
  {
    if chunks == [] {
      FrameUnique(st.buffer, [], st.buffer);
      assert st.buffer + [] == st.buffer;
    } else {
      var init := chunks[..|chunks| - 1];
      ChunkingIrrelevant(step, st, init);
      FeedTwice(step, st, Concat(init), chunks[|chunks| - 1]);
    }
  }

  /** `MicrobitConnectorUSB`, reduced to the state its serial-data handler touches. */
  class MicrobitConnectorUSB {
    /** Text received but not yet ended by a newline. */
    var dataBuffer: string
    /** The active configuration, `null` until one is accepted. */
    var graphConfig: Option<GraphConfig>
    /** The dictionary `handleConfig` shapes for bar and pie charts. */
    var plotData: PlotData
    /** The chart-library calls made so far. */
    var renders: seq<RenderEvent>

    ghost predicate Valid()
      reads this
    {
      NoNewline(dataBuffer)
    }

    ghost function State(): FeedState
      reads this, plotData
    {
      FeedState(dataBuffer, Session(graphConfig, plotData.entries, renders))
    }

    constructor ()
      ensures Valid()
      ensures dataBuffer == "" && graphConfig == None && renders == []
      ensures fresh(plotData) && plotData.entries == map[]
    {
      dataBuffer := "";
      graphConfig := None;
      plotData := new PlotData();
      renders := [];
    }

    /**
     * One turn of the framing loop once the record is cut out: a blank
     * record is skipped; otherwise the record is parsed and handed to the
     * handler its `type` names, and a thrown error drops it.
     */
    method HandleRecord(jsonString: string, parse: Parser)
      modifies this, plotData
      ensures plotData == old(plotData) && dataBuffer == old(dataBuffer)
      ensures State().session == ProcessRecord(parse, old(State()).session, jsonString)
    {
      if |Trim(jsonString)| == 0 {
        return;
      }
      match parse(jsonString)
      case Some(Config(c)) =>
        var completion, events := HandleConfig(c, graphConfig, plotData);
        renders := renders + events;
        match completion {
          case Normal(accepted) => graphConfig := Some(accepted);
          case Abrupt =>
        }
      case Some(Data(d)) =>
        var completion := HandleData(d, graphConfig);
        match completion {
          case Normal(drawn) => renders := renders + drawn;
          case Abrupt =>
        }
      case _ =>
    }

    /**
     * The `serialdata` event handler. Afterwards the buffer holds exactly
     * the unterminated tail of the old buffer and the chunk, and the records
     * cut out before it have been handled in order.
     */
    method HandleSerialData(chunk: string, parse: Parser)
      modifies this, plotData
      ensures Valid()
      ensures plotData == old(plotData)
      ensures State() == Feed(Handler(parse), old(State()), chunk)
    {
      ghost var s0 := Session(graphConfig, plotData.entries, renders);
      ghost var table := plotData;
      ghost var whole := dataBuffer + chunk;
      ghost var done: seq<string> := [];
      dataBuffer := dataBuffer + chunk;
      var newlineIndex := IndexOf(dataBuffer, '\n');
      while newlineIndex != -1
        invariant plotData == table
        invariant newlineIndex == IndexOf(dataBuffer, '\n')
        invariant whole == Join(done) + dataBuffer
        invariant forall i :: 0 <= i < |done| ==> NoNewline(done[i])
        invariant Session(graphConfig, plotData.entries, renders) == ProcessAll(Handler(parse), s0, done)
        decreases |dataBuffer|
      {
        var jsonString := dataBuffer[..newlineIndex];
        CutRecord(whole, done, dataBuffer, newlineIndex);
        dataBuffer := dataBuffer[newlineIndex + 1..];
        ProcessAllSnoc(Handler(parse), s0, done, jsonString);
        done := done + [jsonString];
        HandleRecord(jsonString, parse);
        newlineIndex := IndexOf(dataBuffer, '\n');
      }
      FrameUnique(whole, done, dataBuffer);
    }
  }
}

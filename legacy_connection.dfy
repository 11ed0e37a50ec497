/**
 * The older serial reader `MicrobitConnector` (`src/microbit/c1.ts`): the
 * trimmed chunks are appended to a text buffer, and every `{...}` fragment
 * that the global pattern `{[^}]*}` finds in it is parsed and handed to
 * `processData`, which passes the sample on to the plotter.
 *
 * `JSON.parse`, together with the reading of the four fields that
 * `processData` uses, is a parameter; `None` stands for a thrown
 * `SyntaxError`. The `updatePlot` calls are returned in order.
 */
module LegacyConnection {
  import opened Wrappers
  import opened JsText

  /** The four fields `processData` passes to `updatePlot`. */
  datatype Sample = Sample(timestamp: real, x: real, y: real, z: real)

  /** `JSON.parse` of one fragment; `None` is a thrown `SyntaxError`. */
  type Parser = string -> Option<Sample>

  /** A match of the pattern: the text `s[start..end]`. */
  datatype Span = Span(start: nat, end: nat)

  /** `sp` is a match of `{[^}]*}` in `s`: a `{`, then no `}`, then a `}`. */
  predicate IsMatch(s: string, sp: Span) {
    && sp.start < sp.end <= |s|
    && s[sp.start] == '{' && s[sp.end - 1] == '}'
    && forall k :: sp.start < k < sp.end - 1 ==> s[k] != '}'
  }

  /** Some match of the pattern begins at position `p` of `s`. */
  predicate MatchesAt(s: string, p: nat) {
    p < |s| && s[p] == '{' && exists q :: p < q < |s| && s[q] == '}'
  }

  /** The first position at or after `from` holding `c`, if any. */
  function Find(s: string, c: char, from: nat): (i: Option<nat>)
    ensures i.Some? ==> from <= i.value < |s| && s[i.value] == c
    decreases |s| - from
  {
    if from >= |s| then None
    else if s[from] == c then Some(from)
    else Find(s, c, from + 1)
  }

  /** `Find` returns the first `c`, and nothing exactly when there is no `c` to find. */
  lemma {:induction false} FindIsFirst(s: string, c: char, from: nat)
    ensures var i := Find(s, c, from);
      && (i.None? <==> forall k :: from <= k < |s| ==> s[k] != c)
      && (i.Some? ==> forall k :: from <= k < i.value ==> s[k] != c)
    decreases |s| - from
  {
    if from < |s| && s[from] != c {
      FindIsFirst(s, c, from + 1);
    }
  }

  /**
   * One `exec` of the global pattern with `lastIndex == from`: the leftmost
   * match beginning at or after `from`, or `None` when there is none.
   */
  function Exec(s: string, from: nat): (m: Option<Span>)
    ensures m.Some? ==> from <= m.value.start < m.value.end <= |s|
  {
    match Find(s, '{', from)
    case None => None
    case Some(p) =>
      match Find(s, '}', p + 1)
      case None => None
      case Some(q) => Some(Span(p, q + 1))
  }

  /**
   * `Exec` is the regular-expression search: what it returns is a match
   * with no match beginning before it, and it returns nothing exactly when
   * no match begins at or after `from`.
   */
  lemma ExecIsLeftmostMatch(s: string, from: nat)
    ensures var m := Exec(s, from);
      && (m.Some? ==> IsMatch(s, m.value) && from <= m.value.start)
      && (m.Some? ==> forall k :: from <= k < m.value.start ==> !MatchesAt(s, k))
      && (m.None? <==> forall k :: from <= k < |s| ==> !MatchesAt(s, k))
  {
    FindIsFirst(s, '{', from);
    match Find(s, '{', from)
    case None =>
    case Some(p) =>
      FindIsFirst(s, '}', p + 1);
      match Find(s, '}', p + 1)
      case None =>
        assert !MatchesAt(s, p);
        forall k | from <= k < |s|
          ensures !MatchesAt(s, k)
        {
          if k > p && s[k] == '{' {
            assert forall q :: k < q < |s| ==> s[q] != '}';
          }
        }
      case Some(q) =>
        assert MatchesAt(s, p);
  }

  /** Every match the `exec` loop finds, each search resuming where the previous match ended. */
  function Matches(s: string, from: nat): seq<Span>
    decreases |s| - from
  {
    match Exec(s, from)
    case None => []
    case Some(sp) => [sp] + Matches(s, sp.end)
  }

  /**
   * The fragments are genuine matches, lie after `from`, come in text
   * order without overlapping, and no `{` left over has a `}` after it.
   */
  lemma {:induction false} MatchesOrdered(s: string, from: nat)
    ensures var spans := Matches(s, from);
      && (forall i :: 0 <= i < |spans| ==> IsMatch(s, spans[i]) && from <= spans[i].start)
      && (forall i, j :: 0 <= i < j < |spans| ==> spans[i].end <= spans[j].start)
      && forall k :: (if spans == [] then from else spans[|spans| - 1].end) <= k < |s| ==> !MatchesAt(s, k)
    decreases |s| - from
  {
    ExecIsLeftmostMatch(s, from);
    match Exec(s, from)
    case None =>
    case Some(sp) =>
      MatchesOrdered(s, sp.end);
      var rest := Matches(s, sp.end);
      assert Matches(s, from) == [sp] + rest;
  }

  /** What the loop handed to `processData`, and whether a `JSON.parse` threw. */
  datatype Delivery = Delivery(samples: seq<Sample>, failed: bool)

  /**
   * The `while` loop of `handleSerialData` from `lastIndex == from`: each
   * fragment is parsed and passed on, until the pattern finds no more or a
   * parse throws, which leaves the loop for the `catch`.
   */
  function Drain(parse: Parser, s: string, from: nat): (d: Delivery)
    ensures |d.samples| <= |Matches(s, from)|
    ensures |d.samples| == |Matches(s, from)| <==> !d.failed
    decreases |s| - from
  {
    match Exec(s, from)
    case None => Delivery([], false)
    case Some(sp) =>
      match parse(s[sp.start..sp.end])
      case None => Delivery([], true)
      case Some(sample) =>
        var rest := Drain(parse, s, sp.end);
        Delivery([sample] + rest.samples, rest.failed)
  }

  /**
   * The samples passed on are the parses of the first fragments, in order;
   * the loop fails exactly when a fragment is left over, and then that
   * fragment is the one that did not parse.
   */
  lemma {:induction false} DrainParsesMatches(parse: Parser, s: string, from: nat)
    ensures var d := Drain(parse, s, from);
      var spans := Matches(s, from);
      && |d.samples| <= |spans|
      && (forall i :: 0 <= i < |d.samples| ==>
            spans[i].start <= spans[i].end <= |s| && parse(s[spans[i].start..spans[i].end]) == Some(d.samples[i]))
      && (d.failed <==> |d.samples| < |spans|)
      && (d.failed ==> var sp := spans[|d.samples|];
                       sp.start <= sp.end <= |s| && parse(s[sp.start..sp.end]) == None)
    decreases |s| - from
  {
    match Exec(s, from)
    case None =>
    case Some(sp) =>
      var spans := Matches(s, from);
      assert spans == [sp] + Matches(s, sp.end);
      var text := s[sp.start..sp.end];
      if parse(text).Some? {
        DrainParsesMatches(parse, s, sp.end);
        var rest := Drain(parse, s, sp.end);
        var d := Drain(parse, s, from);
        assert d.samples == [parse(text).value] + rest.samples && d.failed == rest.failed;
        ParsedShift(parse, s, sp, Matches(s, sp.end), parse(text).value, rest.samples);
      }
  }

  /** Putting one parsed fragment in front keeps every later fragment paired with its sample. */
  lemma ParsedShift(parse: Parser, s: string, sp: Span, spans: seq<Span>, sample: Sample, samples: seq<Sample>)
    requires |samples| <= |spans|
    requires forall i :: 0 <= i < |samples| ==>
      spans[i].start <= spans[i].end <= |s| && parse(s[spans[i].start..spans[i].end]) == Some(samples[i])
    ensures forall i :: 1 <= i < |samples| + 1 ==>
      ([sp] + spans)[i].start <= ([sp] + spans)[i].end <= |s|
      && parse(s[([sp] + spans)[i].start..([sp] + spans)[i].end]) == Some(([sample] + samples)[i])
  {
    forall i | 1 <= i < |samples| + 1
      ensures ([sp] + spans)[i].start <= ([sp] + spans)[i].end <= |s|
      ensures parse(s[([sp] + spans)[i].start..([sp] + spans)[i].end]) == Some(([sample] + samples)[i])
    {
      assert ([sp] + spans)[i] == spans[i - 1] && ([sample] + samples)[i] == samples[i - 1];
    }
  }

  /** One turn of the loop: a fragment that parses is passed on before the rest. */
  lemma DrainNext(parse: Parser, s: string, from: nat, sp: Span)
    requires Exec(s, from) == Some(sp)
    ensures parse(s[sp.start..sp.end]).None? ==> Drain(parse, s, from).samples == []
    ensures parse(s[sp.start..sp.end]).Some? ==>
      Drain(parse, s, from).samples == [parse(s[sp.start..sp.end]).value] + Drain(parse, s, sp.end).samples
  {
  }

  /** Text appended after a match does not change it: `exec` reads no further than the `}`. */
  lemma {:induction false} FindExtend(s: string, t: string, c: char, from: nat)
    requires Find(s, c, from).Some?
    ensures Find(s + t, c, from) == Find(s, c, from)
    decreases |s| - from
  {
    if s[from] != c {
      FindExtend(s, t, c, from + 1);
    }
  }

  /** A match found in `s` is found, unchanged, in `s + t`. */
  lemma ExecExtend(s: string, t: string, from: nat)
    requires Exec(s, from).Some?
    ensures Exec(s + t, from) == Exec(s, from)
  {
    var p := Find(s, '{', from).value;
    FindExtend(s, t, '{', from);
    FindExtend(s, t, '}', p + 1);
  }

  /** What the loop passes on for `s` is a prefix of what it passes on for `s + t`. */
  lemma {:induction false} DrainExtend(parse: Parser, s: string, t: string, from: nat)
    ensures var short := Drain(parse, s, from).samples;
      var long := Drain(parse, s + t, from).samples;
      |short| <= |long| && long[..|short|] == short
    decreases |s| - from
  {
    match Exec(s, from)
    case None =>
    case Some(sp) =>
      ExecExtend(s, t, from);
      assert (s + t)[sp.start..sp.end] == s[sp.start..sp.end];
      if parse(s[sp.start..sp.end]).Some? {
        DrainExtend(parse, s, t, sp.end);
      }
  }

  /** The buffer and the `updatePlot` calls after one `serialdata` event. */
  datatype Handled = Handled(buffer: string, calls: seq<Sample>)

  /**
   * `handleSerialData` as written. After the loop `exec` has failed, which
   * sets `lastIndex` back to 0, so `slice(lastIndex)` keeps the whole
   * buffer; after a parse error the `catch` keeps it too.
   */
  function Handle(parse: Parser, buffer: string, chunk: string): (h: Handled)
    ensures h.buffer == buffer + Trim(chunk) && |h.buffer| >= |buffer|
    ensures h.calls == Drain(parse, h.buffer, 0).samples
  {
    var appended := buffer + Trim(chunk);
    var lastIndex := 0;
    Handled(appended[lastIndex..], Drain(parse, appended, 0).samples)
  }

  /**
   * Every sample passed on by one event is passed on again, first and in
   * the same order, by the next one.
   */
  lemma RedeliversEarlierSamples(parse: Parser, buffer: string, first: string, second: string)
    ensures var h1 := Handle(parse, buffer, first);
      var h2 := Handle(parse, h1.buffer, second);
      |h1.calls| <= |h2.calls| && h2.calls[..|h1.calls|] == h1.calls
  {
    var h1 := Handle(parse, buffer, first);
    DrainExtend(parse, h1.buffer, Trim(second), 0);
  }

  /** A string that neither starts nor ends with whitespace is its own `trim`. */
  lemma TrimTrimmed(s: string)
    requires s != [] && !IsWhitespace(s[0]) && !IsWhitespace(s[|s| - 1])
    ensures Trim(s) == s
  {
    assert LeadingWhitespace(s) == 0 && TrailingWhitespace(s) == 0;
    assert s[0..|s|] == s;
  }

  /** A parser that reads every fragment as the same sample. */
  function ConstantParser(sample: Sample): Parser {
    _ => Some(sample)
  }

  /** Where the pattern matches in one and in two empty objects. */
  lemma ExecOnEmptyObjects()
    ensures Exec("{}", 0) == Some(Span(0, 2)) && Exec("{}", 2) == None
    ensures Exec("{}{}", 0) == Some(Span(0, 2)) && Exec("{}{}", 2) == Some(Span(2, 4))
    ensures Exec("{}{}", 4) == None
  {
    assert Find("{}", '{', 0) == Some(0) && Find("{}", '}', 1) == Some(1);
    assert Find("{}{}", '{', 0) == Some(0) && Find("{}{}", '}', 1) == Some(1);
    assert Find("{}{}", '{', 2) == Some(2) && Find("{}{}", '}', 3) == Some(3);
  }

  /** With every fragment parsed as `sample`, one empty object passes `sample` on once. */
  lemma DrainOneObject(sample: Sample)
    ensures Drain(ConstantParser(sample), "{}", 0) == Delivery([sample], false)
  {
    ExecOnEmptyObjects();
    assert Drain(ConstantParser(sample), "{}", 2) == Delivery([], false);
  }

  /** With every fragment parsed as `sample`, two empty objects pass `sample` on twice. */
  lemma DrainTwoObjects(sample: Sample)
    ensures Drain(ConstantParser(sample), "{}{}", 0) == Delivery([sample, sample], false)
  {
    ExecOnEmptyObjects();
    assert Drain(ConstantParser(sample), "{}{}", 4) == Delivery([], false);
    assert Drain(ConstantParser(sample), "{}{}", 2) == Delivery([sample], false);
  }

  /** The first event, one empty object into an empty buffer, passes one sample on. */
  lemma FirstEventOneObject(sample: Sample)
    ensures Handle(ConstantParser(sample), "", "{}") == Handled("{}", [sample])
  {
    TrimTrimmed("{}");
    assert "" + "{}" == "{}";
    DrainOneObject(sample);
  }

  /** The second event, one more empty object, passes two samples on. */
  lemma SecondEventOneObject(sample: Sample)
    ensures Handle(ConstantParser(sample), "{}", "{}") == Handled("{}{}", [sample, sample])
  {
    TrimTrimmed("{}");
    assert "{}" + "{}" == "{}{}";
    DrainTwoObjects(sample);
  }

  /**
   * One object per event, two events: the second event passes two samples
   * on, the first object a second time.
   */
  lemma OneObjectDeliveredTwice(sample: Sample)
    ensures var parse := ConstantParser(sample);
      var h1 := Handle(parse, "", "{}");
      var h2 := Handle(parse, h1.buffer, "{}");
      h1.calls == [sample] && h2.calls == [sample, sample]
  {
    FirstEventOneObject(sample);
    SecondEventOneObject(sample);
  }

  /** Where the loop stops reading: the end of the last fragment, or `from`. */
  function Consumed(s: string, from: nat): (end: nat)
    ensures end == from || from < end <= |s|
    decreases |s| - from
  {
    match Exec(s, from)
    case None => from
    case Some(sp) => Consumed(s, sp.end)
  }

  /** `Consumed` is the end of the last of the matches. */
  lemma {:induction false} ConsumedIsLastEnd(s: string, from: nat)
    ensures var spans := Matches(s, from);
      Consumed(s, from) == if spans == [] then from else spans[|spans| - 1].end
    decreases |s| - from
  {
    match Exec(s, from)
    case None =>
    case Some(sp) =>
      ConsumedIsLastEnd(s, sp.end);
      assert Matches(s, from) == [sp] + Matches(s, sp.end);
  }

  /** A match in a suffix of `s` is a match in `s`, shifted. */
  lemma MatchesAtSuffix(s: string, cut: nat, k: nat)
    requires cut <= |s|
    ensures MatchesAt(s[cut..], k) ==> MatchesAt(s, cut + k)
  {
    if MatchesAt(s[cut..], k) {
      var q :| k < q < |s[cut..]| && s[cut..][q] == '}';
      assert s[cut + q] == '}';
    }
  }

  /**
   * `handleSerialData` as its comment intends: after a clean pass the
   * buffer is cut after the last fragment; after a parse error it is kept
   * to wait for more data.
   */
  function HandleIntended(parse: Parser, buffer: string, chunk: string): (h: Handled)
    ensures h.calls == Handle(parse, buffer, chunk).calls
    ensures var appended := buffer + Trim(chunk);
      |h.buffer| <= |appended| && h.buffer == appended[|appended| - |h.buffer|..]
    ensures Drain(parse, buffer + Trim(chunk), 0).failed ==> h.buffer == buffer + Trim(chunk)
  {
    var appended := buffer + Trim(chunk);
    var d := Drain(parse, appended, 0);
    if d.failed then Handled(appended, d.samples)
    else
      var cut := Consumed(appended, 0);
      Handled(appended[cut..], d.samples)
  }

  /**
   * The intended handler passes on the same samples, and after a clean pass
   * it leaves no complete fragment in the buffer to be passed on again.
   */
  lemma IntendedDeliversOnce(parse: Parser, buffer: string, chunk: string)
    ensures var h := HandleIntended(parse, buffer, chunk);
      && h.calls == Handle(parse, buffer, chunk).calls
      && (!Drain(parse, buffer + Trim(chunk), 0).failed ==> Exec(h.buffer, 0).None?)
  {
    var appended := buffer + Trim(chunk);
    var d := Drain(parse, appended, 0);
    if !d.failed {
      var cut := Consumed(appended, 0);
      MatchesOrdered(appended, 0);
      ConsumedIsLastEnd(appended, 0);
      var rest := appended[cut..];
      ExecIsLeftmostMatch(rest, 0);
      forall k | 0 <= k < |rest|
        ensures !MatchesAt(rest, k)
      {
        MatchesAtSuffix(appended, cut, k);
      }
    }
  }

  /** Over the same two events the intended handler passes each object on once. */
  lemma IntendedDeliversObjectOnce(sample: Sample)
    ensures var parse := ConstantParser(sample);
      var h1 := HandleIntended(parse, "", "{}");
      var h2 := HandleIntended(parse, h1.buffer, "{}");
      h1.calls == [sample] && h2.calls == [sample] && h2.buffer == ""
  {
    ExecOnEmptyObjects();
    TrimTrimmed("{}");
    DrainOneObject(sample);
    assert "" + "{}" == "{}";
    assert Consumed("{}", 0) == 2;
    assert HandleIntended(ConstantParser(sample), "", "{}") == Handled("", [sample]);
  }

  /** `MicrobitConnector`, reduced to the state its serial-data handler touches. */
  class MicrobitConnector {
    /** Text received and not yet removed. */
    var dataBuffer: string

    constructor ()
      ensures dataBuffer == ""
    {
      dataBuffer := "";
    }

    /**
     * The `serialdata` event handler, returning the samples handed to
     * `processData` in order.
     */
    method HandleSerialData(chunk: string, parse: Parser) returns (calls: seq<Sample>)
      modifies this
      ensures Handled(dataBuffer, calls) == Handle(parse, old(dataBuffer), chunk)
    {
      dataBuffer := dataBuffer + Trim(chunk);
      var buffer := dataBuffer;
      calls := [];
      var lastIndex: nat := 0;
      var found := Exec(buffer, lastIndex);
      while found.Some?
        modifies {}
        invariant found == Exec(buffer, lastIndex)
        invariant lastIndex <= |buffer|
        invariant Drain(parse, buffer, 0).samples == calls + Drain(parse, buffer, lastIndex).samples
        decreases |buffer| - lastIndex
      {
        var jsonString := buffer[found.value.start..found.value.end];
        DrainNext(parse, buffer, lastIndex, found.value);
        lastIndex := found.value.end;
        match parse(jsonString)
        case None =>
          // the `catch` leaves the buffer as it is
          return;
        case Some(parsedData) =>
          calls := calls + [parsedData];
          found := Exec(buffer, lastIndex);
      }
      // the failed `exec` has set `lastIndex` back to 0
      lastIndex := 0;
      dataBuffer := dataBuffer[lastIndex..];
    }
  }
}

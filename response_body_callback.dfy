/** `ResponseBodyCallback`: decodes the body of a streamed chat-completion response, line by
    line, into items handed to a `SubmissionPublisher`, and closes that publisher normally or
    exceptionally. Two framings are recognised: a simplified subset of the `text/event-stream`
    format of the WHATWG HTML Living Standard, section 9.2 (`data:` lines ended by a blank
    line, `event:` lines ignored, `[DONE]` as a terminator), and a plain JSON document. */
module StreamCallback {
  import opened Wrappers
  import opened Http
  import JavaText
  import ServiceUtil

  const EVENT_PREFIX: string := "event:"
  const DATA_PREFIX: string := "data:"
  const DONE: string := "[DONE]"
  const INVALID_SSE: string := "Invalid sse format! "

  /** Jackson reading a payload as the item type `T`. */
  type Parser<T> = string -> Parsed<T>

  // ---------------------------------------------------------------------------
  // The decoder's state and one line of input
  // ---------------------------------------------------------------------------

  /** The loop's variables: the pending `data:` payload (`sse`), whether a `data:` line has been
      seen (`isSEE`), and the accumulated non-event content (`nonSSEContent`). */
  datatype DecoderState = DecoderState(pending: Option<string>, eventMode: bool, nonEvent: string)

  const Initial: DecoderState := DecoderState(None, false, "")

  /** What one line does: continue (possibly emitting a payload), stop at the sentinel, or
      violate the format. */
  datatype Step = Next(state: DecoderState, emit: Option<string>) | Sentinel | Invalid

  /** The loop body's branches, in the order the code tests them. */
  function StepLine(st: DecoderState, line: string): Step {
    if JavaText.StartsWith(line, EVENT_PREFIX) then Next(st, None)
    else if JavaText.StartsWith(line, DATA_PREFIX) then
      Next(DecoderState(Some(JavaText.Trim(line[|DATA_PREFIX|..])), true, st.nonEvent), None)
    else if line != "" && st.pending.None? && !st.eventMode then
      Next(st.(nonEvent := st.nonEvent + line), None)
    else if line == "" && st.pending.Some? then
      if st.pending.value == DONE then Sentinel
      else Next(st.(pending := None), Some(st.pending.value))
    else Invalid
  }

  // ---------------------------------------------------------------------------
  // Failures, publisher states, outcomes
  // ---------------------------------------------------------------------------

  /** The throwable a publisher is closed with. */
  datatype StreamFailure =
    | Connection(error: ConnectionError)  // an AIConnectionException thrown by onResponse
    | Unparseable(payload: string)        // Jackson could not read this payload as T
    | NullItem                            // submit(null): a NullPointerException
    | BodyReadFailure(message: string)    // readLine threw an IOException
    | MissingBody                         // response.body() was null: a NullPointerException
    | SubmitRejected                      // submit on a closed publisher: an IllegalStateException
    | ErrorTranslationFailed              // processHttpException threw a NullPointerException

  /** `isClosed()` is false while `Open`; the two closed states are `close()` and
      `closeExceptionally(t)`. */
  datatype PublisherState = Open | Closed | Failed(failure: StreamFailure)

  /** The items a response makes the callback submit, and the publisher's state afterwards. */
  datatype Outcome<T> = Outcome(items: seq<T>, state: PublisherState)

  function Prefixed<T>(done: seq<T>, o: Outcome<T>): Outcome<T> {
    Outcome(done + o.items, o.state)
  }

  /** Prefixing in two steps is prefixing with the concatenation. */
  lemma PrefixedTwice<T>(first: seq<T>, second: seq<T>, o: Outcome<T>)
    ensures Prefixed(first, Prefixed(second, o)) == Prefixed(first + second, o)
  {
    assert first + (second + o.items) == (first + second) + o.items;
  }

  /** Why submitting a payload that Jackson did not turn into an item fails the publisher. */
  function ItemFailure<T>(parse: Parser<T>, payload: string): StreamFailure {
    if parse(payload).JsonNull? then NullItem else Unparseable(payload)
  }

  /** The format violation for `line`: an AIConnectionException with code "500". */
  function InvalidFormat(line: string): StreamFailure {
    Connection(ConnectionError(INVALID_SSE + line, Some("500"), NoCause))
  }

  // ---------------------------------------------------------------------------
  // The specification of onResponse
  // ---------------------------------------------------------------------------

  /** How the body ends: `readLine` returns null, `readLine` throws, or the consumer closed the
      publisher before the next `readLine`. */
  datatype Ending = Exhausted | ReadFails(message: string) | Closing

  /** After the loop, with the publisher still open: the non-event fallback, then `close()`.
      Accumulated non-event content that Jackson reads is submitted once: an item is delivered,
      and JSON `null` makes `submit` fail the publisher. Malformed content is dropped: the
      exception the code builds for it is never thrown, so the publisher still closes normally. */
  function Finish<T>(st: DecoderState, parse: Parser<T>): Outcome<T> {
    if !st.eventMode && st.nonEvent != "" then
      match parse(st.nonEvent)
      case Item(item) => Outcome([item], Closed)
      case JsonNull => Outcome([], Failed(NullItem))
      case Malformed => Outcome([], Closed)
    else Outcome([], Closed)
  }

  /** The loop and what follows it, from decoder state `st`, over the lines still to be read,
      with the publisher open. */
  function Run<T>(lines: seq<string>, ending: Ending, st: DecoderState, parse: Parser<T>): Outcome<T>
    decreases |lines|
  {
    if lines == [] then
      match ending
      case Exhausted => Finish(st, parse)
      case ReadFails(message) => Outcome([], Failed(BodyReadFailure(message)))
      case Closing => Outcome([], Closed)
    else
      match StepLine(st, lines[0])
      case Sentinel => Finish(st, parse)
      case Invalid => Outcome([], Failed(InvalidFormat(lines[0])))
      case Next(next, emit) =>
        if emit.None? then Run(lines[1..], ending, next, parse)
        else if parse(emit.value).Item? then
          Prefixed([parse(emit.value).value], Run(lines[1..], ending, next, parse))
        else Outcome([], Failed(ItemFailure(parse, emit.value)))
  }

  /** How a successful body ends when nothing cancels it. */
  datatype BodyEnd = EndOfStream | ReadError(message: string)

  /** A response body: its lines (without terminators) and how reading stops after them. */
  datatype StreamBody = StreamBody(lines: seq<string>, end: BodyEnd)

  /** A Retrofit `Response<ResponseBody>`; its body is null for 204 and 205. */
  datatype StreamResponse = StreamResponse(code: int, statusMessage: string, body: Option<StreamBody>,
                                           errorBody: ServiceUtil.ErrorBodyText)

  /** The lines the loop gets to read and how it stops, when the consumer closes the publisher
      just before the `cancel`-th `readLine` (`None`: never). */
  function Truncated(body: StreamBody, cancel: Option<nat>): (seq<string>, Ending) {
    if cancel.Some? && cancel.value <= |body.lines| then (body.lines[..cancel.value], Closing)
    else (body.lines, match body.end case EndOfStream => Exhausted case ReadError(m) => ReadFails(m))
  }

  /** The failure an unsuccessful response closes the publisher with: an AIConnectionException
      with the translated message and the empty code, caused by the translated error; or, when
      translating throws, that NullPointerException. */
  function HttpFailure(response: StreamResponse, parseError: ServiceUtil.ErrorParser): StreamFailure {
    match ServiceUtil.TranslatedHttpError(
      ServiceUtil.HttpError(response.code, response.statusMessage, response.errorBody), parseError)
    case AIConnection(processed) => Connection(ConnectionError(processed.message, Some(""), ConnectionCause(processed)))
    case NullErrorBody => ErrorTranslationFailed
  }

  /** What `onResponse` does with `response`. */
  function Decode<T>(response: StreamResponse, parse: Parser<T>, parseError: ServiceUtil.ErrorParser,
                     cancel: Option<nat>): Outcome<T>
  {
    if !IsSuccessful(response.code) then Outcome([], Failed(HttpFailure(response, parseError)))
    else if response.body.None? then Outcome([], Failed(MissingBody))
    else
      var (lines, ending) := Truncated(response.body.value, cancel);
      Run(lines, ending, Initial, parse)
  }

  /** One line of `Run`, unfolded at position `i`. */
  lemma RunAt<T>(lines: seq<string>, i: nat, ending: Ending, st: DecoderState, parse: Parser<T>)
    requires i < |lines|
    ensures StepLine(st, lines[i]).Sentinel? ==> Run(lines[i..], ending, st, parse) == Finish(st, parse)
    ensures StepLine(st, lines[i]).Invalid?
        ==> Run(lines[i..], ending, st, parse) == Outcome([], Failed(InvalidFormat(lines[i])))
    ensures StepLine(st, lines[i]).Next? && StepLine(st, lines[i]).emit.None?
        ==> Run(lines[i..], ending, st, parse) == Run(lines[i + 1..], ending, StepLine(st, lines[i]).state, parse)
    ensures StepLine(st, lines[i]).Next? && StepLine(st, lines[i]).emit.Some?
        && !parse(StepLine(st, lines[i]).emit.value).Item?
        ==> Run(lines[i..], ending, st, parse) == Outcome([], Failed(ItemFailure(parse, StepLine(st, lines[i]).emit.value)))
    ensures StepLine(st, lines[i]).Next? && StepLine(st, lines[i]).emit.Some?
        && parse(StepLine(st, lines[i]).emit.value).Item?
        ==> Run(lines[i..], ending, st, parse)
            == Prefixed([parse(StepLine(st, lines[i]).emit.value).value],
                        Run(lines[i + 1..], ending, StepLine(st, lines[i]).state, parse))
  {
    assert lines[i..][0] == lines[i] && lines[i..][1..] == lines[i + 1..];
  }

  // ---------------------------------------------------------------------------
  // Properties of a single line
  // ---------------------------------------------------------------------------

  /** An `event:` line changes nothing. */
  lemma EventLineIgnored(st: DecoderState, line: string)
    requires JavaText.StartsWith(line, EVENT_PREFIX)
    ensures StepLine(st, line) == Next(st, None)
  {
  }

  /** A `data:` line replaces whatever payload was pending by its trimmed text (payloads are not
      concatenated), turns event mode on, and keeps the non-event content. */
  lemma DataLineReplacesPending(st: DecoderState, line: string)
    requires JavaText.StartsWith(line, DATA_PREFIX)
    ensures StepLine(st, line).Next? && StepLine(st, line).emit.None?
    ensures StepLine(st, line).state.pending == Some(JavaText.Trim(line[5..]))
    ensures StepLine(st, line).state.eventMode
    ensures StepLine(st, line).state.nonEvent == st.nonEvent
  {
    assert !JavaText.StartsWith(line, EVENT_PREFIX) by {
      assert line[4] == ':' && EVENT_PREFIX[4] == 't';
    }
  }

  /** A blank line with a pending payload emits exactly that payload and clears it, unless the
      payload is the sentinel, which stops the stream and emits nothing. */
  lemma BlankLineFlushes(st: DecoderState)
    requires st.pending.Some?
    ensures st.pending.value == DONE ==> StepLine(st, "") == Sentinel
    ensures st.pending.value != DONE ==> StepLine(st, "") == Next(st.(pending := None), st.pending)
  {
  }

  /** The format violations: exactly the blank line with nothing pending, and the non-blank line
      that is neither `event:` nor `data:` once event mode is on or a payload is pending. */
  lemma InvalidLines(st: DecoderState, line: string)
    ensures StepLine(st, line).Invalid? <==>
      !JavaText.StartsWith(line, EVENT_PREFIX) && !JavaText.StartsWith(line, DATA_PREFIX)
      && (if line == "" then st.pending.None? else st.pending.Some? || st.eventMode)
  {
  }

  // ---------------------------------------------------------------------------
  // A reference definition: framing first, then deserialisation
  // ---------------------------------------------------------------------------

  /** Why framing stopped. */
  datatype Stop = Ended(ending: Ending) | SentinelSeen | FormatViolation(line: string)

  /** The payloads the lines frame, in order, and where and in which state framing stopped. */
  datatype Framing = Framing(payloads: seq<string>, stop: Stop, last: DecoderState)

  /** The payloads framed by `lines`, with no deserialisation at all. */
  function Frame(lines: seq<string>, ending: Ending, st: DecoderState): Framing
    decreases |lines|
  {
    if lines == [] then Framing([], Ended(ending), st)
    else
      match StepLine(st, lines[0])
      case Sentinel => Framing([], SentinelSeen, st)
      case Invalid => Framing([], FormatViolation(lines[0]), st)
      case Next(next, emit) =>
        var rest := Frame(lines[1..], ending, next);
        if emit.None? then rest else rest.(payloads := [emit.value] + rest.payloads)
  }

  /** How the publisher ends once framing has stopped and every payload was delivered. */
  function Terminal<T>(f: Framing, parse: Parser<T>): Outcome<T> {
    match f.stop
    case Ended(Exhausted) => Finish(f.last, parse)
    case Ended(ReadFails(message)) => Outcome([], Failed(BodyReadFailure(message)))
    case Ended(Closing) => Outcome([], Closed)
    case SentinelSeen => Finish(f.last, parse)
    case FormatViolation(line) => Outcome([], Failed(InvalidFormat(line)))
  }

  /** Deserialise the payloads in order; the first that does not parse fails the publisher. */
  function Deliver<T>(payloads: seq<string>, tail: Outcome<T>, parse: Parser<T>): Outcome<T>
    decreases |payloads|
  {
    if payloads == [] then tail
    else
      if parse(payloads[0]).Item? then
        Prefixed([parse(payloads[0]).value], Deliver(payloads[1..], tail, parse))
      else Outcome([], Failed(ItemFailure(parse, payloads[0])))
  }

  function Publish<T>(f: Framing, parse: Parser<T>): Outcome<T> {
    Deliver(f.payloads, Terminal(f, parse), parse)
  }

  /** The decoder is framing followed by in-order deserialisation. */
  lemma {:induction false} RunIsFramedThenDelivered<T>(lines: seq<string>, ending: Ending, st: DecoderState,
                                                       parse: Parser<T>)
    ensures Run(lines, ending, st, parse) == Publish(Frame(lines, ending, st), parse)
    decreases |lines|
  {
    if lines != [] {
      match StepLine(st, lines[0])
      case Sentinel =>
      case Invalid =>
      case Next(next, emit) =>
        RunIsFramedThenDelivered(lines[1..], ending, next, parse);
        var rest := Frame(lines[1..], ending, next);
        if emit.Some? {
          var f := Frame(lines, ending, st);
          assert f.payloads[0] == emit.value && f.payloads[1..] == rest.payloads;
          assert Terminal(f, parse) == Terminal(rest, parse);
        }
    }
  }

  /** Items come out in line order: the payloads framed by a prefix of the lines are a prefix
      of those framed by all of them. */
  lemma {:induction false} FramePrefix(lines: seq<string>, k: nat, cut: Ending, ending: Ending, st: DecoderState)
    requires k <= |lines|
    ensures Frame(lines[..k], cut, st).payloads <= Frame(lines, ending, st).payloads
    decreases k
  {
    if k > 0 {
      assert lines[..k][0] == lines[0] && lines[..k][1..] == lines[1..][..k - 1];
      match StepLine(st, lines[0])
      case Sentinel =>
      case Invalid =>
      case Next(next, emit) =>
        FramePrefix(lines[1..], k - 1, cut, ending, next);
    }
  }

  /** The first payload that does not parse fails the publisher; nothing after it is delivered. */
  lemma {:induction false} DeliverStopsAtFirstFailure<T>(payloads: seq<string>, tail: Outcome<T>,
                                                        parse: Parser<T>, j: nat)
    requires j < |payloads| && !parse(payloads[j]).Item?
    requires forall i :: 0 <= i < j ==> parse(payloads[i]).Item?
    ensures Deliver(payloads, tail, parse)
         == Outcome(seq(j, i requires 0 <= i < j => parse(payloads[i]).value), Failed(ItemFailure(parse, payloads[j])))
    decreases j
  {
    if j > 0 {
      DeliverStopsAtFirstFailure(payloads[1..], tail, parse, j - 1);
      var items := seq(j, i requires 0 <= i < j => parse(payloads[i]).value);
      assert items == [parse(payloads[0]).value] + seq(j - 1, i requires 0 <= i < j - 1 => parse(payloads[1..][i]).value);
    }
  }

  // ---------------------------------------------------------------------------
  // Properties of the whole decoder
  // ---------------------------------------------------------------------------

  /** Exactly one terminal transition: the publisher never stays open. */
  lemma {:induction false} RunCloses<T>(lines: seq<string>, ending: Ending, st: DecoderState, parse: Parser<T>)
    ensures !Run(lines, ending, st, parse).state.Open?
    decreases |lines|
  {
    if lines != [] {
      match StepLine(st, lines[0])
      case Sentinel =>
      case Invalid =>
      case Next(next, emit) =>
        RunCloses(lines[1..], ending, next, parse);
    }
  }

  lemma DecodeCloses<T>(response: StreamResponse, parse: Parser<T>, parseError: ServiceUtil.ErrorParser,
                        cancel: Option<nat>)
    ensures !Decode(response, parse, parseError, cancel).state.Open?
  {
    if IsSuccessful(response.code) && response.body.Some? {
      var (lines, ending) := Truncated(response.body.value, cancel);
      RunCloses(lines, ending, Initial, parse);
    }
  }

  /** A consumer that closes the publisher early sees a prefix of the items it would otherwise
      have seen, and the publisher was closed normally or failed before the cut. */
  lemma {:induction false} CancelYieldsPrefix<T>(lines: seq<string>, k: nat, ending: Ending, st: DecoderState,
                                                parse: Parser<T>)
    requires k <= |lines|
    ensures Run(lines[..k], Closing, st, parse).items <= Run(lines, ending, st, parse).items
    decreases k
  {
    if k > 0 {
      assert lines[..k][0] == lines[0] && lines[..k][1..] == lines[1..][..k - 1];
      match StepLine(st, lines[0])
      case Sentinel =>
      case Invalid =>
      case Next(next, emit) =>
        CancelYieldsPrefix(lines[1..], k - 1, ending, next, parse);
    }
  }

  lemma DecodeCancelYieldsPrefix<T>(response: StreamResponse, parse: Parser<T>,
                                    parseError: ServiceUtil.ErrorParser, k: nat)
    ensures Decode(response, parse, parseError, Some(k)).items <= Decode(response, parse, parseError, None).items
  {
    if IsSuccessful(response.code) && response.body.Some? && k <= |response.body.value.lines| {
      var body := response.body.value;
      CancelYieldsPrefix(body.lines, k, Truncated(body, None).1, Initial, parse);
    }
  }

  /** If the `j`-th framed payload is the first that does not parse, the publisher fails with
      it after exactly the `j` items before it, whatever else the body holds. */
  lemma UnparseablePayloadStops<T>(lines: seq<string>, ending: Ending, st: DecoderState, parse: Parser<T>, j: nat)
    requires var ps := Frame(lines, ending, st).payloads;
      j < |ps| && !parse(ps[j]).Item? && forall i :: 0 <= i < j ==> parse(ps[i]).Item?
    ensures var ps := Frame(lines, ending, st).payloads;
      Run(lines, ending, st, parse)
        == Outcome(seq(j, i requires 0 <= i < j => parse(ps[i]).value), Failed(ItemFailure(parse, ps[j])))
  {
    var f := Frame(lines, ending, st);
    RunIsFramedThenDelivered(lines, ending, st, parse);
    DeliverStopsAtFirstFailure(f.payloads, Terminal(f, parse), parse, j);
  }

  /** A `data:` payload still pending when the body ends is never emitted, however many `event:`
      or further `data:` lines follow it: the body behaves as if it had been cut off before that
      line. */
  lemma {:induction false} TrailingDataDropped<T>(lines: seq<string>, d: string, tail: seq<string>, st: DecoderState,
                                                 parse: Parser<T>)
    requires JavaText.StartsWith(d, DATA_PREFIX)
    requires forall i :: 0 <= i < |tail| ==> JavaText.StartsWith(tail[i], EVENT_PREFIX) || JavaText.StartsWith(tail[i], DATA_PREFIX)
    ensures Run(lines + [d] + tail, Exhausted, st, parse) == Run(lines, Closing, st, parse)
    decreases |lines|
  {
    if lines == [] {
      DataLineReplacesPending(st, d);
      assert ([d] + tail)[0] == d && ([d] + tail)[1..] == tail;
      EventModeTail(tail, StepLine(st, d).state, parse);
    } else {
      assert (lines + [d] + tail)[0] == lines[0] && (lines + [d] + tail)[1..] == lines[1..] + [d] + tail;
      match StepLine(st, lines[0])
      case Sentinel =>
      case Invalid =>
      case Next(next, emit) =>
        TrailingDataDropped(lines[1..], d, tail, next, parse);
    }
  }

  /** Once a `data:` line has been seen, `event:` and `data:` lines up to the end of the body
      emit nothing, and the publisher closes normally. */
  lemma {:induction false} EventModeTail<T>(tail: seq<string>, st: DecoderState, parse: Parser<T>)
    requires st.eventMode
    requires forall i :: 0 <= i < |tail| ==> JavaText.StartsWith(tail[i], EVENT_PREFIX) || JavaText.StartsWith(tail[i], DATA_PREFIX)
    ensures Run(tail, Exhausted, st, parse) == Outcome([], Closed)
    decreases |tail|
  {
    if tail != [] {
      if JavaText.StartsWith(tail[0], EVENT_PREFIX) {
        EventLineIgnored(st, tail[0]);
      } else {
        DataLineReplacesPending(st, tail[0]);
      }
      EventModeTail(tail[1..], StepLine(st, tail[0]).state, parse);
    }
  }

  /** The non-event content of `lines`: every line but the `event:` ones, with no separator. */
  function NonEventText(lines: seq<string>): string {
    if lines == [] then ""
    else (if JavaText.StartsWith(lines[0], EVENT_PREFIX) then "" else lines[0]) + NonEventText(lines[1..])
  }

  /** With no `data:` line and no blank line, the lines are accumulated verbatim and the result
      is decided once, at the end of the body. */
  lemma {:induction false} NonEventAccumulates<T>(lines: seq<string>, acc: string, parse: Parser<T>)
    requires forall i :: 0 <= i < |lines| ==> lines[i] != "" && !JavaText.StartsWith(lines[i], DATA_PREFIX)
    ensures Run(lines, Exhausted, DecoderState(None, false, acc), parse)
         == Finish(DecoderState(None, false, acc + NonEventText(lines)), parse)
    decreases |lines|
  {
    if lines != [] {
      var head := if JavaText.StartsWith(lines[0], EVENT_PREFIX) then "" else lines[0];
      assert acc + "" == acc;
      assert StepLine(DecoderState(None, false, acc), lines[0]) == Next(DecoderState(None, false, acc + head), None);
      NonEventAccumulates(lines[1..], acc + head, parse);
      assert acc + head + NonEventText(lines[1..]) == acc + NonEventText(lines);
    }
  }

  /** A plain JSON document: one item when the accumulated text reads as an item; JSON `null`
      fails the publisher; malformed text emits nothing and the publisher still closes normally. */
  lemma NonEventDocument<T>(response: StreamResponse, parse: Parser<T>, parseError: ServiceUtil.ErrorParser)
    requires IsSuccessful(response.code) && response.body.Some? && response.body.value.end.EndOfStream?
    requires var ls := response.body.value.lines;
      forall i :: 0 <= i < |ls| ==> ls[i] != "" && !JavaText.StartsWith(ls[i], DATA_PREFIX)
    ensures var text := NonEventText(response.body.value.lines);
      text != "" && parse(text).Item? ==> Decode(response, parse, parseError, None) == Outcome([parse(text).value], Closed)
    ensures var text := NonEventText(response.body.value.lines);
      text != "" && parse(text).JsonNull? ==> Decode(response, parse, parseError, None) == Outcome([], Failed(NullItem))
    ensures var text := NonEventText(response.body.value.lines);
      text == "" || parse(text).Malformed? ==> Decode(response, parse, parseError, None) == Outcome([], Closed)
  {
    NonEventAccumulates(response.body.value.lines, "", parse);
    assert "" + NonEventText(response.body.value.lines) == NonEventText(response.body.value.lines);
  }

  /** An unsuccessful response emits nothing and fails the publisher with the translated error,
      wrapped with the empty code; an error body that reads as JSON `null` makes the translation
      throw, and the publisher fails with that exception instead. */
  lemma HttpErrorFails<T>(response: StreamResponse, parse: Parser<T>, parseError: ServiceUtil.ErrorParser,
                          cancel: Option<nat>)
    requires !IsSuccessful(response.code)
    ensures Decode(response, parse, parseError, cancel).items == []
    ensures Decode(response, parse, parseError, cancel).state.Failed?
    ensures var f := Decode(response, parse, parseError, cancel).state.failure;
      var t := ServiceUtil.TranslatedHttpError(ServiceUtil.HttpError(response.code, response.statusMessage, response.errorBody),
                                               parseError);
      t.AIConnection? ==>
        f.Connection? && f.error.code == Some("") && f.error.cause.ConnectionCause?
        && f.error.message == f.error.cause.error.message
        && f.error.cause.error == t.error
    ensures var f := Decode(response, parse, parseError, cancel).state.failure;
      f == ErrorTranslationFailed
      <==> response.errorBody.ErrorText? && parseError(response.errorBody.text).JsonNull?
  {
  }

  /** `data: <payload>` for a payload with nothing to trim. */
  lemma DataLine(st: DecoderState, payload: string)
    requires forall i :: 0 <= i < |payload| ==> !JavaText.IsTrimmable(payload[i])
    ensures StepLine(st, "data: " + payload) == Next(DecoderState(Some(payload), true, st.nonEvent), None)
  {
    var line := "data: " + payload;
    assert line[..5] == DATA_PREFIX;
    assert line[5..] == " " + payload;
    JavaText.TrimLeadingSpace(payload);
    DataLineReplacesPending(st, line);
  }

  /** Two events and the sentinel, `data: x`, blank, `data: y`, blank, `data: [DONE]`, blank:
      the two items, in order, then a normal close. */
  lemma TwoEventsThenDone<T>(x: string, y: string, parse: Parser<T>)
    requires forall i :: 0 <= i < |x| ==> !JavaText.IsTrimmable(x[i])
    requires forall i :: 0 <= i < |y| ==> !JavaText.IsTrimmable(y[i])
    requires x != DONE && y != DONE && parse(x).Item? && parse(y).Item?
    ensures Run(["data: " + x, "", "data: " + y, "", "data: " + DONE, ""], Exhausted, Initial, parse)
         == Outcome([parse(x).value, parse(y).value], Closed)
  {
    var lines := ["data: " + x, "", "data: " + y, "", "data: " + DONE, ""];
    var s1 := DecoderState(Some(x), true, "");
    var s2 := DecoderState(None, true, "");
    var s3 := DecoderState(Some(y), true, "");
    var s5 := DecoderState(Some(DONE), true, "");
    var closed: Outcome<T> := Outcome([], Closed);
    assert Run(lines[5..], Exhausted, s5, parse) == closed by {
      RunAt(lines, 5, Exhausted, s5, parse);
    }
    assert Run(lines[4..], Exhausted, s2, parse) == closed by {
      DataLine(s2, DONE);
      RunAt(lines, 4, Exhausted, s2, parse);
    }
    assert Run(lines[3..], Exhausted, s3, parse) == Outcome([parse(y).value], Closed) by {
      RunAt(lines, 3, Exhausted, s3, parse);
    }
    assert Run(lines[2..], Exhausted, s2, parse) == Outcome([parse(y).value], Closed) by {
      DataLine(s2, y);
      RunAt(lines, 2, Exhausted, s2, parse);
    }
    assert Run(lines[1..], Exhausted, s1, parse) == Outcome([parse(x).value, parse(y).value], Closed) by {
      RunAt(lines, 1, Exhausted, s1, parse);
    }
    assert Run(lines, Exhausted, Initial, parse) == Outcome([parse(x).value, parse(y).value], Closed) by {
      DataLine(Initial, x);
      RunAt(lines, 0, Exhausted, Initial, parse);
      assert lines[0..] == lines;
    }
  }

  // ---------------------------------------------------------------------------
  // The publisher and the callback
  // ---------------------------------------------------------------------------

  /** A `SubmissionPublisher` reduced to its state and the items submitted to it. */
  class Publisher<T> {
    var state: PublisherState
    var items: seq<T>

    constructor ()
      ensures state == Open && items == []
    {
      state := Open;
      items := [];
    }

    predicate IsClosed()
      reads this
    {
      !state.Open?
    }

    /** `submit(item)`: accepted while open, rejected (IllegalStateException) once closed. */
    method Submit(item: T) returns (accepted: bool)
      modifies this
      ensures accepted == old(state).Open?
      ensures state == old(state)
      ensures items == if accepted then old(items) + [item] else old(items)
    {
      accepted := state.Open?;
      if accepted {
        items := items + [item];
      }
    }

    /** `close()`: no effect once closed. */
    method Close()
      modifies this
      ensures state == if old(state).Open? then Closed else old(state)
      ensures items == old(items)
    {
      if state.Open? {
        state := Closed;
      }
    }

    /** `closeExceptionally(failure)`: no effect once closed. */
    method CloseExceptionally(failure: StreamFailure)
      modifies this
      ensures state == if old(state).Open? then Failed(failure) else old(state)
      ensures items == old(items)
    {
      if state.Open? {
        state := Failed(failure);
      }
    }
  }

  /** Whether the body's reader was never opened, is open, or has been closed. */
  datatype ReaderState = NeverOpened | ReaderOpen | ReaderClosed

  class ResponseBodyCallback<T> {
    const publisher: Publisher<T>
    const parse: Parser<T>
    const parseError: ServiceUtil.ErrorParser
    ghost var reader: ReaderState

    constructor (publisher: Publisher<T>, parse: Parser<T>, parseError: ServiceUtil.ErrorParser)
      ensures this.publisher == publisher && this.parse == parse && this.parseError == parseError
      ensures reader == NeverOpened
    {
      this.publisher := publisher;
      this.parse := parse;
      this.parseError := parseError;
      reader := NeverOpened;
    }

    /** `isPublisherCancelled()`. */
    predicate IsPublisherCancelled()
      reads publisher
    {
      publisher.IsClosed()
    }

    /** `submit(item)`: parse the payload and submit it; any exception closes the publisher
        exceptionally (which does nothing once it is closed). */
    method Submit(item: string)
      modifies publisher
      ensures old(publisher.state).Open? && parse(item).Item?
          ==> publisher.items == old(publisher.items) + [parse(item).value] && publisher.state == Open
      ensures old(publisher.state).Open? && parse(item).JsonNull?
          ==> publisher.items == old(publisher.items) && publisher.state == Failed(NullItem)
      ensures old(publisher.state).Open? && parse(item).Malformed?
          ==> publisher.items == old(publisher.items) && publisher.state == Failed(Unparseable(item))
      ensures old(publisher.state).Open? && !parse(item).Item?
          ==> publisher.items == old(publisher.items) && publisher.state == Failed(ItemFailure(parse, item))
      ensures !old(publisher.state).Open?
          ==> publisher.items == old(publisher.items) && publisher.state == old(publisher.state)
    {
      var chunk := parse(item);
      match chunk {
        case Malformed =>
          publisher.CloseExceptionally(Unparseable(item));
        case JsonNull =>
          // `submit(null)` throws before looking at the publisher's state.
          publisher.CloseExceptionally(NullItem);
        case Item(value) =>
          var accepted := publisher.Submit(value);
          if !accepted {
            publisher.CloseExceptionally(SubmitRejected);
          }
      }
    }

    /** `submit(item)` as the loop of `onResponse` sees it: the publisher is open before, and
        after it either accepted the parsed item or failed as the payload dictates. */
    method Emit(item: string)
      requires publisher.state.Open?
      modifies publisher
      ensures publisher.state.Open? <==> parse(item).Item?
      ensures publisher.state.Open? ==> publisher.items == old(publisher.items) + [parse(item).value]
      ensures !publisher.state.Open?
          ==> publisher.items == old(publisher.items) && publisher.state == Failed(ItemFailure(parse, item))
    {
      Submit(item);
    }

    /** `onFailure(call, t)` and `submitError(t)`. */
    method OnFailure(failure: StreamFailure)
      modifies publisher
      ensures publisher.state == if old(publisher.state).Open? then Failed(failure) else old(publisher.state)
      ensures publisher.items == old(publisher.items)
    {
      publisher.CloseExceptionally(failure);
    }

    /** `onResponse(call, response)`. The consumer side is modelled by `cancel`: it closes the
        publisher just before the `cancel`-th `readLine`. The ghost `reader` records that the
        reader, once opened, is closed on every exit path. */
    method OnResponse(response: StreamResponse, cancel: Option<nat>)
      requires publisher.state.Open?
      modifies this, publisher
      ensures publisher.items == old(publisher.items) + Decode(response, parse, parseError, cancel).items
      ensures publisher.state == Decode(response, parse, parseError, cancel).state
      ensures reader == if IsSuccessful(response.code) && response.body.Some? then ReaderClosed else NeverOpened
    {
      reader := NeverOpened;
      if !IsSuccessful(response.code) {
        var processed := ServiceUtil.ProcessHttpException(
          ServiceUtil.HttpError(response.code, response.statusMessage, response.errorBody), parseError);
        match processed {
          case AIConnection(error) =>
            OnFailure(Connection(ConnectionError(error.message, Some(""), ConnectionCause(error))));
          case NullErrorBody =>
            // Thrown by `processHttpException` and caught by the `catch (Throwable t)`.
            OnFailure(ErrorTranslationFailed);
        }
        return;
      }
      if response.body.None? {
        OnFailure(MissingBody);
        return;
      }
      reader := ReaderOpen;
      ReadBody(response.body.value, cancel);
      reader := ReaderClosed;
    }

    /** The `try` block of `onResponse` for a successful response with a body; every exit
        closes the reader, which the caller records. */
    method ReadBody(body: StreamBody, cancel: Option<nat>)
      requires publisher.state.Open?
      modifies publisher
      ensures publisher.items
          == old(publisher.items) + Run(Truncated(body, cancel).0, Truncated(body, cancel).1, Initial, parse).items
      ensures publisher.state == Run(Truncated(body, cancel).0, Truncated(body, cancel).1, Initial, parse).state
    {
      ghost var done;
      var last, thrown;
      last, thrown, done := Pump(body, cancel);
      if !thrown {
        Complete(last);
      }
    }

    /** The loop of `onResponse`: reads lines until the publisher is closed, the body ends,
        the sentinel arrives or a line breaks the format. Returns the decoder state the loop
        stopped in and whether it left by an exception (which skips the code after the loop);
        `done` are the items it submitted. */
    method Pump(body: StreamBody, cancel: Option<nat>) returns (last: DecoderState, thrown: bool, ghost done: seq<T>)
      requires publisher.state.Open?
      modifies publisher
      ensures thrown ==> !publisher.state.Open?
      ensures publisher.items == old(publisher.items) + done
      ensures publisher.state.Open?
          ==> Run(Truncated(body, cancel).0, Truncated(body, cancel).1, Initial, parse) == Prefixed(done, Finish(last, parse))
      ensures !publisher.state.Open?
          ==> Run(Truncated(body, cancel).0, Truncated(body, cancel).1, Initial, parse) == Outcome(done, publisher.state)
    {
      var sse: Option<string> := None;
      var nonSSEContent: string := "";
      var isSSE := false;
      var i := 0;
      thrown := false;

      ghost var lines := Truncated(body, cancel).0;
      ghost var ending := Truncated(body, cancel).1;
      ghost var spec := Run(lines, ending, Initial, parse);
      ghost var before := publisher.items;
      done := [];
      ghost var cut := cancel.Some? && cancel.value <= |body.lines|;
      assert cut ==> |lines| == cancel.value && ending == Closing;
      assert !cut ==> lines == body.lines && ending == if body.end.EndOfStream? then Exhausted else ReadFails(body.end.message);
      assert |lines| <= |body.lines| && lines == body.lines[..|lines|];

      while true
        invariant 0 <= i <= |lines|
        invariant !thrown
        invariant publisher.items == before + done
        invariant publisher.state.Open?
          ==> spec == Prefixed(done, Run(lines[i..], ending, DecoderState(sse, isSSE, nonSSEContent), parse))
        invariant !publisher.state.Open? ==> spec == Outcome(done, publisher.state)
        decreases |body.lines| - i
      {
        if cancel == Some(i) {
          // The consumer closes the publisher: the spec has reached the truncation point.
          assert i == |lines| && ending == Closing;
          publisher.Close();
        }
        if IsPublisherCancelled() {
          break;
        }
        assert cancel != Some(i);
        if i == |body.lines| {
          assert |lines| == |body.lines| && lines[i..] == [];
          if body.end.ReadError? {
            OnFailure(BodyReadFailure(body.end.message));
            thrown := true;
            break;
          }
          break;
        }
        assert i < |lines|;
        var line := body.lines[i];
        assert line == lines[i];
        var next, stop;
        ghost var emitted;
        ghost var earlier := done;
        next, stop, thrown, emitted := Consume(DecoderState(sse, isSSE, nonSSEContent), line, lines, i, ending);
        done := done + emitted;
        if publisher.state.Open? {
          PrefixedTwice(earlier, emitted, if stop then Finish(next, parse) else Run(lines[i + 1..], ending, next, parse));
        }
        i := i + 1;
        if stop {
          break;
        }
        sse, isSSE, nonSSEContent := next.pending, next.eventMode, next.nonEvent;
      }
      last := DecoderState(sse, isSSE, nonSSEContent);
    }

    /** One pass of the loop of `onResponse` over the line `lines[i]`, in decoder state `st`:
        `stop` when the loop leaves (the sentinel, or an exception, which `thrown` reports),
        otherwise `next` is the state for the following line; `emitted` are the items
        submitted. */
    method Consume(st: DecoderState, line: string, ghost lines: seq<string>, ghost i: nat, ghost ending: Ending)
      returns (next: DecoderState, stop: bool, thrown: bool, ghost emitted: seq<T>)
      requires publisher.state.Open?
      requires i < |lines| && line == lines[i]
      modifies publisher
      ensures thrown ==> stop && !publisher.state.Open?
      ensures publisher.items == old(publisher.items) + emitted
      ensures publisher.state.Open? && stop
          ==> next == st && Run(lines[i..], ending, st, parse) == Prefixed(emitted, Finish(st, parse))
      ensures publisher.state.Open? && !stop
          ==> Run(lines[i..], ending, st, parse) == Prefixed(emitted, Run(lines[i + 1..], ending, next, parse))
      ensures !publisher.state.Open? ==> Run(lines[i..], ending, st, parse) == Outcome(emitted, publisher.state)
    {
      RunAt(lines, i, ending, st, parse);
      next, stop, thrown, emitted := st, false, false, [];
      match StepLine(st, line) {
        case Sentinel =>
          stop := true;
        case Invalid =>
          OnFailure(InvalidFormat(line));
          stop, thrown := true, true;
        case Next(after, emit) =>
          next := after;
          if emit.Some? {
            Emit(emit.value);
            if publisher.state.Open? {
              emitted := [parse(emit.value).value];
            }
          }
      }
    }

    /** The code after the loop: the non-event fallback, then `close()`. */
    method Complete(st: DecoderState)
      modifies publisher
      ensures old(publisher.state).Open?
          ==> publisher.items == old(publisher.items) + Finish(st, parse).items
              && publisher.state == Finish(st, parse).state
      ensures !old(publisher.state).Open?
          ==> publisher.items == old(publisher.items) && publisher.state == old(publisher.state)
    {
      var nonSseResponse := st.nonEvent;
      var hasContentThatIsNotSSE := !st.eventMode && nonSseResponse != "";
      if hasContentThatIsNotSSE {
        var parsed := parse(nonSseResponse);
        if !parsed.Malformed? {
          Submit(nonSseResponse);
        }
        // A malformed non-event body: the exception is built but never thrown.
      }
      publisher.Close();
    }
  }
}

/** The exported function of functions/__main__.js as a trace of observable
    events. Network replies are inputs: one reply to the submission POST and a
    finite sequence of replies to the status checks, one per tick of the
    polling interval. The output is the ordered list of requests sent,
    callbacks delivered and the arming of the polling timers. */
module Client {
  import opened Wrappers
  import opened Text
  import opened Markers
  import opened Requests
  import opened Status

  /** Milliseconds between status checks, and the default initial delay. */
  const REFRESH_TIME: nat := 30000

  const DEFAULT_PROGRAM: string := "blastp"
  const DEFAULT_DATABASE: string := "nr"
  const DEFAULT_QUERY: string := "protein.fasta"

  /** Which `match` result was `null` when the submission reply was read. */
  datatype Marker = RidLine | RtoeLine

  /** What the callback receives as its error argument. */
  datatype Failure =
    | Message(text: string)          // an `Error` built by the client itself
    | Transport(cause: string)       // the rejection of a request promise
    | MissingMarker(marker: Marker)  // the TypeError thrown by indexing a `null` match
    | XmlParse(cause: string)        // the error reported by the XML parser

  /** One invocation of the callback: `callback(err)` or `callback(null, result)`. */
  datatype Delivery = Err(failure: Failure) | Result(document: Option<string>)

  datatype Request = Post(url: string, form: seq<Field>) | Get(url: string)

  /** The initial delay handed to `setTimeout`: a number of milliseconds, or the
      RTOE text exactly as it was captured. */
  datatype Delay = Millis(ms: nat) | RtoeText(text: string)

  datatype Event =
    | Send(request: Request)
    | Deliver(delivery: Delivery)
    | StartPolling(rid: string, delay: Delay)  // `fetchInfo(rid, delay)`: after `delay`, one status check every REFRESH_TIME

  /** What the XML parser makes of the fetched document (it is not modelled). */
  datatype ParseOutcome = ParseFailed(cause: string) | Parsed(document: string)
  /** The reply to the result fetch. */
  datatype FetchReply = FetchRejected(cause: string) | FetchBody(parse: ParseOutcome)
  /** The reply to one status check; `fetch` is the reply the result fetch would
      get, and is consulted only when the body classifies as READY. */
  datatype StatusReply = StatusRejected(cause: string) | StatusBody(body: string, fetch: FetchReply)
  /** The reply to the submission POST. */
  datatype SubmitReply = PostRejected(cause: string) | PostBody(body: string)

  /** The arguments of the exported function; `None` is an omitted argument,
      which takes its default value. */
  datatype Invocation = Invocation(program: Option<string>, database: Option<string>,
                                   query: Option<string>, rid: Option<string>)

  /** What a successful submission hands to `fetchInfo`: the RID match's
      element 0 and the RTOE match's element 1. */
  datatype JobHandle = JobHandle(rid: string, rtoe: string)

  // ---------------------------------------------------------------------------
  // Submission reply

  /** Matches both patterns and forwards element 0 of the RID match and
      element 1 of the RTOE match; a `null` match becomes a failure naming the
      missing line, the RID line being looked at first. */
  function ParseSubmission(body: string): Result<JobHandle, Marker> {
    var rid := MatchLabelledLine(body, RID_LABEL);
    var rtoe := MatchLabelledLine(body, RTOE_LABEL);
    if rid.None? then Failure(RidLine)
    else if rtoe.None? then Failure(RtoeLine)
    else Success(JobHandle(rid.value.whole, rtoe.value.group))
  }

  /** Parsing fails exactly when a line starting with four spaces and `RID = `,
      or one starting with four spaces and `RTOE = `, is missing, and it blames
      the RID line whenever that one is missing, since `rid[0]` is evaluated
      first. */
  lemma ParseSubmissionFails(body: string)
    ensures ParseSubmission(body).Failure? <==> (forall p: nat :: !LabelledLineAt(body, RID_LABEL, p))
                                                || (forall p: nat :: !LabelledLineAt(body, RTOE_LABEL, p))
    ensures ParseSubmission(body).Failure? ==>
              (ParseSubmission(body).error == RidLine <==> forall p: nat :: !LabelledLineAt(body, RID_LABEL, p))
  {
    MatchLabelledLineAbsent(body, RID_LABEL);
    MatchLabelledLineAbsent(body, RTOE_LABEL);
  }

  /** On success the job id is the whole first RID line, from its four leading
      spaces up to the end of the line, and not only the text after `RID = `. */
  lemma ParseSubmissionRid(body: string)
    requires ParseSubmission(body).Success?
    ensures var rid := ParseSubmission(body).value.rid;
      && RID_LABEL <= rid
      && (forall k :: 0 <= k < |rid| ==> !IsLineTerminator(rid[k]))
      && exists p: nat :: FirstLabelledLine(body, RID_LABEL, p) && OccursAt(body, rid, p) && IsLineEnd(body, p + |rid|)
  {
    MatchLabelledLineParts(body, RID_LABEL);
    MatchLabelledLineFirst(body, RID_LABEL);
    var m := MatchLabelledLine(body, RID_LABEL).value;
    RidLineHasNoTerminator(m.group);
  }

  /** The RID label followed by text without a line terminator holds none. */
  lemma RidLineHasNoTerminator(group: string)
    requires forall k :: 0 <= k < |group| ==> !IsLineTerminator(group[k])
    ensures forall k :: 0 <= k < |RID_LABEL + group| ==> !IsLineTerminator((RID_LABEL + group)[k])
  {
    var w := RID_LABEL + group;
    forall k | 0 <= k < |w|
      ensures !IsLineTerminator(w[k])
    {
      if k >= |RID_LABEL| {
        assert w[k] == group[k - |RID_LABEL|];
      }
    }
  }

  /** On success the delay text is what follows `    RTOE = ` on the first RTOE
      line, up to the end of that line. */
  lemma ParseSubmissionRtoe(body: string)
    requires ParseSubmission(body).Success?
    ensures var rtoe := ParseSubmission(body).value.rtoe;
      (forall k :: 0 <= k < |rtoe| ==> !IsLineTerminator(rtoe[k]))
      && exists p: nat :: FirstLabelledLine(body, RTOE_LABEL, p)
           && OccursAt(body, RTOE_LABEL + rtoe, p) && IsLineEnd(body, p + |RTOE_LABEL| + |rtoe|)
  {
    MatchLabelledLineParts(body, RTOE_LABEL);
    MatchLabelledLineFirst(body, RTOE_LABEL);
  }

  /** A reply in the documented format. */
  const SAMPLE_REPLY: string := "    RID = ABC123\n    RTOE = 17\n"

  /** The character layout of the sample reply: two lines, each ended by a
      line feed. */
  lemma SampleReplyLines()
    ensures |SAMPLE_REPLY| == 31 && SAMPLE_REPLY[16] == '\n' && SAMPLE_REPLY[30] == '\n'
    ensures forall k :: 0 <= k < 31 && k != 16 && k != 30 ==> !IsLineTerminator(SAMPLE_REPLY[k])
  {
  }

  lemma SampleReplyRid()
    ensures MatchLabelledLine(SAMPLE_REPLY, RID_LABEL) == Some(LineMatch("    RID = ABC123", "ABC123"))
  {
    var body := SAMPLE_REPLY;
    SampleReplyLines();
    assert body[..10] == RID_LABEL;
    assert LabelledLineAt(body, RID_LABEL, 0);
    assert LineEnd(body, 10) == 16;
    assert body[0..16] == "    RID = ABC123";
  }

  /** No line of the sample reply before index 17 starts with the RTOE label. */
  lemma SampleReplyRtoeFirst()
    ensures FindLabelledLine(SAMPLE_REPLY, RTOE_LABEL, 0) == Some(17)
  {
    var body := SAMPLE_REPLY;
    SampleReplyLines();
    assert body[17..28] == RTOE_LABEL;
    assert LabelledLineAt(body, RTOE_LABEL, 17);
    forall q: nat | q < 17 ensures !LabelledLineAt(body, RTOE_LABEL, q) {
      if q == 0 {
        assert body[5] != RTOE_LABEL[5];
      } else {
        assert !IsLineTerminator(body[q - 1]);
      }
    }
  }

  lemma SampleReplyRtoeEnd()
    ensures LineEnd(SAMPLE_REPLY, 28) == 30
  {
    assert |SAMPLE_REPLY| == 31 && SAMPLE_REPLY[28] == '1' && SAMPLE_REPLY[29] == '7' && SAMPLE_REPLY[30] == '\n';
  }

  lemma SampleReplyRtoeText()
    ensures SAMPLE_REPLY[17..30] == "    RTOE = 17" && SAMPLE_REPLY[28..30] == "17"
  {
  }

  lemma SampleReplyRtoe()
    ensures MatchLabelledLine(SAMPLE_REPLY, RTOE_LABEL) == Some(LineMatch("    RTOE = 17", "17"))
  {
    SampleReplyRtoeFirst();
    SampleReplyRtoeEnd();
    SampleReplyRtoeText();
  }

  /** A reply in the documented format yields the whole RID line as the job id
      and the bare RTOE value as the delay text. */
  lemma ParseSubmissionExample()
    ensures ParseSubmission(SAMPLE_REPLY) == Success(JobHandle("    RID = ABC123", "17"))
  {
    SampleReplyRid();
    SampleReplyRtoe();
  }

  // ---------------------------------------------------------------------------
  // One tick of the polling interval

  const HELP_ADDRESS: string := "blast-help@ncbi.nlm.nih.gov"

  function FailedMessage(rid: string): string {
    "Search " + rid + " failed; Please report to " + HELP_ADDRESS
  }

  function ExpiredMessage(rid: string): string {
    "Search " + rid + " expired."
  }

  /** Both terminal messages name the job, and the failure message names the
      address to report to. */
  lemma {:induction false} TerminalMessagesNameJob(rid: string)
    ensures Contains(FailedMessage(rid), rid) && Contains(ExpiredMessage(rid), rid)
    ensures Contains(FailedMessage(rid), HELP_ADDRESS)
  {
    assert OccursAt(FailedMessage(rid), rid, 7);
    assert OccursAt(ExpiredMessage(rid), rid, 7);
    var m := FailedMessage(rid);
    assert OccursAt(m, HELP_ADDRESS, |m| - |HELP_ADDRESS|);
  }

  /** What follows a READY classification: the fetched document is parsed, and
      a parse error is delivered and then followed by `callback(null, result)`
      with no result. */
  function FetchEvents(reply: FetchReply): seq<Event> {
    match reply
    case FetchRejected(cause) => [Deliver(Err(Transport(cause)))]
    case FetchBody(ParseFailed(cause)) => [Deliver(Err(XmlParse(cause))), Deliver(Result(None))]
    case FetchBody(Parsed(document)) => [Deliver(Result(Some(document)))]
  }

  /** The events of one tick: the status check, then what its reply leads to. */
  function TickEvents(rid: string, reply: StatusReply): seq<Event> {
    [Send(Get(StatusUrl(rid)))] +
    match reply
    case StatusRejected(cause) => [Deliver(Err(Transport(cause)))]
    case StatusBody(body, fetch) =>
      match Classify(body)
      case Failed => [Deliver(Err(Message(FailedMessage(rid))))]
      case Unknown => [Deliver(Err(Message(ExpiredMessage(rid))))]
      case Ready => [Send(Get(FetchUrl(rid)))] + FetchEvents(fetch)
      case Unrecognised => []
  }

  /** When the fetched document cannot be parsed the callback runs twice:
      first with the parse error, then with no error and no result. */
  lemma ParseFailureCallsBackTwice(rid: string, body: string, cause: string)
    requires Contains(body, READY_TOKEN) && !Contains(body, FAILED_TOKEN) && !Contains(body, UNKNOWN_TOKEN)
    ensures TickEvents(rid, StatusBody(body, FetchBody(ParseFailed(cause))))
            == [Send(Get(StatusUrl(rid))), Send(Get(FetchUrl(rid))),
                Deliver(Err(XmlParse(cause))), Deliver(Result(None))]
  {
  }

  /** The events of `|replies|` ticks, one reply per tick. */
  function PollEvents(rid: string, replies: seq<StatusReply>): seq<Event>
    decreases |replies|
  {
    if replies == [] then []
    else PollEvents(rid, replies[..|replies| - 1]) + TickEvents(rid, replies[|replies| - 1])
  }

  /** One run of the interval callback: check the status, classify the reply
      with the if/else-if chain and, on READY, fetch and parse the result. */
  method Tick(rid: string, reply: StatusReply) returns (tick: seq<Event>)
    ensures tick == TickEvents(rid, reply)
  {
    tick := [Send(Get(StatusUrl(rid)))];
    match reply
    case StatusRejected(cause) =>
      tick := tick + [Deliver(Err(Transport(cause)))];
    case StatusBody(body, fetch) =>
      if IndexOf(body, FAILED_TOKEN) != -1 {
        tick := tick + [Deliver(Err(Message(FailedMessage(rid))))];
      } else if IndexOf(body, UNKNOWN_TOKEN) != -1 {
        tick := tick + [Deliver(Err(Message(ExpiredMessage(rid))))];
      } else if IndexOf(body, READY_TOKEN) != -1 {
        tick := tick + [Send(Get(FetchUrl(rid)))];
        match fetch
        case FetchRejected(cause) =>
          tick := tick + [Deliver(Err(Transport(cause)))];
        case FetchBody(ParseFailed(cause)) =>
          tick := tick + [Deliver(Err(XmlParse(cause)))];
          tick := tick + [Deliver(Result(None))];
        case FetchBody(Parsed(document)) =>
          tick := tick + [Deliver(Result(Some(document)))];
      }
  }

  /** The polling started by `fetchInfo`, run for as many ticks as there are
      replies. The interval is never cleared, so a tick that delivers an error
      or a result does not end the polling. */
  method Poll(rid: string, replies: seq<StatusReply>) returns (events: seq<Event>)
    ensures events == PollEvents(rid, replies)
  {
    events := [];
    for i := 0 to |replies|
      invariant events == PollEvents(rid, replies[..i])
    {
      var tick := Tick(rid, replies[i]);
      assert replies[..i + 1][..i] == replies[..i];
      events := events + tick;
    }
    assert replies[..|replies|] == replies;
  }

  // ---------------------------------------------------------------------------
  // Properties of polling

  /** Occurrences of `e` in `events`. */
  function Count(events: seq<Event>, e: Event): nat {
    if events == [] then 0 else (if events[0] == e then 1 else 0) + Count(events[1..], e)
  }

  lemma {:induction false} CountConcat(a: seq<Event>, b: seq<Event>, e: Event)
    ensures Count(a + b, e) == Count(a, e) + Count(b, e)
  {
    if a != [] {
      assert (a + b)[1..] == a[1..] + b;
      CountConcat(a[1..], b, e);
    } else {
      assert a + b == b;
    }
  }

  /** Replies whose body classifies as READY. */
  function ReadyReplies(replies: seq<StatusReply>): nat
    decreases |replies|
  {
    if replies == [] then 0
    else
      var last := replies[|replies| - 1];
      ReadyReplies(replies[..|replies| - 1]) + (if last.StatusBody? && Classify(last.body) == Ready then 1 else 0)
  }

  lemma {:induction false} CountAbsent(events: seq<Event>, e: Event)
    requires forall i :: 0 <= i < |events| ==> events[i] != e
    ensures Count(events, e) == 0
  {
    if events != [] {
      CountAbsent(events[1..], e);
    }
  }

  /** A tick sends one status check, and one result fetch exactly when its
      reply classifies as READY. */
  lemma TickRequestCounts(rid: string, reply: StatusReply)
    ensures Count(TickEvents(rid, reply), Send(Get(StatusUrl(rid)))) == 1
    ensures Count(TickEvents(rid, reply), Send(Get(FetchUrl(rid))))
            == if reply.StatusBody? && Classify(reply.body) == Ready then 1 else 0
  {
    var status, fetch := Send(Get(StatusUrl(rid))), Send(Get(FetchUrl(rid)));
    StatusAndFetchUrlsDiffer(rid, rid);
    var tail := TickEvents(rid, reply)[1..];
    assert TickEvents(rid, reply) == [status] + tail;
    CountConcat([status], tail, status);
    CountConcat([status], tail, fetch);
    if reply.StatusBody? && Classify(reply.body) == Ready {
      var rest := FetchEvents(reply.fetch);
      assert tail == [fetch] + rest;
      CountConcat([fetch], rest, status);
      CountConcat([fetch], rest, fetch);
      CountAbsent(rest, status);
      CountAbsent(rest, fetch);
    } else {
      CountAbsent(tail, status);
      CountAbsent(tail, fetch);
    }
  }

  /** Every tick checks the status once, whatever came before: polling goes
      on after an error or a result has been delivered. A result fetch is sent
      exactly once for each READY reply and never otherwise. */
  lemma {:induction false} PollRequestCounts(rid: string, replies: seq<StatusReply>)
    ensures Count(PollEvents(rid, replies), Send(Get(StatusUrl(rid)))) == |replies|
    ensures Count(PollEvents(rid, replies), Send(Get(FetchUrl(rid)))) == ReadyReplies(replies)
    decreases |replies|
  {
    if replies != [] {
      var init, last := replies[..|replies| - 1], replies[|replies| - 1];
      PollRequestCounts(rid, init);
      TickRequestCounts(rid, last);
      CountConcat(PollEvents(rid, init), TickEvents(rid, last), Send(Get(StatusUrl(rid))));
      CountConcat(PollEvents(rid, init), TickEvents(rid, last), Send(Get(FetchUrl(rid))));
    }
  }

  /** An event polling can produce for job `rid`: a status check or a result
      fetch for that job, or a callback. */
  predicate IsPollEvent(rid: string, e: Event) {
    e == Send(Get(StatusUrl(rid))) || e == Send(Get(FetchUrl(rid))) || e.Deliver?
  }

  /** Polling never submits, never re-arms the timers and asks only about its
      own job. */
  lemma {:induction false} PollEventsAreForJob(rid: string, replies: seq<StatusReply>)
    ensures forall i :: 0 <= i < |PollEvents(rid, replies)| ==> IsPollEvent(rid, PollEvents(rid, replies)[i])
    decreases |replies|
  {
    if replies != [] {
      PollEventsAreForJob(rid, replies[..|replies| - 1]);
    }
  }

  /** While no reply mentions FAILED, UNKNOWN or READY, each tick sends its
      status check and nothing else: no callback, no fetch. */
  lemma {:induction false} PollSilentUntilRecognised(rid: string, replies: seq<StatusReply>)
    requires forall i :: 0 <= i < |replies| ==> replies[i].StatusBody? && Classify(replies[i].body) == Unrecognised
    ensures PollEvents(rid, replies) == seq(|replies|, _ => Send(Get(StatusUrl(rid))))
    decreases |replies|
  {
    if replies != [] {
      PollSilentUntilRecognised(rid, replies[..|replies| - 1]);
    }
  }

  // ---------------------------------------------------------------------------
  // The exported function

  function OrDefault(arg: Option<string>, default: string): string {
    if arg.Some? then arg.value else default
  }

  /** `rid` counts as supplied when JavaScript treats it as true: present and
      not the empty string. */
  predicate Supplied(rid: Option<string>) {
    rid.Some? && rid.value != ""
  }

  /** The events once the submission POST has been sent. */
  function SubmissionEvents(reply: SubmitReply, ticks: seq<StatusReply>): seq<Event> {
    match reply
    case PostRejected(cause) => [Deliver(Err(Transport(cause)))]
    case PostBody(body) =>
      match ParseSubmission(body)
      case Failure(marker) => [Deliver(Err(MissingMarker(marker)))]
      case Success(job) => [StartPolling(job.rid, RtoeText(job.rtoe))] + PollEvents(job.rid, ticks)
  }

  /** The error delivered at once for an unsupported program; execution
      carries on after it. */
  function ProgramCheckEvents(program: string): seq<Event> {
    match CheckProgram(program)
    case Some(text) => [Deliver(Err(Message(text)))]
    case None => []
  }

  /** Everything one call of the exported function does, in order. */
  function InvocationEvents(call: Invocation, reply: SubmitReply, ticks: seq<StatusReply>): seq<Event> {
    var program := OrDefault(call.program, DEFAULT_PROGRAM);
    ProgramCheckEvents(program)
    + if Supplied(call.rid) then
        [StartPolling(call.rid.value, Millis(REFRESH_TIME))] + PollEvents(call.rid.value, ticks)
      else
        var form := SubmitForm(program, OrDefault(call.database, DEFAULT_DATABASE), OrDefault(call.query, DEFAULT_QUERY));
        [Send(Post(API_ROOT, form))] + SubmissionEvents(reply, ticks)
  }

  /** The `.then` and `.catch` of the submission POST. */
  method Submitted(reply: SubmitReply, ticks: seq<StatusReply>) returns (events: seq<Event>)
    ensures events == SubmissionEvents(reply, ticks)
  {
    match reply
    case PostRejected(cause) =>
      events := [Deliver(Err(Transport(cause)))];
    case PostBody(body) =>
      var rid := MatchLabelledLine(body, RID_LABEL);
      var rtoe := MatchLabelledLine(body, RTOE_LABEL);
      if rid.None? {
        events := [Deliver(Err(MissingMarker(RidLine)))];
      } else if rtoe.None? {
        events := [Deliver(Err(MissingMarker(RtoeLine)))];
      } else {
        var polled := Poll(rid.value.whole, ticks);
        events := [StartPolling(rid.value.whole, RtoeText(rtoe.value.group))] + polled;
      }
  }

  /** The exported function: check the program, then either resume polling a
      supplied job or submit a new search and poll the job it creates. */
  method Invoke(call: Invocation, reply: SubmitReply, ticks: seq<StatusReply>) returns (events: seq<Event>)
    ensures events == InvocationEvents(call, reply, ticks)
  {
    var program := OrDefault(call.program, DEFAULT_PROGRAM);
    events := ProgramCheckEvents(program);
    if !Supplied(call.rid) {
      var form := SubmitForm(program, OrDefault(call.database, DEFAULT_DATABASE), OrDefault(call.query, DEFAULT_QUERY));
      var rest := Submitted(reply, ticks);
      events := events + ([Send(Post(API_ROOT, form))] + rest);
    } else {
      var polled := Poll(call.rid.value, ticks);
      events := events + ([StartPolling(call.rid.value, Millis(REFRESH_TIME))] + polled);
    }
  }

  // ---------------------------------------------------------------------------
  // Properties of an invocation

  /** The events that refer to no request at all: no POST, no GET and no
      arming of the timers. */
  predicate OnlyCallbacks(events: seq<Event>) {
    forall i :: 0 <= i < |events| ==> events[i].Deliver?
  }

  /** The program check runs first and delivers its error at once, and an
      unsupported program does not stop the call: the very next event is the
      submission POST, or the start of polling when a job id is supplied. */
  lemma ProgramCheckDoesNotStop(call: Invocation, reply: SubmitReply, ticks: seq<StatusReply>)
    ensures var program := OrDefault(call.program, DEFAULT_PROGRAM);
      var events := InvocationEvents(call, reply, ticks);
      var k := if IsSupported(program) then 0 else 1;
      && |events| > k
      && (k == 1 ==> events[0] == Deliver(Err(Message(program + UNSUPPORTED_SUFFIX))))
      && events[k] == if Supplied(call.rid) then StartPolling(call.rid.value, Millis(REFRESH_TIME))
                      else Send(Post(API_ROOT, SubmitForm(program, OrDefault(call.database, DEFAULT_DATABASE),
                                                          OrDefault(call.query, DEFAULT_QUERY))))
  {
  }

  /** With a job id supplied nothing is submitted and the submission reply is
      never looked at; polling starts on that id after the default delay of
      REFRESH_TIME, and everything after it concerns that job only. */
  lemma ResumeSkipsSubmission(call: Invocation, reply: SubmitReply, other: SubmitReply, ticks: seq<StatusReply>)
    requires Supplied(call.rid)
    ensures InvocationEvents(call, reply, ticks) == InvocationEvents(call, other, ticks)
    ensures var events := InvocationEvents(call, reply, ticks);
      var program := OrDefault(call.program, DEFAULT_PROGRAM);
      var k := |ProgramCheckEvents(program)|;
      && |events| > k
      && events[k] == StartPolling(call.rid.value, Millis(REFRESH_TIME))
      && (forall i :: k < i < |events| ==> IsPollEvent(call.rid.value, events[i]))
      && (forall i :: 0 <= i < |events| ==> !(events[i].Send? && events[i].request.Post?))
  {
    var rid := call.rid.value;
    var program := OrDefault(call.program, DEFAULT_PROGRAM);
    var head := ProgramCheckEvents(program);
    var polled := PollEvents(rid, ticks);
    PollEventsAreForJob(rid, ticks);
    var events := InvocationEvents(call, reply, ticks);
    assert events == head + [StartPolling(rid, Millis(REFRESH_TIME))] + polled;
    forall i | |head| < i < |events| ensures IsPollEvent(rid, events[i]) {
      assert events[i] == polled[i - |head| - 1];
    }
  }

  /** A submission reply without a RID line or without an RTOE line ends the
      call with one error: the timers are never armed and no status check or
      fetch is sent. */
  lemma MissingMarkerStopsBeforePolling(call: Invocation, body: string, ticks: seq<StatusReply>)
    requires !Supplied(call.rid)
    requires (forall p: nat :: !LabelledLineAt(body, RID_LABEL, p))
             || (forall p: nat :: !LabelledLineAt(body, RTOE_LABEL, p))
    ensures var events := InvocationEvents(call, PostBody(body), ticks);
      var k := |ProgramCheckEvents(OrDefault(call.program, DEFAULT_PROGRAM))|;
      && |events| == k + 2
      && events[k].Send? && events[k].request.Post?
      && events[k + 1].Deliver? && events[k + 1].delivery.Err? && events[k + 1].delivery.failure.MissingMarker?
      && OnlyCallbacks(events[..k])
  {
    ParseSubmissionFails(body);
  }

  /** Where the parts of `head + [a] + [b] + rest` sit. */
  lemma PairThenRest(head: seq<Event>, a: Event, b: Event, rest: seq<Event>)
    ensures var events := head + ([a] + ([b] + rest));
      |events| > |head| + 1 && events[|head|] == a && events[|head| + 1] == b && events[|head| + 2..] == rest
  {
    var events := head + ([a] + ([b] + rest));
    assert events == (head + [a, b]) + rest;
  }

  /** Without a supplied job id the call goes down the submission path. */
  lemma SubmissionPath(call: Invocation, reply: SubmitReply, ticks: seq<StatusReply>)
    requires !Supplied(call.rid)
    ensures var program := OrDefault(call.program, DEFAULT_PROGRAM);
      InvocationEvents(call, reply, ticks)
      == ProgramCheckEvents(program)
         + ([Send(Post(API_ROOT, SubmitForm(program, OrDefault(call.database, DEFAULT_DATABASE),
                                            OrDefault(call.query, DEFAULT_QUERY))))]
            + SubmissionEvents(reply, ticks))
  {
  }

  /** A reply with a RID line and an RTOE line is accepted. */
  lemma SubmissionAcceptedWithBothLines(body: string, i: nat, j: nat)
    requires LabelledLineAt(body, RID_LABEL, i) && LabelledLineAt(body, RTOE_LABEL, j)
    ensures ParseSubmission(body).Success?
  {
    ParseSubmissionFails(body);
  }

  /** A submission reply that parses arms the timers with the job it names. */
  lemma SubmissionEventsOnSuccess(body: string, ticks: seq<StatusReply>)
    requires ParseSubmission(body).Success?
    ensures var job := ParseSubmission(body).value;
      SubmissionEvents(PostBody(body), ticks) == [StartPolling(job.rid, RtoeText(job.rtoe))] + PollEvents(job.rid, ticks)
  {
  }

  /** After a successful submission the job is polled under the whole first
      RID line, four spaces and `RID = ` included (ParseSubmissionRid), so that
      text is what the status and fetch URLs carry; the delay is the RTOE
      text. */
  lemma SubmittedJobPolledUnderWholeLine(call: Invocation, body: string, ticks: seq<StatusReply>)
    requires !Supplied(call.rid)
    requires ParseSubmission(body).Success?
    ensures var job := ParseSubmission(body).value;
      var events := InvocationEvents(call, PostBody(body), ticks);
      var k := |ProgramCheckEvents(OrDefault(call.program, DEFAULT_PROGRAM))|;
      && |events| > k + 1
      && events[k].Send? && events[k].request.Post?
      && events[k + 1] == StartPolling(job.rid, RtoeText(job.rtoe))
      && events[k + 2..] == PollEvents(job.rid, ticks)
      && RID_LABEL <= job.rid
      && (forall i :: 0 <= i < |job.rid| ==> !IsLineTerminator(job.rid[i]))
      && exists p: nat :: FirstLabelledLine(body, RID_LABEL, p) && OccursAt(body, job.rid, p) && IsLineEnd(body, p + |job.rid|)
  {
    ParseSubmissionRid(body);
    var job := ParseSubmission(body).value;
    var head := ProgramCheckEvents(OrDefault(call.program, DEFAULT_PROGRAM));
    var post := Send(Post(API_ROOT, SubmitForm(OrDefault(call.program, DEFAULT_PROGRAM),
                                               OrDefault(call.database, DEFAULT_DATABASE),
                                               OrDefault(call.query, DEFAULT_QUERY))));
    SubmissionPath(call, PostBody(body), ticks);
    SubmissionEventsOnSuccess(body, ticks);
    PairThenRest(head, post, StartPolling(job.rid, RtoeText(job.rtoe)), PollEvents(job.rid, ticks));
  }

  /** The `megablast` alias goes out as `blastp&MEGABLAST=on`, and an omitted
      program goes out as `blastp` with no error. */
  lemma SubmittedProgramOnTheWire(call: Invocation, reply: SubmitReply, ticks: seq<StatusReply>)
    requires !Supplied(call.rid)
    requires call.program == Some("megablast") || call.program == None
    ensures var events := InvocationEvents(call, reply, ticks);
      && events[0].Send? && events[0].request.Post?
      && FieldNamed(events[0].request.form, "PROGRAM")
         == Some(Plain(if call.program.None? then "blastp" else "blastp&MEGABLAST=on"))
  {
    var program := OrDefault(call.program, DEFAULT_PROGRAM);
    assert ProgramCheckEvents(program) == [];
    SubmissionPath(call, reply, ticks);
    SubmitFormFields(program, OrDefault(call.database, DEFAULT_DATABASE), OrDefault(call.query, DEFAULT_QUERY));
  }
}

# BLAST search client: a Dafny model

This project models the decision logic of `functions/__main__.js`, a client for
the NCBI BLAST URL API. The client does four things:

- It checks the requested program against the six it supports.
- It submits a search with a form POST. The `megablast` alias is sent as
  `blastp&MEGABLAST=on`.
- It reads the job id (RID) and the wait estimate (RTOE) out of the reply with
  two multiline regular expressions.
- It arms a timer and then checks the job status once per 30-second tick. It
  classifies each status reply by substring: FAILED, then UNKNOWN, then READY.
  On READY it fetches the XML result and parses it.

The network, the timers and the XML parser are not modelled. Their results
are inputs to the model:

- one reply to the submission POST (`SubmitReply`);
- a finite sequence of status replies, one per tick (`StatusReply`). Each
  carries the reply the result fetch would get, and the parser's outcome.

The output is the ordered trace of what the client does (`Event`). That trace
holds the requests sent, each callback invocation, and the arming of the
polling timers with the job id and the initial delay.

Modules:

- `Wrappers` (wrappers.dfy): the `Option` and `Result` types.
- `Text` (text.dfy): JavaScript's `indexOf` and the line structure seen by a
  regex with the `m` flag.
- `Markers` (markers.dfy): the `RID` and `RTOE` patterns and `match`.
- `Requests` (requests.dfy): the program list, the alias rewrite, the form and
  the two GET URLs.
- `Status` (status.dfy): status classification.
- `Client` (client.dfy): the tick, the poll loop, the exported function, and
  the lemmas about whole invocations.

Some of the code's behaviour is easy to miss when reading it. The model keeps
it as written:

- The job id handed to polling is element 0 of the RID match. That is the
  whole line, with its four spaces and `RID = `, not just the capture group.
  So the status and fetch URLs carry that whole line.
- When a job id is supplied, polling starts after the default delay of 30000
  ms, not after zero.
- An unsupported program delivers an error, and the call goes on to submit
  (or to resume polling) anyway.
- A result document that fails to parse makes the callback run twice: first
  with the error, then with no error and no result.
- The polling interval is never cleared. Ticks keep checking the status after
  an error or a result has been delivered, so the callback can run many times.
- A job id that is the empty string counts as absent (`!rid`), so a new search
  is submitted.

## Model

| member | source | states |
|---|---|---|
| `Text.IndexOf` | functions/__main__.js:40-44 | `indexOf` returns -1 exactly when the token does not occur; otherwise it returns the least index where it occurs |
| `Text.LineEnd` | functions/__main__.js:16-17 | greedy `(.*$)` under the `m` flag stops at the first line terminator (LF, CR, U+2028, U+2029) or at the end of the input, and crosses no terminator |
| `Markers.FindLabelledLine` | functions/__main__.js:16-17 | the search finds the leftmost line start followed by the literal, or reports that there is none |
| `Markers.MatchLabelledLineAbsent` | functions/__main__.js:16-17 | `match` returns null exactly when no line starts with four spaces and the label |
| `Markers.MatchLabelledLineParts` | functions/__main__.js:16-17 | element 0 of a match is the label followed by element 1, and element 1 holds no line terminator |
| `Markers.MatchLabelledLineFirst` | functions/__main__.js:16-17 | element 0 is the text of the first line that starts with the label, from its start to its end |
| `Requests.CheckProgram` | functions/__main__.js:21-22 | no error exactly for blastn, megablast, blastp, blastx, tblastn and tblastx; any other program gets an error message that begins with, and so contains, the program name |
| `Requests.TransmittedProgramRewritesOnlyAlias` | functions/__main__.js:68 | `megablast` is sent as `blastp&MEGABLAST=on` and every other program, including an unsupported one that goes on to be posted, is sent unchanged; an accepted non-alias program stays accepted |
| `Requests.TransmittedProgramInjective` | functions/__main__.js:68 | the rewrite never sends two accepted programs as the same value, and it never sends the alias itself |
| `Requests.SubmitFormFields` | functions/__main__.js:71-76 | the POST form has exactly four fields, one each: CMD=Put, PROGRAM (the rewritten program), DATABASE (as given) and QUERY (the URI-encoded query) |
| `Requests.UrlsCarryRid` | functions/__main__.js:39-46 | the status URL is the API root, `?&CMD=Get&FORMAT_OBJECT=SearchInfo&RID=` and the job id; the fetch URL is the API root, `?CMD=Get&FORMAT_TYPE=XML&RID=` and the job id; the job id can be read back from either |
| `Requests.StatusAndFetchUrlsDiffer` | functions/__main__.js:46 | no status URL equals any fetch URL, whatever the two job ids |
| `Status.Classify` | functions/__main__.js:40-44 | FAILED exactly when the body contains `Status=FAILED`; UNKNOWN when it contains `Status=UNKNOWN` but not FAILED; READY when it contains `Status=READY` and neither of the others; otherwise nothing matches |
| `Client.ParseSubmissionFails` | functions/__main__.js:77-83 | parsing the submission reply fails exactly when the RID line or the RTOE line is missing, and it blames the RID line exactly when that line is missing |
| `Client.ParseSubmissionRid` | functions/__main__.js:77-80 | the forwarded job id is the whole first RID line, from its four spaces to the first line end after them: it begins with `    RID = `, holds no line terminator, and ends where that line ends |
| `Client.ParseSubmissionRtoe` | functions/__main__.js:78-80 | the forwarded delay text is what follows `    RTOE = ` on the first RTOE line, up to that line's end |
| `Client.ParseSubmissionExample` | functions/__main__.js:77-80 | the reply `    RID = ABC123` / `    RTOE = 17` yields the job id `    RID = ABC123` and the delay text `17` |
| `Client.TerminalMessagesNameJob` | functions/__main__.js:41-43 | the failure and expiry messages both name the job id, and the failure message names blast-help@ncbi.nlm.nih.gov |
| `Client.ParseFailureCallsBackTwice` | functions/__main__.js:46-53 | on READY with an unparseable document, the tick sends the status check and the fetch, then calls back with the parse error and again with no error and no result |
| `Client.Tick` | functions/__main__.js:37-60 | one interval tick produces exactly the events of the status check and its classified outcome |
| `Client.Poll` | functions/__main__.js:36-61 | polling over a sequence of replies produces, in order, each tick's events, whatever earlier ticks delivered |
| `Client.TickRequestCounts` | functions/__main__.js:39-46 | each tick sends one status check, and sends one fetch exactly when its reply classifies as READY |
| `Client.PollRequestCounts` | functions/__main__.js:36-46 | n ticks send n status checks, because polling never stops, and send exactly one fetch per READY reply |
| `Client.PollEventsAreForJob` | functions/__main__.js:39-59 | polling sends only the status check and the fetch of its own job, plus callbacks; it never submits and never re-arms timers |
| `Client.PollSilentUntilRecognised` | functions/__main__.js:40-57 | while no reply mentions FAILED, UNKNOWN or READY, each tick sends its status check and nothing else: no callback, no fetch |
| `Client.Submitted` | functions/__main__.js:76-83 | the submission reply handler produces the events of a transport error, a missing marker, or the start of polling |
| `Client.Invoke` | functions/__main__.js:20-88 | the exported function produces the program check's error if any, then either the resume or the submit-and-poll events |
| `Client.ProgramCheckDoesNotStop` | functions/__main__.js:21-23 | the program error comes first, and the next event is still the POST (or, with a supplied job id, the start of polling) |
| `Client.ResumeSkipsSubmission` | functions/__main__.js:84-86 | with a job id supplied, no POST is sent and the submission reply is never read; polling starts on that id with the default delay of 30000; all later events concern that job only |
| `Client.MissingMarkerStopsBeforePolling` | functions/__main__.js:77-83 | a reply without a RID or RTOE line ends the call with the POST and one missing-marker error; no timer, status check or fetch follows |
| `Client.SubmissionAcceptedWithBothLines` | functions/__main__.js:77-80 | a reply with both a RID line and an RTOE line is accepted |
| `Client.SubmittedJobPolledUnderWholeLine` | functions/__main__.js:71-80 | after a successful submission the POST is followed at once by the arming of the timers with the RTOE text and a job id that is the whole first RID line (label included, no line terminator, from the start of the first RID line to its end), and then by polling of that job |
| `Client.SubmittedProgramOnTheWire` | functions/__main__.js:68-73 | with no job id supplied, the first event is the POST; its PROGRAM field is `blastp&MEGABLAST=on` for `megablast` and `blastp` for an omitted program |

## Left out

- HTTP through request-promise-native. Each reply, or its rejection, is an input.
- `setTimeout` and `setInterval`. Each tick is one element of the reply
  sequence. Ticks are modelled as strictly sequential, but in the source a
  slow request can overlap the next tick. The delay is recorded in the
  `StartPolling` event and is not waited for.
- How the RTOE text is used as a delay. It is seconds passed to `setTimeout`
  as milliseconds, and it is carried here as text.
- XML parsing by xml2js. Its outcome is an input: a parse error, or an opaque
  document.
- `encodeURIComponent`. The QUERY field records the raw query as a symbolic
  URI component.
- `console.log` progress messages, and the unused `context` argument.
- Arguments that are not strings: `null`, a number, or an object given as
  program, database or query. An omitted argument takes its default.
- The exact text of the TypeError raised by indexing a `null` match. The model
  records only which match was missing.

# study_app lecture pipeline, modelled in Dafny

study_app is a lecture-notes service. A user uploads an audio lecture. Background
jobs then transcribe it, summarise the transcript, export the summary to PDF and
generate flashcards, announcing their progress over a WebSocket to the browser.
This project models the decisions that pipeline makes around its I/O, and proves
what each part promises.

- **Jobs** (`tasks.dfy`, `job_properties.dfy`, `retry.dfy`). Each Celery job is
  a pure specification function over the lecture table. It takes the job's
  external outcome (the HTTP answer, audio file or PDF rendering) as an input.
  It returns the new table, the ordered effects (saves, publishes, API calls,
  renders) and how the job ends: it returns, schedules a retry, or raises.
  - The `Worker` class (the table plus a ghost effect log) runs each job step
    by step. Each of its methods is proved to do exactly what its
    specification function says.
  - Lemmas state each job's case analysis: field ownership, publish-after-save
    and the status sequence a client sees.
  - Replay functions run the retried jobs under Celery's retry rule, for the
    "k transient failures, then success or giving up" lemmas.
- **WebSocket consumer and route** (`consumer.dfy`, `routing.dfy`,
  `channel_layer.dfy`).
  - The consumer is a class with its connection fields and an outbox of frames
    sent to the client.
  - The channel layer is a ghost map from group to member channels, plus a log
    of group messages.
  - The route is a pure matcher for `ws/lecture/<digits>/`.
- **Request side** (`views.py`, `serializers.py`). The viewset is a class whose
  task queue is a sequence. This part covers the duplicate-transcription guard,
  the audio file check (with `os.path.splitext` semantics), the read-only
  fields and the owner that `create` sets.
- **Edge routers** (`lambda.dfy`, `frontend.dfy`).
  - The API Gateway Lambda is modelled as pure dispatch and request
    composition.
  - The browser's `PDFGenerator` is a class with its socket, lecture id and a
    reduced screen (progress, status line, download link).
- **Shared helpers**:
  - `Json.Value`: decoded JSON as Python sees it. Dicts keep insertion order.
    The module also provides truthiness, `dict.get`, subscripting, `in` and
    f-string display.
  - `Text`: decimal text of ids, ASCII `lower`, Python's `strip`, substring
    search and `os.path.splitext`.
  - `Models.Lecture`: the `AudioLecture` record. Its nullable text fields are
    JSON values, because the jobs store whatever the API returned.

Classification functions (`TranscriptOf`/`UploadOf`, `SummaryOf`,
`FlashcardsOf`) turn a raw HTTP outcome into what the job makes of it. Their
contracts state exactly which answers lead to which branch. The job
specifications take that classification as their input.

## Model

| member | source | states |
|---|---|---|
| Tasks.Message | core/tasks.py:15-24 | a publish hands the layer the dict `{type: "send_event", event, data}`, in that key order, addressed to the given group |
| Tasks.TranscriptOf | core/tasks.py:36-48 | an upload yields a transcript iff the file opened, the request went through, the status is not 4xx/5xx, the body decoded to a dict and its `text` is truthy. Otherwise it gives the exception raised: the unreadable file, the `requests` error, the HTTP status, the decoding error, the error `get` raises on a non-dict body, or the ValueError for a falsy text |
| Tasks.TranscribeRun | core/tasks.py:26-69 | a retry is scheduled only while fewer than 3 retries were made, always with countdown 10; a missing lecture changes nothing and publishes nothing |
| Tasks.Worker.NotifyWs | core/tasks.py:15-24 | `notify_ws` appends exactly one publish and touches no record |
| Tasks.Worker.TranscribeAudio | core/tasks.py:26-69 | the step-by-step job leaves exactly the table, effect log and ending of `TranscribeRun` for the classified attempt |
| JobProperties.TranscribeStaysInRow | core/tasks.py:29-68 | an attempt keeps the table's keys, changes no other row, publishes only `status_update` to `lecture_<id>`, and keeps rows under their own ids |
| JobProperties.TranscribeAnnounces | core/tasks.py:32-34 | "In progress" is saved and then published first, before any upload; every save changes only status and transcript |
| JobProperties.TranscribeFails | core/tasks.py:63-69 | any non-missing-lecture failure stores status "Failed" with the transcript untouched, publishes "In progress" then "Failed", and retries with countdown 10 until 3 retries are spent, then raises the error |
| JobProperties.TranscribeSucceeds | core/tasks.py:50-57 | a truthy `text` is stored as transcript with status "Successful", and exactly those two values are published last |
| Tasks.ContentOf | core/tasks.py:123 | `data["choices"][0]["message"]["content"]` succeeds only along that exact path of dicts and a non-empty list, and yields that value |
| Tasks.ErrorMessageOf | core/tasks.py:115 | the error text is `error.message` when present, "Sorry, data not available" when `error` or its `message` is absent, and it raises iff `data` or its `error` is not a dict |
| Tasks.SummaryOf | core/tasks.py:97-149 | network trouble (the retried case) comes iff the API is unreachable or the body does not decode; a summary comes iff the status is 200 and the content path yields a string, stripped; a rejection iff the status is not 200 or `choices` is absent and the error text can be read; every other decoded answer is an unexpected error, carrying the exception that the `in` test, the error lookup, the content path or `strip` raised |
| Tasks.SummarizeRun | core/tasks.py:72-149 | an attempt returns or schedules a retry with delay 30; a retry happens only while fewer than 3 retries were made and leaves the table as it was; a missing lecture changes nothing |
| Tasks.Worker.SummarizeTranscript | core/tasks.py:72-149 | the step-by-step job leaves exactly the table, effect log and ending of `SummarizeRun` for the classified answer |
| Tasks.Worker.SummarizeAnswered | core/tasks.py:78-149 | the same, given the classified answer |
| JobProperties.SummarizeStaysInRow | core/tasks.py:78-149 | an attempt keeps the keys, changes no other row and publishes only `status_update` to `lecture_<id>` |
| JobProperties.SummarizeOwnsSummary | core/tasks.py:78-149 | the job never writes `status`; no save changes anything but `summary` |
| JobProperties.SummarizeWithoutTranscript | core/tasks.py:86-91 | a falsy transcript stores "Sorry, there is no transcript for this lecture." with no API call and no publish |
| JobProperties.SummarizeAnnounces | core/tasks.py:93-107 | given a transcript, "Summarizing" is published first, followed by exactly one chat call carrying the transcript |
| JobProperties.SummarizeRetries | core/tasks.py:130-135 | network trouble with retries left leaves the record untouched and schedules a retry after publishing only "Summarizing" |
| JobProperties.SummarizeConcludes | core/tasks.py:93-149 | an attempt that concludes makes four effects and publishes "Summarizing" and then the status of its final publish |
| JobProperties.SummarizeSucceeds | core/tasks.py:122-127 | the stripped content is stored as summary and published with "Summary ready"; the job returns |
| JobProperties.SummarizeRejected | core/tasks.py:113-120 | a non-200 status or a missing `choices` stores the error text as summary and publishes it with "Failed"; no retry |
| JobProperties.SummarizeUnexpected | core/tasks.py:142-149 | any other exception stores "Unexpected error occurred: ..." and publishes it with "Failed"; no retry |
| JobProperties.SummarizeExhausted | core/tasks.py:130-140 | network trouble with no retries left stores "Network error: please try again later." but publishes "Network error occurred: ... Retrying..." with "Failed", and returns normally |
| Tasks.PdfText | core/tasks.py:163 | (helper) the rendered text is "Lecture: <title>\n\nSummary:\n<summary>" |
| Tasks.ExportRun | core/tasks.py:153-172 | a missing lecture raises before anything happens; otherwise "Exporting PDF" is published first; on success the only field written is `pdf_file` = "summaries/<id>.pdf", followed by render, save and a "PDF ready" publish with "/media/summaries/<id>.pdf"; a rendering failure raises with nothing saved |
| JobProperties.ExportIdempotent | core/tasks.py:169-172 | exporting twice leaves the table as one export did and publishes the same ready message |
| Tasks.Worker.ExportSummaryToPdf | core/tasks.py:153-172 | the step-by-step job leaves exactly the table, log and ending of `ExportRun` |
| Tasks.ApiErrorOf | core/tasks.py:197 | `data["error"]["message"]` succeeds iff `error` is a dict holding `message`, and yields it |
| Tasks.FlashcardsOf | core/tasks.py:194-200 | an answer carries an API error iff its body decoded and `error`'s message can be read; it carries cards iff the body is a dict without `error` whose content path succeeds, and the cards are that content, unstripped |
| Tasks.FlashcardsRun | core/tasks.py:175-207 | a missing lecture raises; "Generating flashcards" is published, then the chat call sends the transcript; an `error` body publishes "Error" with the message and returns `{status: "error", message}` with the record untouched; otherwise only `flashcards` is written, "Flashcards ready" is published and `{status: "success", flashcards}` is returned; never retried |
| Tasks.Worker.GenerateFlashcards | core/tasks.py:175-207 | the step-by-step job leaves exactly the table, log and ending of `FlashcardsRun` for the classified answer |
| Tasks.Worker.FlashcardsAnswered | core/tasks.py:178-207 | the same, given the classified answer |
| Retry.ReplayTranscribe | core/tasks.py:69 | `self.retry` schedules a new attempt only while fewer than 3 retries were made, so the queue runs at most 3 + 1 attempts of a job in all, and stops early only when the job no longer asks for a retry |
| Retry.ReplayTranscribeStaysInRow | core/tasks.py:26-69 | however many attempts run, the whole run changes only the lecture's row and publishes only to its group |
| Retry.TranscribeRecovers | core/tasks.py:63-69 | up to 3 failed attempts and then a good upload: every attempt runs, and the lecture ends "Successful" with that transcript and every other field as before |
| Retry.TranscribeRecoversVisibly | core/tasks.py:32-68 | the client sees "In progress" and "Failed" once per failed attempt, then "In progress" and "Successful" with the transcript |
| Retry.TranscribeGivesUp | core/tasks.py:69 | failures on every remaining attempt make the job raise the last error and leave the lecture "Failed" with its old transcript, whatever outcomes remain |
| Retry.TranscribeGivesUpVisibly | core/tasks.py:66-69 | the client sees "In progress" and "Failed" once per attempt, ending with "Failed" |
| Retry.ReplaySummarize | core/tasks.py:134-135 | the same attempt ceiling for the summary job |
| Retry.ReplaySummarizeStaysInRow | core/tasks.py:78-149 | however many attempts run, only the lecture's row changes and only its group is published to |
| Retry.SummarizeRecovers | core/tasks.py:130-135 | up to 3 network failures and then a good answer: every attempt runs and the stripped content is stored, nothing else changed |
| Retry.SummarizeRecoversVisibly | core/tasks.py:94-127 | the client sees "Summarizing" once per attempt, then "Summary ready" with the summary |
| Retry.SummarizeGivesUp | core/tasks.py:130-140 | network failures on every remaining attempt end the job normally, with the try-later summary stored |
| Retry.SummarizeGivesUpVisibly | core/tasks.py:130-140 | the client sees "Summarizing" once per attempt, then "Failed" with a summary that still says "Retrying..." |
| ChannelLayer.Layer.GroupAdd | core/consumer.py:23 | joining adds exactly this channel to the group; nothing is sent |
| ChannelLayer.Layer.GroupDiscard | core/consumer.py:32 | leaving removes exactly this channel from the group; removing an absent one is a no-op |
| ChannelLayer.Layer.GroupSend | core/consumer.py:54-57 | a group send is appended to the layer's log; memberships are unchanged |
| Consumer.React | core/consumer.py:41-63 | an absent or empty frame yields nothing; an undecodable one "Invalid JSON format."; a decoded non-dict "Internal server error."; a dict with falsy or missing `event` "Missing 'event' field in message."; otherwise exactly one relay of its `event` and its `data` (None when absent) — each iff its condition |
| Consumer.ClientFrame | core/consumer.py:65-75 | a group message becomes exactly `{event, data}` holding its `event` and `data` (None when absent), with no `type`, and nothing when it is not a dict |
| Consumer.LectureConsumer.Connect | core/consumer.py:9-28 | a missing or empty `lecture_id` closes with 4001 with no join and no accept; otherwise the group is `lecture_<id>`; the join happens before the accept; a failure closes with 4000 without accepting, and a failed accept leaves the channel joined |
| Consumer.LectureConsumer.Disconnect | core/consumer.py:30-35 | removes this channel from its group with no other change; with no group name, or a failing layer, nothing changes and nothing is raised |
| Consumer.LectureConsumer.Receive | core/consumer.py:37-63 | follows `React`: nothing, exactly one error frame with nothing sent to the group, or exactly one `group_send` of `{type:"send_event", event, data}` to its own group with no frame to the client |
| Consumer.LectureConsumer.SendEvent | core/consumer.py:65-75 | one `{event, data}` frame is added to the outbox; a non-dict message or a failed send adds nothing and is swallowed |
| Consumer.LectureConsumer.SendError | core/consumer.py:77-84 | exactly one `{event: "error", data: {message}}` frame is added |
| Consumer.RoutedConsumerJoinsJobGroup | core/consumer.py:17 | the path for lecture `n` is routed with id `str(n)`, and the consumer's group is the group the jobs of `n` publish to |
| Consumer.GroupIsJobGroup | core/consumer.py:17 | a consumer's group is job group `n`'s iff its id is `n`'s canonical decimal text (so an id such as "007" hears no job of lecture 7) |
| Consumer.RoutedIdIsNeverRefused | core/consumer.py:12-15 | an id captured by the route is never empty, so the 4001 branch cannot be reached through it |
| Consumer.PublishedFrame | core/consumer.py:70-73 | a job's publish reaches the client as `{event, data}` with no top-level `status` |
| Consumer.RelayEchoes | core/consumer.py:54-57 | a relayed client message comes back to group members as the `event` and `data` it carried |
| Routing.DigitRun | core/routing.py:7 | (the greedy `\d+`) the run is all digits, it and the rest make up the input, and the rest does not start with a digit |
| Routing.DigitRunOf | core/routing.py:7 | the split into digit run and remainder is unique |
| Routing.LectureId | core/routing.py:7 | a captured id is a non-empty string of digits |
| Routing.RouteMatches | core/routing.py:7 | the route captures `id` from `path` iff `path` is `ws/lecture/` + `id` + `/` with `id` one or more digits |
| Routing.NonDigitRejected | core/routing.py:7 | an id segment holding any non-digit character is not routed |
| Routing.MissingSlashRejected | core/routing.py:7 | a path not ending in `/` is not routed |
| Routing.LecturePathRoutes | core/routing.py:7 | `ws/lecture/<n>/` is routed with id `str(n)` |
| Views.Lookup | core/views.py:21 | `get_object` finds a row iff the key is some row's id in decimal behind any number of leading zeros, and then yields that row |
| Views.LookupForms | core/views.py:21 | the keys read as numbers are exactly the decimal texts behind leading zeros, each read as the number it shows |
| Views.TranscribeDecision | core/views.py:23-27 | at most one job; none iff the lecture is missing (404) or its status is exactly "In progress" (202 "Transcription already in progress"); otherwise exactly `transcribe_audio(lecture.id)` with 202 "Transcription started" |
| Views.AudioLectureViewSet.Transcribe | core/views.py:19-31 | the queue grows by exactly the decision's jobs, and the reply is the decision's |
| Views.AudioLectureViewSet.Summarize | core/views.py:34-36 | exactly one `summarize_transcript(pk)` is enqueued, with no status check, and the reply is "summary generation started" |
| Views.AudioLectureViewSet.ExportPdf | core/views.py:39-41 | exactly one `export_summary_to_pdf(pk)` is enqueued unconditionally; the reply is "pdf export started" |
| Views.AudioLectureViewSet.GenerateFlashcards | core/views.py:44-46 | exactly one `generate_flashcards(pk)` is enqueued unconditionally; the reply carries "flashcard generation started" and the task id |
| Views.RunningTranscriptionBlocks | core/views.py:23 | the status a transcription saves first blocks a second transcription, and the row an attempt leaves ("Successful" or "Failed") admits one again |
| Views.LookupByIdText | core/views.py:21-26 | a lecture is found under its id's decimal text, and an admitted request enqueues the job for that id |
| Serializers.WritableFields | core/serializers.py:14-15 | a request may set title, audio_file, flashcards and status, and nothing else |
| Serializers.ValidateAudioFile | core/serializers.py:17-22 | a file is accepted iff the lower-cased `splitext` extension of its name is `.mp3`, `.wav` or `.m4a`; it is then returned unchanged; otherwise the message names that extension |
| Serializers.CaseInsensitive | core/serializers.py:18 | lower-casing the name first changes neither the extension tested nor the verdict |
| Serializers.UpperCaseMp3Accepted | core/serializers.py:18 | "A.MP3" is accepted |
| Serializers.LastExtensionCounts | core/serializers.py:18 | for a base name with a non-dot character, adding one more extension makes that the one tested |
| Serializers.DoubleExtensions | core/serializers.py:18-20 | "x.mp3.exe" is rejected and "x.tar.wav" is accepted |
| Serializers.NoExtensionRejected | core/serializers.py:18-21 | a name without a dot has the empty extension and is rejected |
| Serializers.DotfileRejected | core/serializers.py:18-21 | leading dots do not start an extension: ".mp3" and "...mp3" are rejected with the empty extension |
| Serializers.Validated | core/serializers.py:15 | the validated data keeps exactly the writable fields the request filled in, with their values |
| Serializers.WithOwner | core/serializers.py:24 | the data handed on names the requesting user as `user` and is otherwise unchanged |
| Serializers.AudioLectureSerializer.Create | core/serializers.py:23-25 | `create` overwrites `user` in the dict in place with the requesting user and hands on the result |
| Serializers.ReadOnlyFieldsIgnored | core/serializers.py:15 | no read-only field survives validation, and the owner is the requesting user whatever the request named |
| Serializers.StatusAndFlashcardsWritable | core/serializers.py:15 | `status` and `flashcards` pass from the request to the new row as sent |
| Text.SplitExt | core/serializers.py:18 | `os.path.splitext`: root + ext is the name, and ext is empty or one dot followed by no dot or slash |
| Text.SplitExtLower | core/serializers.py:18 | lower-casing before or after `splitext` gives the same extension |
| Text.SplitExtAppend | core/serializers.py:18 | a base name with a non-dot character plus `.e` splits at that last dot |
| Text.Strip | core/tasks.py:123 | `strip()` removes exactly the leading and trailing whitespace |
| Text.StripIdempotent | core/tasks.py:123 | stripping twice is stripping once |
| Text.ParseNatText | core/tasks.py:30 | the decimal text of an id reads back as the id |
| Lambda.IsWebsocketEvent | infrastructure/lambda/index.py:8 | an event is a WebSocket one iff its `requestContext` exists and contains `routeKey` |
| Lambda.Handler | infrastructure/lambda/index.py:6-12 | WebSocket events go to `handle_websocket`, all others to `handle_http` |
| Lambda.HandleWebsocket | infrastructure/lambda/index.py:58-88 | `$connect` gives 200 "Connected.", `$disconnect` 200 "Disconnected.", `$default` 200 "Message processed." or 500 "Error processing message.", any other key 400 "Unknown route key."; it raises iff the context lacks `routeKey` or `connectionId` |
| Lambda.DefaultRoute | infrastructure/lambda/index.py:73-86 | a missing body counts as "{}" and is processed; a text body is processed iff it decodes |
| Lambda.LowerHeaders | infrastructure/lambda/index.py:23 | (the dict comprehension) builds a well-formed dict |
| Lambda.HeadersLowered | infrastructure/lambda/index.py:23 | every forwarded header name is lower case, every header sent arrives under its lower-cased name, and its value is unchanged when no two names differ only in case |
| Lambda.CollectLast | infrastructure/lambda/index.py:23 | a dict built from pairs holds, for a name, the value of the last pair with that name |
| Lambda.DictOf | infrastructure/lambda/index.py:45 | `dict(pairs)` has exactly the pairs' names as keys |
| Lambda.ComposeRequest | infrastructure/lambda/index.py:20-24 | composition succeeds iff the event is a dict with `requestContext.http.method` (each level a dict) and `rawPath`, and its headers are a dict; the forwarded verb is that method, with the composed url, the lower-cased headers and the body (default "") |
| Lambda.ForwardUrlRoundTrip | infrastructure/lambda/index.py:33 | for a path without `?`, the url sent splits back at its first `?` into the path and the query string sent, and a falsy query leaves the path bare |
| Lambda.SplitTargetJoin | infrastructure/lambda/index.py:33 | a target made of a `?`-free path, `?` and a query splits back into exactly those two parts |
| Lambda.HandleHttp | infrastructure/lambda/index.py:14-56 | it answers iff the request composes and `TARGET_IP` is set; an unset target raises a TypeError outside the `try`; a forwarding failure gives 500 with `{"error": "Internal Server Error"}`; a response is returned with its status, its headers as a dict and its body |
| Lambda.NoContextRaises | infrastructure/lambda/index.py:20 | an event without `requestContext` raises a KeyError on the HTTP side |
| Lambda.HttpForwardFailure | infrastructure/lambda/index.py:49-54 | a well-formed HTTP event whose forwarding fails is answered 500 with the fixed body |
| Frontend.SocketUrl | frontend-pdf-progress.js:12 | the socket URL is the server origin followed by the consumer's route path for the id |
| Frontend.ProgressFor | frontend-pdf-progress.js:41-72 | the percentage lies between 0 and 100; it is 100 iff the status is "PDF ready" and 0 iff it is "Error" |
| Frontend.StagesAdvance | frontend-pdf-progress.js:42-59 | the five stages, in switch order, raise the progress strictly (10, 30, 60, 90, 100) |
| Frontend.Handle | frontend-pdf-progress.js:34-74 | an unrecognised status changes nothing; a recognised one sets its percentage; only "PDF ready" and "Error" close the socket; the link changes only for a ready PDF with a truthy `pdf` and the button present, and in that case it becomes that `pdf`; each recognised status shows its own status line; an error shows its message or "Unknown error" |
| Frontend.PDFGenerator.InitWebSocket | frontend-pdf-progress.js:9-13 | records the lecture id and opens the socket for `/ws/lecture/<id>/`; an open socket is replaced, not closed |
| Frontend.PDFGenerator.CloseWebSocket | frontend-pdf-progress.js:112-117 | leaves no socket, closing the open one if any; when none is open it changes nothing, so a second call is a no-op |
| Frontend.PDFGenerator.HandleProgressUpdate | frontend-pdf-progress.js:34-74 | with the bar or status line missing nothing changes; otherwise the screen becomes `Handle`'s and the socket is closed exactly when `Handle` says so |
| Frontend.PDFGenerator.OnMessage | frontend-pdf-progress.js:19-22 | as written: the parsed frame itself is handed to the update |
| Frontend.ServerFramesIgnored | frontend-pdf-progress.js:20-21 | a frame the consumer forwards matches no case of the update as written and changes nothing |
| Frontend.AsWrittenNeverAdvances | frontend-pdf-progress.js:19-41 | as written, no sequence of job publishes moves the bar or closes the socket |
| Frontend.PDFGenerator.OnServerFrame | frontend-pdf-progress.js:19-22 | corrected: the frame's `data` is handed to the update; a frame without `data` changes nothing |
| Frontend.FramesOf | core/consumer.py:65-75 | every frame a client receives for a job is the `{event, data}` of one of its publishes, and there are no more frames than effects |
| Frontend.ExportFrames | core/tasks.py:158-172 | a successful export reaches the client as exactly two frames: "Exporting PDF", then "PDF ready" with the url |
| Frontend.CorrectedFollowsExport | frontend-pdf-progress.js:41-66 | reading `data`, the tracker goes from its first screen to 100%, the link to the stored PDF and a closed socket over a successful export |
| Frontend.SocketReachesLectureGroup | frontend-pdf-progress.js:12 | the socket opened for lecture `n` is routed with id `str(n)` to a consumer in the group lecture `n`'s jobs publish to |

## Left out

- External effects are inputs, not code: the Groq HTTP calls, opening the audio file, FPDF rendering, `os.makedirs` and media paths. Each job takes its outcome as a parameter, and the text of an exception is an abstract `reason`.
- JSON decoding is a parse outcome, not a parser: `Body`, `Consumer.Parse` and the `decodes` oracle of the Lambda. JSON numbers are integers only.
- The jobs' specification functions take the classified answer (`UploadOf`, `SummaryOf`, `FlashcardsOf`). The raw outcome reaches them only through the `Worker` methods and those classification functions.
- Concurrency is not modelled: channel-layer delivery, Redis, cross-worker races, and a job's whole-row save overwriting a concurrent write. Celery scheduling and timing are left out too; a retry countdown is only a recorded number.
- Tasks: the jobs take the lecture id as a number. The three views that pass the URL's key text are modelled with that text in the queue entry. A key with leading zeros, as the task's group name would spell it, is not carried into the jobs.
- Tasks and views: `print` calls and logging are left out (the job messages in core/tasks.py and the `print` of the found lecture at core/views.py:22).
- Consumer: a channel-layer group name that Channels refuses (too long, bad characters) is covered only by the abstract `GroupAddFails`. A failing `send` inside `send_error` is not modelled; it would propagate out of `receive`.
- Views: authentication, permission classes and the unfiltered queryset are left out, as are `RegisterUserView` and `RegisterSerializer` (token issuance).
- Views: the `DoesNotExist` handler refers to an undefined `logger`. `get_object` raises Http404 rather than `DoesNotExist`, so that handler is not modelled; a missing lecture gets the framework's 404 reply.
- Views.Lookup: `int()` also accepts a sign, surrounding whitespace, underscores and non-ASCII digits in the key. The model accepts only ASCII digit strings.
- Serializers: the framework's own field checks (title required, its length, the file being present) are not modelled. The row the model's `create` builds is modelled only through the dict it is handed.
- Text: `lower` and the route's `\d` are modelled on ASCII. Python's Unicode case mapping and Unicode decimal digits are not.
- Lambda: the connection itself is abstracted as an `Upstream` outcome: `TARGET_IP` unset, a failed request or response, or an answer. The host and port values, the 30-second timeout, `conn.close` and UTF-8 decoding of the response are not modelled, and neither is a `TARGET_PORT` that the connection refuses. `print` logging is also left out.
- Frontend: the DOM, CSS and HTML templates, `setTimeout` animations, `showError`'s error box, `showLoadingUI` and `generatePDF`'s `fetch` are left out. So are the socket's open/ error/ close logging and a `JSON.parse` failure.
- Frontend: a frame of `null`, where `data.status` throws, has the same observable effect as an unrecognised status.
- Frontend: the stray backtick at frontend-pdf-progress.js:272 opens an unterminated template literal, so the file as shown would not load. The model treats the class as if it loaded.
- Deployment and wiring: infrastructure/infrastructure/infrastructure_stack.py, infrastructure/app.py, study_app/settings.py, study_app/celery.py and study_app/urls.py are configuration and framework wiring, not part of this model.

## Findings

| source | as written | input that shows it | evidently intended | confidence | as-written member | corrected member |
|---|---|---|---|---|---|---|
| frontend-pdf-progress.js:20-21 | `onmessage` passes the parsed frame to `handleProgressUpdate`, which switches on the frame's top-level `status`. The consumer sends `{event, data}` with the status under `data` (core/consumer.py:70-73), so no case ever matches. | the frame the consumer forwards for a finished export: `{"event": "status_update", "data": {"status": "PDF ready", "pdf": "/media/summaries/7.pdf"}}` | read the update from the frame's `data`: the bar reaches 100%, the link is set and the socket closes | high; not executed | Frontend.PDFGenerator.OnMessage, Frontend.AsWrittenNeverAdvances | Frontend.PDFGenerator.OnServerFrame, Frontend.CorrectedFollowsExport |

/** The four background jobs of core/tasks.py.

    Each job is specified by a function producing a `Run`: the table
    afterwards, the job's effects in order, and how the job ends. The inputs
    are the table, the job's argument, the outcome of its one external call,
    and (for the retried jobs) Celery's retry counter. The `Worker` methods take
    the same steps one at a time on a loaded copy of the record. They are proved
    to produce exactly that run. */
module Tasks {
  import opened Text
  import opened Json
  import opened Models
  import opened ChannelLayer

  // Celery settings of the jobs
  const MaxRetries: nat := 3
  const TranscribeCountdown: nat := 10
  const SummarizeRetryDelay: nat := 30

  // The external API
  const TranscriptionsUrl := "https://api.groq.com/openai/v1/audio/transcriptions"
  const ChatUrl := "https://api.groq.com/openai/v1/chat/completions"
  const WhisperModel := "whisper-large-v3-turbo"
  const ChatModel := "llama-3.3-70b-versatile"

  // Statuses the jobs write or publish
  const InProgress := "In progress"
  const Successful := "Successful"
  const Failed := "Failed"
  const Summarizing := "Summarizing"
  const SummaryReady := "Summary ready"
  const ExportingPdf := "Exporting PDF"
  const PdfReady := "PDF ready"
  const GeneratingFlashcards := "Generating flashcards"
  const FlashcardsReady := "Flashcards ready"
  const ErrorStatus := "Error"
  const StatusUpdate := "status_update"

  // Fixed texts
  const NoTranscript := "Sorry, there is no transcript for this lecture."
  const NoData := "Sorry, data not available"
  const TryLater := "Network error: please try again later."
  /** MEDIA_URL of the project settings: the prefix of a stored file's url. */
  const MediaUrl := "/media/"

  /** The group every job of a lecture publishes to. */
  function Group(id: nat): string {
    "lecture_" + NatText(id)
  }

  // ---------------------------------------------------------------------------
  // Inputs: what the outside world answers
  // ---------------------------------------------------------------------------

  /** A response body: `response.json()` either fails or yields a value. */
  datatype Body = Undecodable(reason: string) | Decoded(json: Value)

  /** One HTTP call: the request raises a `requests` exception (connection,
      timeout), or a response comes back. */
  datatype ApiOutcome = Unreachable(reason: string) | Answered(code: int, body: Body)

  /** Transcription first opens the audio file, then uploads it. */
  datatype AudioAttempt = AudioUnreadable(reason: string) | Uploaded(outcome: ApiOutcome)

  /** Rendering and writing the PDF file. */
  datatype PdfOutcome = PdfStored | PdfFails(reason: string)

  // ---------------------------------------------------------------------------
  // Outputs: effects and endings
  // ---------------------------------------------------------------------------

  datatype Api = Api(url: string, model: string, input: string)

  datatype Effect =
    | Saved(row: Lecture)                                  // `lecture.save()`
    | Published(group: string, event: string, data: Value) // `notify_ws(...)`
    | Requested(api: Api)                                  // `requests.post(...)`
    | Rendered(path: string, text: string)                 // `pdf.output(...)`

  /** The message `notify_ws` hands to the channel layer for a publish. */
  function Message(e: Effect): (m: Sent)
    requires e.Published?
    ensures m.group == e.group
    ensures m.message.Obj? && m.message.keys == ["type", "event", "data"]
    ensures m.message.fields == map["type" := Str("send_event"), "event" := Str(e.event), "data" := e.data]
  {
    Sent(e.group, SendEventMessage(Str(e.event), e.data))
  }

  /** Exceptions a job raises or catches. */
  datatype Fault =
    | LectureMissing               // AudioLecture.DoesNotExist
    | AudioUnavailable(reason: string)
    | Network(reason: string)      // a `requests` exception
    | HttpStatus(code: int)        // `raise_for_status()`
    | BadJson(reason: string)      // `response.json()`
    | NoText                       // the ValueError for a missing transcript
    | Python(error: PyError)       // a lookup on the decoded body failed
    | PdfError(reason: string)

  datatype Ending = Returned(value: Value) | RetryScheduled(countdown: nat) | Raised(fault: Fault)

  datatype Run = Run(db: Db, effects: seq<Effect>, ending: Ending)

  // ---------------------------------------------------------------------------
  // Properties shared by the jobs
  // ---------------------------------------------------------------------------

  /** Every publish is a `status_update` to the lecture's own group. */
  predicate PublishesTo(effects: seq<Effect>, id: nat) {
    forall i | 0 <= i < |effects| && effects[i].Published? ::
      effects[i].group == Group(id) && effects[i].event == StatusUpdate
  }

  datatype Job = Transcribe | Summarize | ExportPdf | Flashcards

  /** A row with the fields `job` writes blanked out: what the job leaves alone. */
  function Unowned(job: Job, l: Lecture): Lecture {
    match job
    case Transcribe => l.(status := Null, transcript := Null)
    case Summarize => l.(summary := Null)
    case ExportPdf => l.(pdfFile := Null)
    case Flashcards => l.(flashcards := Null)
  }

  /** Every save writes a row that differs from `before` only in fields `job` owns. */
  predicate SavesOnly(effects: seq<Effect>, before: Lecture, job: Job) {
    forall i | 0 <= i < |effects| && effects[i].Saved? :: Unowned(job, effects[i].row) == Unowned(job, before)
  }

  /** The value under `key` of a published dict, `None` when absent. */
  function Field(data: Value, key: string): Value {
    if data.Obj? && key in data.fields then data.fields[key] else Null
  }

  /** Publish-after-save: each publish that follows a save reports the status
      that save stored. */
  predicate ReportsSavedStatus(effects: seq<Effect>) {
    forall i | 0 < i < |effects| && effects[i].Published? && effects[i - 1].Saved? ::
      Field(effects[i].data, "status") == effects[i - 1].row.status
  }

  /** The table keeps its keys and nothing but row `id` changes. */
  predicate OnlyRowChanges(before: Db, after: Db, id: nat) {
    && after.Keys == before.Keys
    && forall k | k in before && k != id :: after[k] == before[k]
  }

  /** Celery's `self.retry(exc=e)`: a retry while attempts remain, else `e`. */
  function CeleryRetry(fault: Fault, countdown: nat, retries: nat): (r: Ending)
    ensures r.RetryScheduled? <==> retries < MaxRetries
    ensures r.RetryScheduled? ==> r.countdown == countdown
    ensures r.Raised? ==> r.fault == fault
  {
    if retries < MaxRetries then RetryScheduled(countdown) else Raised(fault)
  }

  // ---------------------------------------------------------------------------
  // transcribe_audio
  // ---------------------------------------------------------------------------

  datatype Transcribed = Transcript(text: Value) | TranscribeFault(fault: Fault)

  /** What the upload yields: the `text` of the decoded body, which has to be
      truthy; anything else is an exception. */
  function TranscriptOf(a: AudioAttempt): (r: Transcribed)
    ensures r.Transcript? <==>
      (&& a.Uploaded? && a.outcome.Answered?
       && !(400 <= a.outcome.code < 600)
       && a.outcome.body.Decoded? && a.outcome.body.json.Obj?
       && "text" in a.outcome.body.json.fields
       && Truthy(a.outcome.body.json.fields["text"]))
    ensures r.Transcript? ==> r.text == a.outcome.body.json.fields["text"] && Truthy(r.text)
    ensures a.AudioUnreadable? ==> r == TranscribeFault(AudioUnavailable(a.reason))
    ensures a.Uploaded? && a.outcome.Unreachable? ==> r == TranscribeFault(Network(a.outcome.reason))
    ensures a.Uploaded? && a.outcome.Answered? && 400 <= a.outcome.code < 600 ==>
      r == TranscribeFault(HttpStatus(a.outcome.code))
    // past `raise_for_status()`: the body does not decode, it has no `get`, or its text is falsy
    ensures a.Uploaded? && a.outcome.Answered? && !(400 <= a.outcome.code < 600) && a.outcome.body.Undecodable? ==>
      r == TranscribeFault(BadJson(a.outcome.body.reason))
    ensures a.Uploaded? && a.outcome.Answered? && !(400 <= a.outcome.code < 600) && a.outcome.body.Decoded?
            && Get(a.outcome.body.json, "text", Null).Err? ==>
      r == TranscribeFault(Python(Get(a.outcome.body.json, "text", Null).error))
    ensures a.Uploaded? && a.outcome.Answered? && !(400 <= a.outcome.code < 600) && a.outcome.body.Decoded?
            && Get(a.outcome.body.json, "text", Null).Ok? && !Truthy(Get(a.outcome.body.json, "text", Null).value) ==>
      r == TranscribeFault(NoText)
  {
    match a
    case AudioUnreadable(reason) => TranscribeFault(AudioUnavailable(reason))
    case Uploaded(Unreachable(reason)) => TranscribeFault(Network(reason))
    case Uploaded(Answered(code, body)) =>
      if 400 <= code < 600 then TranscribeFault(HttpStatus(code))
      else
        match body
        case Undecodable(reason) => TranscribeFault(BadJson(reason))
        case Decoded(data) =>
          match Get(data, "text", Null)
          case Err(e) => TranscribeFault(Python(e))
          case Ok(t) => if Truthy(t) then Transcript(t) else TranscribeFault(NoText)
  }

  /** What one attempt met: whether the audio was sent, and what came back. */
  datatype Upload = Upload(sent: bool, got: Transcribed)

  function UploadOf(a: AudioAttempt): Upload {
    Upload(a.Uploaded?, TranscriptOf(a))
  }

  /** One attempt of `transcribe_audio(id)` with `retries` earlier attempts. */
  function TranscribeRun(db: Db, id: nat, u: Upload, retries: nat): (r: Run)
    ensures r.ending.RetryScheduled? ==> retries < MaxRetries && r.ending.countdown == TranscribeCountdown
    // a missing lecture is only logged
    ensures id !in db ==> r == Run(db, [], Returned(Null))
  {
    if id !in db then Run(db, [], Returned(Null))
    else
      var started := db[id].(status := Str(InProgress));
      var upload := if u.sent then [Requested(Api(TranscriptionsUrl, WhisperModel, started.audioFile))] else [];
      var finished := if u.got.Transcript? then started.(transcript := u.got.text, status := Str(Successful))
                      else started.(status := Str(Failed));
      var report := if u.got.Transcript? then Dict2("status", Str(Successful), "transcript", u.got.text)
                    else Dict1("status", Str(Failed));
      Run(db[id := finished],
          [Saved(started), Published(Group(id), StatusUpdate, Dict1("status", Str(InProgress)))] + upload
            + [Saved(finished), Published(Group(id), StatusUpdate, report)],
          if u.got.Transcript? then Returned(Null) else CeleryRetry(u.got.fault, TranscribeCountdown, retries))
  }

  // ---------------------------------------------------------------------------
  // summarize_transcript
  // ---------------------------------------------------------------------------

  /** How the chat answer is classified. */
  datatype Summarized =
    | NetworkTrouble(reason: string)   // a `requests` exception, including an undecodable body
    | Unexpected(error: PyError)       // any other exception
    | ApiRejected(message: Value)      // non-200 or no `choices`
    | Summary(text: string)

  /** `data["choices"][0]["message"]["content"]` */
  function ContentOf(data: Value): (r: Result<Value>)
    ensures r.Ok? ==>
      && data.Obj? && "choices" in data.fields
      && data.fields["choices"].Arr? && |data.fields["choices"].items| > 0
      && var first := data.fields["choices"].items[0];
         && first.Obj? && "message" in first.fields
         && first.fields["message"].Obj? && "content" in first.fields["message"].fields
         && r.value == first.fields["message"].fields["content"]
  {
    var choices :- Subscript(data, Name("choices"));
    var first :- Subscript(choices, Pos(0));
    var message :- Subscript(first, Name("message"));
    Subscript(message, Name("content"))
  }

  /** `data.get("error", {}).get("message", "Sorry, data not available")` */
  function ErrorMessageOf(data: Value): (r: Result<Value>)
    ensures data.Obj? && "error" !in data.fields ==> r == Ok(Str(NoData))
    ensures data.Obj? && "error" in data.fields && data.fields["error"].Obj? && "message" in data.fields["error"].fields ==>
      r == Ok(data.fields["error"].fields["message"])
    ensures data.Obj? && "error" in data.fields && data.fields["error"].Obj? && "message" !in data.fields["error"].fields ==>
      r == Ok(Str(NoData))
    ensures r.Ok? <==> data.Obj? && ("error" !in data.fields || data.fields["error"].Obj?)
  {
    var err :- Get(data, "error", EmptyDict);
    Get(err, "message", Str(NoData))
  }

  function SummaryOf(o: ApiOutcome): (r: Summarized)
    ensures o.Unreachable? ==> r == NetworkTrouble(o.reason)
    ensures o.Answered? && o.body.Undecodable? ==> r == NetworkTrouble(o.body.reason)
    // only a `requests` exception is network trouble; every other failure is unexpected
    ensures r.NetworkTrouble? <==> o.Unreachable? || (o.Answered? && o.body.Undecodable?)
    ensures r.Unexpected? <==> o.Answered? && o.body.Decoded? && !r.Summary? && !r.ApiRejected?
    ensures o.Answered? && o.body.Decoded? && o.code == 200 && Contains(o.body.json, "choices").Err? ==>
      r == Unexpected(Contains(o.body.json, "choices").error)
    ensures o.Answered? && o.body.Decoded? && (o.code != 200 || Contains(o.body.json, "choices") == Ok(false))
            && ErrorMessageOf(o.body.json).Err? ==>
      r == Unexpected(ErrorMessageOf(o.body.json).error)
    ensures o.Answered? && o.body.Decoded? && o.code == 200 && Contains(o.body.json, "choices") == Ok(true)
            && ContentOf(o.body.json).Err? ==>
      r == Unexpected(ContentOf(o.body.json).error)
    ensures o.Answered? && o.body.Decoded? && o.code == 200 && Contains(o.body.json, "choices") == Ok(true)
            && ContentOf(o.body.json).Ok? && !ContentOf(o.body.json).value.Str? ==>
      r == Unexpected(NoAttribute(ContentOf(o.body.json).value, "strip"))
    ensures r.Summary? <==>
      (&& o.Answered? && o.code == 200 && o.body.Decoded?
       && ContentOf(o.body.json).Ok? && ContentOf(o.body.json).value.Str?)
    ensures r.Summary? ==> r.text == Strip(ContentOf(o.body.json).value.s)
    ensures r.ApiRejected? <==>
      (&& o.Answered? && o.body.Decoded? && o.body.json.Obj?
       && (o.code != 200 || "choices" !in o.body.json.fields)
       && ErrorMessageOf(o.body.json).Ok?)
    ensures r.ApiRejected? ==> r.message == ErrorMessageOf(o.body.json).value
  {
    match o
    case Unreachable(reason) => NetworkTrouble(reason)
    case Answered(_, Undecodable(reason)) => NetworkTrouble(reason)
    case Answered(code, Decoded(data)) =>
      var refused: Result<bool> := if code != 200 then Ok(true) else (match Contains(data, "choices")
                                                                       case Ok(has) => Ok(!has)
                                                                       case Err(e) => Err(e));
      match refused
      case Err(e) => Unexpected(e)
      case Ok(true) =>
        (match ErrorMessageOf(data)
         case Ok(m) => ApiRejected(m)
         case Err(e) => Unexpected(e))
      case Ok(false) =>
        (match ContentOf(data)
         case Err(e) => Unexpected(e)
         case Ok(content) =>
           (match StripValue(content)
            case Ok(s) => Summary(s.s)
            case Err(e) => Unexpected(e)))
  }

  /** The text published once the network retries are exhausted. */
  function NetworkNotice(reason: string): string {
    "Network error occurred: " + reason + ". Retrying..."
  }

  function UnexpectedNotice(e: PyError): string {
    "Unexpected error occurred: " + Describe(e)
  }

  /** One attempt of `summarize_transcript(id)` with `retries` earlier
      attempts, given how the chat answer is classified. */
  function SummarizeRun(db: Db, id: nat, got: Summarized, retries: nat): (r: Run)
    ensures r.ending == Returned(Null) || r.ending == RetryScheduled(SummarizeRetryDelay)
    ensures r.ending.RetryScheduled? ==> retries < MaxRetries && r.db == db
    ensures id !in db ==> r == Run(db, [], Returned(Null))
  {
    if id !in db then Run(db, [], Returned(Null))
    else
      var l := db[id];
      if !Truthy(l.transcript) then
        var noted := l.(summary := Str(NoTranscript));
        Run(db[id := noted], [Saved(noted)], Returned(Null))
      else
        var called := [Published(Group(id), StatusUpdate, Dict1("status", Str(Summarizing))),
                       Requested(Api(ChatUrl, ChatModel, "Summarize this: " + Display(l.transcript)))];
        match got
        case Summary(s) =>
          var done := l.(summary := Str(s));
          Run(db[id := done], called + [Saved(done), Published(Group(id), StatusUpdate, Dict2("status", Str(SummaryReady), "summary", Str(s)))], Returned(Null))
        case ApiRejected(m) =>
          var done := l.(summary := m);
          Run(db[id := done], called + [Saved(done), Published(Group(id), StatusUpdate, Dict2("status", Str(Failed), "summary", m))], Returned(Null))
        case Unexpected(e) =>
          var done := l.(summary := Str(UnexpectedNotice(e)));
          Run(db[id := done], called + [Saved(done), Published(Group(id), StatusUpdate, Dict2("status", Str(Failed), "summary", Str(UnexpectedNotice(e))))], Returned(Null))
        case NetworkTrouble(reason) =>
          if retries < MaxRetries then Run(db, called, RetryScheduled(SummarizeRetryDelay))
          else
            var done := l.(summary := Str(TryLater));
            Run(db[id := done], called + [Saved(done), Published(Group(id), StatusUpdate, Dict2("status", Str(Failed), "summary", Str(NetworkNotice(reason))))], Returned(Null))
  }

  // ---------------------------------------------------------------------------
  // export_summary_to_pdf
  // ---------------------------------------------------------------------------

  /** The stored name of a lecture's PDF, relative to the media root. */
  function PdfName(id: nat): string {
    "summaries/" + NatText(id) + ".pdf"
  }

  /** The text rendered into the PDF. */
  function PdfText(l: Lecture): string {
    "Lecture: " + l.title + "\n\nSummary:\n" + Display(l.summary)
  }

  function ExportRun(db: Db, id: nat, pdf: PdfOutcome): (r: Run)
    requires KeyedById(db)
    ensures KeyedById(r.db) && OnlyRowChanges(db, r.db, id)
    ensures PublishesTo(r.effects, id)
    // a missing lecture raises before anything happens
    ensures id !in db ==> r == Run(db, [], Raised(LectureMissing))
    ensures id in db ==>
      && Unowned(ExportPdf, r.db[id]) == Unowned(ExportPdf, db[id])
      && SavesOnly(r.effects, db[id], ExportPdf)
      && |r.effects| >= 1
      && r.effects[0] == Published(Group(id), StatusUpdate, Dict1("status", Str(ExportingPdf)))
    ensures id in db && pdf.PdfFails? ==> r == Run(db, r.effects, Raised(PdfError(pdf.reason))) && |r.effects| == 1
    ensures id in db && pdf.PdfStored? ==>
      && r.ending == Returned(Null)
      && r.db[id].pdfFile == Str(PdfName(id))
      && r.effects[1..] == [Rendered(PdfName(id), PdfText(db[id])), Saved(r.db[id]),
                            Published(Group(id), StatusUpdate, Dict2("status", Str(PdfReady), "pdf", Str(MediaUrl + PdfName(id))))]
  {
    if id !in db then Run(db, [], Raised(LectureMissing))
    else
      var l := db[id];
      var announced := [Published(Group(id), StatusUpdate, Dict1("status", Str(ExportingPdf)))];
      match pdf
      case PdfFails(reason) => Run(db, announced, Raised(PdfError(reason)))
      case PdfStored =>
        var done := l.(pdfFile := Str(PdfName(l.id)));
        Run(db[id := done],
            announced + [Rendered(PdfName(l.id), PdfText(l)), Saved(done),
                         Published(Group(id), StatusUpdate, Dict2("status", Str(PdfReady), "pdf", Str(MediaUrl + PdfName(l.id))))],
            Returned(Null))
  }

  // ---------------------------------------------------------------------------
  // generate_flashcards
  // ---------------------------------------------------------------------------

  /** `data["error"]["message"]` */
  function ApiErrorOf(data: Value): (r: Result<Value>)
    ensures r.Ok? <==> data.Obj? && "error" in data.fields && data.fields["error"].Obj? && "message" in data.fields["error"].fields
    ensures r.Ok? ==> r.value == data.fields["error"].fields["message"]
  {
    var err :- Subscript(data, Name("error"));
    Subscript(err, Name("message"))
  }

  /** How `generate_flashcards` reads the chat answer. */
  datatype Carded =
    | CallFails(fault: Fault)   // an exception escapes the job
    | ApiError(message: Value)  // the body carries `error`
    | Cards(text: Value)        // the message content, unstripped

  function FlashcardsOf(o: ApiOutcome): (r: Carded)
    ensures o.Unreachable? ==> r == CallFails(Network(o.reason))
    ensures o.Answered? && o.body.Undecodable? ==> r == CallFails(BadJson(o.body.reason))
    ensures r.ApiError? <==> o.Answered? && o.body.Decoded? && ApiErrorOf(o.body.json).Ok?
    ensures r.ApiError? ==> r.message == ApiErrorOf(o.body.json).value
    ensures r.Cards? <==>
      (&& o.Answered? && o.body.Decoded? && o.body.json.Obj?
       && "error" !in o.body.json.fields && ContentOf(o.body.json).Ok?)
    ensures r.Cards? ==> r.text == ContentOf(o.body.json).value
  {
    match o
    case Unreachable(reason) => CallFails(Network(reason))
    case Answered(_, Undecodable(reason)) => CallFails(BadJson(reason))
    case Answered(_, Decoded(data)) =>
      match Contains(data, "error")
      case Err(e) => CallFails(Python(e))
      case Ok(true) =>
        (match ApiErrorOf(data)
         case Err(e) => CallFails(Python(e))
         case Ok(m) => ApiError(m))
      case Ok(false) =>
        (match ContentOf(data)
         case Err(e) => CallFails(Python(e))
         case Ok(t) => Cards(t))
  }

  /** The prompt of the flashcards call: it sends the transcript, not the summary. */
  function FlashcardsPrompt(l: Lecture): string {
    "Generate 10 flashcards from this summary:\n\n" + Display(l.transcript)
  }

  /** `generate_flashcards(id)`, given how the answer is read. */
  function FlashcardsRun(db: Db, id: nat, got: Carded): (r: Run)
    requires KeyedById(db)
    ensures KeyedById(r.db) && OnlyRowChanges(db, r.db, id)
    ensures PublishesTo(r.effects, id)
    ensures !r.ending.RetryScheduled?
    ensures id !in db ==> r == Run(db, [], Raised(LectureMissing))
    ensures id in db ==>
      && Unowned(Flashcards, r.db[id]) == Unowned(Flashcards, db[id])
      && SavesOnly(r.effects, db[id], Flashcards)
      && |r.effects| >= 2
      && r.effects[..2] == [Published(Group(id), StatusUpdate, Dict1("status", Str(GeneratingFlashcards))),
                            Requested(Api(ChatUrl, ChatModel, FlashcardsPrompt(db[id])))]
    // an exception after the call: nothing written, nothing more published
    ensures id in db && got.CallFails? ==> r.db == db && |r.effects| == 2 && r.ending == Raised(got.fault)
    // a body carrying `error`: publish and return it, leave the record alone
    ensures id in db && got.ApiError? ==>
      && r.db == db
      && r.effects[2..] == [Published(Group(id), StatusUpdate, Dict2("status", Str(ErrorStatus), "message", got.message))]
      && r.ending == Returned(Dict2("status", Str("error"), "message", got.message))
    // otherwise the content is stored, published and returned
    ensures id in db && got.Cards? ==>
      && r.db == db[id := db[id].(flashcards := got.text)]
      && r.effects[2..] == [Saved(r.db[id]), Published(Group(id), StatusUpdate, Dict2("status", Str(FlashcardsReady), "flashcards", got.text))]
      && r.ending == Returned(Dict2("status", Str("success"), "flashcards", got.text))
  {
    if id !in db then Run(db, [], Raised(LectureMissing))
    else
      var l := db[id];
      var called := [Published(Group(id), StatusUpdate, Dict1("status", Str(GeneratingFlashcards))),
                     Requested(Api(ChatUrl, ChatModel, FlashcardsPrompt(l)))];
      match got
      case CallFails(fault) => Run(db, called, Raised(fault))
      case ApiError(m) =>
        Run(db, called + [Published(Group(id), StatusUpdate, Dict2("status", Str(ErrorStatus), "message", m))],
            Returned(Dict2("status", Str("error"), "message", m)))
      case Cards(t) =>
        var done := l.(flashcards := t);
        Run(db[id := done],
            called + [Saved(done), Published(Group(id), StatusUpdate, Dict2("status", Str(FlashcardsReady), "flashcards", t))],
            Returned(Dict2("status", Str("success"), "flashcards", t)))
  }

  // ---------------------------------------------------------------------------
  // The jobs, step by step
  // ---------------------------------------------------------------------------

  /** A worker process: the table of records and, as a ghost log, every effect
      of the jobs it has run, in order. */
  class Worker {
    var db: Db
    ghost var trace: seq<Effect>

    ghost predicate Valid()
      reads this
    {
      KeyedById(db)
    }

    constructor (rows: Db)
      requires KeyedById(rows)
      ensures Valid() && db == rows && trace == []
    {
      db := rows;
      trace := [];
    }

    /** `lecture.save()`: the loaded copy overwrites the whole row. */
    method Save(lecture: Lecture)
      requires Valid()
      modifies this
      ensures Valid()
      ensures db == old(db)[lecture.id := lecture] && trace == old(trace) + [Saved(lecture)]
    {
      db := db[lecture.id := lecture];
      trace := trace + [Saved(lecture)];
    }

    /** `notify_ws(group, event, data)` */
    method NotifyWs(group: string, event: string, data: Value)
      modifies this
      ensures db == old(db) && trace == old(trace) + [Published(group, event, data)]
    {
      trace := trace + [Published(group, event, data)];
    }

    /** `requests.post(...)`: the answer is the job's outcome argument. */
    method Post(api: Api)
      modifies this
      ensures db == old(db) && trace == old(trace) + [Requested(api)]
    {
      trace := trace + [Requested(api)];
    }

    /** `pdf.output(path)` */
    method Output(path: string, text: string)
      modifies this
      ensures db == old(db) && trace == old(trace) + [Rendered(path, text)]
    {
      trace := trace + [Rendered(path, text)];
    }

    /** `transcribe_audio(lecture_id)` */
    method TranscribeAudio(lectureId: nat, attempt: AudioAttempt, retries: nat) returns (ending: Ending)
      requires Valid()
      modifies this
      ensures Valid()
      ensures var r := TranscribeRun(old(db), lectureId, UploadOf(attempt), retries);
        db == r.db && trace == old(trace) + r.effects && ending == r.ending
    {
      if lectureId !in db {
        // AudioLecture.DoesNotExist is logged and swallowed
        return Returned(Null);
      }
      var lecture := db[lectureId];
      var group := Group(lectureId);
      lecture := lecture.(status := Str(InProgress));
      Save(lecture);
      NotifyWs(group, StatusUpdate, Dict1("status", Str(InProgress)));
      ghost var upload: seq<Effect> := [];
      if attempt.Uploaded? {
        Post(Api(TranscriptionsUrl, WhisperModel, lecture.audioFile));
        upload := [Requested(Api(TranscriptionsUrl, WhisperModel, lecture.audioFile))];
      }
      ghost var announced := [Saved(lecture), Published(group, StatusUpdate, Dict1("status", Str(InProgress)))] + upload;
      assert trace == old(trace) + announced;
      var got := TranscriptOf(attempt);
      if got.Transcript? {
        lecture := lecture.(transcript := got.text, status := Str(Successful));
        Save(lecture);
        NotifyWs(group, StatusUpdate, Dict2("status", Str(Successful), "transcript", got.text));
        ending := Returned(Null);
        assert trace == old(trace) + (announced + [Saved(lecture), Published(group, StatusUpdate, Dict2("status", Str(Successful), "transcript", got.text))]);
      } else {
        // the handler still has the loaded record among its locals
        lecture := lecture.(status := Str(Failed));
        Save(lecture);
        NotifyWs(Group(lectureId), StatusUpdate, Dict1("status", Str(Failed)));
        ending := CeleryRetry(got.fault, TranscribeCountdown, retries);
        assert trace == old(trace) + (announced + [Saved(lecture), Published(group, StatusUpdate, Dict1("status", Str(Failed)))]);
      }
    }

    /** `summarize_transcript(lecture_id)`: the answer is read by `SummaryOf`. */
    method SummarizeTranscript(lectureId: nat, outcome: ApiOutcome, retries: nat) returns (ending: Ending)
      requires Valid()
      modifies this
      ensures Valid()
      ensures var r := SummarizeRun(old(db), lectureId, SummaryOf(outcome), retries);
        db == r.db && trace == old(trace) + r.effects && ending == r.ending
    {
      ending := SummarizeAnswered(lectureId, SummaryOf(outcome), retries);
    }

    /** The steps of `summarize_transcript` once the answer is classified. */
    method SummarizeAnswered(lectureId: nat, got: Summarized, retries: nat) returns (ending: Ending)
      requires Valid()
      modifies this
      ensures Valid()
      ensures var r := SummarizeRun(old(db), lectureId, got, retries);
        db == r.db && trace == old(trace) + r.effects && ending == r.ending
    {
      if lectureId !in db {
        return Returned(Null);
      }
      var lecture := db[lectureId];
      if !Truthy(lecture.transcript) {
        lecture := lecture.(summary := Str(NoTranscript));
        Save(lecture);
        return Returned(Null);
      }
      var group := Group(lectureId);
      NotifyWs(group, StatusUpdate, Dict1("status", Str(Summarizing)));
      Post(Api(ChatUrl, ChatModel, "Summarize this: " + Display(lecture.transcript)));
      ghost var called := [Published(group, StatusUpdate, Dict1("status", Str(Summarizing))),
                           Requested(Api(ChatUrl, ChatModel, "Summarize this: " + Display(lecture.transcript)))];
      assert trace == old(trace) + called;
      var report: Value;
      match got {
        case Summary(text) =>
          lecture := lecture.(summary := Str(text));
          Save(lecture);
          report := Dict2("status", Str(SummaryReady), "summary", Str(text));
          NotifyWs(group, StatusUpdate, report);
        case ApiRejected(message) =>
          lecture := lecture.(summary := message);
          Save(lecture);
          report := Dict2("status", Str(Failed), "summary", message);
          NotifyWs(group, StatusUpdate, report);
        case Unexpected(e) =>
          var msg := UnexpectedNotice(e);
          lecture := lecture.(summary := Str(msg));
          Save(lecture);
          report := Dict2("status", Str(Failed), "summary", Str(msg));
          NotifyWs(group, StatusUpdate, report);
        case NetworkTrouble(reason) =>
          var msg := NetworkNotice(reason);
          if retries < MaxRetries {
            return RetryScheduled(SummarizeRetryDelay);
          }
          lecture := lecture.(summary := Str(TryLater));
          Save(lecture);
          report := Dict2("status", Str(Failed), "summary", Str(msg));
          NotifyWs(group, StatusUpdate, report);
      }
      assert trace == old(trace) + (called + [Saved(lecture), Published(group, StatusUpdate, report)]);
      ending := Returned(Null);
    }

    /** `export_summary_to_pdf(lecture_id)` */
    method ExportSummaryToPdf(lectureId: nat, pdf: PdfOutcome) returns (ending: Ending)
      requires Valid()
      modifies this
      ensures Valid()
      ensures var r := ExportRun(old(db), lectureId, pdf);
        db == r.db && trace == old(trace) + r.effects && ending == r.ending
    {
      if lectureId !in db {
        return Raised(LectureMissing);
      }
      var lecture := db[lectureId];
      var group := Group(lectureId);
      NotifyWs(group, StatusUpdate, Dict1("status", Str(ExportingPdf)));
      if pdf.PdfFails? {
        return Raised(PdfError(pdf.reason));
      }
      Output(PdfName(lecture.id), PdfText(lecture));
      lecture := lecture.(pdfFile := Str(PdfName(lecture.id)));
      Save(lecture);
      NotifyWs(group, StatusUpdate, Dict2("status", Str(PdfReady), "pdf", Str(MediaUrl + lecture.pdfFile.s)));
      ending := Returned(Null);
    }

    /** `generate_flashcards(lecture_id)`: the answer is read by `FlashcardsOf`. */
    method GenerateFlashcards(lectureId: nat, outcome: ApiOutcome) returns (ending: Ending)
      requires Valid()
      modifies this
      ensures Valid()
      ensures var r := FlashcardsRun(old(db), lectureId, FlashcardsOf(outcome));
        db == r.db && trace == old(trace) + r.effects && ending == r.ending
    {
      ending := FlashcardsAnswered(lectureId, FlashcardsOf(outcome));
    }

    /** The steps of `generate_flashcards` once the answer is classified. */
    method FlashcardsAnswered(lectureId: nat, got: Carded) returns (ending: Ending)
      requires Valid()
      modifies this
      ensures Valid()
      ensures var r := FlashcardsRun(old(db), lectureId, got);
        db == r.db && trace == old(trace) + r.effects && ending == r.ending
    {
      if lectureId !in db {
        return Raised(LectureMissing);
      }
      var lecture := db[lectureId];
      var group := Group(lectureId);
      NotifyWs(group, StatusUpdate, Dict1("status", Str(GeneratingFlashcards)));
      Post(Api(ChatUrl, ChatModel, FlashcardsPrompt(lecture)));
      match got {
        case CallFails(fault) =>
          return Raised(fault);
        case ApiError(message) =>
          NotifyWs(group, StatusUpdate, Dict2("status", Str(ErrorStatus), "message", message));
          return Returned(Dict2("status", Str("error"), "message", message));
        case Cards(text) =>
          lecture := lecture.(flashcards := text);
          Save(lecture);
          NotifyWs(group, StatusUpdate, Dict2("status", Str(FlashcardsReady), "flashcards", text));
          return Returned(Dict2("status", Str("success"), "flashcards", text));
      }
    }
  }
}

/** The REST actions on a lecture that start pipeline jobs: each decides
    whether to put a job on the task queue and what to answer. */
module Views {
  import opened Text
  import opened Json
  import opened Models
  import Tasks

  const Http200 := 200
  const Http202 := 202
  const Http404 := 404

  const AlreadyRunning := "Transcription already in progress"
  const TranscriptionStarted := "Transcription started"
  const SummaryStarted := "summary generation started"
  const PdfStarted := "pdf export started"
  const FlashcardsStarted := "flashcard generation started"
  /** The framework's answer when the object of a detail route does not exist. */
  const NotFoundDetail := "Not found."

  /** A job put on the queue with `.delay(...)`: `transcribe` passes the row's
      id, the other actions pass the primary key text of the URL. */
  datatype Enqueued =
    | TranscribeAudio(lectureId: nat)
    | SummarizeTranscript(pk: string)
    | ExportSummaryToPdf(pk: string)
    | GenerateFlashcards(pk: string)

  datatype Reply = Reply(code: int, body: Value)

  /** `get_object()` for the primary key text of the URL: `int(pk)` reads a
      row's id from its decimal text behind any number of leading zeros; a
      key of any other form, or one naming no row, is not found. */
  function Lookup(db: Db, pk: string): (r: Option<Lecture>)
    ensures r.Some? <==> exists k: nat, id | id in db :: pk == Zeros(k) + NatText(id)
    ensures forall k: nat, id | id in db && pk == Zeros(k) + NatText(id) :: r == Some(db[id])
  {
    LookupForms(pk);
    if pk != "" && AllDigits(pk) && ParseNat(pk) in db then Some(db[ParseNat(pk)]) else None
  }

  /** The keys `int` reads as a number are exactly the decimal texts behind
      leading zeros, each read as the number it shows. */
  lemma LookupForms(pk: string)
    ensures pk != "" && AllDigits(pk) ==> exists k: nat :: pk == Zeros(k) + NatText(ParseNat(pk))
    ensures forall k: nat, id: nat | pk == Zeros(k) + NatText(id) :: pk != "" && AllDigits(pk) && ParseNat(pk) == id
  {
    if pk != "" && AllDigits(pk) {
      DigitsForm(pk);
    }
    forall k: nat, id: nat | pk == Zeros(k) + NatText(id)
      ensures pk != "" && AllDigits(pk) && ParseNat(pk) == id
    {
      ZerosTextValue(k, id);
    }
  }

  /** Whether `transcribe` starts a job for a found lecture: only when its
      status is not exactly the status a running transcription stores. */
  predicate StartsTranscription(l: Lecture) {
    l.status != Str(Tasks.InProgress)
  }

  /** What `transcribe` does with the lecture it found (or did not find): the
      reply, and the jobs it enqueues. */
  datatype Decision = Decision(reply: Reply, jobs: seq<Enqueued>)

  function TranscribeDecision(found: Option<Lecture>): (r: Decision)
    ensures |r.jobs| <= 1
    ensures found.None? ==> r.reply.code == Http404 && r.jobs == []
    ensures found.Some? ==> r.reply.code == Http202
    ensures r.jobs != [] <==> found.Some? && StartsTranscription(found.value)
    ensures r.jobs != [] ==> r.jobs == [TranscribeAudio(found.value.id)] && r.reply.body == Dict1("status", Str(TranscriptionStarted))
    ensures found.Some? && r.jobs == [] ==> r.reply.body == Dict1("status", Str(AlreadyRunning))
  {
    match found
    case None => Decision(Reply(Http404, Dict1("detail", Str(NotFoundDetail))), [])
    case Some(l) =>
      if l.status == Str(Tasks.InProgress) then Decision(Reply(Http202, Dict1("status", Str(AlreadyRunning))), [])
      else Decision(Reply(Http202, Dict1("status", Str(TranscriptionStarted))), [TranscribeAudio(l.id)])
  }

  /** The viewset, reduced to the task queue its actions feed. */
  class AudioLectureViewSet {
    var queue: seq<Enqueued>

    constructor ()
      ensures queue == []
    {
      queue := [];
    }

    /** `transcribe(request, pk)`: the duplicate-transcription guard. */
    method Transcribe(db: Db, pk: string) returns (reply: Reply)
      modifies this
      ensures reply == TranscribeDecision(Lookup(db, pk)).reply
      ensures queue == old(queue) + TranscribeDecision(Lookup(db, pk)).jobs
    {
      var found := Lookup(db, pk);
      match found
      case None =>
        reply := Reply(Http404, Dict1("detail", Str(NotFoundDetail)));
      case Some(lecture) =>
        if lecture.status == Str(Tasks.InProgress) {
          reply := Reply(Http202, Dict1("status", Str(AlreadyRunning)));
          return;
        }
        queue := queue + [TranscribeAudio(lecture.id)];
        reply := Reply(Http202, Dict1("status", Str(TranscriptionStarted)));
    }

    /** `summarize(request, pk)`: enqueues without looking at the lecture. */
    method Summarize(pk: string) returns (reply: Reply)
      modifies this
      ensures queue == old(queue) + [SummarizeTranscript(pk)]
      ensures reply == Reply(Http200, Dict1("status", Str(SummaryStarted)))
    {
      queue := queue + [SummarizeTranscript(pk)];
      reply := Reply(Http200, Dict1("status", Str(SummaryStarted)));
    }

    /** `export_pdf(request, pk)` */
    method ExportPdf(pk: string) returns (reply: Reply)
      modifies this
      ensures queue == old(queue) + [ExportSummaryToPdf(pk)]
      ensures reply == Reply(Http200, Dict1("status", Str(PdfStarted)))
    {
      queue := queue + [ExportSummaryToPdf(pk)];
      reply := Reply(Http200, Dict1("status", Str(PdfStarted)));
    }

    /** `generate_flashcards(request, pk)`: the reply carries the id the queue
        gave the job. */
    method GenerateFlashcards(pk: string, taskId: string) returns (reply: Reply)
      modifies this
      ensures queue == old(queue) + [Enqueued.GenerateFlashcards(pk)]
      ensures reply == Reply(Http200, Dict2("status", Str(FlashcardsStarted), "task_id", Str(taskId)))
    {
      queue := queue + [Enqueued.GenerateFlashcards(pk)];
      reply := Reply(Http200, Dict2("status", Str(FlashcardsStarted), "task_id", Str(taskId)));
    }
  }

  /** While a transcription attempt runs, the row holds the status it saved
      first, and that status blocks a second transcription; once the attempt
      has ended (in success or in failure) a new request is admitted again. */
  lemma RunningTranscriptionBlocks(db: Db, id: nat, u: Tasks.Upload, retries: nat)
    requires id in db && KeyedById(db)
    ensures var r := Tasks.TranscribeRun(db, id, u, retries);
      && r.effects[0].Saved?
      && TranscribeDecision(Some(r.effects[0].row)).jobs == []
      && TranscribeDecision(Some(r.db[id])).jobs == [TranscribeAudio(id)]
  {
    var r := Tasks.TranscribeRun(db, id, u, retries);
    assert r.db[id].status == Str(Tasks.Successful) || r.db[id].status == Str(Tasks.Failed);
  }

  /** A lecture is found under its own id's decimal text, so `transcribe`
      enqueues the job for the lecture the URL names. */
  lemma LookupByIdText(db: Db, id: nat)
    requires KeyedById(db) && id in db
    ensures Lookup(db, NatText(id)) == Some(db[id])
    ensures StartsTranscription(db[id]) ==> TranscribeDecision(Lookup(db, NatText(id))).jobs == [TranscribeAudio(id)]
  {
    assert NatText(id) == Zeros(0) + NatText(id);
  }
}

/** What one attempt of `transcribe_audio` or `summarize_transcript` does,
    case by case: the record it leaves, what it publishes and in which order,
    and how it ends. */
module JobProperties {
  import opened Json
  import opened Models
  import opened Tasks

  /** The `status` of every publish, in order. */
  function PublishedStatuses(effects: seq<Effect>): seq<Value> {
    if effects == [] then []
    else (if effects[0].Published? then [Field(effects[0].data, "status")] else []) + PublishedStatuses(effects[1..])
  }

  lemma {:induction false} PublishedStatusesAppend(a: seq<Effect>, b: seq<Effect>)
    ensures PublishedStatuses(a + b) == PublishedStatuses(a) + PublishedStatuses(b)
    decreases |a|
  {
    if a == [] {
      assert a + b == b;
    } else {
      var ab := a + b;
      assert ab[0] == a[0] && ab[1..] == a[1..] + b;
      PublishedStatusesAppend(a[1..], b);
    }
  }

  lemma StatusesCons(e: Effect, rest: seq<Effect>)
    ensures PublishedStatuses([e] + rest) == (if e.Published? then [Field(e.data, "status")] else []) + PublishedStatuses(rest)
  {
    assert ([e] + rest)[1..] == rest;
  }

  /** The statuses an attempt of shape save, publish, call, save, publish shows. */
  lemma AttemptStatuses(first: Lecture, data1: Value, upload: seq<Effect>, last: Lecture, data2: Value, group: string, event: string)
    requires upload == [] || (|upload| == 1 && upload[0].Requested?)
    ensures PublishedStatuses([Saved(first), Published(group, event, data1)] + upload + [Saved(last), Published(group, event, data2)])
         == [Field(data1, "status"), Field(data2, "status")]
  {
    var tail := [Saved(last), Published(group, event, data2)];
    StatusesCons(Published(group, event, data2), []);
    StatusesCons(Saved(last), [Published(group, event, data2)]);
    assert PublishedStatuses(tail) == [Field(data2, "status")];
    if upload != [] {
      StatusesCons(upload[0], []);
      assert upload == [upload[0]] + [];
    }
    assert PublishedStatuses(upload) == [];
    PublishedStatusesAppend(upload, tail);
    StatusesCons(Published(group, event, data1), upload + tail);
    StatusesCons(Saved(first), [Published(group, event, data1)] + (upload + tail));
    assert [Saved(first), Published(group, event, data1)] + upload + tail
        == [Saved(first)] + ([Published(group, event, data1)] + (upload + tail));
  }

  // ---------------------------------------------------------------------------
  // transcribe_audio
  // ---------------------------------------------------------------------------

  /** An attempt touches only its lecture's row and publishes only to its group. */
  lemma TranscribeStaysInRow(db: Db, id: nat, u: Upload, retries: nat)
    ensures var r := TranscribeRun(db, id, u, retries);
      && OnlyRowChanges(db, r.db, id)
      && PublishesTo(r.effects, id)
      && (KeyedById(db) ==> KeyedById(r.db))
  {
  }

  /** With the lecture present, "In progress" is saved and published before
      the upload, the closing save writes the final row, and no save changes
      anything but status and transcript. */
  lemma TranscribeAnnounces(db: Db, id: nat, u: Upload, retries: nat)
    requires id in db
    ensures var r := TranscribeRun(db, id, u, retries);
      && Unowned(Transcribe, r.db[id]) == Unowned(Transcribe, db[id])
      && SavesOnly(r.effects, db[id], Transcribe)
      && ReportsSavedStatus(r.effects)
      && |r.effects| == (if u.sent then 5 else 4)
      && r.effects[0] == Saved(db[id].(status := Str(InProgress)))
      && r.effects[1] == Published(Group(id), StatusUpdate, Dict1("status", Str(InProgress)))
      && (u.sent ==> r.effects[2] == Requested(Api(TranscriptionsUrl, WhisperModel, db[id].audioFile)))
      && r.effects[|r.effects| - 2] == Saved(r.db[id])
      && (forall i | 0 <= i < |r.effects| :: r.effects[i].Requested? ==> i == 2)
  {
  }

  /** A failed attempt publishes "In progress" then "Failed". */
  const FailedRound: seq<Value> := [Str(InProgress), Str(Failed)]

  /** An attempt whose upload fails in any way: the row is marked "Failed"
      with its transcript untouched, and Celery retries with countdown 10
      until MaxRetries retries have been spent, then re-raises. */
  lemma TranscribeFails(db: Db, id: nat, u: Upload, retries: nat)
    requires id in db && u.got.TranscribeFault?
    ensures var r := TranscribeRun(db, id, u, retries);
      && r.ending == CeleryRetry(u.got.fault, TranscribeCountdown, retries)
      && r.db == db[id := db[id].(status := Str(Failed))]
      && PublishedStatuses(r.effects) == FailedRound
      && r.effects[|r.effects| - 1] == Published(Group(id), StatusUpdate, Dict1("status", Str(Failed)))
  {
    var started := db[id].(status := Str(InProgress));
    var upload := if u.sent then [Requested(Api(TranscriptionsUrl, WhisperModel, started.audioFile))] else [];
    AttemptStatuses(started, Dict1("status", Str(InProgress)), upload, started.(status := Str(Failed)),
                    Dict1("status", Str(Failed)), Group(id), StatusUpdate);
  }

  /** An attempt whose upload yields a non-empty text: it is stored with
      status "Successful", and exactly those two values are published. */
  lemma TranscribeSucceeds(db: Db, id: nat, u: Upload, retries: nat)
    requires id in db && u.got.Transcript?
    ensures var r := TranscribeRun(db, id, u, retries);
      var t := u.got.text;
      && r.ending == Returned(Null)
      && r.db == db[id := db[id].(status := Str(Successful), transcript := t)]
      && PublishedStatuses(r.effects) == [Str(InProgress), Str(Successful)]
      && r.effects[|r.effects| - 1] == Published(Group(id), StatusUpdate, Dict2("status", Str(Successful), "transcript", t))
  {
    var started := db[id].(status := Str(InProgress));
    var t := u.got.text;
    var upload := if u.sent then [Requested(Api(TranscriptionsUrl, WhisperModel, started.audioFile))] else [];
    AttemptStatuses(started, Dict1("status", Str(InProgress)), upload, started.(transcript := t, status := Str(Successful)),
                    Dict2("status", Str(Successful), "transcript", t), Group(id), StatusUpdate);
  }

  // ---------------------------------------------------------------------------
  // summarize_transcript
  // ---------------------------------------------------------------------------

  lemma SummarizeStaysInRow(db: Db, id: nat, got: Summarized, retries: nat)
    ensures var r := SummarizeRun(db, id, got, retries);
      && OnlyRowChanges(db, r.db, id)
      && PublishesTo(r.effects, id)
      && (KeyedById(db) ==> KeyedById(r.db))
  {
  }

  /** The job never writes the status field; its saves change only the summary. */
  lemma SummarizeOwnsSummary(db: Db, id: nat, got: Summarized, retries: nat)
    requires id in db
    ensures var r := SummarizeRun(db, id, got, retries);
      && Unowned(Summarize, r.db[id]) == Unowned(Summarize, db[id])
      && SavesOnly(r.effects, db[id], Summarize)
  {
  }

  /** No transcript: the fixed summary is stored, with no call and no publish. */
  lemma SummarizeWithoutTranscript(db: Db, id: nat, got: Summarized, retries: nat)
    requires id in db && !Truthy(db[id].transcript)
    ensures var r := SummarizeRun(db, id, got, retries);
      var noted := db[id].(summary := Str(NoTranscript));
      r == Run(db[id := noted], [Saved(noted)], Returned(Null))
  {
  }

  /** With a transcript, "Summarizing" is published before the one call. */
  lemma SummarizeAnnounces(db: Db, id: nat, got: Summarized, retries: nat)
    requires id in db && Truthy(db[id].transcript)
    ensures var r := SummarizeRun(db, id, got, retries);
      && |r.effects| >= 2
      && r.effects[0] == Published(Group(id), StatusUpdate, Dict1("status", Str(Summarizing)))
      && r.effects[1] == Requested(Api(ChatUrl, ChatModel, "Summarize this: " + Display(db[id].transcript)))
      && (forall i | 2 <= i < |r.effects| :: !r.effects[i].Requested?)
  {
  }

  /** One attempt that meets network trouble while retries remain: the
      record is untouched and only "Summarizing" was published. */
  lemma SummarizeRetries(db: Db, id: nat, got: Summarized, retries: nat)
    requires id in db && Truthy(db[id].transcript)
    requires got.NetworkTrouble? && retries < MaxRetries
    ensures var r := SummarizeRun(db, id, got, retries);
      && r.ending == RetryScheduled(SummarizeRetryDelay) && r.db == db
      && PublishedStatuses(r.effects) == [Str(Summarizing)]
  {
    var r := SummarizeRun(db, id, got, retries);
    StatusesCons(r.effects[1], []);
    StatusesCons(r.effects[0], [r.effects[1]]);
    assert r.effects == [r.effects[0]] + [r.effects[1]];
  }

  /** The statuses of a summarize attempt that saves and publishes a result. */
  lemma SummarizeConcludes(db: Db, id: nat, got: Summarized, retries: nat)
    requires id in db && Truthy(db[id].transcript)
    requires !got.NetworkTrouble? || MaxRetries <= retries
    ensures var r := SummarizeRun(db, id, got, retries);
      && |r.effects| == 4
      && PublishedStatuses(r.effects) == [Str(Summarizing), Field(r.effects[3].data, "status")]
  {
    var r := SummarizeRun(db, id, got, retries);
    var e := r.effects;
    assert e[3].Published? && !e[2].Published? && !e[1].Published?;
    StatusesCons(e[3], []);
    StatusesCons(e[2], [e[3]]);
    StatusesCons(e[1], [e[2], e[3]]);
    StatusesCons(e[0], [e[1], e[2], e[3]]);
    assert e == [e[0]] + [e[1], e[2], e[3]];
    assert [e[1], e[2], e[3]] == [e[1]] + [e[2], e[3]];
    assert [e[2], e[3]] == [e[2]] + [e[3]];
  }

  /** A good answer: the stripped content is stored and published as
      "Summary ready". */
  lemma SummarizeSucceeds(db: Db, id: nat, got: Summarized, retries: nat)
    requires id in db && Truthy(db[id].transcript) && got.Summary?
    ensures var r := SummarizeRun(db, id, got, retries);
      var s := got.text;
      && r.ending == Returned(Null)
      && r.db == db[id := db[id].(summary := Str(s))]
      && r.effects[2..] == [Saved(r.db[id]), Published(Group(id), StatusUpdate, Dict2("status", Str(SummaryReady), "summary", Str(s)))]
      && PublishedStatuses(r.effects) == [Str(Summarizing), Str(SummaryReady)]
  {
    SummarizeConcludes(db, id, got, retries);
  }

  /** A non-200 answer or one without `choices`: the API's error message (or
      the fixed default) is stored and published with "Failed"; no retry. */
  lemma SummarizeRejected(db: Db, id: nat, got: Summarized, retries: nat)
    requires id in db && Truthy(db[id].transcript) && got.ApiRejected?
    ensures var r := SummarizeRun(db, id, got, retries);
      var m := got.message;
      && r.ending == Returned(Null)
      && r.db == db[id := db[id].(summary := m)]
      && r.effects[2..] == [Saved(r.db[id]), Published(Group(id), StatusUpdate, Dict2("status", Str(Failed), "summary", m))]
  {
  }

  /** Any other exception: its text is stored and published with "Failed"; no retry. */
  lemma SummarizeUnexpected(db: Db, id: nat, got: Summarized, retries: nat)
    requires id in db && Truthy(db[id].transcript) && got.Unexpected?
    ensures var r := SummarizeRun(db, id, got, retries);
      var m := UnexpectedNotice(got.error);
      && r.ending == Returned(Null)
      && r.db == db[id := db[id].(summary := Str(m))]
      && r.effects[2..] == [Saved(r.db[id]), Published(Group(id), StatusUpdate, Dict2("status", Str(Failed), "summary", Str(m)))]
  {
  }

  /** Network trouble with no retries left: the stored summary asks the user
      to try later, while the published summary says the job is retrying. */
  lemma SummarizeExhausted(db: Db, id: nat, got: Summarized, retries: nat)
    requires id in db && Truthy(db[id].transcript)
    requires got.NetworkTrouble? && MaxRetries <= retries
    ensures var r := SummarizeRun(db, id, got, retries);
      && r.ending == Returned(Null)
      && r.db == db[id := db[id].(summary := Str(TryLater))]
      && r.effects[2..] == [Saved(r.db[id]), Published(Group(id), StatusUpdate,
                                                      Dict2("status", Str(Failed), "summary", Str(NetworkNotice(got.reason))))]
      && PublishedStatuses(r.effects) == [Str(Summarizing), Str(Failed)]
  {
    SummarizeConcludes(db, id, got, retries);
  }

  // ---------------------------------------------------------------------------
  // export_summary_to_pdf
  // ---------------------------------------------------------------------------

  /** Exporting again stores the same name, so a second export leaves the
      table as the first one left it, and publishes the same ready frame. */
  lemma ExportIdempotent(db: Db, id: nat)
    requires KeyedById(db) && id in db
    ensures var once := ExportRun(db, id, PdfStored);
      && ExportRun(once.db, id, PdfStored).db == once.db
      && ExportRun(once.db, id, PdfStored).effects[3] == once.effects[3]
  {
    var once := ExportRun(db, id, PdfStored);
    assert once.db[id] == db[id].(pdfFile := Str(PdfName(id)));
    assert once.db[id].(pdfFile := Str(PdfName(id))) == once.db[id];
  }
}

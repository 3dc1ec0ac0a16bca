/** The two retried jobs as the queue runs them: one attempt, and after each
    scheduled retry another attempt with Celery's counter one higher, each
    attempt consuming the next external outcome. */
module Retry {
  import opened Json
  import opened Models
  import opened Tasks
  import opened JobProperties

  datatype Replay = Replay(db: Db, effects: seq<Effect>, ending: Ending, attempts: nat)

  /** Two effect lists that publish only to the group publish only to it together. */
  lemma PublishesToAppend(a: seq<Effect>, b: seq<Effect>, id: nat)
    requires PublishesTo(a, id) && PublishesTo(b, id)
    ensures PublishesTo(a + b, id)
  {
    forall i | 0 <= i < |a + b| && (a + b)[i].Published?
      ensures (a + b)[i].group == Group(id) && (a + b)[i].event == StatusUpdate
    {
      if i >= |a| {
        assert (a + b)[i] == b[i - |a|];
      }
    }
  }

  /** `n` copies of `s`. */
  function Repeat<T>(s: seq<T>, n: nat): (r: seq<T>)
    ensures |r| == n * |s|
  {
    if n == 0 then [] else s + Repeat(s, n - 1)
  }

  lemma RepeatCons<T>(s: seq<T>, n: nat, tail: seq<T>)
    ensures Repeat(s, n + 1) + tail == s + (Repeat(s, n) + tail)
  {
  }

  // ---------------------------------------------------------------------------
  // transcribe_audio under retry
  // ---------------------------------------------------------------------------

  function ReplayTranscribe(db: Db, id: nat, outcomes: seq<Upload>, retries: nat): (r: Replay)
    requires |outcomes| > 0
    ensures 1 <= r.attempts <= |outcomes|
    // the attempt ceiling: never more than MaxRetries retries in all
    ensures retries <= MaxRetries ==> retries + r.attempts <= MaxRetries + 1
    // a replay stops early only when the job is done
    ensures r.attempts < |outcomes| ==> !r.ending.RetryScheduled?
    decreases |outcomes|
  {
    var run := TranscribeRun(db, id, outcomes[0], retries);
    if run.ending.RetryScheduled? && |outcomes| > 1 then
      var rest := ReplayTranscribe(run.db, id, outcomes[1..], retries + 1);
      Replay(rest.db, run.effects + rest.effects, rest.ending, rest.attempts + 1)
    else Replay(run.db, run.effects, run.ending, 1)
  }

  /** One link of the replay chain: a scheduled retry runs the rest. */
  lemma ReplayTranscribeStep(db: Db, id: nat, outcomes: seq<Upload>, retries: nat)
    requires |outcomes| > 1
    requires TranscribeRun(db, id, outcomes[0], retries).ending.RetryScheduled?
    ensures var run := TranscribeRun(db, id, outcomes[0], retries);
      var rest := ReplayTranscribe(run.db, id, outcomes[1..], retries + 1);
      ReplayTranscribe(db, id, outcomes, retries) == Replay(rest.db, run.effects + rest.effects, rest.ending, rest.attempts + 1)
  {
  }

  lemma ReplayTranscribeStops(db: Db, id: nat, outcomes: seq<Upload>, retries: nat)
    requires |outcomes| > 0
    requires |outcomes| == 1 || !TranscribeRun(db, id, outcomes[0], retries).ending.RetryScheduled?
    ensures var run := TranscribeRun(db, id, outcomes[0], retries);
      ReplayTranscribe(db, id, outcomes, retries) == Replay(run.db, run.effects, run.ending, 1)
  {
  }

  /** However many attempts run, the replay touches only its lecture's row and
      publishes only to its group. */
  lemma {:induction false} ReplayTranscribeStaysInRow(db: Db, id: nat, outcomes: seq<Upload>, retries: nat)
    requires |outcomes| > 0
    ensures var r := ReplayTranscribe(db, id, outcomes, retries);
      && OnlyRowChanges(db, r.db, id)
      && PublishesTo(r.effects, id)
      && (KeyedById(db) ==> KeyedById(r.db))
    decreases |outcomes|
  {
    var run := TranscribeRun(db, id, outcomes[0], retries);
    TranscribeStaysInRow(db, id, outcomes[0], retries);
    if run.ending.RetryScheduled? && |outcomes| > 1 {
      ReplayTranscribeStep(db, id, outcomes, retries);
      ReplayTranscribeStaysInRow(run.db, id, outcomes[1..], retries + 1);
      PublishesToAppend(run.effects, ReplayTranscribe(run.db, id, outcomes[1..], retries + 1).effects, id);
    } else {
      ReplayTranscribeStops(db, id, outcomes, retries);
    }
  }

  /** The attempts before the `n`-th end in a fault. */
  predicate UploadsFail(outcomes: seq<Upload>, n: nat)
    requires n <= |outcomes|
  {
    forall i | 0 <= i < n :: outcomes[i].got.TranscribeFault?
  }

  lemma UploadsFailShift(outcomes: seq<Upload>, n: nat)
    requires 0 < n <= |outcomes| && UploadsFail(outcomes, n)
    ensures outcomes[0].got.TranscribeFault? && UploadsFail(outcomes[1..], n - 1)
  {
    assert outcomes[0].got.TranscribeFault?;
    forall i | 0 <= i < n - 1
      ensures outcomes[1..][i].got.TranscribeFault?
    {
      assert outcomes[1..][i] == outcomes[i + 1];
    }
  }

  /** Up to MaxRetries failed attempts and then a good upload: every attempt
      runs, and the lecture ends "Successful" with that transcript and every
      other field as it was. */
  lemma {:induction false} TranscribeRecovers(db: Db, id: nat, outcomes: seq<Upload>, retries: nat)
    requires id in db && |outcomes| > 0
    requires retries + |outcomes| <= MaxRetries + 1
    requires UploadsFail(outcomes, |outcomes| - 1)
    requires outcomes[|outcomes| - 1].got.Transcript?
    ensures var r := ReplayTranscribe(db, id, outcomes, retries);
      && r.attempts == |outcomes|
      && r.ending == Returned(Null)
      && r.db == db[id := db[id].(status := Str(Successful), transcript := outcomes[|outcomes| - 1].got.text)]
    decreases |outcomes|
  {
    if |outcomes| == 1 {
      TranscribeSucceeds(db, id, outcomes[0], retries);
      ReplayTranscribeStops(db, id, outcomes, retries);
    } else {
      UploadsFailShift(outcomes, |outcomes| - 1);
      TranscribeFails(db, id, outcomes[0], retries);
      ReplayTranscribeStep(db, id, outcomes, retries);
      var run := TranscribeRun(db, id, outcomes[0], retries);
      assert outcomes[1..][|outcomes[1..]| - 1] == outcomes[|outcomes| - 1];
      TranscribeRecovers(run.db, id, outcomes[1..], retries + 1);
    }
  }

  /** What the client sees in that case: "In progress" and "Failed" once per
      failed attempt, then "In progress" and "Successful" with the text. */
  lemma {:induction false} TranscribeRecoversVisibly(db: Db, id: nat, outcomes: seq<Upload>, retries: nat)
    requires id in db && |outcomes| > 0
    requires retries + |outcomes| <= MaxRetries + 1
    requires UploadsFail(outcomes, |outcomes| - 1)
    requires outcomes[|outcomes| - 1].got.Transcript?
    ensures var r := ReplayTranscribe(db, id, outcomes, retries);
      && PublishedStatuses(r.effects) == Repeat(FailedRound, |outcomes| - 1) + [Str(InProgress), Str(Successful)]
      && r.effects[|r.effects| - 1]
         == Published(Group(id), StatusUpdate, Dict2("status", Str(Successful), "transcript", outcomes[|outcomes| - 1].got.text))
    decreases |outcomes|
  {
    if |outcomes| == 1 {
      TranscribeSucceeds(db, id, outcomes[0], retries);
      ReplayTranscribeStops(db, id, outcomes, retries);
    } else {
      UploadsFailShift(outcomes, |outcomes| - 1);
      TranscribeFails(db, id, outcomes[0], retries);
      ReplayTranscribeStep(db, id, outcomes, retries);
      var run := TranscribeRun(db, id, outcomes[0], retries);
      assert outcomes[1..][|outcomes[1..]| - 1] == outcomes[|outcomes| - 1];
      TranscribeRecoversVisibly(run.db, id, outcomes[1..], retries + 1);
      var rest := ReplayTranscribe(run.db, id, outcomes[1..], retries + 1);
      PublishedStatusesAppend(run.effects, rest.effects);
      RepeatCons(FailedRound, |outcomes| - 2, [Str(InProgress), Str(Successful)]);
    }
  }

  /** MaxRetries + 1 - retries failed attempts in a row: the job gives up and
      raises the last exception, leaving the lecture "Failed" with its old
      transcript and no further retry scheduled, whatever outcomes remain. */
  lemma {:induction false} TranscribeGivesUp(db: Db, id: nat, outcomes: seq<Upload>, retries: nat)
    requires id in db && retries <= MaxRetries
    requires |outcomes| > MaxRetries - retries
    requires UploadsFail(outcomes, MaxRetries + 1 - retries)
    ensures var r := ReplayTranscribe(db, id, outcomes, retries);
      && r.attempts == MaxRetries + 1 - retries
      && r.ending == Raised(outcomes[MaxRetries - retries].got.fault)
      && r.db == db[id := db[id].(status := Str(Failed))]
    decreases MaxRetries - retries
  {
    UploadsFailShift(outcomes, MaxRetries + 1 - retries);
    TranscribeFails(db, id, outcomes[0], retries);
    if retries == MaxRetries {
      ReplayTranscribeStops(db, id, outcomes, retries);
    } else {
      ReplayTranscribeStep(db, id, outcomes, retries);
      var run := TranscribeRun(db, id, outcomes[0], retries);
      TranscribeGivesUp(run.db, id, outcomes[1..], retries + 1);
      assert outcomes[1..][MaxRetries - (retries + 1)] == outcomes[MaxRetries - retries];
    }
  }

  /** What the client sees when the job gives up: "In progress" and "Failed"
      once per attempt, the last publish being "Failed". */
  lemma {:induction false} TranscribeGivesUpVisibly(db: Db, id: nat, outcomes: seq<Upload>, retries: nat)
    requires id in db && retries <= MaxRetries
    requires |outcomes| > MaxRetries - retries
    requires UploadsFail(outcomes, MaxRetries + 1 - retries)
    ensures var r := ReplayTranscribe(db, id, outcomes, retries);
      && PublishedStatuses(r.effects) == Repeat(FailedRound, MaxRetries + 1 - retries)
      && r.effects[|r.effects| - 1] == Published(Group(id), StatusUpdate, Dict1("status", Str(Failed)))
    decreases MaxRetries - retries
  {
    UploadsFailShift(outcomes, MaxRetries + 1 - retries);
    TranscribeFails(db, id, outcomes[0], retries);
    if retries == MaxRetries {
      ReplayTranscribeStops(db, id, outcomes, retries);
      RepeatCons(FailedRound, 0, []);
    } else {
      ReplayTranscribeStep(db, id, outcomes, retries);
      var run := TranscribeRun(db, id, outcomes[0], retries);
      TranscribeGivesUpVisibly(run.db, id, outcomes[1..], retries + 1);
      var rest := ReplayTranscribe(run.db, id, outcomes[1..], retries + 1);
      PublishedStatusesAppend(run.effects, rest.effects);
      RepeatCons(FailedRound, MaxRetries - retries - 1, []);
    }
  }

  // ---------------------------------------------------------------------------
  // summarize_transcript under retry
  // ---------------------------------------------------------------------------

  function ReplaySummarize(db: Db, id: nat, outcomes: seq<Summarized>, retries: nat): (r: Replay)
    requires |outcomes| > 0
    ensures 1 <= r.attempts <= |outcomes|
    ensures retries <= MaxRetries ==> retries + r.attempts <= MaxRetries + 1
    ensures r.attempts < |outcomes| ==> !r.ending.RetryScheduled?
    decreases |outcomes|
  {
    var run := SummarizeRun(db, id, outcomes[0], retries);
    if run.ending.RetryScheduled? && |outcomes| > 1 then
      var rest := ReplaySummarize(run.db, id, outcomes[1..], retries + 1);
      Replay(rest.db, run.effects + rest.effects, rest.ending, rest.attempts + 1)
    else Replay(run.db, run.effects, run.ending, 1)
  }

  lemma ReplaySummarizeStep(db: Db, id: nat, outcomes: seq<Summarized>, retries: nat)
    requires |outcomes| > 1
    requires SummarizeRun(db, id, outcomes[0], retries).ending.RetryScheduled?
    ensures var run := SummarizeRun(db, id, outcomes[0], retries);
      var rest := ReplaySummarize(run.db, id, outcomes[1..], retries + 1);
      ReplaySummarize(db, id, outcomes, retries) == Replay(rest.db, run.effects + rest.effects, rest.ending, rest.attempts + 1)
  {
  }

  lemma ReplaySummarizeStops(db: Db, id: nat, outcomes: seq<Summarized>, retries: nat)
    requires |outcomes| > 0
    requires |outcomes| == 1 || !SummarizeRun(db, id, outcomes[0], retries).ending.RetryScheduled?
    ensures var run := SummarizeRun(db, id, outcomes[0], retries);
      ReplaySummarize(db, id, outcomes, retries) == Replay(run.db, run.effects, run.ending, 1)
  {
  }

  /** However many attempts run, the replay touches only its lecture's row and
      publishes only to its group. */
  lemma {:induction false} ReplaySummarizeStaysInRow(db: Db, id: nat, outcomes: seq<Summarized>, retries: nat)
    requires |outcomes| > 0
    ensures var r := ReplaySummarize(db, id, outcomes, retries);
      && OnlyRowChanges(db, r.db, id)
      && PublishesTo(r.effects, id)
      && (KeyedById(db) ==> KeyedById(r.db))
    decreases |outcomes|
  {
    var run := SummarizeRun(db, id, outcomes[0], retries);
    SummarizeStaysInRow(db, id, outcomes[0], retries);
    if run.ending.RetryScheduled? && |outcomes| > 1 {
      ReplaySummarizeStep(db, id, outcomes, retries);
      ReplaySummarizeStaysInRow(run.db, id, outcomes[1..], retries + 1);
      PublishesToAppend(run.effects, ReplaySummarize(run.db, id, outcomes[1..], retries + 1).effects, id);
    } else {
      ReplaySummarizeStops(db, id, outcomes, retries);
    }
  }

  /** The network outcomes of `outcomes`' first `n` attempts failed. */
  predicate NetworkFailures(outcomes: seq<Summarized>, n: nat)
    requires n <= |outcomes|
  {
    forall i | 0 <= i < n :: outcomes[i].NetworkTrouble?
  }

  lemma NetworkFailuresShift(outcomes: seq<Summarized>, n: nat)
    requires 0 < n <= |outcomes| && NetworkFailures(outcomes, n)
    ensures outcomes[0].NetworkTrouble? && NetworkFailures(outcomes[1..], n - 1)
  {
    assert outcomes[0].NetworkTrouble?;
    forall i | 0 <= i < n - 1
      ensures outcomes[1..][i].NetworkTrouble?
    {
      assert outcomes[1..][i] == outcomes[i + 1];
    }
  }

  /** Up to MaxRetries network failures and then a good answer: every attempt
      runs and the stored summary is the stripped content, nothing else
      changed. */
  lemma {:induction false} SummarizeRecovers(db: Db, id: nat, outcomes: seq<Summarized>, retries: nat)
    requires id in db && Truthy(db[id].transcript) && |outcomes| > 0
    requires retries + |outcomes| <= MaxRetries + 1
    requires NetworkFailures(outcomes, |outcomes| - 1)
    requires outcomes[|outcomes| - 1].Summary?
    ensures var r := ReplaySummarize(db, id, outcomes, retries);
      && r.attempts == |outcomes|
      && r.ending == Returned(Null)
      && r.db == db[id := db[id].(summary := Str(outcomes[|outcomes| - 1].text))]
    decreases |outcomes|
  {
    if |outcomes| == 1 {
      SummarizeSucceeds(db, id, outcomes[0], retries);
      ReplaySummarizeStops(db, id, outcomes, retries);
    } else {
      NetworkFailuresShift(outcomes, |outcomes| - 1);
      SummarizeRetries(db, id, outcomes[0], retries);
      ReplaySummarizeStep(db, id, outcomes, retries);
      assert outcomes[1..][|outcomes[1..]| - 1] == outcomes[|outcomes| - 1];
      SummarizeRecovers(db, id, outcomes[1..], retries + 1);
    }
  }

  /** What the client sees in that case: "Summarizing" once per attempt,
      then "Summary ready" with the summary. */
  lemma {:induction false} SummarizeRecoversVisibly(db: Db, id: nat, outcomes: seq<Summarized>, retries: nat)
    requires id in db && Truthy(db[id].transcript) && |outcomes| > 0
    requires retries + |outcomes| <= MaxRetries + 1
    requires NetworkFailures(outcomes, |outcomes| - 1)
    requires outcomes[|outcomes| - 1].Summary?
    ensures var r := ReplaySummarize(db, id, outcomes, retries);
      var s := outcomes[|outcomes| - 1].text;
      && PublishedStatuses(r.effects) == Repeat([Str(Summarizing)], |outcomes|) + [Str(SummaryReady)]
      && r.effects[|r.effects| - 1] == Published(Group(id), StatusUpdate, Dict2("status", Str(SummaryReady), "summary", Str(s)))
    decreases |outcomes|
  {
    if |outcomes| == 1 {
      SummarizeSucceeds(db, id, outcomes[0], retries);
      ReplaySummarizeStops(db, id, outcomes, retries);
      RepeatCons([Str(Summarizing)], 0, [Str(SummaryReady)]);
    } else {
      NetworkFailuresShift(outcomes, |outcomes| - 1);
      SummarizeRetries(db, id, outcomes[0], retries);
      ReplaySummarizeStep(db, id, outcomes, retries);
      var run := SummarizeRun(db, id, outcomes[0], retries);
      assert outcomes[1..][|outcomes[1..]| - 1] == outcomes[|outcomes| - 1];
      SummarizeRecoversVisibly(db, id, outcomes[1..], retries + 1);
      PublishedStatusesAppend(run.effects, ReplaySummarize(db, id, outcomes[1..], retries + 1).effects);
      RepeatCons([Str(Summarizing)], |outcomes| - 1, [Str(SummaryReady)]);
    }
  }

  /** MaxRetries + 1 - retries network failures in a row: the job returns
      normally (nothing is raised) and the stored summary asks the user to
      try later. */
  lemma {:induction false} SummarizeGivesUp(db: Db, id: nat, outcomes: seq<Summarized>, retries: nat)
    requires id in db && Truthy(db[id].transcript) && retries <= MaxRetries
    requires |outcomes| > MaxRetries - retries
    requires NetworkFailures(outcomes, MaxRetries + 1 - retries)
    ensures var r := ReplaySummarize(db, id, outcomes, retries);
      && r.attempts == MaxRetries + 1 - retries
      && r.ending == Returned(Null)
      && r.db == db[id := db[id].(summary := Str(TryLater))]
    decreases MaxRetries - retries
  {
    NetworkFailuresShift(outcomes, MaxRetries + 1 - retries);
    if retries == MaxRetries {
      SummarizeExhausted(db, id, outcomes[0], retries);
      ReplaySummarizeStops(db, id, outcomes, retries);
    } else {
      SummarizeRetries(db, id, outcomes[0], retries);
      ReplaySummarizeStep(db, id, outcomes, retries);
      SummarizeGivesUp(db, id, outcomes[1..], retries + 1);
    }
  }

  /** What the client sees when it gives up: "Summarizing" once per attempt,
      then "Failed" with a summary that still says the job is retrying. */
  lemma {:induction false} SummarizeGivesUpVisibly(db: Db, id: nat, outcomes: seq<Summarized>, retries: nat)
    requires id in db && Truthy(db[id].transcript) && retries <= MaxRetries
    requires |outcomes| > MaxRetries - retries
    requires NetworkFailures(outcomes, MaxRetries + 1 - retries)
    ensures var r := ReplaySummarize(db, id, outcomes, retries);
      var reason := outcomes[MaxRetries - retries].reason;
      && PublishedStatuses(r.effects) == Repeat([Str(Summarizing)], MaxRetries + 1 - retries) + [Str(Failed)]
      && r.effects[|r.effects| - 1] == Published(Group(id), StatusUpdate, Dict2("status", Str(Failed), "summary", Str(NetworkNotice(reason))))
    decreases MaxRetries - retries
  {
    NetworkFailuresShift(outcomes, MaxRetries + 1 - retries);
    if retries == MaxRetries {
      SummarizeExhausted(db, id, outcomes[0], retries);
      ReplaySummarizeStops(db, id, outcomes, retries);
      RepeatCons([Str(Summarizing)], 0, [Str(Failed)]);
    } else {
      SummarizeRetries(db, id, outcomes[0], retries);
      ReplaySummarizeStep(db, id, outcomes, retries);
      var run := SummarizeRun(db, id, outcomes[0], retries);
      SummarizeGivesUpVisibly(db, id, outcomes[1..], retries + 1);
      PublishedStatusesAppend(run.effects, ReplaySummarize(db, id, outcomes[1..], retries + 1).effects);
      RepeatCons([Str(Summarizing)], MaxRetries - retries, [Str(Failed)]);
      assert outcomes[1..][MaxRetries - (retries + 1)] == outcomes[MaxRetries - retries];
    }
  }
}

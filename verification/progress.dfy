/** The notification stream of one `sum_url` run: a progress message as each stage
    is entered, then either the summary or exactly one error message. */
module Progress {
  import opened Results

  const Received := "Received URL. Processing audio..."
  const Downloaded := "Audio downloaded. Transcribing..."
  const Transcribed := "Transcript complete. Summarizing..."
  const SummaryPrefix := "Summary:\n"
  const ErrorPrefix := "Failed to process URL. Error: "

  /** The progress messages, in the order the run sends them. */
  const ProgressMessages := [Received, Downloaded, Transcribed]

  function SummaryNotice(summary: string): string { SummaryPrefix + summary }

  function ErrorNotice(message: string): string { ErrorPrefix + message }

  predicate IsErrorNotice(m: string) {
    |m| >= |ErrorPrefix| && m[..|ErrorPrefix|] == ErrorPrefix
  }

  /** What the outside world does at each step of one run: each call returns or raises
      an exception whose text is given. */
  datatype Stages = Stages(
    tempFile: Outcome,                   // creating the named temporary file
    download: Outcome,                   // the yt-dlp download and audio extraction
    transcript: Result<string, string>,  // the Whisper transcription
    summary: Result<string, string>,     // the Dify summary, as text
    removal: Outcome)                    // os.remove of the recorded audio path

  datatype Stage = Download | Transcribe | Summarize

  /** How many progress messages precede the stage's call. */
  function Position(stage: Stage): (k: nat)
    ensures 1 <= k <= |ProgressMessages|
  {
    match stage
    case Download => 1
    case Transcribe => 2
    case Summarize => 3
  }

  datatype StageFailure = StageFailure(stage: Stage, message: string)

  /** The first stage that raises, and the text of its exception; None when all return. */
  function FirstFailure(st: Stages): (r: Option<StageFailure>)
    ensures r.None? <==> st.tempFile.Pass? && st.download.Pass? && st.transcript.Success? && st.summary.Success?
    ensures r.Some? && r.value.stage != Download ==> st.tempFile.Pass? && st.download.Pass?
    ensures r.Some? && r.value.stage == Summarize ==> st.transcript.Success?
    ensures r.Some? && r.value.stage == Download ==>
              if st.tempFile.Fail? then r.value.message == st.tempFile.error
              else st.download.Fail? && r.value.message == st.download.error
    ensures r.Some? && r.value.stage == Transcribe ==> st.transcript.Failure? && r.value.message == st.transcript.error
    ensures r.Some? && r.value.stage == Summarize ==> st.summary.Failure? && r.value.message == st.summary.error
  {
    if st.tempFile.Fail? then Some(StageFailure(Download, st.tempFile.error))
    else if st.download.Fail? then Some(StageFailure(Download, st.download.error))
    else if st.transcript.Failure? then Some(StageFailure(Transcribe, st.transcript.error))
    else if st.summary.Failure? then Some(StageFailure(Summarize, st.summary.error))
    else None
  }

  /** The notifications the handler yields, stage by stage, with the except clause
      turning the first exception into one error message. */
  function Notifications(st: Stages): (ns: seq<string>)
    ensures 2 <= |ns| <= 4 && ns[0] == Received
    ensures IsErrorNotice(ns[|ns| - 1]) <==> FirstFailure(st).Some?
  {
    NoErrorNoticeAmongProgressOrSummary(if st.summary.Success? then st.summary.value else "");
    assert forall m :: IsErrorNotice(ErrorNotice(m));
    [Received] +
    if st.tempFile.Fail? then [ErrorNotice(st.tempFile.error)]
    else if st.download.Fail? then [ErrorNotice(st.download.error)]
    else
      [Downloaded] +
      if st.transcript.Failure? then [ErrorNotice(st.transcript.error)]
      else
        [Transcribed] +
        if st.summary.Failure? then [ErrorNotice(st.summary.error)]
        else [SummaryNotice(st.summary.value)]
  }

  /** When every stage returns, the run yields the three progress messages and then the
      summary: four notifications. */
  lemma HappyPath(st: Stages)
    requires FirstFailure(st) == None
    ensures Notifications(st) == ProgressMessages + [SummaryNotice(st.summary.value)]
    ensures |Notifications(st)| == 4
  {
  }

  /** When the stage at position k raises first, the run yields the first k progress
      messages and then one error message carrying that exception's text. */
  lemma FailureAtStage(st: Stages, f: StageFailure)
    requires FirstFailure(st) == Some(f)
    ensures Notifications(st) == ProgressMessages[..Position(f.stage)] + [ErrorNotice(f.message)]
  {
  }

  /** Stages after the one that raised are never called: whatever they would have done
      leaves the notifications unchanged. */
  lemma LaterStagesNotCalled(st: Stages, other: Stages, f: StageFailure)
    requires FirstFailure(st) == Some(f)
    requires other.tempFile == st.tempFile && (st.tempFile.Pass? ==> other.download == st.download)
    requires f.stage != Download ==> other.transcript == st.transcript
    requires f.stage == Summarize ==> other.summary == st.summary
    ensures Notifications(other) == Notifications(st)
  {
  }

  /** The outcome of the cleanup in the finally block never shows in the notifications. */
  lemma RemovalNotReported(st: Stages, removal: Outcome)
    ensures Notifications(st.(removal := removal)) == Notifications(st)
  {
  }

  function CountErrorNotices(ns: seq<string>): nat {
    if ns == [] then 0
    else (if IsErrorNotice(ns[0]) then 1 else 0) + CountErrorNotices(ns[1..])
  }

  lemma {:induction false} CountErrorNoticesAppend(a: seq<string>, b: seq<string>)
    ensures CountErrorNotices(a + b) == CountErrorNotices(a) + CountErrorNotices(b)
    decreases |a|
  {
    if a == [] {
      assert a + b == b;
    } else {
      assert (a + b)[1..] == a[1..] + b;
      CountErrorNoticesAppend(a[1..], b);
    }
  }

  lemma {:induction false} NoErrorNoticeCounted(ns: seq<string>)
    requires forall i :: 0 <= i < |ns| ==> !IsErrorNotice(ns[i])
    ensures CountErrorNotices(ns) == 0
    decreases |ns|
  {
    if ns != [] {
      NoErrorNoticeCounted(ns[1..]);
    }
  }

  lemma NoErrorNoticeAmongProgressOrSummary(summary: string)
    ensures !IsErrorNotice(Received) && !IsErrorNotice(Downloaded) && !IsErrorNotice(Transcribed)
    ensures !IsErrorNotice(SummaryNotice(summary))
  {
    assert Received[0] != ErrorPrefix[0];
    assert Downloaded[0] != ErrorPrefix[0];
    assert Transcribed[0] != ErrorPrefix[0];
    assert SummaryNotice(summary)[0] == 'S' != ErrorPrefix[0];
  }

  /** A run yields exactly one error message if some stage raises, and none otherwise. */
  lemma {:induction false} OneErrorNoticeExactlyOnFailure(st: Stages)
    ensures CountErrorNotices(Notifications(st)) == if FirstFailure(st).Some? then 1 else 0
  {
    NoErrorNoticeAmongProgressOrSummary(if st.summary.Success? then st.summary.value else "");
    var ns := Notifications(st);
    assert IsErrorNotice(ErrorNotice(if FirstFailure(st).Some? then FirstFailure(st).value.message else ""));
    match FirstFailure(st)
    case None =>
      HappyPath(st);
      NoErrorNoticeCounted(ProgressMessages);
      NoErrorNoticeCounted([SummaryNotice(st.summary.value)]);
      CountErrorNoticesAppend(ProgressMessages, [SummaryNotice(st.summary.value)]);
    case Some(f) =>
      FailureAtStage(st, f);
      NoErrorNoticeCounted(ProgressMessages[..Position(f.stage)]);
      assert CountErrorNotices([ErrorNotice(f.message)]) == 1;
      CountErrorNoticesAppend(ProgressMessages[..Position(f.stage)], [ErrorNotice(f.message)]);
  }
}

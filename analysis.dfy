/**
 * The analysis of an uploaded video: the record the web app keeps per video, the
 * statistics it derives from the detections, the coaching feedback it asks for, and
 * the stages of the analysis with the progress each one publishes. The detectors and
 * the feedback client are parameters.
 */
module Analysis {
  import opened Wrappers
  import opened Text
  import opened VideoUtils

  // ---------------------------------------------------------------- records

  datatype Status = Uploaded | Analyzing | Completed | Error

  /** The `analysis` entry of a completed record. */
  datatype AnalysisData = AnalysisData(
    playerPositions: nat,
    ballDetections: nat,
    courtKeypoints: nat,
    totalFrames: nat,
    processedVideoPath: string)

  /** The dictionary kept per video id; the keys written only by some paths are optional. */
  datatype Record = Record(
    status: Status,
    progress: nat,
    filename: string,
    uploadPath: string,
    analysis: Option<AnalysisData>,
    coachingFeedback: Option<string>,
    processedVideoUrl: Option<string>,
    error: Option<string>)

  /**
   * A record in a state some run of the app can leave it in: progress 100 and the
   * result keys only once completed, an error message exactly on error.
   */
  predicate RecordValid(r: Record) {
    r.progress <= 100
    && (r.status == Uploaded ==> r.progress == 0)
    && (r.status == Completed <==> r.progress == 100)
    && (r.status == Completed ==>
          r.analysis.Some? && r.coachingFeedback.Some? && r.processedVideoUrl.Some?)
    && (r.status != Completed ==>
          r.analysis.None? && r.coachingFeedback.None? && r.processedVideoUrl.None?)
    && (r.status == Error <==> r.error.Some?)
  }

  // ---------------------------------------------------------------- statistics

  /** A bounding box of a detection. */
  datatype Box = Box(x1: real, y1: real, x2: real, y2: real)

  /** The detections of one frame, by track id. */
  type Detections = map<int, Box>

  /** The number of detections over all frames. */
  function TotalDetections(ds: seq<Detections>): nat {
    if ds == [] then 0 else TotalDetections(ds[..|ds| - 1]) + |ds[|ds| - 1]|
  }

  /** The frames that have any detection (`if frame_detections`). */
  function NonEmptyFrames(ds: seq<Detections>): (r: seq<Detections>)
    ensures |r| <= |ds|
  {
    if ds == [] then []
    else NonEmptyFrames(ds[..|ds| - 1]) + (if |ds[|ds| - 1]| > 0 then [ds[|ds| - 1]] else [])
  }

  /** Leaving out the frames without detections does not change the count. */
  lemma {:induction false} EmptyFramesCountNothing(ds: seq<Detections>)
    ensures TotalDetections(NonEmptyFrames(ds)) == TotalDetections(ds)
  {
    if ds != [] {
      var init, last := ds[..|ds| - 1], ds[|ds| - 1];
      EmptyFramesCountNothing(init);
      TotalDetectionsAppend(NonEmptyFrames(init), if |last| > 0 then [last] else []);
      if |last| == 0 {
        assert last == map[];
      }
    }
  }

  /** Counting is additive over consecutive stretches of frames. */
  lemma {:induction false} TotalDetectionsAppend(a: seq<Detections>, b: seq<Detections>)
    ensures TotalDetections(a + b) == TotalDetections(a) + TotalDetections(b)
    decreases |b|
  {
    if b == [] {
      assert a + b == a;
    } else {
      assert (a + b)[..|a + b| - 1] == a + b[..|b| - 1];
      TotalDetectionsAppend(a, b[..|b| - 1]);
    }
  }

  /** With at most `k` detections per frame, the count is at most `k` per frame. */
  lemma {:induction false} TotalDetectionsBound(ds: seq<Detections>, k: nat)
    requires forall i :: 0 <= i < |ds| ==> |ds[i]| <= k
    ensures TotalDetections(ds) <= k * |ds|
  {
    if ds != [] {
      TotalDetectionsBound(ds[..|ds| - 1], k);
    }
  }

  /** The `analysis` entry: detections counted, keypoints counted in (x, y) pairs, frames counted. */
  function Statistics(frames: seq<Frame>, players: seq<Detections>, balls: seq<Detections>,
                      keypoints: seq<real>, outputPath: string): (d: AnalysisData)
    ensures d.totalFrames == |frames| && d.processedVideoPath == outputPath
    ensures d.ballDetections == TotalDetections(balls)
    ensures 2 * d.courtKeypoints <= |keypoints| < 2 * d.courtKeypoints + 2
  {
    EmptyFramesCountNothing(balls);
    AnalysisData(TotalDetections(players), TotalDetections(NonEmptyFrames(balls)), |keypoints| / 2, |frames|, outputPath)
  }

  // ---------------------------------------------------------------- coaching feedback

  /** What the feedback client is sent: the model, the system and user messages, the token cap. */
  datatype FeedbackRequest = FeedbackRequest(model: string, system: string, prompt: string, maxTokens: nat)

  /** The feedback client: absent, or a call that returns the reply text or the text of the exception it raised. */
  datatype FeedbackClient = NoClient | Client(create: FeedbackRequest -> Result<string, string>)

  /** One statistic line: the caption and the number in decimal. */
  function StatLine(indent: string, caption: string, n: nat): string {
    indent + caption + NatToString(n) + "\n"
  }

  /** The four statistic lines, each preceded by `indent`. */
  function StatLines(d: AnalysisData, indent: string): string {
    StatLine(indent, "- Total frames analyzed: ", d.totalFrames)
    + StatLine(indent, "- Player positions detected: ", d.playerPositions)
    + StatLine(indent, "- Ball detections: ", d.ballDetections)
    + StatLine(indent, "- Court keypoints detected: ", d.courtKeypoints)
  }

  const FallbackHeading: string :=
    "\n## \U{1F3BE} Tennis Video Analysis Complete!\n\n**Technical Analysis Results:**\n"

  const FallbackNote: string :=
    "\n**Note:** AI coaching feedback is temporarily unavailable due to configuration issues, "
    + "but your video has been successfully processed with computer vision analysis. You can see "
    + "the annotated video with player tracking, ball detection, and court line analysis above.\n"

  /** The report given when no client is configured. */
  function FallbackFeedback(d: AnalysisData): string {
    FallbackHeading + StatLines(d, "") + FallbackNote
  }

  const FeedbackSystemMessage: string :=
    "You are an expert tennis coach analyzing video data. Provide detailed, \n"
    + "                    actionable feedback based on computer vision analysis results. Focus on technique \n"
    + "                    improvement and practical coaching advice."

  const PromptIndent: string := "        "

  const PromptOpening: string :=
    "\n        Based on this tennis video analysis data, provide detailed coaching feedback:\n        \n"

  const PromptInstructions: string :=
    "        \n        As an expert tennis coach, analyze this data and provide:\n"
    + "        1. **Technical Assessment**: What the detection data tells us about the player's technique\n"
    + "        2. **Key Strengths**: Positive aspects observed in the movement patterns\n"
    + "        3. **Areas for Improvement**: Specific technique corrections needed\n"
    + "        4. **Practice Recommendations**: Drills to address identified issues\n"
    + "        5. **Next Steps**: What to focus on in future practice sessions\n"
    + "        \n        Format your response with clear sections and actionable advice.\n        "

  /** The user message asking for feedback on the statistics. */
  function FeedbackPrompt(d: AnalysisData): string {
    PromptOpening + StatLines(d, PromptIndent) + PromptInstructions
  }

  function FeedbackRequestFor(d: AnalysisData): FeedbackRequest {
    FeedbackRequest("gpt-3.5-turbo", FeedbackSystemMessage, FeedbackPrompt(d), 800)
  }

  /**
   * `generate_tennis_coaching_feedback`, which never raises: the fallback report without
   * a client, the stripped reply, or the error text when the call raises.
   */
  function CoachingFeedback(d: AnalysisData, client: FeedbackClient): (feedback: string)
    ensures client.NoClient? ==> ReportsStatistics(feedback, d)
    ensures client.Client? && client.create(FeedbackRequestFor(d)).Ok? ==>
      feedback == Strip(client.create(FeedbackRequestFor(d)).value)
    ensures client.Client? && client.create(FeedbackRequestFor(d)).Err? ==>
      feedback == "Error generating coaching feedback: " + client.create(FeedbackRequestFor(d)).error
  {
    match client
    case NoClient =>
      FallbackReportsStatistics(d);
      FallbackFeedback(d)
    case Client(create) =>
      match create(FeedbackRequestFor(d))
      case Ok(content) => Strip(content)
      case Err(e) => "Error generating coaching feedback: " + e
  }

  /** A text that shows each of the four statistics, in decimal, after its caption. */
  predicate ReportsStatistics(text: string, d: AnalysisData) {
    Contains(text, "- Total frames analyzed: " + NatToString(d.totalFrames))
    && Contains(text, "- Player positions detected: " + NatToString(d.playerPositions))
    && Contains(text, "- Ball detections: " + NatToString(d.ballDetections))
    && Contains(text, "- Court keypoints detected: " + NatToString(d.courtKeypoints))
  }

  lemma StatLineShows(indent: string, caption: string, n: nat)
    ensures Contains(StatLine(indent, caption, n), caption + NatToString(n))
  {
    ContainsSelf(caption + NatToString(n));
    ContainsMiddle(indent, caption + NatToString(n), "\n", caption + NatToString(n));
    assert StatLine(indent, caption, n) == indent + (caption + NatToString(n)) + "\n";
  }

  lemma StatLinesReportStatistics(d: AnalysisData, indent: string)
    ensures ReportsStatistics(StatLines(d, indent), d)
  {
    var l1 := StatLine(indent, "- Total frames analyzed: ", d.totalFrames);
    var l2 := StatLine(indent, "- Player positions detected: ", d.playerPositions);
    var l3 := StatLine(indent, "- Ball detections: ", d.ballDetections);
    var l4 := StatLine(indent, "- Court keypoints detected: ", d.courtKeypoints);
    StatLineShows(indent, "- Total frames analyzed: ", d.totalFrames);
    StatLineShows(indent, "- Player positions detected: ", d.playerPositions);
    StatLineShows(indent, "- Ball detections: ", d.ballDetections);
    StatLineShows(indent, "- Court keypoints detected: ", d.courtKeypoints);
    FourPartsContain(l1, l2, l3, l4, "- Total frames analyzed: " + NatToString(d.totalFrames));
    FourPartsContain(l1, l2, l3, l4, "- Player positions detected: " + NatToString(d.playerPositions));
    FourPartsContain(l1, l2, l3, l4, "- Ball detections: " + NatToString(d.ballDetections));
    FourPartsContain(l1, l2, l3, l4, "- Court keypoints detected: " + NatToString(d.courtKeypoints));
  }

  /** Whatever one of four parts contains, their concatenation contains. */
  lemma FourPartsContain(l1: string, l2: string, l3: string, l4: string, sub: string)
    requires Contains(l1, sub) || Contains(l2, sub) || Contains(l3, sub) || Contains(l4, sub)
    ensures Contains(l1 + l2 + l3 + l4, sub)
  {
    ContainsInConcat(l1, l2, sub);
    ContainsInConcat(l1 + l2, l3, sub);
    ContainsInConcat(l1 + l2 + l3, l4, sub);
  }

  /** Text around the statistic lines does not hide them. */
  lemma SurroundedStatLinesReport(head: string, d: AnalysisData, indent: string, tail: string)
    ensures ReportsStatistics(head + StatLines(d, indent) + tail, d)
  {
    var lines := StatLines(d, indent);
    StatLinesReportStatistics(d, indent);
    ContainsMiddle(head, lines, tail, "- Total frames analyzed: " + NatToString(d.totalFrames));
    ContainsMiddle(head, lines, tail, "- Player positions detected: " + NatToString(d.playerPositions));
    ContainsMiddle(head, lines, tail, "- Ball detections: " + NatToString(d.ballDetections));
    ContainsMiddle(head, lines, tail, "- Court keypoints detected: " + NatToString(d.courtKeypoints));
  }

  /** The fallback report shows the four statistics. */
  lemma FallbackReportsStatistics(d: AnalysisData)
    ensures ReportsStatistics(FallbackFeedback(d), d)
  {
    SurroundedStatLinesReport(FallbackHeading, d, "", FallbackNote);
  }

  /** The request sent to the client shows the four statistics. */
  lemma PromptReportsStatistics(d: AnalysisData)
    ensures ReportsStatistics(FeedbackRequestFor(d).prompt, d)
    ensures FeedbackRequestFor(d).model == "gpt-3.5-turbo" && FeedbackRequestFor(d).maxTokens == 800
  {
    SurroundedStatLinesReport(PromptOpening, d, PromptIndent, PromptInstructions);
  }

  // ---------------------------------------------------------------- the stages

  /** The models the analysis runs, each returning its result or the text of the exception it raised. */
  datatype Detectors = Detectors(
    loadError: Option<string>,
    detectPlayers: seq<Frame> -> Result<seq<Detections>, string>,
    detectBalls: seq<Frame> -> Result<seq<Detections>, string>,
    interpolateBalls: seq<Detections> -> Result<seq<Detections>, string>,
    predictCourt: Frame -> Result<seq<real>, string>,
    filterPlayers: (seq<real>, seq<Detections>) -> Result<seq<Detections>, string>,
    drawPlayers: (seq<Frame>, seq<Detections>) -> Result<seq<Frame>, string>,
    drawBalls: (seq<Frame>, seq<Detections>) -> Result<seq<Frame>, string>,
    drawCourt: (seq<Frame>, seq<real>) -> Result<seq<Frame>, string>)

  /** Everything outside the app an analysis depends on. */
  datatype Environment = Environment(
    video: VideoSource,
    detectors: Detectors,
    writerOpens: bool,
    client: FeedbackClient)

  /** The progress values published before each stage, in order. */
  const Checkpoints: seq<nat> := [20, 40, 50, 70, 85]

  function OutputPath(videoId: string): string {
    "results/" + videoId + "_processed.avi"
  }

  function ProcessedVideoUrl(videoId: string): string {
    "/results/" + videoId + "_processed.avi"
  }

  /** Player detection, then ball detection and interpolation. */
  function Detect(frames: seq<Frame>, det: Detectors): Result<(seq<Detections>, seq<Detections>), string> {
    match det.detectPlayers(frames)
    case Err(e) => Err(e)
    case Ok(players) =>
      match det.detectBalls(frames)
      case Err(e) => Err(e)
      case Ok(balls) =>
        match det.interpolateBalls(balls)
        case Err(e) => Err(e)
        case Ok(balls) => Ok((players, balls))
  }

  /** Court keypoints on the first frame, then the players filtered by them. */
  function LocateCourt(first: Frame, players: seq<Detections>, det: Detectors): Result<(seq<real>, seq<Detections>), string> {
    match det.predictCourt(first)
    case Err(e) => Err(e)
    case Ok(keypoints) =>
      match det.filterPlayers(keypoints, players)
      case Err(e) => Err(e)
      case Ok(players) => Ok((keypoints, players))
  }

  /** The three drawing passes over the frames. */
  function Annotate(frames: seq<Frame>, players: seq<Detections>, balls: seq<Detections>, keypoints: seq<real>,
                    det: Detectors): Result<seq<Frame>, string> {
    match det.drawPlayers(frames, players)
    case Err(e) => Err(e)
    case Ok(out) =>
      match det.drawBalls(out, balls)
      case Err(e) => Err(e)
      case Ok(out) => det.drawCourt(out, keypoints)
  }

  /** A finished analysis: the statistics and the feedback on them. */
  datatype Completion = Completion(data: AnalysisData, feedback: string)

  /** How far an analysis got (how many checkpoints it published) and how it ended. */
  datatype Run = Run(reached: nat, outcome: Result<Completion, string>)

  /** The stages of `analyze_tennis_video`, each able to raise; the last checkpoint before a raise is where the run stops. */
  function Pipeline(videoPath: string, videoId: string, env: Environment): (run: Run)
    ensures 1 <= run.reached <= |Checkpoints|
    ensures run.outcome.Ok? ==>
      run.reached == |Checkpoints| && 1 <= run.outcome.value.data.totalFrames
      && run.outcome.value.data.processedVideoPath == OutputPath(videoId)
  {
    match ReadVideoResult(videoPath, env.video)
    case Err(e) => Run(1, Err(e.message))
    case Ok(frames) => FromFrames(frames, videoId, env)
  }

  /** The stages after the frames are read: loading the models, then detection. */
  function FromFrames(frames: seq<Frame>, videoId: string, env: Environment): (run: Run)
    requires frames != []
    ensures 2 <= run.reached <= |Checkpoints|
    ensures run.outcome.Ok? ==>
      run.reached == |Checkpoints| && run.outcome.value.data.totalFrames == |frames|
      && run.outcome.value.data.processedVideoPath == OutputPath(videoId)
  {
    if env.detectors.loadError.Some? then Run(2, Err(env.detectors.loadError.value))
    else match Detect(frames, env.detectors)
    case Err(e) => Run(3, Err(e))
    case Ok((players, balls)) => FromDetections(frames, players, balls, videoId, env)
  }

  /** The stages after detection: the court on the first frame and the player filter. */
  function FromDetections(frames: seq<Frame>, players: seq<Detections>, balls: seq<Detections>,
                          videoId: string, env: Environment): (run: Run)
    requires frames != []
    ensures 4 <= run.reached <= |Checkpoints|
    ensures run.outcome.Ok? ==>
      run.reached == |Checkpoints| && run.outcome.value.data.totalFrames == |frames|
      && run.outcome.value.data.processedVideoPath == OutputPath(videoId)
  {
    match LocateCourt(frames[0], players, env.detectors)
    case Err(e) => Run(4, Err(e))
    case Ok((keypoints, players)) => FromCourt(frames, players, balls, keypoints, videoId, env)
  }

  /** The last stages: drawing, saving, the statistics and the feedback. */
  function FromCourt(frames: seq<Frame>, players: seq<Detections>, balls: seq<Detections>, keypoints: seq<real>,
                     videoId: string, env: Environment): (run: Run)
    ensures run.reached == |Checkpoints|
    ensures run.outcome.Ok? ==>
      run.outcome.value.data == Statistics(frames, players, balls, keypoints, OutputPath(videoId))
      && run.outcome.value.feedback == CoachingFeedback(run.outcome.value.data, env.client)
  {
    match Annotate(frames, players, balls, keypoints, env.detectors)
    case Err(e) => Run(5, Err(e))
    case Ok(output) =>
      match SaveVideoOutcome(output, OutputPath(videoId), env.writerOpens)
      case Fail(e) => Run(5, Err(e.message))
      case Pass =>
        var data := Statistics(frames, players, balls, keypoints, OutputPath(videoId));
        Run(5, Ok(Completion(data, CoachingFeedback(data, env.client))))
  }

  /** An unreadable video stops the analysis at its first checkpoint (20%), with the read error as its message. */
  lemma UnreadableVideoStopsFirst(videoPath: string, videoId: string, env: Environment)
    requires ReadVideoResult(videoPath, env.video).Err?
    ensures Pipeline(videoPath, videoId, env).reached == 1
    ensures Pipeline(videoPath, videoId, env).outcome == Err(ReadVideoResult(videoPath, env.video).error.message)
  {
  }

  // ---------------------------------------------------------------- the published states

  /** The states after each checkpoint write, the first `n` of them. */
  function Checkpointed(r: Record, n: nat): (states: seq<Record>)
    requires n <= |Checkpoints|
    ensures |states| == n
  {
    if n == 0 then [] else Checkpointed(r, n - 1) + [r.(progress := Checkpoints[n - 1])]
  }

  lemma {:induction false} CheckpointedAt(r: Record, n: nat, k: nat)
    requires k < n <= |Checkpoints|
    ensures Checkpointed(r, n)[k] == r.(progress := Checkpoints[k])
  {
    if k < n - 1 {
      CheckpointedAt(r, n - 1, k);
    }
  }

  /** The final write: the completed results, or the error next to the last progress. */
  function Settled(last: Record, videoId: string, outcome: Result<Completion, string>): (r: Record)
    ensures r.status == (if outcome.Ok? then Completed else Error)
    ensures r.filename == last.filename && r.uploadPath == last.uploadPath
    ensures outcome.Err? ==> r.progress == last.progress && r.error == Some(outcome.error)
    ensures RecordValid(last) && last.status == Analyzing && last.progress < 100 ==> RecordValid(r)
  {
    match outcome
    case Ok(c) =>
      last.(status := Completed, progress := 100, analysis := Some(c.data),
            coachingFeedback := Some(c.feedback), processedVideoUrl := Some(ProcessedVideoUrl(videoId)))
    case Err(e) => last.(status := Error, error := Some(e))
  }

  /**
   * Every state of a video's record that a poll can see during an analysis, in order:
   * the status write, one write per checkpoint reached, and the final write.
   */
  function AnalysisTrace(start: Record, videoId: string, run: Run): (trace: seq<Record>)
    requires 1 <= run.reached <= |Checkpoints|
    ensures |trace| == run.reached + 2
  {
    var s := start.(status := Analyzing);
    [s] + Checkpointed(s, run.reached) + [Settled(s.(progress := Checkpoints[run.reached - 1]), videoId, run.outcome)]
  }

  /** Each state of the trace, by position. */
  lemma TraceAt(start: Record, videoId: string, run: Run, i: nat)
    requires 1 <= run.reached <= |Checkpoints| && i < run.reached + 2
    ensures var t := AnalysisTrace(start, videoId, run);
      var s := start.(status := Analyzing);
      (i == 0 ==> t[i] == s)
      && (1 <= i <= run.reached ==> t[i] == s.(progress := Checkpoints[i - 1]))
      && (i == run.reached + 1 ==> t[i] == Settled(s.(progress := Checkpoints[run.reached - 1]), videoId, run.outcome))
  {
    if 1 <= i <= run.reached {
      CheckpointedAt(start.(status := Analyzing), run.reached, i - 1);
    }
  }

  /** Starting from an uploaded record (progress 0), the progress a poll sees never goes back. */
  lemma {:induction false} TraceProgressMonotone(start: Record, videoId: string, run: Run, i: nat, j: nat)
    requires 1 <= run.reached <= |Checkpoints|
    requires start.progress <= Checkpoints[0]
    requires i <= j < run.reached + 2
    ensures AnalysisTrace(start, videoId, run)[i].progress <= AnalysisTrace(start, videoId, run)[j].progress
  {
    TraceAt(start, videoId, run, i);
    TraceAt(start, videoId, run, j);
  }

  /** Two states of a record that agree on the keys only a completed analysis writes. */
  predicate SameResults(r: Record, s: Record) {
    r.analysis == s.analysis && r.coachingFeedback == s.coachingFeedback && r.processedVideoUrl == s.processedVideoUrl
  }

  /**
   * The record is `analyzing`, with the result keys as they were, until the final
   * write, which is `completed` with progress 100 and the results exactly when the run
   * succeeded, and `error` with its message at the last checkpoint reached, the result
   * keys still untouched, otherwise; the upload fields never change.
   */
  lemma {:induction false} TraceOutcome(start: Record, videoId: string, run: Run)
    requires 1 <= run.reached <= |Checkpoints|
    ensures var t := AnalysisTrace(start, videoId, run);
      var last := t[|t| - 1];
      (forall i :: 0 <= i < |t| - 1 ==> t[i].status == Analyzing && SameResults(t[i], start))
      && (forall i :: 0 <= i < |t| ==> t[i].filename == start.filename && t[i].uploadPath == start.uploadPath)
      && (last.status == Completed <==> run.outcome.Ok?)
      && (last.status == Completed <==> last.progress == 100)
      && (run.outcome.Ok? ==> last.analysis == Some(run.outcome.value.data)
                              && last.processedVideoUrl == Some(ProcessedVideoUrl(videoId)))
      && (run.outcome.Err? ==> last.status == Error && last.error == Some(run.outcome.error)
                               && last.progress == Checkpoints[run.reached - 1] && SameResults(last, start))
  {
    var t := AnalysisTrace(start, videoId, run);
    forall i | 0 <= i < |t|
      ensures i < |t| - 1 ==> t[i].status == Analyzing && SameResults(t[i], start)
      ensures t[i].filename == start.filename && t[i].uploadPath == start.uploadPath
    {
      TraceAt(start, videoId, run, i);
    }
    TraceAt(start, videoId, run, |t| - 1);
  }

  /** Every state of the trace of a run on a freshly uploaded record is one the record invariant allows. */
  lemma {:induction false} TraceValid(start: Record, videoId: string, run: Run)
    requires 1 <= run.reached <= |Checkpoints|
    requires RecordValid(start) && start.status == Uploaded
    ensures forall i :: 0 <= i < |AnalysisTrace(start, videoId, run)| ==> RecordValid(AnalysisTrace(start, videoId, run)[i])
  {
    forall i | 0 <= i < |AnalysisTrace(start, videoId, run)|
      ensures RecordValid(AnalysisTrace(start, videoId, run)[i])
    {
      TraceAt(start, videoId, run, i);
    }
  }
}

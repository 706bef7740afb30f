/**
 * The web app's table of video analyses, keyed by video id: the upload route that
 * creates an entry, the analysis that advances it, and the polling route that reads it.
 */
module VideoJobs {
  import opened Wrappers
  import opened VideoUtils
  import opened Validators
  import opened Analysis

  /** The `video` part of an upload request, as far as the route looks at it. */
  datatype FileUpload = FileUpload(filename: string)

  /** The JSON bodies the routes answer with. */
  datatype Body =
    | Failure(error: string)
    | Accepted(videoId: string, message: string, status: string)
    | Found(videoId: string, record: Record)

  datatype Response = Response(code: nat, body: Body)

  /** The validation of an upload request, in the order the route performs it. */
  function CheckUpload(upload: Option<FileUpload>): (r: Result<FileUpload, string>)
    ensures r.Ok? <==> upload.Some? && upload.value.filename != "" && AllowedFile(upload.value.filename)
    ensures r.Ok? ==> r.value == upload.value
  {
    match upload
    case None => Err("No video file provided")
    case Some(file) =>
      if file.filename == "" then Err("No file selected")
      else if !AllowedFile(file.filename) then Err("Invalid file type. Please upload MP4, AVI, MOV, or MKV files.")
      else Ok(file)
  }

  /** `os.path.join` of the upload folder and a sanitised (hence relative) file name. */
  function UploadPath(filename: string): string {
    "uploads/" + filename
  }

  /** The entry an accepted upload starts with. */
  function InitialRecord(filename: string): (r: Record)
    ensures RecordValid(r) && r.status == Uploaded && r.progress == 0
    ensures r.filename == filename && r.uploadPath == UploadPath(filename)
  {
    Record(Uploaded, 0, filename, UploadPath(filename), None, None, None, None)
  }

  /** The stored name of an upload: the sanitiser applied to the id, an underscore and the client's name. */
  function StoredName(videoId: string, file: FileUpload, secure: string -> string): string {
    secure(videoId + "_" + file.filename)
  }

  /** One write to the table: the id written and the record it then holds. */
  type Write = (string, Record)

  /** The writes that put `states` under `videoId`, one after the other. */
  function Tagged(videoId: string, states: seq<Record>): (ws: seq<Write>)
    ensures |ws| == |states|
    ensures forall i :: 0 <= i < |states| ==> ws[i] == (videoId, states[i])
  {
    seq(|states|, i requires 0 <= i < |states| => (videoId, states[i]))
  }

  /** Writing one more state extends the writes by one. */
  lemma TaggedSnoc(videoId: string, states: seq<Record>, r: Record)
    ensures Tagged(videoId, states + [r]) == Tagged(videoId, states) + [(videoId, r)]
  {
    assert forall i :: 0 <= i < |states| ==> (states + [r])[i] == states[i];
  }

  class JobStore {
    var results: map<string, Record>
    /** Every write made to the table so far, in order; a poll sees the latest one for its id. */
    ghost var writes: seq<Write>

    /** Every entry is in a state some run of the app can leave it in. */
    ghost predicate Valid()
      reads this
    {
      forall id | id in results :: RecordValid(results[id])
    }

    constructor()
      ensures results == map[] && writes == [] && Valid()
    {
      results := map[];
      writes := [];
    }

    /**
     * `upload_video`: a 400 for a missing, unnamed or badly typed file and a 500 when
     * storing it raises, both leaving the table as it was; otherwise a new `uploaded`
     * entry under `videoId` and the acceptance answer. The id comes from the caller
     * (a fresh UUID in the app), the sanitiser is a parameter, and `saveError` is the
     * exception, if any, that creating the folders or saving the file raises.
     */
    method UploadVideo(upload: Option<FileUpload>, videoId: string, secure: string -> string, saveError: Option<string>)
      returns (resp: Response)
      requires Valid()
      modifies this
      ensures Valid()
      ensures CheckUpload(upload).Err? ==>
        resp == Response(400, Failure(CheckUpload(upload).error)) && results == old(results) && writes == old(writes)
      ensures CheckUpload(upload).Ok? && saveError.Some? ==>
        resp == Response(500, Failure("Upload failed: " + saveError.value))
        && results == old(results) && writes == old(writes)
      ensures CheckUpload(upload).Ok? && saveError.None? ==>
        resp == Response(200, Accepted(videoId, "Video uploaded successfully. Analysis started.", "processing"))
        && results == old(results)[videoId := InitialRecord(StoredName(videoId, upload.value, secure))]
        && writes == old(writes) + [(videoId, InitialRecord(StoredName(videoId, upload.value, secure)))]
    {
      if upload.None? {
        return Response(400, Failure("No video file provided"));
      }
      var file := upload.value;
      if file.filename == "" {
        return Response(400, Failure("No file selected"));
      }
      if !AllowedFile(file.filename) {
        return Response(400, Failure("Invalid file type. Please upload MP4, AVI, MOV, or MKV files."));
      }
      var filename := secure(videoId + "_" + file.filename);
      var filePath := UploadPath(filename);
      if saveError.Some? {
        return Response(500, Failure("Upload failed: " + saveError.value));
      }
      Publish(videoId, InitialRecord(filename));
      resp := Response(200, Accepted(videoId, "Video uploaded successfully. Analysis started.", "processing"));
    }

    /** One write to a video's entry, which a poll can observe. */
    method Publish(videoId: string, r: Record)
      modifies this
      ensures results == old(results)[videoId := r]
      ensures writes == old(writes) + [(videoId, r)]
    {
      results := results[videoId := r];
      writes := writes + [(videoId, r)];
    }

    /**
     * `analyze_tennis_video` on the entry the upload has just seeded, run to the end: the
     * writes it makes are exactly the trace of the pipeline's run, all to this entry, and
     * the table then holds the last of them.
     */
    method AnalyzeTennisVideo(videoPath: string, videoId: string, env: Environment)
      requires videoId in results && results[videoId].status == Uploaded && Valid()
      modifies this
      ensures writes == old(writes) + Tagged(videoId, AnalysisTrace(old(results[videoId]), videoId, Pipeline(videoPath, videoId, env)))
      ensures results == old(results)[videoId := writes[|writes| - 1].1]
      ensures Valid()
    {
      ghost var published := RunAnalysis(videoPath, videoId, env);
      TraceValid(old(results[videoId]), videoId, Pipeline(videoPath, videoId, env));
    }

    /** The steps of `analyze_tennis_video` up to reading the frames. */
    method RunAnalysis(videoPath: string, videoId: string, env: Environment) returns (ghost published: seq<Record>)
      requires videoId in results
      modifies this
      ensures published == AnalysisTrace(old(results[videoId]), videoId, Pipeline(videoPath, videoId, env))
      ensures writes == old(writes) + Tagged(videoId, published)
      ensures results == old(results)[videoId := published[|published| - 1]]
    {
      ghost var w0 := writes;
      var original := results[videoId];
      var record := original.(status := Analyzing);
      Publish(videoId, record);
      published := [record];
      TaggedSnoc(videoId, [], record);
      assert [] + [record] == [record];
      assert published == [record] + Checkpointed(record, 0);

      published := Advance(videoId, original, 1, w0, published);
      var frames := ReadVideo(videoPath, env.video);
      if frames.Err? {
        assert Pipeline(videoPath, videoId, env) == Run(1, Err(frames.error.message));
        published := Settle(videoId, original, Run(1, Err(frames.error.message)), w0, published);
        return;
      }
      assert Pipeline(videoPath, videoId, env) == FromFrames(frames.value, videoId, env);
      published := AnalyzeFrames(videoId, original, frames.value, env, w0, published);
    }

    /** The analysis from the 40% checkpoint on, once the frames are read. */
    method AnalyzeFrames(videoId: string, original: Record, frames: seq<Frame>, env: Environment,
                         ghost w0: seq<Write>, ghost before: seq<Record>)
      returns (ghost published: seq<Record>)
      requires frames != []
      requires before == [original.(status := Analyzing)] + Checkpointed(original.(status := Analyzing), 1)
      requires writes == w0 + Tagged(videoId, before)
      modifies this
      ensures published == AnalysisTrace(original, videoId, FromFrames(frames, videoId, env))
      ensures writes == w0 + Tagged(videoId, published)
      ensures results == old(results)[videoId := published[|published| - 1]]
    {
      published := Advance(videoId, original, 2, w0, before);
      if env.detectors.loadError.Some? {
        assert FromFrames(frames, videoId, env) == Run(2, Err(env.detectors.loadError.value));
        published := Settle(videoId, original, Run(2, Err(env.detectors.loadError.value)), w0, published);
        return;
      }
      published := Advance(videoId, original, 3, w0, published);
      var detections := Detect(frames, env.detectors);
      if detections.Err? {
        assert FromFrames(frames, videoId, env) == Run(3, Err(detections.error));
        published := Settle(videoId, original, Run(3, Err(detections.error)), w0, published);
        return;
      }
      assert FromFrames(frames, videoId, env) == FromDetections(frames, detections.value.0, detections.value.1, videoId, env);
      published := AnalyzeDetections(videoId, original, frames, detections.value.0, detections.value.1, env, w0, published);
    }

    /** The analysis from the 70% checkpoint on, once players and ball are detected. */
    method AnalyzeDetections(videoId: string, original: Record, frames: seq<Frame>, players: seq<Detections>,
                             balls: seq<Detections>, env: Environment,
                             ghost w0: seq<Write>, ghost before: seq<Record>)
      returns (ghost published: seq<Record>)
      requires frames != []
      requires before == [original.(status := Analyzing)] + Checkpointed(original.(status := Analyzing), 3)
      requires writes == w0 + Tagged(videoId, before)
      modifies this
      ensures published == AnalysisTrace(original, videoId, FromDetections(frames, players, balls, videoId, env))
      ensures writes == w0 + Tagged(videoId, published)
      ensures results == old(results)[videoId := published[|published| - 1]]
    {
      published := Advance(videoId, original, 4, w0, before);
      var court := LocateCourt(frames[0], players, env.detectors);
      if court.Err? {
        published := Settle(videoId, original, Run(4, Err(court.error)), w0, published);
        return;
      }
      published := Advance(videoId, original, 5, w0, published);
      published := FinishAnalysis(videoId, original, frames, court.value.1, balls, court.value.0, env, w0, published);
    }

    /** The analysis from the 85% checkpoint on: drawing, saving, statistics, feedback. */
    method FinishAnalysis(videoId: string, original: Record, frames: seq<Frame>, players: seq<Detections>,
                          balls: seq<Detections>, keypoints: seq<real>, env: Environment,
                          ghost w0: seq<Write>, ghost before: seq<Record>)
      returns (ghost published: seq<Record>)
      requires before == [original.(status := Analyzing)] + Checkpointed(original.(status := Analyzing), |Checkpoints|)
      requires writes == w0 + Tagged(videoId, before)
      modifies this
      ensures published == AnalysisTrace(original, videoId, FromCourt(frames, players, balls, keypoints, videoId, env))
      ensures writes == w0 + Tagged(videoId, published)
      ensures results == old(results)[videoId := published[|published| - 1]]
    {
      var output := Annotate(frames, players, balls, keypoints, env.detectors);
      if output.Err? {
        published := Settle(videoId, original, Run(5, Err(output.error)), w0, before);
        return;
      }
      var outputPath := "results/" + videoId + "_processed.avi";
      var saved, _ := SaveVideo(output.value, outputPath, env.writerOpens);
      if saved.Fail? {
        published := Settle(videoId, original, Run(5, Err(saved.error.message)), w0, before);
        return;
      }
      var data := Statistics(frames, players, balls, keypoints, outputPath);
      var feedback := CoachingFeedback(data, env.client);
      published := Settle(videoId, original, Run(5, Ok(Completion(data, feedback))), w0, before);
    }

    /** The `k`-th progress write of an analysis of the entry that was `original`. */
    method Advance(videoId: string, original: Record, k: nat, ghost w0: seq<Write>, ghost before: seq<Record>)
      returns (ghost published: seq<Record>)
      requires 1 <= k <= |Checkpoints|
      requires before == [original.(status := Analyzing)] + Checkpointed(original.(status := Analyzing), k - 1)
      requires writes == w0 + Tagged(videoId, before)
      modifies this
      ensures published == [original.(status := Analyzing)] + Checkpointed(original.(status := Analyzing), k)
      ensures writes == w0 + Tagged(videoId, published)
      ensures results == old(results)[videoId := published[|published| - 1]]
    {
      var record := original.(status := Analyzing, progress := Checkpoints[k - 1]);
      Publish(videoId, record);
      published := before + [record];
      TaggedSnoc(videoId, before, record);
    }

    /** The final write of an analysis: the `update` of the completed or the error branch. */
    method Settle(videoId: string, original: Record, run: Run, ghost w0: seq<Write>, ghost before: seq<Record>)
      returns (ghost published: seq<Record>)
      requires 1 <= run.reached <= |Checkpoints|
      requires before == [original.(status := Analyzing)] + Checkpointed(original.(status := Analyzing), run.reached)
      requires writes == w0 + Tagged(videoId, before)
      modifies this
      ensures published == AnalysisTrace(original, videoId, run)
      ensures writes == w0 + Tagged(videoId, published)
      ensures results == old(results)[videoId := published[|published| - 1]]
    {
      var last := original.(status := Analyzing, progress := Checkpoints[run.reached - 1]);
      var r: Record;
      match run.outcome {
        case Ok(c) =>
          r := last.(status := Completed, progress := 100, analysis := Some(c.data),
                     coachingFeedback := Some(c.feedback),
                     processedVideoUrl := Some("/results/" + videoId + "_processed.avi"));
        case Err(e) =>
          r := last.(status := Error, error := Some(e));
      }
      Publish(videoId, r);
      published := before + [r];
      TaggedSnoc(videoId, before, r);
    }

    /** `get_video_analysis`: the entry under its id, or a 404. */
    function GetVideoAnalysis(videoId: string): (resp: Response)
      reads this
      ensures resp.code == 200 <==> videoId in results
      ensures videoId in results ==> resp.body == Found(videoId, results[videoId])
      ensures videoId !in results ==> resp == Response(404, Failure("Video not found"))
    {
      if videoId !in results then Response(404, Failure("Video not found"))
      else Response(200, Found(videoId, results[videoId]))
    }
  }

  /** An analysis of a freshly uploaded entry keeps the table valid: every state it publishes is a valid one. */
  lemma AnalysisKeepsValid(start: Record, videoPath: string, videoId: string, env: Environment)
    requires RecordValid(start) && start.status == Uploaded
    ensures var trace := AnalysisTrace(start, videoId, Pipeline(videoPath, videoId, env));
      forall i :: 0 <= i < |trace| ==> RecordValid(trace[i])
  {
    TraceValid(start, videoId, Pipeline(videoPath, videoId, env));
  }
}

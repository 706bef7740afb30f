# TennisTrackerAI in Dafny

TennisTrackerAI is a tennis coaching assistant with two front ends:
- a console coach (`main.py`) answers questions with help from a keyword-matched knowledge base;
- a web app (`app.py`) does the same, recommends videos, and analyses uploaded match videos with object detectors.

This project models the deterministic core of both front ends and of the video helpers in `utils/video_utils.py`. It proves properties of that model:

- **Knowledge lookup** (`KnowledgeBase`, `CoachChat`, `Recommendations`):
  - the category loop of the console coach and the search-term loops of both front ends;
  - the web app's choice of recommended videos and of one extracted resource;
  - the two list cuts;
  - the numbered recommendation list.
- **Conversation history** (`CoachChat.CoachSession`): a class whose `conversationHistory` field grows by one user message and, when the reply arrives, one assistant message per turn.
- **Validators** (`Validators`):
  - the upload extension filter;
  - the YouTube id extractor, with its regular expression written out as a leftmost search over start positions and the four alternatives tried in order.
- **Video I/O** (`VideoUtils`):
  - the read loop over a capture device (class `Capture`);
  - the write loop over a video writer (class `VideoWriter`).

  A frame is only its `(height, width)` shape.
- **Analysis jobs** (`Analysis`, `VideoJobs`):
  - the per-video record table (class `JobStore`, its `results` map is the module-level dictionary);
  - the upload route that creates an entry and the polling route that reads it;
  - the analysis, which publishes `analyzing`, the checkpoints 20/40/50/70/85, and then either `completed` (progress 100 and the results) or `error` (the exception text);
  - the statistics and the coaching feedback.

  The analysis is modelled as the sequence of record states a poll can observe.

Each of the following is a parameter:
- the object detectors: functions that return a value or the text of the exception they raise;
- the language-model clients: the same shape;
- the capture device's reads;
- whether the video writer opens;
- the upload's UUID and the file-name sanitiser;
- the result of saving the upload.

`json.dumps` of a knowledge-base document is carried as a string field of the document (`Doc.dump`).

String handling follows Python:
- `in` is a substring test (`Text.Contains`);
- `strip` and `split` use exactly the characters for which `str.isspace` holds;
- `join` and list slices are written out.

## Model

| member | source | states |
|---|---|---|
| Text.LowerIdempotent | main.py:35 | Lower-casing an already lower-cased query changes nothing. |
| Text.TrimLeftSpec | app.py:57 | Trimming on the left keeps a suffix and drops only whitespace. |
| Text.TrimRightSpec | app.py:57 | Trimming on the right keeps a prefix and drops only whitespace. |
| Text.StripSpec | app.py:57 | A stripped string neither starts nor ends with whitespace, and it occurs inside the original. |
| Text.ContainsHasOccurrence | main.py:40 | When `sub in s` holds, `sub` occurs at some index of `s`. |
| Text.OccurrenceIsContained | main.py:40 | An occurrence at any index makes `sub in s` hold (the converse direction). |
| Text.ContainsInConcat | app.py:155-160 | A substring of either part is a substring of the concatenation. |
| Text.Words | app.py:160 | `split()` yields non-empty words free of whitespace. |
| Text.WordsIsScan | app.py:160 | `split()` equals a one-pass scan in which a non-whitespace character extends the current word and whitespace or the end closes it, so the words are the maximal whitespace-free runs, in order. |
| Text.SplitScanWords | app.py:160 | A scan resumed with some words done and a partial word ends with those words followed by the words of the partial word and the rest. |
| Text.WordsAfterWord | app.py:160 | A whitespace-free run followed by whitespace or the end is the first word. |
| Text.WordsCoverText | app.py:160 | The words, concatenated, are exactly the non-whitespace characters of the text in order: none is lost and nothing else is kept. |
| Text.Take | main.py:66 | `xs[:n]` has at most n elements, is a prefix of `xs`, and is all of `xs` when it is short enough. |
| Text.NatToStringDigits | app.py:58 | `str(n)` is a non-empty string of decimal digits with no leading zero. |
| Text.DecimalRoundTrip | app.py:58 | `str(n)` reads back as `n`, so distinct numbers print differently. |
| KnowledgeBase.Get | main.py:61-63 | A category lookup succeeds exactly when the category is a key; the document returned is that key's. |
| KnowledgeBase.Render | main.py:41-42 | Every section adds exactly two list entries, the header and the dumped document. |
| KnowledgeBase.FirstPresent | main.py:60-64 | Picks the first listed category that is a key and is not excluded; there is none only when no listed category qualifies. |
| KnowledgeBase.TermSection | main.py:59-64 | One search term adds at most one section. |
| KnowledgeBase.RenderAppend | main.py:39-64 | Rendering two runs of sections one after the other gives the concatenation of the two renderings. |
| KnowledgeBase.TermLoopBody | main.py:60-64 | The inner loop with its `break` appends exactly the section of the first qualifying category. |
| KnowledgeBase.SearchTermLoop | main.py:58-64 | The search-term loop produces exactly the rendering of the term sections, in table order. |
| KnowledgeBase.TermSections | main.py:58-64 | The search-term loop adds at most one section per term. |
| KnowledgeBase.TermSectionsSpec | main.py:58-64 | Each section comes from a term the query contains, its category is that term's first qualifying category, and its text is that category's document. |
| KnowledgeBase.TermSectionPresent | main.py:59-64 | Conversely, every term the query contains that has a qualifying category contributes that category's section. |
| KnowledgeBase.NoTermSectionsWithoutKb | main.py:61 | An empty knowledge base yields no term sections. |
| CoachChat.RelevantKnowledge | main.py:33-66 | The lookup is the empty string exactly when neither loop found a section. |
| CoachChat.CategoryLoop | main.py:39-42 | The category loop renders exactly the categories the lower-cased query mentions, in knowledge-base order. |
| CoachChat.CategorySectionsMembership | main.py:39-42 | A category is included if and only if the query contains its name or one of "help", "how", "what", "technique". |
| CoachChat.GeneralWordIncludesAll | main.py:40 | A query containing one of the four general words includes every category, in order. |
| CoachChat.GetRelevantKnowledge | main.py:33-66 | The console lookup equals the specification: both loops' sections rendered, the first 2000 list entries, joined by newlines. |
| CoachChat.EmptyKnowledgeBase | main.py:66 | An empty knowledge base yields the empty string. |
| CoachChat.QueryCaseIgnored | main.py:35 | The lookup gives the same text for a query and its lower-cased form. |
| CoachChat.StrokesFoundTwice | main.py:39-64 | A query naming "strokes" and "forehand" includes the strokes section twice: the two loops do not de-duplicate. |
| CoachChat.TurnRequest | main.py:97-107 | A turn sends the history followed by the user's message, plus one message exactly when the lookup is non-empty; that message is the system message carrying the lookup's text. |
| CoachChat.CoachSession.constructor | main.py:71-90 | The history starts as the one system prompt. |
| CoachChat.CoachSession.StorePrompt | main.py:94-107 | The user's message is appended to the history, and the messages sent are that history plus, when the lookup found anything, the knowledge message. |
| CoachChat.CoachSession.StoreReply | main.py:114-117 | A reply is stripped, stored as the assistant's message and returned; a failed call stores nothing. |
| CoachChat.CoachSession.ChatWithTennisCoach | main.py:92-117 | The user's message is stored before the call. A reply is stripped, returned and stored after it. The knowledge message is sent but never stored. A raised call leaves the user's message in the history without a reply. |
| Recommendations.VideoMatches | app.py:136-143 | A video matches a term exactly when the term is in its lower-cased title or category, or the term is "volley" and the category mentions "net"; the other special cases of the test add nothing. |
| Recommendations.MatchingVideosMembership | app.py:135-144 | A video is collected for a term if and only if it is in the list and matches the term. |
| Recommendations.MatchVideosLoop | app.py:135-144 | The inner video loop collects exactly the matching videos, in list order. |
| Recommendations.VideoScanEmpty | app.py:133-148 | The video list is empty if and only if no eligible term matches any video. |
| Recommendations.VideoScanSpec | app.py:133-148 | A non-empty video list is the matches of one eligible term, and every earlier eligible term matched nothing. |
| Recommendations.VideoScanLoop | app.py:133-148 | The term loop with its `break` yields exactly the scan specification. |
| Recommendations.FirstResource | app.py:152-160 | The chosen resource has an extract and shares a query word with its content; every earlier resource fails one of the two. |
| Recommendations.ResourceLines | app.py:150-163 | Resources add at most one block (two list entries). |
| Recommendations.ResourceLoop | app.py:150-163 | The resource loop yields the block of the first matching resource, or a `KeyError` for "Title" when that resource has no title. |
| Recommendations.AppKnowledge | app.py:165 | At most three videos are returned. |
| Recommendations.GetRelevantKnowledge | app.py:82-165 | The web lookup equals its specification: the term loop that skips `resources`/`videos`, the video scan, the resource loop, then the two cuts. |
| Recommendations.KnowledgeSkipsRouted | app.py:119-125 | The term loop adds at most one section per term, never a `resources` or `videos` one, and only existing categories. |
| Recommendations.KnowledgeCutIsNoOp | app.py:165 | The knowledge list never holds more than 56 entries, so the 3000-entry cut never removes anything. |
| Recommendations.FirstMissingKey | app.py:56-58 | Formatting raises exactly when some video lacks a title or a url. |
| Recommendations.RecommendationLineShape | app.py:58 | A line starts with its number followed by ". " and contains its link in parentheses. |
| Recommendations.RecommendationLinesLength | app.py:56-59 | There is one line per video. |
| Recommendations.RecommendationLinesNumbered | app.py:56-59 | Line k is the line for video k, numbered k + 1. |
| Recommendations.FirstMissingKeyAt | app.py:56-58 | When every earlier video has both keys, the first video lacking one raises `KeyError` for `title` if that is missing, else for `url`. |
| Recommendations.FormatVideoRecommendations | app.py:50-60 | The formatting loop raises for the first video lacking a title (read first) or a url; otherwise it joins the numbered lines with blank lines. |
| Validators.AllowedFile | app.py:403-404 | An accepted name ends in '.' followed by a three-letter extension that, lower-cased, is one of mp4, avi, mov, mkv. |
| Validators.LastDot | app.py:404 | Finds the index of the last '.', and finds none exactly when the name has no '.'. |
| Validators.AllowedFileNeedsDot | app.py:404 | A name without '.' is refused. |
| Validators.AllowedFileByExtension | app.py:401-404 | Take any name stem + "." + ext where ext has no '.'. It is accepted if and only if ext, lower-cased, is mp4, avi, mov or mkv, whatever the stem. |
| Validators.AllowedFileLastExtension | app.py:404 | "clip.mp4.exe" is refused: only the last extension counts. |
| Validators.AllowedFileIgnoresCase | app.py:404 | "Match.MP4" is accepted: the extension is compared lower-cased. |
| Validators.IdRun | app.py:44 | The greedy id run is the longest prefix of `[A-Za-z0-9_-]` characters. |
| Validators.MatchPrefixes | app.py:44 | A match at a position captures at least six id characters that follow one of the alternatives. |
| Validators.MatchPrefixesAt | app.py:44 | The alternatives are tried in order; the first one that fits and is followed by six id characters wins. |
| Validators.SearchFrom | app.py:47-48 | The search returns the capture of the leftmost matching position, and nothing exactly when no position matches. |
| Validators.YtId | app.py:44-48 | There is no id exactly when the pattern matches at no position of the url; an extracted id has at least six characters, all from `[A-Za-z0-9_-]`. |
| Validators.YtIdFollowsPrefix | app.py:44-48 | An extracted id occurs in the url right after one of the four prefixes. |
| Validators.IdRunOfId | app.py:44 | An id followed by the end of the url or by a non-id character is exactly one run. |
| Validators.EarlierPrefixesFail | app.py:44 | No alternative of the pattern tried before a given one matches where that one does, so the order of the alternatives never changes the capture. |
| Validators.MatchAtStart | app.py:44 | The pattern, tried at the start of a prefix followed by an id, captures exactly the id. |
| Validators.YtIdRoundTrip | app.py:44-48 | A prefix followed by an id of six or more id characters and then the end or a non-id character yields that id. |
| VideoUtils.FramesUntilFailure | utils/video_utils.py:9-14 | The read loop keeps the successful reads, in order, up to the first failed read or the end. |
| VideoUtils.FramesUntilFailureUnique | utils/video_utils.py:9-14 | Any prefix of successful reads that ends at a failure or at the end is exactly what the loop returns. |
| VideoUtils.ReadVideoResult | utils/video_utils.py:18-21 | A successful read returns at least one frame. |
| VideoUtils.ReadVideoEmpty | utils/video_utils.py:18-19 | `ValueError` is raised if and only if the capture opens and its first read fails. |
| VideoUtils.Capture.Read | utils/video_utils.py:11 | A read returns the next frame and advances, or fails at a failed read or past the end. |
| VideoUtils.ReadVideo | utils/video_utils.py:3-21 | `read_video` over the capture equals its specification: `FileNotFoundError` when closed, the frames up to the first failure, `ValueError` when there are none. |
| VideoUtils.FirstMismatch | utils/video_utils.py:38-40 | Finds the first frame whose shape differs from `(h, w)`; there is none exactly when all frames have that shape. |
| VideoUtils.SaveVideoOutcome | utils/video_utils.py:23-43 | An empty input raises `ValueError`; `IOError` is raised exactly when there are frames and the writer does not open. |
| VideoUtils.FramesWritten | utils/video_utils.py:38-43 | The writer receives a prefix of the input, every frame of it with the first frame's resolution. |
| VideoUtils.SaveVideoSucceeds | utils/video_utils.py:23-43 | Saving succeeds if and only if there are frames, the writer opens, and every frame has the first frame's resolution. |
| VideoUtils.FramesWrittenPrefix | utils/video_utils.py:38-43 | On success the writer receives the whole input. On a resolution error it is at least the first frame, and it stops just before the first mismatching frame. |
| VideoUtils.VideoWriter.constructor | utils/video_utils.py:33 | The writer holds its path, codec, fps and size, and starts empty and unreleased. |
| VideoUtils.VideoWriter.Write | utils/video_utils.py:41 | A write appends the frame. |
| VideoUtils.SaveVideo | utils/video_utils.py:23-43 | The outcome equals its specification. No writer is created for an empty input. The writer is MJPG at 24 fps at the first frame's size, holds exactly the frames written, and is released only on success. |
| Analysis.EmptyFramesCountNothing | app.py:459 | Skipping frames without ball detections does not change the ball count. |
| Analysis.TotalDetectionsAppend | app.py:458-459 | Detection counts add up over consecutive stretches of frames. |
| Analysis.Statistics | app.py:458-467 | `total_frames` is the frame count and the output path is recorded. `ball_detections` equals the count over all frames. `court_keypoints` is the number of (x, y) pairs. |
| Analysis.StatLinesReportStatistics | app.py:503-506 | The statistic lines show each of the four numbers after its caption. |
| Analysis.FallbackReportsStatistics | app.py:498-509 | The report given without a client shows the four statistics. |
| Analysis.PromptReportsStatistics | app.py:510-544 | The request sent to the client asks `gpt-3.5-turbo` with an 800-token cap, and its prompt shows the four statistics. |
| Analysis.CoachingFeedback | app.py:494-548 | The feedback is always a string, never an exception. Without a client it is a report showing the statistics. With a client it is the stripped reply, or "Error generating coaching feedback: " followed by the exception text. |
| Analysis.Pipeline | app.py:412-481 | A run reaches between one and five checkpoints. A successful run reaches all five, has read at least one frame, and records the output path `results/<id>_processed.avi`. |
| Analysis.FromFrames | app.py:418-432 | After the read, a run reaches at least the 40% checkpoint; a successful one counts the frames read. |
| Analysis.FromDetections | app.py:434-442 | After detection, a run reaches at least the 70% checkpoint. |
| Analysis.FromCourt | app.py:444-481 | The last stages reach the 85% checkpoint. Their success carries the statistics of the filtered players and interpolated balls, and the feedback on them. |
| Analysis.UnreadableVideoStopsFirst | app.py:412-418 | An unreadable video stops the run at its first checkpoint (20%, one checkpoint reached) with the read error's message. |
| Analysis.Checkpointed | app.py:413-444 | There is one state per checkpoint reached. |
| Analysis.CheckpointedAt | app.py:413-444 | The k-th checkpoint state carries the k-th progress value. |
| Analysis.Settled | app.py:475-492 | The final write sets `completed` on success and `error` with the exception text, at the same progress, on failure. The upload fields are kept, and from a valid `analyzing` record below 100 the result is valid. |
| Analysis.AnalysisTrace | app.py:412-492 | A run publishes the status write, one write per checkpoint reached, and one final write. |
| Analysis.TraceAt | app.py:412-492 | Gives each published state by position. |
| Analysis.TraceProgressMonotone | app.py:412-481 | Starting from an uploaded record, the progress a poll sees never decreases. |
| Analysis.TraceOutcome | app.py:475-492 | Before the final write the record is `analyzing`, with the result keys untouched. The final write is `completed` if and only if the run succeeded, if and only if progress is 100. Only then are the analysis, feedback and url set. On failure the status is `error` with the exception text at the last checkpoint reached. The upload fields never change. |
| Analysis.TraceValid | app.py:406-492 | Starting from a valid `uploaded` record, every published state satisfies the record invariant: progress 100 exactly when `completed`, the result keys exactly when `completed`, an error message exactly on `error`. |
| VideoJobs.CheckUpload | app.py:554-562 | An upload passes validation exactly when it has a file with a non-empty name of an allowed type. |
| VideoJobs.InitialRecord | app.py:577-582 | A new entry is `uploaded` with progress 0, the stored file name and its path under `uploads/`. |
| VideoJobs.JobStore.constructor | app.py:398 | The table starts empty, with no writes made. |
| VideoJobs.JobStore.UploadVideo | app.py:550-601 | Each of the three validation failures answers 400 with its message and leaves the table unchanged, as does a raised save, which answers 500. Otherwise the route adds an `uploaded` entry under the new id, as one logged write, and answers 200 "processing". The table invariant is kept. |
| VideoJobs.JobStore.Publish | app.py:412-413 | One write replaces one entry and is appended to the log of writes. |
| VideoJobs.JobStore.AnalyzeTennisVideo | app.py:406-492 | Given an `uploaded` entry, the log of writes grows by exactly the trace of the pipeline's run, each write under the video's id. The last of them stays in the table, other entries are untouched, and the table invariant is kept. |
| VideoJobs.JobStore.RunAnalysis | app.py:406-418 | The log of writes grows by exactly the trace of the pipeline's run under the video's id, the last of them left in the table. |
| VideoJobs.JobStore.AnalyzeFrames | app.py:418-433 | From the 40% checkpoint on, the logged writes continue the trace with the run after the read. |
| VideoJobs.JobStore.AnalyzeDetections | app.py:434-444 | From the 70% checkpoint on, the logged writes continue the trace with the run after detection. |
| VideoJobs.JobStore.FinishAnalysis | app.py:446-481 | From the 85% checkpoint on, the logged writes complete the trace with the last stages. |
| VideoJobs.JobStore.Advance | app.py:413-444 | A checkpoint makes exactly one logged write, the record at the next progress value. |
| VideoJobs.JobStore.Settle | app.py:475-492 | The final write is exactly one logged write, the completed or the error update. |
| VideoJobs.JobStore.GetVideoAnalysis | app.py:603-614 | A known id answers 200 with the stored record unchanged; an unknown id answers 404 "Video not found". |
| VideoJobs.AnalysisKeepsValid | app.py:406-492 | An analysis of a valid `uploaded` entry publishes only valid states. |

## Left out

- Python's `str.lower`/`str.upper` map every Unicode letter; `Text.Lower`/`Text.Upper` map ASCII letters only.
- The background thread that runs the analysis, and any interleaving of analyses or polls. The model runs one analysis to the end; what a concurrent poll can see is one of the states in the store's log of writes.
- Flask routing, sessions, CORS and `send_from_directory`; the routes are methods that return the status code and JSON body.
- `secure_filename` is a parameter. `os.path.join("uploads", name)` is modelled as `"uploads/" + name`, which is what it gives for the sanitiser's relative names.
- `uuid.uuid4` is a parameter; its freshness is the caller's concern. An upload under an id already in the table overwrites it, as the dictionary assignment does.
- Directory creation and `file.save` are not modelled beyond the possibility that they raise (the upload's `saveError`). In `save_video`, `Path.expanduser` and the output directory's creation are not modelled, and the path is used as given.
- Pixel content, codecs and the detectors' internals (player and ball tracking, ball interpolation, court keypoints, drawing). They are functions of the `Detectors` parameter that return a value or the text of the exception they raise.
- The OpenAI calls in both front ends: the reply, or the exception text, is a function of the request. `main.py`'s request parameters other than the messages (the model name) are not modelled.
- `json.dumps` of a document is an opaque string (`Doc.dump`), and `load_knowledge_base` (file reading) is not part of this model. A knowledge base is a list of (category, document) pairs in the dictionary's insertion order.
- `Kb`: the list type does not require distinct categories, so the lemmas over knowledge bases also cover lists with a repeated key, which a dictionary cannot produce; `KnowledgeBase.Get` returns the first pair with the key.
- A `KeyError` from a missing `title` or `url` in `format_video_recommendations`, or from a missing `Title` in `get_relevant_knowledge`, is modelled. A key present with a non-string value is not, because the model's fields are strings.
- `extract_web_content`, `enhance_knowledge_base_with_web_content`, the `/chat`, `/reset` and `/enhance-knowledge-base` routes, `modelrunner.py`, `yolo_testing.py` and the React UI are not part of this model.

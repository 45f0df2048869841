# Tennis stroke analysis service — a Dafny model of its decision rules

The service takes an uploaded tennis video through these steps:

1. It checks the upload.
2. It gathers optional facts about the student from the form.
3. It samples frames from the video with ffmpeg.
4. It sends the frames to a remote vision model, together with a coaching prompt.
5. It answers with a JSON envelope and an HTTP status.

Around those I/O calls, the code makes a small set of deterministic decisions. This project models them in Dafny and proves what they guarantee:

- which file names are accepted, and the order of the 400 rejections;
- how the `student_info` record is built from the form;
- how the per-request prompt is assembled, including the stroke-type lookup, the display label and the student profile block;
- how the probed duration becomes a sampling request, and when frame extraction fails;
- how the model's message interleaves frames and `[Frame k]` labels;
- how every outcome maps to a success or failure envelope, and how the endpoint maps that envelope to a status;
- that the saved upload is removed on every path;
- the integer token estimate.

The external world is passed in as a value, `AnalysisPipeline.Externals`. It holds:

- the outcome of the duration probe;
- the media tool, as a function from the request (input path, interval, frame count) to an exit code, its stderr and the files it left;
- the remote model, as a function from the message blocks to a reply text or a raised exception.

Whether the saved file exists is a boolean. Each exception carries the category of the `except` clause that catches it.

Files:

- `wrappers.dfy`: `Option` and `Result`.
- `strings.dfy`: ASCII-level models of the Python string built-ins the code uses (`strip`, slicing, `lower`, `title`, one-character `replace`, `int()`, `str(int)`, `rsplit('.', 1)`).
- `values.dfy`: dict values, truthiness and f-string rendering.
- `coaching_prompt.dfy`: the fragment table and `build_user_prompt`.
- `analysis_pipeline.dfy`: `extract_frames`, the content loop, the envelope and the token estimate.
- `app.dfy`: `allowed_file` and the `/api/analyze` endpoint. The endpoint is an imperative method over the upload folder, which is modelled as a class holding the set of file names.

The two list-building loops are methods proved against specification functions:

- the frame loop of `extract_frames` (`LoadFrames` against `Payloads`), called by `ExtractFrames`, which is proved against `ExtractFramesResult`;
- the content loop (`BuildContent` against `Content`).

The guarded assignments that build `student_info` are a method proved against the predicate `CollectedFrom`.

## Model

| member | source | states |
|---|---|---|
| App.AllowedFile | app.py:45-47 | Definition of `allowed_file`: a '.' in the name and the lower-cased text after the last one in the allow-list; its meaning is stated by the lemmas below |
| App.AllowedFileByExtension | app.py:38-47 | A name is accepted exactly when the text after its last '.', lower-cased, is one of the six allowed extensions, whatever comes before it |
| App.DoubleExtensionRefused | app.py:46-47 | "clip.mp4.txt" is refused: only the last extension counts |
| App.UpperCaseExtensionAccepted | app.py:46-47 | "CLIP.MOV" is accepted: the extension is compared lower-cased |
| App.BareExtensionAccepted | app.py:46-47 | ".mp4" is accepted |
| App.NoDotRefused | app.py:46 | "mp4", which has no dot, is refused |
| App.Rejection | app.py:76-88 | The upload is rejected in a fixed order: no `video` part, then an empty file name, then a disallowed extension, each with its own message. It passes exactly when a `video` part with an allowed name is present |
| App.FieldGiven | app.py:92-101 | Definition of `request.form.get(key)` being truthy: the key is present and its value is a truthy string (`Values.Truthy`) |
| App.CollectedFrom | app.py:91-102 | Definition of the record the form yields, key by key: which keys are present and what each holds; `CollectStudentInfo` is proved to build it |
| App.CollectStudentInfo | app.py:91-102 | The record built field by field is the one `CollectedFrom` describes. Name and concerns are included when non-empty, stored stripped and cut to 50 and 500 characters. Level is stored verbatim. Age is included exactly when it parses as an integer |
| App.CollectedFromUnique | app.py:91-102 | The form determines the record uniquely |
| App.CollectedEdgeCases | app.py:92-98 | A whitespace-only name is stored as ""; an age that does not parse is dropped; the stored name and concerns are at most 50 and 500 characters long |
| App.InfoArgument | app.py:117 | The pipeline receives None exactly when no field was collected, and the record itself otherwise |
| App.StrokeTypeFrom | app.py:104 | The stroke type is the form value when the field is present (even empty), and "general" only when it is absent |
| App.StudentNameFromForm | app.py:92-93 | The envelope's student_name is the stripped, truncated form name when one was given, and "Student" otherwise |
| App.StatusFor | app.py:121-124 | The status is 200 exactly when `result['success']` is truthy, and 500 otherwise |
| App.ErrorBody | app.py:77-88 | The body of an error answer has exactly success false and the message |
| App.UploadFolder.Save | app.py:111 | Saving adds the file to the folder |
| App.UploadFolder.Unlink | app.py:137-138 | Unlinking removes exactly that file |
| App.RunPipeline | app.py:114-124 | The body is the pipeline's envelope; the status is 200 exactly when the envelope's success is true, and 500 otherwise |
| App.SaveAndAnalyze | app.py:110-138 | Writing, running and cleaning up: the folder ends as before minus the saved file; a write exception answers 500 with "Server error: " and its text; otherwise the body is the pipeline's envelope; the status is 200 exactly when there was no write exception and the envelope succeeded, and 500 exactly otherwise |
| App.Analyze | app.py:76-138 | The status is 400 exactly when the upload is rejected; rejections answer with their message and leave the folder untouched. Otherwise, on every path, the folder ends as before minus the saved file. A save exception answers 500 with "Server error: " and its text. Without one, the body is the pipeline's envelope for the saved path, the collected record (None when empty) and the stroke type. The status is 200 exactly when the upload passed, was saved and the envelope succeeded, and 500 exactly when the upload passed but writing raised or the envelope failed |
| CoachingPrompt.StrokeAddition | coaching_prompt.py:125-197 | A stroke type among the six keys gets its own fragment; any other gets the "general" fragment |
| CoachingPrompt.StrokeTypeLabel | coaching_prompt.py:202 | Definition of the display label, `stroke_type.replace('_', ' ').title()`; the lemmas below state its effect |
| CoachingPrompt.StrokeTypeLabelAt | coaching_prompt.py:202 | In the label, each '_' becomes a space. A letter is upper-cased at the start of a word and lower-cased inside one. The length is kept |
| CoachingPrompt.LabelOfWord | coaching_prompt.py:202 | A lower-case word is labelled with its first letter capitalised |
| CoachingPrompt.LabelOfJoin | coaching_prompt.py:202 | Joining two names with '_' joins their labels with a space |
| CoachingPrompt.LabelsOfWords | coaching_prompt.py:202 | "backhand", "one" and "handed" are labelled "Backhand", "One" and "Handed" |
| CoachingPrompt.LabelOfBackhandOne | coaching_prompt.py:202 | "backhand_one" is labelled "Backhand One" |
| CoachingPrompt.LabelOfOneHandedBackhand | coaching_prompt.py:202 | "backhand_one_handed" is labelled "Backhand One Handed" |
| CoachingPrompt.LabelOfGeneral | coaching_prompt.py:202 | "general" is labelled "General" |
| CoachingPrompt.OptionalLine | coaching_prompt.py:192-193 | The age or notes line is empty exactly when the value is falsy (0, "", None), and is caption plus value otherwise |
| CoachingPrompt.StudentContext | coaching_prompt.py:181-195 | Definition of the profile block, empty for None or an empty record; `ProfileLines` states it for every other record |
| CoachingPrompt.ProfileLines | coaching_prompt.py:181-195 | For every non-empty record: name and level as stored, or "the student" and "intermediate" when the key is absent, then the age line and the notes line |
| CoachingPrompt.ProfileDefaults | coaching_prompt.py:183-184 | A non-empty record without name and level shows "the student" and "intermediate", whatever other keys it holds |
| CoachingPrompt.ProfileUsesPresentKeys | coaching_prompt.py:183-184 | A name and a level that are both present are shown as given, even when empty, whatever other keys the record holds; `ProfileLines` covers a record with only one of them |
| CoachingPrompt.ProfileAgeOnly | coaching_prompt.py:181-195 | A record holding only a non-zero age shows both defaults, the age in decimal and an empty notes line |
| CoachingPrompt.ProfileFull | coaching_prompt.py:181-195 | A record with all four fields set shows each on its own line, with age in decimal |
| CoachingPrompt.Opening | coaching_prompt.py:199 | Definition of "I'm sending you {n} frames", with n in decimal |
| CoachingPrompt.FocusSection | coaching_prompt.py:202-206 | Definition of the blank line, the focus fragment looked up by `StrokeAddition` and the blank line after the label |
| CoachingPrompt.BuildUserPrompt | coaching_prompt.py:168-206 | Definition of the prompt: profile, frame count, label, focus fragment, closing; its properties are stated by the lemmas around it |
| CoachingPrompt.PromptFrame | coaching_prompt.py:199-206 | Right after the profile, the prompt says "I'm sending you {n} frames" with n in decimal, and it always ends with the closing instruction |
| CoachingPrompt.PromptWithoutProfile | coaching_prompt.py:181-199 | With no record or an empty one, the prompt starts with "I'm sending you {n} frames" |
| CoachingPrompt.UnknownStrokeType | coaching_prompt.py:197-202 | An unknown stroke type gets the general fragment. Its prompt equals the "general" prompt exactly when its label reads "General" |
| CoachingPrompt.BackhandIsNotGeneral | coaching_prompt.py:197-202 | The prompt for the unknown "backhand" differs from the "general" prompt |
| AnalysisPipeline.EffectiveDuration | analysis_pipeline.py:59-62 | The analysed duration is the smaller of the probed duration and 120 |
| AnalysisPipeline.FrameRequestFor | analysis_pipeline.py:64-89 | The tool is asked for the input path and the frame count, at an interval that times the count gives the analysed duration |
| AnalysisPipeline.SamplingPlan | analysis_pipeline.py:59-65 | The analysed duration is the probed one capped at 120 s. The interval times the frame count equals it, so it is at most 120 |
| AnalysisPipeline.IsFrameFileName | analysis_pipeline.py:95 | Definition of a name matching the glob `frame_*.jpg`: the prefix `frame_`, the suffix `.jpg`, and at least ten characters so the two do not overlap |
| AnalysisPipeline.FrameFilesIn | analysis_pipeline.py:95 | The matching files are exactly the listed files named `frame_*.jpg`, each as often as it is listed, and nothing else |
| AnalysisPipeline.NameLeq | analysis_pipeline.py:95 | Definition of Python's `<=` on names: code-point lexicographic order, a prefix first |
| AnalysisPipeline.SortedByName | analysis_pipeline.py:95 | Definition of a sequence of files in ascending name order |
| AnalysisPipeline.NameLeqTotal | analysis_pipeline.py:95 | Any two file names are ordered one way or the other |
| AnalysisPipeline.InsertByName | analysis_pipeline.py:95 | Inserting a file into a sorted sequence keeps it sorted, adds exactly that file, and puts it or the old first file at the front |
| AnalysisPipeline.SortByName | analysis_pipeline.py:95 | Sorting yields the same files (as a multiset) in ascending name order |
| AnalysisPipeline.Payloads | analysis_pipeline.py:100-103 | The encoded contents of the files, one per file, in the same order |
| AnalysisPipeline.ExtractFramesResult | analysis_pipeline.py:44-106 | Definition of what `extract_frames` returns or raises; a success implies the file exists, the probe answered, the frame count is non-zero and at least one frame was read |
| AnalysisPipeline.LoadFrames | analysis_pipeline.py:100-103 | The appending loop yields the files' encoded contents, one per file, in order |
| AnalysisPipeline.ExtractFrames | analysis_pipeline.py:44-106 | The method, with its checks and its appending loop, returns what `ExtractFramesResult` defines, and a success is never empty |
| AnalysisPipeline.ExtractFramesOutcome | analysis_pipeline.py:54-98 | A missing file fails as not-found before anything is probed or run; a probe exception propagates; a zero frame count fails with a division error; a tool exception propagates; a non-zero exit is "FFmpeg failed: " with stderr; no frame files is "No frames were extracted…". Otherwise there is one frame per frame file |
| AnalysisPipeline.ExtractedFramesInNameOrder | analysis_pipeline.py:95-103 | On success, the frames are the contents of the `frame_*.jpg` files, each exactly once, in ascending name order |
| AnalysisPipeline.ImageBlock | analysis_pipeline.py:154-161 | Definition of the image block: base64 source, `image/jpeg` media type, the frame's data |
| AnalysisPipeline.FrameLabel | analysis_pipeline.py:163-166 | Definition of the text block "[Frame k]" with k in decimal |
| AnalysisPipeline.FrameBlocks | analysis_pipeline.py:153-166 | Definition of the blocks the loop appends for the frames: an image and its label per frame, in order; `FrameBlocksAt` states it position by position |
| AnalysisPipeline.FrameBlocksLength | analysis_pipeline.py:153-166 | n frames give 2n blocks |
| AnalysisPipeline.FrameBlocksAt | analysis_pipeline.py:153-166 | For n frames there are 2n frame blocks. Block 2i is the image of frame i unchanged; block 2i+1 is "[Frame i+1]" |
| AnalysisPipeline.Content | analysis_pipeline.py:150-177 | Definition of the whole user message: the frame blocks, then the user prompt as a text block; `ContentLayout` states its shape |
| AnalysisPipeline.ContentLayout | analysis_pipeline.py:150-177 | For n frames the message has 2n+1 blocks, interleaved as above, and ends with the user prompt for n frames |
| AnalysisPipeline.BuildContent | analysis_pipeline.py:150-177 | The loop builds exactly that message |
| AnalysisPipeline.RemoteAnalysis | analysis_pipeline.py:127-193 | Definition of what `analyze_frames_with_claude` returns or raises: the reply text to the message `Content` builds, or the exception the call raised |
| AnalysisPipeline.AnalyzeFrames | analysis_pipeline.py:127-193 | The result is the model's reply to that message, or the exception it raised |
| AnalysisPipeline.StudentName | analysis_pipeline.py:256 | student_name is the record's name when the record is non-empty and has one, and "Student" otherwise |
| AnalysisPipeline.SuccessEnvelope | analysis_pipeline.py:251-258 | The success envelope has exactly six keys: success true, error None, the analysis, the number of frames, the stroke type echoed unchanged, and the student name |
| AnalysisPipeline.FailureEnvelope | analysis_pipeline.py:260-267 | A failure envelope has only success false, analysis None and the prefixed error text |
| AnalysisPipeline.ErrorPrefix | analysis_pipeline.py:260-267 | Each prefix ends in ": " and starts with a letter that identifies its category: V for not-found, P for processing, C for the model's API, U for anything else |
| AnalysisPipeline.ErrorText | analysis_pipeline.py:260-267 | Definition of the envelope's error, `f"{prefix}{e}"`: the category's prefix followed by `str(e)`; `ErrorTextInjective` states what it determines |
| AnalysisPipeline.ErrorTextInjective | analysis_pipeline.py:260-267 | The four prefixes are distinct, so the error text determines both the category and the message |
| AnalysisPipeline.AnalyzeTennisVideo | analysis_pipeline.py:200-267 | Every envelope has success, error and analysis, and its success is the boolean true or false |
| AnalysisPipeline.AnalyzeOutcome | analysis_pipeline.py:239-267 | The envelope succeeds exactly when frames were extracted and the model answered. It then reports them as above; otherwise it is a failure envelope for the exception that occurred first |
| AnalysisPipeline.MissingVideo | analysis_pipeline.py:239-261 | A missing upload yields "Video file not found: Video not found: {path}", whatever the tools would do |
| AnalysisPipeline.EstimateTokens | analysis_pipeline.py:274-286 | Definition of the token estimate: 1600 per frame plus 800 in, 500 out; its properties are stated by the two lemmas below |
| AnalysisPipeline.TokensPerFrame | analysis_pipeline.py:283-286 | Each frame adds 1600 input tokens on top of the 800 for the system prompt; the output estimate stays the same; the frame count can be read back from the input estimate |
| AnalysisPipeline.DefaultEstimate | analysis_pipeline.py:283-298 | For the default 10 frames, the estimate is 16800 input and 500 output tokens |
| Strings.IsSpace | app.py:93-102 | Definition of the whitespace `strip()` removes: ASCII 9-13 and 28-32, as `str.isspace` judges them |
| Strings.Strip | app.py:93-102 | Definition of `strip()`: whitespace removed from the front, then from the back; its properties are stated by the three lemmas below |
| Strings.StripIsInfix | app.py:93-102 | What `strip()` leaves is an infix of the input, with only whitespace before and after it |
| Strings.StripEnds | app.py:93-102 | The stripped text has no whitespace at either end |
| Strings.StripEmpty | app.py:93-102 | The stripped text is empty exactly when the input is whitespace alone |
| Strings.StripOfTrimmed | app.py:93-102 | Text with no whitespace at either end is its own strip |
| Strings.Truncate | app.py:93-102 | `s[:n]` is a prefix of at most n characters: the whole string when it is shorter, and exactly n characters otherwise |
| Strings.NatDigits | coaching_prompt.py:192 | The decimal digits of a natural number: non-empty, digits only, no leading zero |
| Strings.Decimal | analysis_pipeline.py:165 | Definition of `str(i)` for an int: a minus sign for negatives, then the digits of the magnitude |
| Strings.DigitsValue | app.py:96 | Definition of the value of a string of decimal digits, leading zeros allowed |
| Strings.DigitsValueOfNatDigits | app.py:96 | The digits of a natural number have that number as their value |
| Strings.ParseInt | app.py:94-98 | Definition of `int()` in base 10: optional surrounding whitespace, an optional sign and one to 4300 digits; anything else is a ValueError |
| Strings.ParseDecimal | app.py:96 | `int()` reads back the decimal text of every integer of at most 4300 digits, which is every integer `str()` renders |
| Strings.ParseTooManyDigits | app.py:94-98 | More than 4300 digits, signed or not, are a ValueError whatever their value, so such an age is dropped |
| Strings.ParseBlank | app.py:96 | `int()` refuses the empty string and whitespace alone |
| Strings.IsCased | coaching_prompt.py:202 | Definition of a cased character, restricted to ASCII letters |
| Strings.LowerChar | app.py:47 | Lower-casing keeps whether a character is cased and leaves no upper-case letter |
| Strings.UpperChar | coaching_prompt.py:202 | Upper-casing keeps whether a character is cased and leaves no lower-case letter |
| Strings.Lower | app.py:47 | `s.lower()` keeps the length and lower-cases each character in place |
| Strings.ReplaceChar | coaching_prompt.py:202 | `s.replace(from, to)` for single characters keeps the length, puts `to` exactly where `from` was, and keeps every other character |
| Strings.TitleFrom | coaching_prompt.py:202 | Definition of the left-to-right scan of `title()`, carrying whether the previous input character was cased |
| Strings.TitleLength | coaching_prompt.py:202 | The scan keeps the length |
| Strings.TitleFromAt | coaching_prompt.py:202 | The scan's effect at each position: lower-case after a cased character, upper-case otherwise |
| Strings.Title | coaching_prompt.py:202 | Definition of `title()` as a left-to-right scan; `TitleAt` states its effect at each position |
| Strings.TitleAt | coaching_prompt.py:202 | `title()` upper-cases the first letter of each run of letters, lower-cases the others, and leaves other characters alone |
| Strings.AfterLastDot | app.py:47 | `s.rsplit('.', 1)[1]` for a string with a dot: a proper suffix that follows a '.' and contains none |
| Strings.AfterLastDotOf | app.py:47 | `rsplit('.', 1)[1]` is the text after the last dot |
| Values.Truthy | coaching_prompt.py:182-193 | Definition of `bool(v)`: None, False, 0 and "" are falsy, everything else truthy |
| Values.Format | coaching_prompt.py:188-195 | Definition of `str(v)` inside an f-string: "None", "True"/"False", the decimal text of an int, a string as itself |
| Values.Get | coaching_prompt.py:183-186 | Definition of `d.get(key, default)`: the stored value when the key is present, the default otherwise |

## Left out

- ffmpeg, ffprobe and the temporary directory (analysis_pipeline.py:69-120) are not modelled as processes. The probe outcome and the tool run are inputs. The tool's timeout and a missing binary arrive as the exception the run raises.
- The `fps=1/{interval:.2f}` formatting is left out. The request carries the interval as an exact real.
- Reading and base64-encoding the frame files is left out. A frame file carries its encoded content, and frames are opaque strings.
- The model client, the model name, `max_tokens` and the text of `SYSTEM_PROMPT` are left out. The remote model is a function from the message blocks to a reply.
- The dollar cost, `round` and the margin string of the estimator are left out because they are float arithmetic. Only the integer token counts are modelled.
- Flask routing, CORS, static files, the 413 handler, the health route, the environment and the API key are framework plumbing and are left out.
- `secure_filename` and `uuid4` are parameters of `App.Analyze` (`safeName`, `token`) rather than models.
- An exception from writing the upload is a parameter (`saveError`). The file is taken to exist once the write has started, so `finally` removes it.
- `pathlib` normalisation of the path is left out, both in the saved path and in the not-found message.
- `print` and traceback output are left out.
- The string built-ins are modelled at ASCII level:
  - whitespace for `strip()` is the ASCII set Python treats as space;
  - `lower()` and `title()` act on ASCII letters only;
  - `int()` accepts surrounding whitespace, an optional sign and one to 4300 ASCII digits (the default digit limit is modelled), but not underscores or non-ASCII digits.
- Values.Format: renders every integer, although `str()` raises for one of more than 4300 digits. Records built from the form never hold one, because `Strings.ParseInt` refuses them.
- App.StudentNameFromForm: states the name for records built from the form only, not for arbitrary dicts. `AnalysisPipeline.StudentName` covers those.
- Two behaviours of the code worth noting:
  - An exception from the duration probe, such as bad JSON or a missing key, is not a `RuntimeError`. It is therefore reported as "Unexpected error: ", not as a processing error.
  - An unknown stroke type gets the general fragment, but its prompt is not identical to the "general" prompt, because the label line shows the caller's string (`CoachingPrompt.UnknownStrokeType`).
- `frames_analyzed` is the number of frame files ffmpeg produced, which can differ from the configured ten.

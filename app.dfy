/**
 * The upload endpoint: validate the upload, collect the optional student
 * fields, save the video under a fresh name, run the pipeline, map the
 * outcome to an HTTP status, and always remove the saved file.
 */
module App {
  import opened Wrappers
  import opened Strings
  import opened Values
  import opened AnalysisPipeline

  // ---------------------------------------------------------------------
  // allowed_file
  // ---------------------------------------------------------------------

  const AllowedExtensions: set<string> := {"mp4", "mov", "avi", "mkv", "m4v", "webm"}

  /** `allowed_file(filename)`: there is a '.', and the text after the last
      one, lower-cased, is an allowed extension. */
  predicate AllowedFile(filename: string) {
    '.' in filename && Lower(AfterLastDot(filename)) in AllowedExtensions
  }

  /** Only the last extension counts, whatever comes before it. */
  lemma AllowedFileByExtension(stem: string, extension: string)
    requires '.' !in extension
    ensures AllowedFile(stem + "." + extension) <==> Lower(extension) in AllowedExtensions
  {
    AfterLastDotOf(stem, extension);
  }

  /** Only the last extension counts: a video name with a further suffix is refused. */
  lemma DoubleExtensionRefused()
    ensures !AllowedFile("clip.mp4.txt")
  {
    AllowedFileByExtension("clip.mp4", "txt");
    assert "clip.mp4" + "." + "txt" == "clip.mp4.txt";
    assert Lower("txt") == "txt";
  }

  /** The extension is compared without regard to case. */
  lemma UpperCaseExtensionAccepted()
    ensures AllowedFile("CLIP.MOV")
  {
    AllowedFileByExtension("CLIP", "MOV");
    assert "CLIP" + "." + "MOV" == "CLIP.MOV";
    assert Lower("MOV") == "mov";
  }

  /** An empty stem is accepted. */
  lemma BareExtensionAccepted()
    ensures AllowedFile(".mp4")
  {
    AllowedFileByExtension("", "mp4");
    assert "" + "." + "mp4" == ".mp4";
    assert Lower("mp4") == "mp4";
  }

  /** A name without a dot is refused, even when it spells an extension. */
  lemma NoDotRefused()
    ensures !AllowedFile("mp4")
  {
    assert "mp4"[0] != '.' && "mp4"[1] != '.' && "mp4"[2] != '.';
  }

  // ---------------------------------------------------------------------
  // Validation of the upload
  // ---------------------------------------------------------------------

  /** A file part of the multipart request. */
  datatype Upload = Upload(filename: string)

  const NoVideoMessage: string := "No video file uploaded"
  const NoFileMessage: string := "No file selected"
  const UnsupportedMessage: string := "Unsupported file format. Please upload MP4, MOV, or AVI."

  /** The message of the first 400 rejection that applies, if any: no
      `video` part, then an empty file name, then a disallowed extension. */
  function Rejection(files: map<string, Upload>): (r: Option<string>)
    ensures r == None <==> "video" in files && AllowedFile(files["video"].filename)
    ensures "video" !in files ==> r == Some(NoVideoMessage)
    ensures "video" in files && files["video"].filename == "" ==> r == Some(NoFileMessage)
    ensures "video" in files && files["video"].filename != "" && !AllowedFile(files["video"].filename)
            ==> r == Some(UnsupportedMessage)
  {
    if "video" !in files then Some(NoVideoMessage)
    else if files["video"].filename == "" then Some(NoFileMessage)
    else if !AllowedFile(files["video"].filename) then Some(UnsupportedMessage)
    else None
  }

  // ---------------------------------------------------------------------
  // student_info
  // ---------------------------------------------------------------------

  /** `request.form.get(key)` is truthy: the field is there and not empty. */
  predicate FieldGiven(form: map<string, string>, key: string) {
    key in form && Truthy(Str(form[key]))
  }

  /** `info` is the record collected from the form: name (stripped, at most
      50 characters) and level (verbatim) and concerns (stripped, at most
      500 characters) when given, age when it parses as an integer. */
  predicate CollectedFrom(form: map<string, string>, info: Dict) {
    && info.Keys <= {"name", "age", "level", "concerns"}
    && ("name" in info <==> FieldGiven(form, "name"))
    && ("name" in info ==> info["name"] == Str(Truncate(Strip(form["name"]), 50)))
    && ("age" in info <==> "age" in form && ParseInt(form["age"]).Some?)
    && ("age" in info ==> info["age"] == Int(ParseInt(form["age"]).value))
    && ("level" in info <==> FieldGiven(form, "level"))
    && ("level" in info ==> info["level"] == Str(form["level"]))
    && ("concerns" in info <==> FieldGiven(form, "concerns"))
    && ("concerns" in info ==> info["concerns"] == Str(Truncate(Strip(form["concerns"]), 500)))
  }

  /** The form determines the record. */
  lemma CollectedFromUnique(form: map<string, string>, a: Dict, b: Dict)
    requires CollectedFrom(form, a) && CollectedFrom(form, b)
    ensures a == b
  {
    assert a.Keys == b.Keys;
  }

  /** A name of spaces only is kept, as the empty string; an age that is not
      an integer is dropped without an error. */
  lemma CollectedEdgeCases(form: map<string, string>, info: Dict)
    requires CollectedFrom(form, info)
    ensures FieldGiven(form, "name") && (forall k :: 0 <= k < |form["name"]| ==> IsSpace(form["name"][k]))
            ==> info["name"] == Str("")
    ensures "age" in form && ParseInt(form["age"]) == None ==> "age" !in info
    ensures "name" in info ==> |info["name"].s| <= 50
    ensures "concerns" in info ==> |info["concerns"].s| <= 500
  {
    if FieldGiven(form, "name") {
      StripEmpty(form["name"]);
    }
  }

  /** The guarded assignments that build `student_info` from the form. */
  method CollectStudentInfo(form: map<string, string>) returns (info: Dict)
    ensures CollectedFrom(form, info)
  {
    info := map[];
    if FieldGiven(form, "name") {
      info := info["name" := Str(Truncate(Strip(form["name"]), 50))];
    }
    if FieldGiven(form, "age") {
      var age := ParseInt(form["age"]);
      if age.Some? {
        info := info["age" := Int(age.value)];
      }
    } else if "age" in form {
      ParseBlank(form["age"]);
    }
    if FieldGiven(form, "level") {
      info := info["level" := Str(form["level"])];
    }
    if FieldGiven(form, "concerns") {
      info := info["concerns" := Str(Truncate(Strip(form["concerns"]), 500))];
    }
  }

  /** `student_info if student_info else None` */
  function InfoArgument(info: Dict): (r: Option<Dict>)
    ensures r == None <==> info == map[]
    ensures r.Some? ==> r.value == info
  {
    if |info| > 0 then Some(info) else None
  }

  /** `request.form.get('stroke_type', 'general')`: the default applies only
      when the field is absent; an empty value is passed on. */
  function StrokeTypeFrom(form: map<string, string>): (r: string)
    ensures "stroke_type" in form ==> r == form["stroke_type"]
    ensures "stroke_type" !in form ==> r == "general"
  {
    if "stroke_type" in form then form["stroke_type"] else "general"
  }

  /** The envelope's student_name is the stored name when one was given, and
      "Student" otherwise, even when other fields were given. */
  lemma StudentNameFromForm(form: map<string, string>, info: Dict)
    requires CollectedFrom(form, info)
    ensures FieldGiven(form, "name") ==>
              StudentName(InfoArgument(info)) == Str(Truncate(Strip(form["name"]), 50))
    ensures !FieldGiven(form, "name") ==> StudentName(InfoArgument(info)) == Str("Student")
  {
    if FieldGiven(form, "name") {
      assert "name" in info.Keys;
    }
  }

  // ---------------------------------------------------------------------
  // Responses
  // ---------------------------------------------------------------------

  /** The body of an error answer: success false and the message. */
  function ErrorBody(message: string): (r: Dict)
    ensures r.Keys == {"success", "error"}
    ensures r["success"] == Bool(false) && r["error"] == Str(message)
  {
    map["success" := Bool(false), "error" := Str(message)]
  }

  /** `200 if result['success'] else 500` */
  function StatusFor(success: Value): (code: int)
    ensures code == 200 <==> Truthy(success)
    ensures code == 500 <==> !Truthy(success)
  {
    if Truthy(success) then 200 else 500
  }

  /** The scratch directory for uploads, as the set of file names in it. */
  class UploadFolder {
    var files: set<string>

    constructor (files: set<string>)
      ensures this.files == files
    {
      this.files := files;
    }

    /** Writing the upload creates (or replaces) the file. */
    method Save(name: string)
      modifies this
      ensures files == old(files) + {name}
    {
      files := files + {name};
    }

    method Unlink(name: string)
      requires name in files
      modifies this
      ensures files == old(files) - {name}
    {
      files := files - {name};
    }
  }

  /** The `try` body once the upload is saved: run the pipeline and answer
      200 exactly when it succeeded, 500 otherwise. */
  method RunPipeline(videoPath: string, pathExists: bool, strokeType: string,
                     info: Option<Dict>, ext: Externals)
    returns (status: int, body: Dict)
    ensures body == AnalyzeTennisVideo(videoPath, pathExists, strokeType, info, ext)
    ensures "success" in body && (status == 200 || status == 500)
    ensures status == 200 <==> body["success"] == Bool(true)
  {
    body := AnalyzeTennisVideo(videoPath, pathExists, strokeType, info, ext);
    status := StatusFor(body["success"]);
  }

  /** The `try`/`finally` of the endpoint: write the upload, run the pipeline
      unless writing raised, and remove the file whatever happened. */
  method SaveAndAnalyze(folder: UploadFolder, videoPath: string, savedName: string,
                        strokeType: string, info: Option<Dict>, saveError: Option<string>,
                        ext: Externals)
    returns (status: int, body: Dict)
    modifies folder
    ensures folder.files == old(folder.files) - {savedName}
    ensures "success" in body
    ensures saveError.Some? ==> status == 500 && body == ErrorBody("Server error: " + saveError.value)
    ensures saveError.None? ==> body == AnalyzeTennisVideo(videoPath, true, strokeType, info, ext)
    ensures status == 200 <==> saveError.None? && body["success"] == Bool(true)
    ensures status == 500 <==> saveError.Some? || body["success"] != Bool(true)
  {
    folder.Save(savedName);
    if saveError.Some? {
      status, body := 500, ErrorBody("Server error: " + saveError.value);
    } else {
      status, body := RunPipeline(videoPath, savedName in folder.files, strokeType, info, ext);
    }
    if savedName in folder.files {
      folder.Unlink(savedName);
    }
  }

  /** `POST /api/analyze`. The saved name is `{token}_{safeName}`, where the
      token stands for the random uuid and `safeName` for the sanitised
      upload name; `saveError` is the exception writing the file raised, if any. */
  method Analyze(folder: UploadFolder, folderPath: string, files: map<string, Upload>,
                 form: map<string, string>, token: string, safeName: string,
                 saveError: Option<string>, ext: Externals)
    returns (status: int, body: Dict)
    modifies folder
    ensures status in {200, 400, 500} && "success" in body
    // the three rejections, in order, before anything is written
    ensures Rejection(files).Some? ==>
              status == 400 && body == ErrorBody(Rejection(files).value)
              && folder.files == old(folder.files)
    // once written, the upload is removed again on every path
    ensures Rejection(files).None? ==> folder.files == old(folder.files) - {token + "_" + safeName}
    ensures Rejection(files).None? && saveError.Some? ==>
              status == 500 && body == ErrorBody("Server error: " + saveError.value)
    ensures Rejection(files).None? && saveError.None? ==>
              exists info :: CollectedFrom(form, info)
                && body == AnalyzeTennisVideo(folderPath + "/" + (token + "_" + safeName), true,
                                              StrokeTypeFrom(form), InfoArgument(info), ext)
    ensures status == 400 <==> Rejection(files).Some?
    ensures status == 200 <==> Rejection(files).None? && saveError.None? && body["success"] == Bool(true)
    ensures status == 500 <==> Rejection(files).None? && (saveError.Some? || body["success"] != Bool(true))
  {
    var rejection := Rejection(files);
    if rejection.Some? {
      return 400, ErrorBody(rejection.value);
    }

    var info := CollectStudentInfo(form);
    var strokeType := StrokeTypeFrom(form);

    var savedName := token + "_" + safeName;
    var videoPath := folderPath + "/" + savedName;

    status, body := SaveAndAnalyze(folder, videoPath, savedName, strokeType, InfoArgument(info),
                                   saveError, ext);
    assert CollectedFrom(form, info);
  }
}

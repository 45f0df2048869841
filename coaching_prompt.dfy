/**
 * The per-request instruction sent with the frames: an optional student
 * profile, the frame count, the stroke type as a display label, and the
 * focus fragment looked up by stroke type.
 */
module CoachingPrompt {
  import opened Wrappers
  import opened Strings
  import opened Values

  // ---------------------------------------------------------------------
  // Stroke-specific focus fragments
  // ---------------------------------------------------------------------

  const ForehandFocus: string :=
    "\nFocus especially on:\n- Grip type (Eastern, Semi-Western, Western) and whether it matches the swing path\n- Eastern players: watch for late contact and arm-dominant swings\n- Western players: watch for over-rotation and loss of court depth\n- The windshield wiper finish vs. abbreviated follow-through\n"

  const OneHandedBackhandFocus: string :=
    "\nFocus especially on:\n- Shoulder turn is CRITICAL — one-handers require more rotation than two-handers\n- Contact point must be further in front than a two-hander\n- Wrist stability at contact — the most common breakdown point\n- Slice vs. topspin mechanics differ significantly; identify which is being attempted\n"

  const TwoHandedBackhandFocus: string :=
    "\nFocus especially on:\n- Non-dominant arm driving the shot (most students rely too much on dominant arm)\n- Hip clearance — hips must rotate out of the way on open-stance backhands\n- Contact point height — two-handers excel at shoulder height, struggle below the knee\n"

  const ServeFocus: string :=
    "\nFocus especially on:\n- Toss consistency is the #1 serve problem at all levels\n- The kinetic chain: legs → hips → torso → shoulder → elbow → wrist\n- Are they hitting with arm only, or using their legs?\n- Second serve: look for excessive caution vs. committed swing\n"

  const VolleyFocus: string :=
    "\nFocus especially on:\n- Compact backswing — volleys are BLOCKS, not swings\n- Continental grip — Eastern grip is the most common volley error\n- Ready position and split step timing at the net\n- Head stability through contact\n"

  const GeneralFocus: string :=
    "\nAnalyze whatever strokes are most visible in the provided frames.\nIf multiple strokes are shown, prioritize the one with the clearest \nmechanical issue or the one most central to the student's game.\n"

  /** The table of focus fragments, keyed by stroke type. */
  const StrokeContext: map<string, string> := map[
    "forehand" := ForehandFocus,
    "backhand_one_handed" := OneHandedBackhandFocus,
    "backhand_two_handed" := TwoHandedBackhandFocus,
    "serve" := ServeFocus,
    "volley" := VolleyFocus,
    "general" := GeneralFocus
  ]

  /** `STROKE_CONTEXT.get(stroke_type, STROKE_CONTEXT["general"])`: a known
      stroke type gets its own fragment, anything else the general one. */
  function StrokeAddition(strokeType: string): (r: string)
    ensures strokeType in StrokeContext ==> r == StrokeContext[strokeType]
    ensures strokeType !in StrokeContext ==> r == GeneralFocus
  {
    if strokeType in StrokeContext then StrokeContext[strokeType] else StrokeContext["general"]
  }

  // ---------------------------------------------------------------------
  // The "Stroke type:" label
  // ---------------------------------------------------------------------

  /** `stroke_type.replace('_', ' ').title()` */
  function StrokeTypeLabel(strokeType: string): string {
    Title(ReplaceChar(strokeType, '_', ' '))
  }

  /** Each '_' becomes a space; a letter is upper-cased at the start of a
      word and lower-cased inside one; other characters are kept. */
  lemma StrokeTypeLabelAt(strokeType: string, k: nat)
    requires k < |strokeType|
    ensures |StrokeTypeLabel(strokeType)| == |strokeType|
    ensures strokeType[k] == '_' ==> StrokeTypeLabel(strokeType)[k] == ' '
    ensures strokeType[k] != '_' && (k == 0 || !IsCased(strokeType[k - 1]))
            ==> StrokeTypeLabel(strokeType)[k] == UpperChar(strokeType[k])
    ensures strokeType[k] != '_' && k > 0 && IsCased(strokeType[k - 1])
            ==> StrokeTypeLabel(strokeType)[k] == LowerChar(strokeType[k])
  {
    var s := ReplaceChar(strokeType, '_', ' ');
    TitleAt(s, k);
    if k > 0 {
      assert s[k - 1] == if strokeType[k - 1] == '_' then ' ' else strokeType[k - 1];
    }
  }

  /** A lower-case word is labelled with its first letter capitalised. */
  lemma LabelOfWord(w: string, expected: string)
    requires w != [] && forall k :: 0 <= k < |w| ==> IsLower(w[k])
    requires expected == [UpperChar(w[0])] + w[1..]
    ensures StrokeTypeLabel(w) == expected
  {
    var r := StrokeTypeLabel(w);
    StrokeTypeLabelAt(w, 0);
    forall k | 0 <= k < |w| ensures r[k] == expected[k] {
      StrokeTypeLabelAt(w, k);
    }
  }

  /** Joining two names with '_' joins their labels with a space. */
  lemma LabelOfJoin(a: string, b: string)
    ensures StrokeTypeLabel(a + "_" + b) == StrokeTypeLabel(a) + " " + StrokeTypeLabel(b)
  {
    var s := a + "_" + b;
    var r := StrokeTypeLabel(s);
    var t := StrokeTypeLabel(a) + " " + StrokeTypeLabel(b);
    StrokeTypeLabelAt(s, |a|);
    if a != [] { StrokeTypeLabelAt(a, 0); }
    if b != [] { StrokeTypeLabelAt(b, 0); }
    forall k | 0 <= k < |s| ensures r[k] == t[k] {
      StrokeTypeLabelAt(s, k);
      if k < |a| {
        StrokeTypeLabelAt(a, k);
      } else if k > |a| {
        StrokeTypeLabelAt(b, k - |a| - 1);
      }
    }
  }

  lemma LabelsOfWords()
    ensures StrokeTypeLabel("backhand") == "Backhand"
    ensures StrokeTypeLabel("one") == "One"
    ensures StrokeTypeLabel("handed") == "Handed"
  {
    LabelOfWord("backhand", "Backhand");
    LabelOfWord("one", "One");
    LabelOfWord("handed", "Handed");
  }

  lemma LabelOfBackhandOne()
    ensures StrokeTypeLabel("backhand_one") == "Backhand One"
  {
    LabelsOfWords();
    LabelOfJoin("backhand", "one");
    assert "backhand" + "_" + "one" == "backhand_one";
    assert "Backhand" + " " + "One" == "Backhand One";
  }

  lemma LabelOfOneHandedBackhand()
    ensures StrokeTypeLabel("backhand_one_handed") == "Backhand One Handed"
  {
    LabelsOfWords();
    LabelOfBackhandOne();
    LabelOfJoin("backhand_one", "handed");
    assert "backhand_one" + "_" + "handed" == "backhand_one_handed";
    assert "Backhand One" + " " + "Handed" == "Backhand One Handed";
  }

  lemma LabelOfGeneral()
    ensures StrokeTypeLabel("general") == "General"
  {
    LabelOfWord("general", "General");
  }

  // ---------------------------------------------------------------------
  // The student profile block
  // ---------------------------------------------------------------------

  /** `f'{caption}{v}' if v else ''` */
  function OptionalLine(caption: string, v: Value): (r: string)
    requires caption != ""
    ensures r == "" <==> !Truthy(v)
    ensures Truthy(v) ==> r == caption + Format(v)
  {
    if Truthy(v) then caption + Format(v) else ""
  }

  /** The profile block, present only for a non-empty `student_info`.
      Missing name and level fall back to "the student" and "intermediate";
      a falsy age or concerns leaves its line empty. */
  function StudentContext(info: Option<Dict>): string {
    match info
    case Some(d) =>
      if |d| > 0 then
        var name := Get(d, "name", Str("the student"));
        var level := Get(d, "level", Str("intermediate"));
        var age := Get(d, "age", Str(""));
        var concerns := Get(d, "concerns", Str(""));
        "\nSTUDENT PROFILE:\n- Name: " + Format(name) + "\n- Level: " + Format(level) + "\n"
        + OptionalLine("- Age: ", age) + "\n"
        + OptionalLine("- Student notes: ", concerns) + "\n\n"
      else ""
    case None => ""
  }

  /** The profile block of any non-empty record: name and level as stored
      or their defaults when the key is absent, then the age and notes lines. */
  lemma ProfileLines(d: Dict)
    requires |d| > 0
    ensures StudentContext(Some(d))
         == "\nSTUDENT PROFILE:\n- Name: " + (if "name" in d then Format(d["name"]) else "the student")
            + "\n- Level: " + (if "level" in d then Format(d["level"]) else "intermediate") + "\n"
            + OptionalLine("- Age: ", Get(d, "age", Str(""))) + "\n"
            + OptionalLine("- Student notes: ", Get(d, "concerns", Str(""))) + "\n\n"
  {
  }

  /** Without a name and a level the profile shows "the student" and
      "intermediate", whatever else the record holds. */
  lemma ProfileDefaults(d: Dict)
    requires |d| > 0
    requires "name" !in d && "level" !in d
    ensures StudentContext(Some(d))
         == "\nSTUDENT PROFILE:\n- Name: " + "the student" + "\n- Level: " + "intermediate" + "\n"
            + OptionalLine("- Age: ", Get(d, "age", Str(""))) + "\n"
            + OptionalLine("- Student notes: ", Get(d, "concerns", Str(""))) + "\n\n"
  {
    assert Get(d, "name", Str("the student")) == Str("the student");
    assert Get(d, "level", Str("intermediate")) == Str("intermediate");
  }

  /** A name or level that is present is shown as given, even when it is empty. */
  lemma ProfileUsesPresentKeys(d: Dict, name: string, level: string)
    requires "name" in d && d["name"] == Str(name)
    requires "level" in d && d["level"] == Str(level)
    ensures StudentContext(Some(d))
         == "\nSTUDENT PROFILE:\n- Name: " + name + "\n- Level: " + level + "\n"
            + OptionalLine("- Age: ", Get(d, "age", Str(""))) + "\n"
            + OptionalLine("- Student notes: ", Get(d, "concerns", Str(""))) + "\n\n"
  {
    assert |d| > 0 by { assert "name" in d.Keys; }
  }

  /** A record holding only a non-zero age, as the form yields for a student
      who gave nothing else: both defaults, the age, and an empty notes line. */
  lemma ProfileAgeOnly(age: int)
    requires age != 0
    ensures StudentContext(Some(map["age" := Int(age)]))
         == "\nSTUDENT PROFILE:\n- Name: " + "the student" + "\n- Level: " + "intermediate" + "\n"
            + ("- Age: " + Decimal(age)) + "\n"
            + "" + "\n\n"
  {
    var d: Dict := map["age" := Int(age)];
    assert |d| > 0 by { assert "age" in d.Keys; }
    ProfileDefaults(d);
    assert OptionalLine("- Age: ", Get(d, "age", Str(""))) == "- Age: " + Decimal(age);
    assert OptionalLine("- Student notes: ", Get(d, "concerns", Str(""))) == "";
  }

  /** A profile with every field set shows each of them on its own line. */
  lemma ProfileFull(d: Dict, name: string, level: string, age: int, concerns: string)
    requires d == map["name" := Str(name), "level" := Str(level), "age" := Int(age),
                      "concerns" := Str(concerns)]
    requires age != 0 && concerns != ""
    ensures StudentContext(Some(d))
         == "\nSTUDENT PROFILE:\n- Name: " + name + "\n- Level: " + level + "\n"
            + ("- Age: " + Decimal(age)) + "\n"
            + ("- Student notes: " + concerns) + "\n\n"
  {
    assert |d| > 0 by { assert "name" in d.Keys; }
    assert Get(d, "name", Str("the student")) == Str(name);
    assert Get(d, "level", Str("intermediate")) == Str(level);
    assert Get(d, "age", Str("")) == Int(age);
    assert Get(d, "concerns", Str("")) == Str(concerns);
  }

  // ---------------------------------------------------------------------
  // The user prompt
  // ---------------------------------------------------------------------

  const Closing: string :=
    "Provide your full structured analysis following the format in your instructions."

  /** The opening of the prompt proper, after the optional profile. */
  function Opening(framesCount: int): string {
    "I'm sending you " + Decimal(framesCount) + " frames"
  }

  const Request: string :=
    " extracted from a tennis video.\nPlease analyze the stroke mechanics shown across these frames.\n\nStroke type: "

  /** The blank line, the focus fragment and the blank line that follow the label. */
  function FocusSection(strokeType: string): string {
    "\n\n" + StrokeAddition(strokeType) + "\n\n"
  }

  /** `build_user_prompt(frames_count, stroke_type, student_info)` */
  function BuildUserPrompt(framesCount: int, strokeType: string, info: Option<Dict>): string {
    StudentContext(info) + Opening(framesCount)
    + (Request + StrokeTypeLabel(strokeType) + FocusSection(strokeType))
    + Closing
  }

  lemma {:induction false} FourParts(a: string, b: string, c: string, d: string)
    ensures |a| + |b| + |d| <= |a + b + c + d|
    ensures (a + b + c + d)[|a|..|a| + |b|] == b
    ensures (a + b + c + d)[|a + b + c + d| - |d|..] == d
    ensures a == "" ==> b <= a + b + c + d
  {
    var s := a + b + c + d;
    assert s == a + (b + (c + d));
    assert s[|a|..] == b + (c + d);
  }

  /** The prompt states the frame count right after the profile, and it
      always ends with the closing instruction. */
  lemma PromptFrame(framesCount: int, strokeType: string, info: Option<Dict>)
    ensures var p := BuildUserPrompt(framesCount, strokeType, info);
            var c := StudentContext(info);
            && |c| + |Opening(framesCount)| + |Closing| <= |p|
            && p[|c|..|c| + |Opening(framesCount)|] == Opening(framesCount)
            && p[|p| - |Closing|..] == Closing
  {
    FourParts(StudentContext(info), Opening(framesCount),
              Request + StrokeTypeLabel(strokeType) + FocusSection(strokeType), Closing);
  }

  /** Without a profile the prompt starts with "I'm sending you {n} frames". */
  lemma PromptWithoutProfile(framesCount: int, strokeType: string, info: Option<Dict>)
    requires info == None || info == Some(map[])
    ensures Opening(framesCount) <= BuildUserPrompt(framesCount, strokeType, info)
  {
    assert StudentContext(info) == "";
    FourParts(StudentContext(info), Opening(framesCount),
              Request + StrokeTypeLabel(strokeType) + FocusSection(strokeType), Closing);
  }

  lemma {:induction false} CancelAround(x: string, a: string, b: string, y: string)
    requires x + a + y == x + b + y
    ensures a == b
  {
    var s := x + a + y;
    assert |a| == |b|;
    assert a == s[|x|..|x| + |a|];
  }

  /** An unknown stroke type gets the general fragment, but the prompt shows
      the caller's own label: it is the general prompt exactly when that
      label reads "General". */
  lemma UnknownStrokeType(framesCount: int, strokeType: string, info: Option<Dict>)
    requires strokeType !in StrokeContext
    ensures StrokeAddition(strokeType) == StrokeAddition("general")
    ensures BuildUserPrompt(framesCount, strokeType, info) == BuildUserPrompt(framesCount, "general", info)
        <==> StrokeTypeLabel(strokeType) == "General"
  {
    LabelOfGeneral();
    var x := StudentContext(info) + Opening(framesCount);
    var f := FocusSection("general");
    assert FocusSection(strokeType) == f;
    var m1 := Request + StrokeTypeLabel(strokeType) + f;
    var m2 := Request + "General" + f;
    if BuildUserPrompt(framesCount, strokeType, info) == BuildUserPrompt(framesCount, "general", info) {
      CancelAround(x, m1, m2, Closing);
      CancelAround(Request, StrokeTypeLabel(strokeType), "General", f);
    }
  }

  /** For instance "backhand" is unknown and labelled "Backhand", so its
      prompt is not the general one. */
  lemma BackhandIsNotGeneral(framesCount: int, info: Option<Dict>)
    ensures BuildUserPrompt(framesCount, "backhand", info) != BuildUserPrompt(framesCount, "general", info)
  {
    var s := "backhand";
    var r := StrokeTypeLabel(s);
    StrokeTypeLabelAt(s, 0);
    assert r[0] == 'B';
    UnknownStrokeType(framesCount, s, info);
  }
}

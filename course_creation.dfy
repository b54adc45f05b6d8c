/**
 * The three-step course-creation wizard: course details, lessons and AI
 * training materials. The form is an object whose handlers edit the lesson
 * and material lists, validate a step, move between steps and, on submit,
 * assemble the stored course record and the AI system prompt.
 *
 * Uploading, reading a file's text and storing the course are outside
 * calls: their outcomes are parameters of `HandleSubmit`.
 */
module CourseCreation {
  import opened Wrappers
  import Seqs
  import opened Text

  /** A chosen file; the model only uses its name. */
  datatype FileRef = FileRef(name: string)

  datatype VideoType = Upload | YouTube

  /** A lesson being edited; an absent optional field is `undefined`. */
  datatype Lesson = Lesson(title: string, duration: string, preview: bool, videoType: VideoType,
                           videoUrl: Option<string>, videoFile: Option<FileRef>, transcriptFile: Option<FileRef>)

  /** The lesson `addLesson` appends and the form starts and resets with. */
  const BlankLesson := Lesson("", "", false, Upload, None, None, None)

  datatype MaterialType = Transcript | Notes | Pdf

  datatype Material = Material(title: string, kind: MaterialType, file: Option<FileRef>)

  // ------------------------------------------------------------ lesson edits

  /** The lesson field an edit writes. */
  datatype LessonField = TitleField | DurationField | PreviewField | VideoTypeField
                       | VideoUrlField | VideoFileField | TranscriptFileField

  /** `updateLesson(index, field, value)`: which field gets which value. */
  datatype LessonEdit = SetTitle(title: string) | SetDuration(duration: string) | SetPreview(preview: bool)
                      | SetVideoType(videoType: VideoType) | SetVideoUrl(url: string)
                      | SetVideoFile(videoFile: FileRef) | SetTranscriptFile(transcriptFile: FileRef)

  function FieldOf(edit: LessonEdit): LessonField {
    match edit
    case SetTitle(_) => TitleField
    case SetDuration(_) => DurationField
    case SetPreview(_) => PreviewField
    case SetVideoType(_) => VideoTypeField
    case SetVideoUrl(_) => VideoUrlField
    case SetVideoFile(_) => VideoFileField
    case SetTranscriptFile(_) => TranscriptFileField
  }

  /** `a` and `b` agree on every field other than `f`. */
  predicate AgreeExcept(a: Lesson, b: Lesson, f: LessonField) {
    && (f != TitleField ==> a.title == b.title)
    && (f != DurationField ==> a.duration == b.duration)
    && (f != PreviewField ==> a.preview == b.preview)
    && (f != VideoTypeField ==> a.videoType == b.videoType)
    && (f != VideoUrlField ==> a.videoUrl == b.videoUrl)
    && (f != VideoFileField ==> a.videoFile == b.videoFile)
    && (f != TranscriptFileField ==> a.transcriptFile == b.transcriptFile)
  }

  /** The field written by `edit` holds the edit's value in `l`. */
  predicate Holds(l: Lesson, edit: LessonEdit) {
    match edit
    case SetTitle(v) => l.title == v
    case SetDuration(v) => l.duration == v
    case SetPreview(v) => l.preview == v
    case SetVideoType(v) => l.videoType == v
    case SetVideoUrl(v) => l.videoUrl == Some(v)
    case SetVideoFile(v) => l.videoFile == Some(v)
    case SetTranscriptFile(v) => l.transcriptFile == Some(v)
  }

  /** `{ ...lesson, [field]: value }`: the edited field takes the value, every other field is kept. */
  function ApplyEdit(l: Lesson, edit: LessonEdit): (r: Lesson)
    ensures Holds(r, edit) && AgreeExcept(l, r, FieldOf(edit))
  {
    match edit
    case SetTitle(v) => l.(title := v)
    case SetDuration(v) => l.(duration := v)
    case SetPreview(v) => l.(preview := v)
    case SetVideoType(v) => l.(videoType := v)
    case SetVideoUrl(v) => l.(videoUrl := Some(v))
    case SetVideoFile(v) => l.(videoFile := Some(v))
    case SetTranscriptFile(v) => l.(transcriptFile := Some(v))
  }

  // -------------------------------------------------------------- validation

  /** Step 1: a non-blank title and description, and non-empty category, level and price. */
  predicate DetailsValid(title: string, description: string, category: string, level: string, price: string) {
    !IsBlank(title) && !IsBlank(description) && category != "" && level != "" && price != ""
  }

  /**
   * Step 2, for one lesson: a non-blank title and duration, a non-blank URL
   * for a YouTube lesson, a video file for an uploaded one, and a transcript.
   */
  predicate LessonValid(l: Lesson) {
    && !IsBlank(l.title)
    && !IsBlank(l.duration)
    && (l.videoType == YouTube ==> l.videoUrl.Some? && !IsBlank(l.videoUrl.value))
    && (l.videoType == Upload ==> l.videoFile.Some?)
    && l.transcriptFile.Some?
  }

  /** A lesson that is checked first for a blank title. */
  lemma {:induction false} BlankLessonInvalid()
    ensures !LessonValid(BlankLesson)
  {
  }

  // ---------------------------------------------------------------- submit

  /** A lesson as stored: the video URL only for YouTube lessons, the transcript by file name. */
  datatype LessonRecord = LessonRecord(title: string, duration: string, preview: bool, videoType: VideoType,
                                       videoUrl: Option<string>, transcriptFile: Option<string>)

  /** A material as stored: its `url` is the chosen file's name. */
  datatype MaterialRecord = MaterialRecord(title: string, kind: MaterialType, url: Option<string>)

  /**
   * The course data handed to the store. `price` is the price text that
   * `parseFloat` converts; `createdAt` is the submission time.
   */
  datatype CourseRecord = CourseRecord(id: string, title: string, description: string, category: string,
                                       level: string, price: string, lessons: seq<LessonRecord>,
                                       materials: seq<MaterialRecord>, aiSystemPrompt: Option<string>,
                                       createdAt: nat)

  function LessonRecordOf(l: Lesson): (r: LessonRecord)
    ensures r.title == l.title && r.duration == l.duration && r.preview == l.preview && r.videoType == l.videoType
    ensures r.videoUrl.Some? ==> l.videoType == YouTube
    ensures l.videoType == YouTube ==> r.videoUrl == l.videoUrl
    ensures r.transcriptFile.Some? <==> l.transcriptFile.Some?
    ensures r.transcriptFile.Some? ==> r.transcriptFile.value == l.transcriptFile.value.name
  {
    LessonRecord(l.title, l.duration, l.preview, l.videoType,
                 if l.videoType == YouTube then l.videoUrl else None,
                 if l.transcriptFile.Some? then Some(l.transcriptFile.value.name) else None)
  }

  function MaterialRecordOf(m: Material): (r: MaterialRecord)
    ensures r.title == m.title && r.kind == m.kind
    ensures r.url.Some? <==> m.file.Some?
    ensures r.url.Some? ==> r.url.value == m.file.value.name
  {
    MaterialRecord(m.title, m.kind, if m.file.Some? then Some(m.file.value.name) else None)
  }

  /** Materials without a file are not uploaded. */
  predicate HasFile(m: Material) { m.file.Some? }

  /**
   * The text a material contributes to the AI prompt: a transcript with a
   * file gives the file's text, or its title when reading fails (`None`);
   * other materials give nothing.
   */
  function TranscriptText(m: Material, readText: FileRef -> Option<string>): (r: Option<string>)
    ensures r.Some? <==> m.kind == Transcript && m.file.Some?
    ensures r.Some? && readText(m.file.value).Some? ==> r.value == readText(m.file.value).value
    ensures r.Some? && readText(m.file.value).None? ==> r.value == m.title
  {
    if m.kind == Transcript && m.file.Some? then
      Some(readText(m.file.value).GetOr(m.title))
    else None
  }

  function TranscriptTextWith(readText: FileRef -> Option<string>): Material -> Option<string> {
    m => TranscriptText(m, readText)
  }

  /** The transcript texts, in material order. */
  function TranscriptTexts(materials: seq<Material>, readText: FileRef -> Option<string>): seq<string> {
    Seqs.FilterMap(materials, TranscriptTextWith(readText))
  }

  const PromptSeparator: string := "\n\n"

  /** The AI system prompt: the transcript texts separated by blank lines, or `null` when there are none. */
  function SystemPrompt(texts: seq<string>): (r: Option<string>)
    ensures r.None? <==> texts == []
    ensures r.Some? ==> r.value == Join(texts, PromptSeparator)
  {
    if |texts| > 0 then Some(Join(texts, PromptSeparator)) else None
  }

  /**
   * The prompt's texts come from distinct transcript materials with a file,
   * in material order, and every such material contributes one; there is
   * no prompt exactly when there is no such material.
   */
  lemma {:induction false} PromptOrigins(materials: seq<Material>, readText: FileRef -> Option<string>)
    ensures var texts := TranscriptTexts(materials, readText);
      var pos := Seqs.FilterMapPositions(materials, TranscriptTextWith(readText));
      && |pos| == |texts|
      && (forall k :: 0 <= k < |texts| ==>
            pos[k] < |materials| && materials[pos[k]].kind == Transcript && materials[pos[k]].file.Some? &&
            TranscriptText(materials[pos[k]], readText) == Some(texts[k]))
      && (forall k, l :: 0 <= k < l < |texts| ==> pos[k] < pos[l])
      && (forall i :: 0 <= i < |materials| && materials[i].kind == Transcript && materials[i].file.Some? ==> i in pos)
      && (SystemPrompt(texts).None? <==>
            forall i :: 0 <= i < |materials| ==> !(materials[i].kind == Transcript && materials[i].file.Some?))
  {
    var f := TranscriptTextWith(readText);
    Seqs.FilterMapOrigins(materials, f);
    if forall i :: 0 <= i < |materials| ==> !(materials[i].kind == Transcript && materials[i].file.Some?) {
      Seqs.FilterMapNone(materials, f);
    }
  }

  /** Only uploaded materials are read, but dropping the file-less ones first changes no text. */
  lemma {:induction false} UploadedTexts(materials: seq<Material>, readText: FileRef -> Option<string>)
    ensures TranscriptTexts(Seqs.Filter(materials, HasFile), readText) == TranscriptTexts(materials, readText)
  {
    Seqs.FilterMapAfterFilter(materials, HasFile, TranscriptTextWith(readText));
  }

  /** The id `course_${now}`. */
  function CourseId(now: nat): (id: string)
    ensures |id| > 7 && id[..7] == "course_" && AllDigits(id[7..]) && DigitsValue(id[7..]) == now
  {
    NatToStringValue(now);
    assert ("course_" + NatToString(now))[7..] == NatToString(now);
    "course_" + NatToString(now)
  }

  /**
   * Collects the transcript texts of the uploaded materials one material at
   * a time, as the submit handler's loop does.
   */
  method CollectTranscriptTexts(uploaded: seq<Material>, readText: FileRef -> Option<string>)
    returns (transcriptContents: seq<string>)
    ensures transcriptContents == TranscriptTexts(uploaded, readText)
  {
    transcriptContents := [];
    for i := 0 to |uploaded|
      invariant transcriptContents == TranscriptTexts(uploaded[..i], readText)
    {
      var material := uploaded[i];
      assert uploaded[..i + 1][..i] == uploaded[..i];
      if material.kind == Transcript && material.file.Some? {
        var fileContent := readText(material.file.value);
        if fileContent.Some? {
          transcriptContents := transcriptContents + [fileContent.value];
        } else {
          transcriptContents := transcriptContents + [material.title];
        }
      }
    }
    assert uploaded[..|uploaded|] == uploaded;
  }

  /** The checks of one lesson in the order `validateStep(2)` makes them, stopping at the first failure. */
  method CheckLesson(lesson: Lesson) returns (ok: bool)
    ensures ok <==> LessonValid(lesson)
  {
    if Trim(lesson.title) == "" { return false; }
    if Trim(lesson.duration) == "" { return false; }
    if lesson.videoType == YouTube && (lesson.videoUrl.None? || Trim(lesson.videoUrl.value) == "") {
      return false;
    }
    if lesson.videoType == Upload && lesson.videoFile.None? { return false; }
    if lesson.transcriptFile.None? { return false; }
    return true;
  }

  /** The lesson loop of `validateStep(2)`: every lesson is checked in turn until one fails. */
  method ValidateLessons(lessons: seq<Lesson>) returns (ok: bool)
    ensures ok <==> forall k :: 0 <= k < |lessons| ==> LessonValid(lessons[k])
  {
    for i := 0 to |lessons|
      invariant forall k :: 0 <= k < i ==> LessonValid(lessons[k])
    {
      var lessonOk := CheckLesson(lessons[i]);
      if !lessonOk {
        return false;
      }
    }
    return true;
  }

  // ------------------------------------------------------------------ form

  const InitialLevel: string := "Beginner"

  /** The values of the form's fields, to compare states. */
  datatype FormFields = FormFields(title: string, description: string, category: string, level: string,
                                   price: string, lessons: seq<Lesson>, materials: seq<Material>, activeStep: int)
  const LastStep: int := 3

  class CourseCreationForm {
    var courseTitle: string
    var courseDescription: string
    var courseCategory: string
    var courseLevel: string
    var coursePrice: string
    var lessons: seq<Lesson>
    var materials: seq<Material>
    var isSubmitting: bool
    var activeStep: int

    /** The form as first shown and as reset after a stored course. */
    predicate Initial()
      reads this
    {
      && courseTitle == "" && courseDescription == "" && courseCategory == ""
      && courseLevel == InitialLevel && coursePrice == ""
      && lessons == [BlankLesson] && materials == [] && activeStep == 1
    }

    /** The wizard shows one of its three steps. */
    predicate StepInRange()
      reads this
    {
      1 <= activeStep <= LastStep
    }

    /** The Previous button is shown after the first step. */
    predicate ShowsPrevious()
      reads this
    {
      activeStep > 1
    }

    /** The Next button is shown before the last step; the last step shows the submit button instead. */
    predicate ShowsNext()
      reads this
    {
      activeStep < LastStep
    }

    constructor()
      ensures Initial() && !isSubmitting && StepInRange()
    {
      courseTitle := "";
      courseDescription := "";
      courseCategory := "";
      courseLevel := InitialLevel;
      coursePrice := "";
      lessons := [BlankLesson];
      materials := [];
      isSubmitting := false;
      activeStep := 1;
    }

    /** The form's fields other than the submitting flag. */
    function Fields(): FormFields
      reads this
    {
      FormFields(courseTitle, courseDescription, courseCategory, courseLevel, coursePrice, lessons, materials, activeStep)
    }

    /** The reset after a stored course: every field back to its initial value. */
    method Reset()
      modifies this
      ensures Initial() && isSubmitting == old(isSubmitting)
    {
      courseTitle := "";
      courseDescription := "";
      courseCategory := "";
      courseLevel := InitialLevel;
      coursePrice := "";
      lessons := [BlankLesson];
      materials := [];
      activeStep := 1;
    }

    /** `addLesson`: one blank upload lesson is appended; the others are kept. */
    method AddLesson()
      modifies this
      ensures lessons == old(lessons) + [BlankLesson]
      ensures Fields() == old(Fields()).(lessons := lessons) && isSubmitting == old(isSubmitting)
    {
      lessons := lessons + [BlankLesson];
    }

    /** `removeLesson(index)`: a copy of the list with `splice(index, 1)` applied. */
    method RemoveLesson(index: int)
      modifies this
      ensures lessons == Seqs.SpliceOne(old(lessons), index)
      ensures 0 <= index < |old(lessons)| ==> |lessons| == |old(lessons)| - 1
      ensures Fields() == old(Fields()).(lessons := lessons) && isSubmitting == old(isSubmitting)
    {
      var updatedLessons := Seqs.SpliceOne(lessons, index);
      lessons := updatedLessons;
    }

    /** `updateLesson(index, field, value)`: only the named field of that lesson changes. */
    method UpdateLesson(index: int, edit: LessonEdit)
      requires 0 <= index < |lessons|
      modifies this
      ensures |lessons| == |old(lessons)|
      ensures Holds(lessons[index], edit) && AgreeExcept(old(lessons)[index], lessons[index], FieldOf(edit))
      ensures forall k :: 0 <= k < |lessons| && k != index ==> lessons[k] == old(lessons)[k]
      ensures Fields() == old(Fields()).(lessons := lessons) && isSubmitting == old(isSubmitting)
    {
      var updatedLessons := lessons;
      updatedLessons := updatedLessons[index := ApplyEdit(updatedLessons[index], edit)];
      lessons := updatedLessons;
    }

    /**
     * `handleFileUpload(event, type)`: with no chosen file nothing happens;
     * otherwise one material titled with the file's name is appended.
     */
    method HandleFileUpload(file: Option<FileRef>, kind: MaterialType)
      modifies this
      ensures file.None? ==> materials == old(materials)
      ensures file.Some? ==> materials == old(materials) + [Material(file.value.name, kind, file)]
      ensures Fields() == old(Fields()).(materials := materials) && isSubmitting == old(isSubmitting)
    {
      if file.None? {
        return;
      }
      materials := materials + [Material(file.value.name, kind, file)];
    }

    /** `removeMaterial(index)`: a copy of the list with `splice(index, 1)` applied. */
    method RemoveMaterial(index: int)
      modifies this
      ensures materials == Seqs.SpliceOne(old(materials), index)
      ensures Fields() == old(Fields()).(materials := materials) && isSubmitting == old(isSubmitting)
    {
      var updatedMaterials := Seqs.SpliceOne(materials, index);
      materials := updatedMaterials;
    }

    /** What `validateStep(step)` accepts: steps other than 1, 2 and 3 always pass. */
    predicate StepValid(step: int)
      reads this
    {
      if step == 1 then DetailsValid(courseTitle, courseDescription, courseCategory, courseLevel, coursePrice)
      else if step == 2 then forall k :: 0 <= k < |lessons| ==> LessonValid(lessons[k])
      else if step == 3 then |materials| > 0
      else true
    }

    /** `validateStep(step)`: checks the step's fields in order and stops at the first missing one. */
    method ValidateStep(step: int) returns (ok: bool)
      ensures ok <==> StepValid(step)
    {
      if step == 1 {
        if Trim(courseTitle) == "" { return false; }
        if Trim(courseDescription) == "" { return false; }
        if courseCategory == "" { return false; }
        if courseLevel == "" { return false; }
        if coursePrice == "" { return false; }
        return true;
      } else if step == 2 {
        ok := ValidateLessons(lessons);
        return;
      } else if step == 3 {
        if |materials| == 0 { return false; }
        return true;
      }
      return true;
    }

    /** `nextStep`: advances by exactly one when the current step validates, and otherwise stays. */
    method NextStep()
      modifies this
      ensures old(StepValid(activeStep)) ==> activeStep == old(activeStep) + 1
      ensures !old(StepValid(activeStep)) ==> activeStep == old(activeStep)
      ensures old(ShowsNext() && StepInRange()) ==> StepInRange()
      ensures Fields() == old(Fields()).(activeStep := activeStep) && isSubmitting == old(isSubmitting)
    {
      var valid := ValidateStep(activeStep);
      if valid {
        activeStep := activeStep + 1;
      }
    }

    /** `prevStep`: goes back one step; offered only after the first step, where the step stays in range. */
    method PrevStep()
      modifies this
      ensures activeStep == old(activeStep) - 1
      ensures old(ShowsPrevious() && StepInRange()) ==> StepInRange()
      ensures Fields() == old(Fields()).(activeStep := activeStep) && isSubmitting == old(isSubmitting)
    {
      activeStep := activeStep - 1;
    }

    /**
     * The record `handleSubmit` stores for the current form: materials are
     * uploaded only when they have a file, and the prompt is built from the
     * uploaded transcripts.
     */
    function Record(id: string, createdAt: nat, readText: FileRef -> Option<string>): (r: CourseRecord)
      reads this
      ensures r.id == id && r.createdAt == createdAt
      ensures r.title == courseTitle && r.description == courseDescription && r.category == courseCategory
      ensures r.level == courseLevel && r.price == coursePrice
      ensures |r.lessons| == |lessons| && forall k :: 0 <= k < |lessons| ==> r.lessons[k] == LessonRecordOf(lessons[k])
      ensures |r.materials| == |materials| && forall k :: 0 <= k < |materials| ==> r.materials[k] == MaterialRecordOf(materials[k])
      ensures r.aiSystemPrompt == SystemPrompt(TranscriptTexts(materials, readText))
    {
      UploadedTexts(materials, readText);
      CourseRecord(id, courseTitle, courseDescription, courseCategory, courseLevel, coursePrice,
                   Seqs.Map(lessons, LessonRecordOf), Seqs.Map(materials, MaterialRecordOf),
                   SystemPrompt(TranscriptTexts(Seqs.Filter(materials, HasFile), readText)), createdAt)
    }

    /** The record assembly of `handleSubmit`, after the uploads: the transcript loop, the prompt and the course data. */
    method BuildRecord(courseId: string, createdAt: nat, readText: FileRef -> Option<string>) returns (courseData: CourseRecord)
      ensures courseData == Record(courseId, createdAt, readText)
    {
      var uploadedMaterials := Seqs.Filter(materials, HasFile);
      var transcriptContents := CollectTranscriptTexts(uploadedMaterials, readText);
      var aiSystemPrompt: Option<string> := None;
      if |transcriptContents| > 0 {
        aiSystemPrompt := Some(Join(transcriptContents, PromptSeparator));
      }
      UploadedTexts(materials, readText);
      courseData := CourseRecord(courseId, courseTitle, courseDescription, courseCategory, courseLevel,
                                 coursePrice, Seqs.Map(lessons, LessonRecordOf),
                                 Seqs.Map(materials, MaterialRecordOf), aiSystemPrompt, createdAt);
    }

    /**
     * `handleSubmit`. `now` is `Date.now()` and `createdAt` the submission
     * time; `uploadsOk` says whether every material upload succeeded,
     * `readText` gives a file's text (`None` when reading fails) and
     * `storeOk` whether storing the course succeeded. Returns the record
     * handed to the store, if it was called. With no materials, or when an
     * upload fails, nothing is stored; the form is reset only after a
     * successful store; submitting is over in every case.
     */
    method HandleSubmit(now: nat, createdAt: nat, uploadsOk: bool, readText: FileRef -> Option<string>, storeOk: bool)
      returns (stored: Option<CourseRecord>)
      modifies this
      ensures stored.Some? <==> |old(materials)| > 0 && uploadsOk
      ensures stored.Some? ==> stored.value == old(Record(CourseId(now), createdAt, readText))
      ensures stored.Some? && storeOk ==> Initial()
      ensures !(stored.Some? && storeOk) ==> Fields() == old(Fields())
      ensures !isSubmitting
    {
      isSubmitting := true;
      if |materials| == 0 {
        isSubmitting := false;
        return None;
      }
      var courseId := CourseId(now);
      if !uploadsOk {
        isSubmitting := false;
        return None;
      }
      var courseData := BuildRecord(courseId, createdAt, readText);
      stored := Some(courseData);
      if storeOk {
        Reset();
      }
      isSubmitting := false;
    }
  }
}

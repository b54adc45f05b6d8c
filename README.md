# EducateHub core, modelled in Dafny

EducateHub is a React and Firebase learning platform. Tutors create courses
through a three-step wizard and upload transcripts and notes. Students browse
and filter the catalog, watch lessons in an accordion with a YouTube preview,
and ask questions of several AI assistants. The assistants are a
keyword-driven general chat, a course-aware helper, a Gemini wrapper with a
mock fallback, and a question-answering pipeline.

This project models the deterministic core of those pieces:

- the text utilities: the transcript parser and time formatter, the mock
  responder, the follow-up detector, the context assembler and the
  training-question generator;
- the catalog filters;
- the form validators and state machines: login/registration, the course
  wizard, the resource uploader and the filter panel;
- the small selectors: the YouTube id extraction and the accordion;
- the two chat state machines.

Network, storage and model calls are parameters: an outcome, a success flag
or a function. Each React component that keeps state is a `class` whose
fields are the component's `useState` cells. Its handlers are methods that
state the whole new state. Pure helpers are functions, and lemmas carry the
properties.

Files:

- `wrappers.dfy`, `seqs.dfy` and `text.dfy` are shared. They hold `Option`,
  sequence filters with their order lemmas, and the JavaScript string
  operations used by the source. These are ASCII `toLowerCase`, the `\s`
  whitespace set, `trim`, `includes`, `split`, `join`, sentence splitting on
  runs of `.`, `!` and `?`, and decimal digits.
- One file per source file:
  - `transcript_parser.dfy` and `gemini_service.dfy`;
  - `ai_service.dfy` and `ai_context.dfy`;
  - `course_catalog.dfy` and `firebase_courses.dfy`;
  - `auth_form.dfy`, `course_creation.dfy` and `resource_uploader.dfy`;
  - `course_filters.dfy`, `content_accordion.dfy` and `chat_assistant.dfy`.

Behaviour the model keeps as the code has it:

- The transcript regex's `.` and `$` exclude line terminators, so a CRLF
  line never parses.
- A question word containing `.`, `!` or `?` can never match a sentence.
- `"furthermore"` counts as a follow-up.
- `"json"` selects the JavaScript reply.
- The register call drops the role and the tutor details.
- In the course helper, a matching material that is the empty string makes
  the `||` fall through to the first transcript, or to `undefined`.

## Model

| member | source | states |
|---|---|---|
| TranscriptParser.MatchLine | src/lib/transcript-parser.ts:18-24 | a match is a well-formed entry (12-character `HH:MM:SS.mmm` stamp, non-empty text without line terminators) and the line is exactly stamp, one whitespace character, text |
| TranscriptParser.MatchLineExact | src/lib/transcript-parser.ts:18-24 | conversely, every line of that shape matches, with the entry (line[0..12], line[13..]) |
| TranscriptParser.ParseYouTubeTranscript | src/lib/transcript-parser.ts:7-28 | the method's result is the specification `Transcript`: the matches of the non-blank lines, in order |
| TranscriptParser.ParseLines | src/lib/transcript-parser.ts:11-25 | the indexed loop collects exactly the matching lines' entries, in order (loop invariant) |
| TranscriptParser.CommentSkipRedundant | src/lib/transcript-parser.ts:15 | a line starting with '#' never yields an entry; the comment skip changes nothing the regex would not reject |
| TranscriptParser.RejectedLines | src/lib/transcript-parser.ts:18 | a line with leading whitespace or '#' and a line ending in "\r" (CRLF input) yield no entry |
| TranscriptParser.TranscriptWellFormed | src/lib/transcript-parser.ts:8-27 | the output has no more entries than non-blank lines, and every entry has a 12-character time and non-empty text |
| TranscriptParser.ParseLinesOrigins | src/lib/transcript-parser.ts:8-27 | entries come from distinct lines in strictly increasing order, and every matching line contributes one |
| TranscriptParser.RenderParses | src/lib/transcript-parser.ts:18-23 | rendering a well-formed entry as "time text" gives a non-blank line that parses back to that entry |
| TranscriptParser.RenderRoundTrip | src/lib/transcript-parser.ts:7-28 | parsing the newline-joined rendering of well-formed entries returns exactly those entries |
| TranscriptParser.TwoDigits | src/lib/transcript-parser.ts:36 | `padStart(2, '0')` of a number is a digit string of at least two characters whose decimal value is the number |
| TranscriptParser.TwoDigitsLength | src/lib/transcript-parser.ts:36 | the padded string is exactly two characters iff the number is below 100 (never truncated) |
| TranscriptParser.ClockFields | src/lib/transcript-parser.ts:32-34 | hours*3600 + minutes*60 + secs equals the input, minutes < 60, secs < 60, and hours < 100 iff seconds < 360000 |
| TranscriptParser.FormatTimeRoundTrip | src/lib/transcript-parser.ts:31-37 | `formatTime` output splits into hours (at least 2 digits), minutes and seconds (2 digits each, below 60) whose value is the input |
| TranscriptParser.FormatTimeLength | src/lib/transcript-parser.ts:31-37 | the formatted time has length 8 iff seconds < 360000 |
| TranscriptParser.FormatTime | src/lib/transcript-parser.ts:31-37 | the formatted time is at least eight characters long (at least two digits for the hours, two each for minutes and seconds, two colons) |
| GeminiService.SignificantWords | src/lib/gemini-service.ts:23-24 | the kept question words are space-separated words of the question longer than 3 characters |
| GeminiService.GenerateMockResponse | src/lib/gemini-service.ts:15-39 | the mock reply is the not-found reply iff no sentence of the prompt is relevant to the question; otherwise it is the relevant sentences, untrimmed and in prompt order, joined by ". " between the fixed prefix (ending in an opening quote) and the closing quote with the demo-mode note |
| GeminiService.RelevantIff | src/lib/gemini-service.ts:21-27 | a non-blank sentence is kept iff some significant lowercased question word occurs in the lowercased sentence |
| GeminiService.RelevantInOrder | src/lib/gemini-service.ts:20-27 | the kept sentences are a subsequence of the prompt's non-blank sentences, in prompt order |
| GeminiService.MockIgnoresCase | src/lib/gemini-service.ts:17 | the mock reply does not depend on the question's letter case |
| GeminiService.NoSignificantWords | src/lib/gemini-service.ts:23-38 | a question without a word longer than 3 characters always gets the not-found reply |
| GeminiService.PunctuationOnlyPrompt | src/lib/gemini-service.ts:20-38 | a prompt of only '.', '!', '?' and whitespace has no sentences and gives the not-found reply |
| GeminiService.PunctuatedWordNeverMatches | src/lib/gemini-service.ts:20-26 | a question word containing '.', '!' or '?' never occurs in any sentence |
| GeminiService.QueryGemini | src/lib/gemini-service.ts:41-93 | with no key the reply is the mock reply; with a key, an answer is returned as is, an "API key" error gives the authentication apology, else "rate limit" the high-demand reply, else mock + fallback note |
| GeminiService.AuthTakesPrecedence | src/lib/gemini-service.ts:77-83 | an error mentioning both "API key" and "rate limit" gets the authentication apology |
| GeminiService.FallbackExtendsMock | src/lib/gemini-service.ts:86-88 | any other error returns the mock reply followed by the fallback-mode note |
| AiService.AnalyzeConversationContext | src/lib/ai-service.ts:152-172 | under two recent messages never a follow-up; otherwise follow-up iff the lowercased question contains "more", "elaborate" or "what about"; the previous context is present iff follow-up and is the second-to-last message |
| AiService.FurthermoreIsFollowUp | src/lib/ai-service.ts:164-166 | "furthermore" makes a follow-up (substring matching) |
| AiService.Candidates | src/lib/ai-service.ts:112-117 | candidates are materials ++ transcripts, with the previous context prepended only for a non-empty follow-up context |
| AiService.ContextChoice | src/lib/ai-service.ts:120-126 | with a non-empty match list the context is the first three matches joined by spaces; with no match it is the first two candidates joined by a space |
| AiService.OnlyEmptyMatch | src/lib/ai-service.ts:120-126 | when the empty text is the only match, the question is empty, the empty text is the only candidate and the context is empty |
| AiService.MatchingInOrder | src/lib/ai-service.ts:120-125 | the matches are the candidates containing the lowercased question, in candidate order |
| AiService.ContextText | src/lib/ai-service.ts:120-126 | with no matching candidate the context falls back to the first two candidates joined by a space |
| AiService.TruncateContext | src/lib/ai-service.ts:129-130 | the truncated context is a prefix of the context, at most 5000 characters, equal to it when it fits |
| AiService.ModelContext | src/lib/ai-service.ts:109-130 | the text handed to the model is a prefix of the assembled context and at most 5000 characters long |
| AiService.GenerateAIResponse | src/lib/ai-service.ts:96-149 | a throw gives the error apology; a non-empty answer is returned; no answer gives the follow-up clarification iff follow-up, else the not-found apology |
| AiService.TrainingPairShape | src/lib/ai-service.ts:82-91 | a sentence yields a pair iff its trim has more than 5 space-separated words; the answer is the trimmed sentence and the question quotes its first five words between the fixed prefix and "...?" |
| AiService.TrainingPairsOrigins | src/lib/ai-service.ts:79-93 | one pair per long sentence, in sentence order; each pair is exactly the pair its sentence yields (so `TrainingPairShape` gives its question), with the trimmed sentence as answer |
| AiService.GenerateTrainingQuestions | src/lib/ai-service.ts:79-93 | there are never more training pairs than non-blank sentences in the material |
| CourseCatalog.KeepIsConjunction | src/hooks/use-courses.ts:26-57 | a course is kept iff it passes the category, level, price and search tests |
| CourseCatalog.FilterCoursesSpec | src/hooks/use-courses.ts:25-58 | the result is an order-preserving subsequence of the catalog containing exactly the kept courses, each as often as in the catalog |
| CourseCatalog.FilterCourses | src/hooks/use-courses.ts:25-58 | every returned course is a catalog course that passes the filters |
| CourseCatalog.NoFiltersKeepAll | src/hooks/use-courses.ts:26-57 | with no truthy category or search and no level or bounds, the whole catalog is returned in order |
| CourseCatalog.FindIndex | src/hooks/use-courses.ts:61 | the index found is the first course with the id, or the catalog length when none has it |
| CourseCatalog.GetCourseById | src/hooks/use-courses.ts:60-62 | absent iff no course has the id; otherwise the first course with that id |
| FirebaseCourses.MergeId | src/hooks/useFirebaseCourses.ts:15-18 | the record's id is the document id, overriding a stored `id`; every other field is the document's |
| FirebaseCourses.EmptyFiltersKeepAll | src/hooks/useFirebaseCourses.ts:21-23 | an empty filter object keeps every fetched course |
| FirebaseCourses.FilteredCoursesSpec | src/hooks/useFirebaseCourses.ts:21-23 | the result preserves fetch order and keeps a course iff every filter key's value equals its field; an `id` filter keeps only that document |
| FirebaseCourses.FilteredCoursesCount | src/hooks/useFirebaseCourses.ts:21-23 | a kept course appears in the result as often as among the fetched courses, duplicates included |
| FirebaseCourses.FilteredCourses | src/hooks/useFirebaseCourses.ts:21-23 | no more courses than fetched documents, and each kept course matches every filter field |
| FirebaseCourses.CoursesHook.FetchCourses | src/hooks/useFirebaseCourses.ts:11-31 | a fetch sets the courses to the filtered documents, a failure to the empty list, and loading is false afterwards |
| AuthForm.FormData.With | src/components/auth/AuthForm.tsx:36-39 | the named field takes the value and every other field is unchanged |
| AuthForm.FormErrors.Cleared | src/components/auth/AuthForm.tsx:41-43 | only the named field's error is cleared |
| AuthForm.EmailUnanchored | src/components/auth/AuthForm.tsx:65 | the email test is unanchored: text around a valid address still passes |
| AuthForm.ValidationPasses | src/components/auth/AuthForm.tsx:46-95 | the form is valid iff register has a non-empty name, the email is non-empty and has the `x@y.z` shape, the password has at least 6 characters, and a registering tutor filled all three tutor fields |
| AuthForm.LoginIgnoresName | src/components/auth/AuthForm.tsx:57-78 | the login form's validity does not depend on the name or the tutor fields |
| AuthForm.AuthFormState.constructor | src/components/auth/AuthForm.tsx:15-34 | the form starts with the initial data, no errors and not loading |
| AuthForm.AuthFormState.HandleChange | src/components/auth/AuthForm.tsx:36-44 | only the named field changes and only its error is cleared |
| AuthForm.AuthFormState.ValidateForm | src/components/auth/AuthForm.tsx:46-95 | the error record is replaced by the validation result and the result is true iff no error |
| AuthForm.AuthFormState.HandleSubmit | src/components/auth/AuthForm.tsx:97-125 | an invalid form calls nothing; login passes email and password, register only name, email and password; navigation to /dashboard iff valid and the call succeeded |
| CourseCreation.ApplyEdit | src/pages/CourseCreation.tsx:73-77 | the edited field takes the value and the lesson's other fields are unchanged |
| CourseCreation.BlankLessonInvalid | src/pages/CourseCreation.tsx:264-306 | a freshly added lesson does not pass step 2 |
| CourseCreation.LessonRecordOf | src/pages/CourseCreation.tsx:172-179 | the stored lesson keeps title, duration, preview and type; the video URL only for YouTube lessons; the transcript file as its name |
| CourseCreation.MaterialRecordOf | src/pages/CourseCreation.tsx:180-184 | the stored material keeps title and type, with the file name as URL when a file was uploaded |
| CourseCreation.TranscriptText | src/pages/CourseCreation.tsx:142-155 | only transcript-type materials with a file give a text: the file's text, or the title when the file cannot be read |
| CourseCreation.SystemPrompt | src/pages/CourseCreation.tsx:158-161 | the prompt is absent iff there are no texts, else the texts joined by a blank line |
| CourseCreation.PromptOrigins | src/pages/CourseCreation.tsx:142-161 | the prompt texts come one per transcript material with a file, in material order |
| CourseCreation.UploadedTexts | src/pages/CourseCreation.tsx:125-155 | dropping materials without a file first changes no prompt text |
| CourseCreation.CourseId | src/pages/CourseCreation.tsx:122 | the id is "course_" followed by the decimal digits of the timestamp |
| CourseCreation.CollectTranscriptTexts | src/pages/CourseCreation.tsx:142-155 | the loop collects exactly the transcript texts of the materials, in order |
| CourseCreation.CheckLesson | src/pages/CourseCreation.tsx:264-306 | a lesson passes iff it has a non-blank title and duration, a non-blank URL when YouTube or a video file when uploaded, and a transcript file |
| CourseCreation.ValidateLessons | src/pages/CourseCreation.tsx:264-306 | the loop passes iff every lesson passes |
| CourseCreation.CourseCreationForm.constructor | src/pages/CourseCreation.tsx:33-46 | the wizard starts at step 1, not submitting, with empty title, description, category and price, level "Beginner", one blank lesson and no materials |
| CourseCreation.CourseCreationForm.Reset | src/pages/CourseCreation.tsx:197-204 | after a stored course the form is back in its initial state |
| CourseCreation.CourseCreationForm.AddLesson | src/pages/CourseCreation.tsx:62-65 | exactly one blank lesson is appended; everything else is unchanged |
| CourseCreation.CourseCreationForm.RemoveLesson | src/pages/CourseCreation.tsx:67-71 | exactly that lesson is removed, others kept in order; a negative index counts from the end (below minus the length it removes the first lesson), an index at or past the end changes nothing; every other field is unchanged |
| CourseCreation.CourseCreationForm.UpdateLesson | src/pages/CourseCreation.tsx:73-77 | only the named field of the indexed lesson changes; every other field of the form is unchanged |
| CourseCreation.CourseCreationForm.HandleFileUpload | src/pages/CourseCreation.tsx:79-97 | one material titled with the file name is appended, or nothing when no file was chosen; every other field is unchanged |
| CourseCreation.CourseCreationForm.RemoveMaterial | src/pages/CourseCreation.tsx:99-103 | exactly that material is removed, others kept in order; every other field is unchanged |
| CourseCreation.CourseCreationForm.ValidateStep | src/pages/CourseCreation.tsx:218-321 | step 1 needs trimmed title and description and non-empty category, level, price; step 2 every lesson valid; step 3 a material; other steps pass |
| CourseCreation.CourseCreationForm.NextStep | src/pages/CourseCreation.tsx:323-333 | the step increases by exactly one iff the current step validates, else stays; the step stays in 1..3 when next is offered; every other field is unchanged |
| CourseCreation.CourseCreationForm.PrevStep | src/pages/CourseCreation.tsx:335-337 | the step decreases by one and stays in range when previous is offered; every other field is unchanged |
| CourseCreation.CourseCreationForm.Record | src/pages/CourseCreation.tsx:164-186 | the stored record carries the details, every lesson and material record in order, and the transcript prompt |
| CourseCreation.CourseCreationForm.BuildRecord | src/pages/CourseCreation.tsx:164-186 | the assembled record is `Record` |
| CourseCreation.CourseCreationForm.HandleSubmit | src/pages/CourseCreation.tsx:105-216 | something is stored iff there are materials and uploads succeed; it is the record under `course_<now>`; the form resets only after a successful store |
| ResourceUploader.AddCheck | src/components/courses/CourseResourceUploader.tsx:40-56 | a blank trimmed title is rejected first, then a missing file; otherwise the resource is added |
| ResourceUploader.NewResource | src/components/courses/CourseResourceUploader.tsx:58-66 | the new resource has the timestamp id, the chosen type, the trimmed title and description and the file |
| ResourceUploader.WithoutId | src/components/courses/CourseResourceUploader.tsx:77-79 | every resource with the id is removed and every other one kept |
| ResourceUploader.WithoutIdOrder | src/components/courses/CourseResourceUploader.tsx:77-79 | removal keeps the remaining resources in order, and removes nothing when no resource has the id |
| ResourceUploader.Uploader.constructor | src/components/courses/CourseResourceUploader.tsx:19-30 | the uploader starts with an empty list and an empty transcript form |
| ResourceUploader.Uploader.ClearForm | src/components/courses/CourseResourceUploader.tsx:68-71 | title, description and file are cleared and the list is kept |
| ResourceUploader.Uploader.HandleFileChange | src/components/courses/CourseResourceUploader.tsx:33-37 | a chosen file is selected; an empty choice keeps the previous file; the list, the rest of the form and the loading flag are unchanged |
| ResourceUploader.Uploader.HandleAddResource | src/components/courses/CourseResourceUploader.tsx:39-75 | a rejected add changes nothing; an accepted add appends exactly the new resource and clears the form |
| ResourceUploader.Uploader.HandleRemoveResource | src/components/courses/CourseResourceUploader.tsx:77-79 | the list loses exactly the resources with the id; the form, the resource type and the loading flag are unchanged |
| ResourceUploader.Uploader.HandleSubmit | src/components/courses/CourseResourceUploader.tsx:81-129 | an empty list uploads nothing; after successful uploads the list and form are cleared, after a failure they are kept; the resource type is unchanged and loading is over |
| CourseFilters.Merge | src/components/courses/CourseFilters.tsx:45-53 | each emitted field is the update's value when defined, otherwise the panel's current value |
| CourseFilters.DefinedChangeIsCurrent | src/components/courses/CourseFilters.tsx:25-53 | a change passing defined values emits exactly the panel's new state |
| CourseFilters.AllOptionReemitsPrevious | src/components/courses/CourseFilters.tsx:30-48 | choosing "All Categories" or "All Levels" clears the panel's value but emits the previous one |
| CourseFilters.IntendedFilters | src/components/courses/CourseFilters.tsx:45-53 | the corrected merge always emits the filters of the panel's new state |
| CourseFilters.IntendedAgreesOnDefined | src/components/courses/CourseFilters.tsx:45-53 | the corrected merge agrees with the written one on every change that passes defined values |
| CourseFilters.StaleSelectionEmitted | src/components/courses/CourseFilters.tsx:30-48 | after a selection, the written merge differs from the intended one for "All Categories" and "All Levels" |
| CourseFilters.PriceSelectValue | src/components/courses/CourseFilters.tsx:132 | the select value is `${min or 0}-${max or ''}` |
| CourseFilters.ParseBound | src/components/courses/CourseFilters.tsx:134 | an empty side of the option is undefined, a digit string its number |
| CourseFilters.ParsePriceOption | src/components/courses/CourseFilters.tsx:134 | the minimum is undefined iff the text before the first '-' is empty; a maximum is defined only when a non-empty second piece follows the '-' |
| CourseFilters.OptionTextSplit | src/components/courses/CourseFilters.tsx:134-143 | an option "a-b" splits on '-' into its two sides |
| CourseFilters.PriceOptionRoundTrip | src/components/courses/CourseFilters.tsx:132-143 | an option "a-b" parses to (a, b), and the select then shows that option again |
| CourseFilters.NoRangeShowsAllPrices | src/components/courses/CourseFilters.tsx:132-139 | no price range renders as "0-", which parses to minimum 0 and no maximum |
| CourseFilters.AllPricesKeepsMaximum | src/components/courses/CourseFilters.tsx:40-50 | "All Prices" after a bounded range emits minimum 0 and keeps the old maximum, unlike the intended merge |
| CourseFilters.ZeroMinimumHidesClear | src/components/courses/CourseFilters.tsx:148 | a minimum of 0 alone does not show the clear button; a maximum does |
| CourseFilters.HiddenClearKeepsAll | src/components/courses/CourseFilters.tsx:148 | while the clear button is hidden every course of non-negative price is kept, except under a maximum of 0, which hides the button yet drops every paid course |
| CourseFilters.ClearedFiltersKeepAll | src/components/courses/CourseFilters.tsx:55-61 | the emitted `{}` keeps the whole catalog |
| CourseFilters.FilterPanel.constructor | src/components/courses/CourseFilters.tsx:19-22 | the panel starts empty, without the clear button |
| CourseFilters.FilterPanel.Handle | src/components/courses/CourseFilters.tsx:25-53 | a change updates the panel state and emits the written merge with the old state |
| CourseFilters.FilterPanel.HandleIntended | src/components/courses/CourseFilters.tsx:25-53 | with the corrected merge, what is emitted always describes the panel's new state |
| CourseFilters.FilterPanel.HandleSearchChange | src/components/courses/CourseFilters.tsx:25-28 | the search text is set and emitted with the other current fields |
| CourseFilters.FilterPanel.HandleCategoryChange | src/components/courses/CourseFilters.tsx:30-33 | the category is set; the emitted category is the new one, or the old one for "All Categories" |
| CourseFilters.FilterPanel.HandleLevelChange | src/components/courses/CourseFilters.tsx:35-38 | the level is set; the emitted level is the new one, or the old one for "All Levels" |
| CourseFilters.FilterPanel.HandlePriceSelect | src/components/courses/CourseFilters.tsx:40-43 | the range becomes the parsed option, other fields unchanged, and the merge is emitted |
| CourseFilters.FilterPanel.ClearAllFilters | src/components/courses/CourseFilters.tsx:55-61 | everything is reset, the clear button hides and `{}` is emitted |
| ContentAccordion.MarkerAt | src/components/courses/CourseContentAccordion.tsx:23 | a marker (`youtu?be/`, `v/`, `u/<word>/`, `embed/`, `watch?v=`, `&v=`) is 2 to 9 characters and lies inside the URL |
| ContentAccordion.LastMarker | src/components/courses/CourseContentAccordion.tsx:23 | the greedy `.*` selects the right-most marker on the first line, and none when there is no marker |
| ContentAccordion.RunEnd | src/components/courses/CourseContentAccordion.tsx:23 | the capture is the maximal run without '#', '&' or '?' |
| ContentAccordion.Capture | src/components/courses/CourseContentAccordion.tsx:23 | a captured id contains no '#', '&' or '?' |
| ContentAccordion.GetYoutubeVideoId | src/components/courses/CourseContentAccordion.tsx:22-26 | an id has exactly 11 characters without '#', '&' or '?' and is the whole run after the right-most marker; no marker gives none |
| ContentAccordion.IdAfterLastMarker | src/components/courses/CourseContentAccordion.tsx:22-26 | conversely, when the right-most marker of the first line is followed by a maximal run of exactly 11 characters other than '#', '&' and '?', that run is the id (so `youtu.be/<id>`, `embed/<id>`, `watch?v=<id>&t=42s` and `youtu.be/<id>?si=…` all yield it) |
| ContentAccordion.NoMarkerWithoutPunctuation | src/components/courses/CourseContentAccordion.tsx:23 | no marker starts inside a run of id characters |
| ContentAccordion.WatchUrlId | src/components/courses/CourseContentAccordion.tsx:22-26 | a one-line URL ending in `watch?v=` and an 11-character id yields that id |
| ContentAccordion.NoMarkerNoId | src/components/courses/CourseContentAccordion.tsx:23-25 | a URL with no marker yields no id |
| ContentAccordion.Toggled | src/components/courses/CourseContentAccordion.tsx:43-45 | after a toggle at most the toggled section is open, and it is open iff it was closed |
| ContentAccordion.ToggleTwice | src/components/courses/CourseContentAccordion.tsx:43-45 | toggling a section twice closes it, or restores it when it was open |
| ContentAccordion.Accordion.constructor | src/components/courses/CourseContentAccordion.tsx:17-19 | section 0 starts open and the modal closed |
| ContentAccordion.Accordion.ToggleSection | src/components/courses/CourseContentAccordion.tsx:43-45 | the open section becomes `Toggled` and the modal is untouched |
| ContentAccordion.Accordion.OpenVideoModal | src/components/courses/CourseContentAccordion.tsx:47-59 | only non-YouTube or URL-less lessons alert; a YouTube URL with a valid id opens the modal with it; otherwise nothing changes |
| ChatAssistant.FirstMentionedIsFirst | src/components/assistant/AIChatAssistant.tsx:63-82 | the reference selection returns a mentioned topic with no earlier topic mentioned, or Generic iff none is mentioned |
| ChatAssistant.ReplyTopic | src/components/assistant/AIChatAssistant.tsx:63-82 | any topic other than the generic one is mentioned by the lowercased question |
| ChatAssistant.ReplyTopicIsFirstMentioned | src/components/assistant/AIChatAssistant.tsx:64-82 | the if/else chain equals the first topic mentioned in the order javascript/js, python, react, html/css, course/recommend, career/job, difficulty/hard |
| ChatAssistant.ReplyTopicOrder | src/components/assistant/AIChatAssistant.tsx:64-82 | the chosen topic is mentioned and no earlier one is; the generic reply iff no keyword occurs |
| ChatAssistant.ReplyTopicIgnoresCase | src/components/assistant/AIChatAssistant.tsx:64 | the choice does not depend on letter case |
| ChatAssistant.JsonMeansJavaScript | src/components/assistant/AIChatAssistant.tsx:64-66 | "json" selects the JavaScript reply |
| ChatAssistant.JavaScriptBeforeReact | src/components/assistant/AIChatAssistant.tsx:66-70 | with both "javascript" and "react", the JavaScript reply wins |
| ChatAssistant.ReplyTo | src/components/assistant/AIChatAssistant.tsx:84-89 | the assistant message carries the reply of the selected topic |
| ChatAssistant.Exchange | src/components/assistant/AIChatAssistant.tsx:46-91 | a submission adds the user message with the untrimmed input, then the assistant reply |
| ChatAssistant.SuggestionsUntilFirstQuestion | src/components/assistant/AIChatAssistant.tsx:224 | in a conversation, exactly one message means no user message yet |
| ChatAssistant.ConversationExtend | src/components/assistant/AIChatAssistant.tsx:46-91 | appending a non-blank question and its reply keeps the conversation invariant (greeting first, alternating roles, each question answered) |
| ChatAssistant.Chat.constructor | src/components/assistant/AIChatAssistant.tsx:22-31 | the chat starts with the greeting alone, showing suggestions |
| ChatAssistant.Chat.HandleSubmit | src/components/assistant/AIChatAssistant.tsx:40-102 | blank input changes nothing; otherwise the exchange is appended, the input cleared and loading ends, keeping the invariant |
| ChatAssistant.Chat.Send | src/components/assistant/AIChatAssistant.tsx:46-91 | a non-blank input is sent: the history gains exactly the exchange for it, the input is cleared, loading is over, and the conversation invariant holds |
| ChatAssistant.Chat.HandleSuggestionClick | src/components/assistant/AIChatAssistant.tsx:134-136 | a suggestion only sets the input |
| CourseAIContext.Relevant | src/context/AIContext.tsx:195-201 | the relevant texts contain the lowercased question, and there is one iff some text does |
| CourseAIContext.ContextAwareReply | src/context/AIContext.tsx:179-214 | the reply quotes iff some material or transcript is relevant, and the more-details reply needs more than one recent message |
| CourseAIContext.ReplyText | src/context/AIContext.tsx:203-214 | a quoting reply ends with the quoted excerpt |
| CourseAIContext.QuotesOnlyOnMention | src/context/AIContext.tsx:195-205 | the reply quotes iff some material or transcript contains the question |
| CourseAIContext.QuotesFirstMaterial | src/context/AIContext.tsx:203-205 | the first matching material is quoted when it is non-empty |
| CourseAIContext.QuotesFirstTranscript | src/context/AIContext.tsx:203-205 | with no matching material the first matching transcript is quoted |
| CourseAIContext.EmptyMaterialQuotesUndefined | src/context/AIContext.tsx:203-205 | an empty matching material with no matching transcript quotes "undefined" |
| CourseAIContext.UnmatchedReply | src/context/AIContext.tsx:191-214 | without a match, a follow-up asking for "more" or "elaborate" gets the more-details reply, otherwise the covered-content reply |
| CourseAIContext.EmptyQuestionQuotes | src/context/AIContext.tsx:195-205 | the empty question is contained in every text, so it is always quoted when there is a material |
| CourseAIContext.RecentMessages | src/context/AIContext.tsx:142-151 | the window holds the last five entries of the history with the new question, ending with it |
| CourseAIContext.OlderEntriesIgnored | src/context/AIContext.tsx:151 | histories agreeing on their last four entries give the same window |
| CourseAIContext.AIProvider.constructor | src/context/AIContext.tsx:38-47 | the provider starts unloaded, not loading, without data |
| CourseAIContext.AIProvider.LoadCourseAI | src/context/AIContext.tsx:52-130 | the data is reset with an empty history; loaded iff some embeddings were stored; loading ends |
| CourseAIContext.AIProvider.GenerateAIResponse | src/context/AIContext.tsx:133-176 | not loaded gives the fixed reply and keeps the history; otherwise the question and any answer are appended; a missing answer or failed log gives the error apology |

## Left out

- The Gemini request itself (src/lib/gemini-service.ts:51-69) is an outcome parameter of `QueryGemini`: an answer, or a throw with an optional message.
- The transformers pipeline, `initializeModel` and the model store and load (src/lib/ai-service.ts:10-76) are left out. The model is a function parameter giving a result or a failure.
- `loadCourseAI` fetches materials and builds random mock vectors. It calls `storeCourseEmbeddings` and `getStoredEmbeddings`, which src/context/AIContext.tsx never imports. The embeddings list is always empty when it is tested (src/context/AIContext.tsx:62-65), so `storeCourseEmbeddings` is always called. As written, every call therefore throws a ReferenceError into the catch at lines 116-124, and the course AI never loads. The model keeps only the state changes. The number of stored embeddings, or a throw, is the `stored` parameter. CourseAIContext.AIProvider.LoadCourseAI therefore describes the intended path; in the program as written, `stored` is always the throw case (`None`), and its contract then gives `loaded == false`.
- `generateAIResponse` in src/context/AIContext.tsx calls itself at line 160. That call, and the ai-service function it should reach, are the `respond` parameter. The chat log write is the `logOk` flag.
- Firestore and Storage reads, writes and uploads are flags or parameters: the fetch result, the upload and store success, and the file reader.
- Asynchrony, `setTimeout` delays and `Promise.all` fan-out are left out. Each handler runs to completion.
- `Date.now()` ids and `new Date()` values are `nat` parameters. Message timestamps are not modelled.
- `parseFloat` of the course price is left out; the price stays the string the form holds. Catalog prices are reals.
- CourseFilters.FilterPanel.HandlePriceSelect: requires an option of the form digits '-' digits. These are the only values the select offers, so `Number` never yields NaN.
- CourseCreation.CourseCreationForm.UpdateLesson: requires an index in range. The source only calls it with one; out of range, JavaScript would extend the array.
- `formatTime` is modelled for natural numbers only. Fractional and negative seconds are left out.
- Lengths and slices count Unicode code points, not the UTF-16 code units that JavaScript's `.length` and `.slice` count. Characters outside the Basic Multilingual Plane therefore count once here and twice in the source. This affects the password length check (src/components/auth/AuthForm.tsx:73), the `word.length > 3` test (src/lib/gemini-service.ts:24), the 11-character video id (src/components/courses/CourseContentAccordion.tsx:25) and the 5000-character context budget (src/lib/ai-service.ts:130). In JavaScript that budget can also cut a surrogate pair in half.
- `toLowerCase` and the regex classes are modelled on ASCII letters and the JavaScript whitespace set. Unicode case mapping is not modelled.
- Files are identified by name. Two distinct files with the same name are not told apart.
- Toasts, alerts, the clipboard, scrolling, the ESC listener, the catalog loading timer and the uploader's type and title inputs are UI effects and are not modelled. Course fields that no core function reads are not modelled either.
- The chat's `catch` branch cannot be reached from the keyword selection and is left out.
- ChatAssistant.ReplyText: each fixed reply is cut to its opening words (the full replies are several sentences long). Only which reply is chosen is modelled.
- The model's result object is reduced to its `answer`. A missing result counts as no answer, and a throw from initialization or from the call is `Failure`.

## Findings

| source | as written | input that shows it | evidently intended | confidence | as-written member | corrected member |
|---|---|---|---|---|---|---|
| src/components/courses/CourseFilters.tsx:30-38, 47-48 | `applyFilters` keeps the current category or level when the handler passes `undefined`, so choosing "All Categories" or "All Levels" emits the previous selection | category "Web Development", then "All Categories": the panel shows no category but the catalog stays filtered by "Web Development" | the emitted filters describe the panel's new state | high, not executed | CourseFilters.StaleSelectionEmitted | CourseFilters.IntendedFilters |
| src/components/courses/CourseFilters.tsx:40-43, 49-50, 134 | "All Prices" parses to minimum 0 and an undefined maximum, and the merge keeps the old maximum | "$25 to $50", then "All Prices": the emitted maximum stays 50 | no maximum after "All Prices" | high, not executed | CourseFilters.AllPricesKeepsMaximum | CourseFilters.IntendedFilters |

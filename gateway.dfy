/** The AI gateway's own logic: everything it computes around the call to the
    language model. The model's reply (already parsed from JSON where the
    task asks for JSON) is a parameter: `Success` with the fields it holds,
    or `Failure` with the message of the error that the call or the parse
    threw. */
module Gateway {
  import opened Wrappers
  import opened Rows
  import opened Schema

  // --------------------------------------------------------------- errors

  datatype Task = ChatTurn | QuestionGeneration | PerformanceAnalysis | Summary | PdfAnalysis | Translation

  /** Every task rethrows a failure under its own message prefix. */
  function ErrorPrefix(t: Task): string {
    match t
    case ChatTurn => "فشل في الحصول على استجابة من المساعد الذكي: "
    case QuestionGeneration => "فشل في توليد الأسئلة التقييمية: "
    case PerformanceAnalysis => "فشل في تحليل الأداء: "
    case Summary => "فشل في إنشاء الملخص: "
    case PdfAnalysis => "فشل في تحليل محتوى الملف: "
    case Translation => "فشل في ترجمة المحتوى: "
  }

  /** The error a task rethrows: its prefix followed by the original message. */
  function Rethrow(t: Task, message: string): (e: string)
    ensures |e| == |ErrorPrefix(t)| + |message|
    ensures e[..|ErrorPrefix(t)|] == ErrorPrefix(t) && e[|ErrorPrefix(t)|..] == message
  {
    ErrorPrefix(t) + message
  }

  /** No task's prefix begins another's, so a rethrown error names its task
      and keeps the original message intact. */
  lemma {:induction false} RethrowInjective(t1: Task, m1: string, t2: Task, m2: string)
    requires Rethrow(t1, m1) == Rethrow(t2, m2)
    ensures t1 == t2 && m1 == m2
  {
    if t1 != t2 {
      PrefixesDiffer(t1, t2);
      assert false;
    }
  }

  /** Characters 8 and 13 of each prefix, after the shared "فشل في ". */
  function Marks(t: Task): (char, char) {
    match t
    case ChatTurn => ('ل', ' ')
    case QuestionGeneration => ('و', 'ا')
    case PerformanceAnalysis => ('ح', 'ا')
    case Summary => ('ن', 'ا')
    case PdfAnalysis => ('ح', 'م')
    case Translation => ('ر', 'ا')
  }

  lemma {:induction false} PrefixMarks(t: Task)
    ensures |ErrorPrefix(t)| > 13 && (ErrorPrefix(t)[8], ErrorPrefix(t)[13]) == Marks(t)
  {
    match t
    case ChatTurn =>
    case QuestionGeneration =>
    case PerformanceAnalysis =>
    case Summary =>
    case PdfAnalysis =>
    case Translation =>
  }

  /** Characters 8 and 13 tell the prefixes apart. */
  lemma {:induction false} PrefixesDiffer(t1: Task, t2: Task)
    requires t1 != t2
    ensures |ErrorPrefix(t1)| > 13 && |ErrorPrefix(t2)| > 13
    ensures ErrorPrefix(t1)[8] != ErrorPrefix(t2)[8] || ErrorPrefix(t1)[13] != ErrorPrefix(t2)[13]
  {
    PrefixMarks(t1);
    PrefixMarks(t2);
  }

  // ------------------------------------------------------------ chat turn

  /** What the model is shown for a chat turn: the student's message, the
      conversation context, and the subject when there is one. */
  datatype ChatRequest = ChatRequest(message: string, context: string, subject: Option<string>)

  datatype ChatResponse = ChatResponse(content: string, metadata: MessageMetadata)

  /** The reply: the model's text or "" when it sent none, with metadata
      naming the model, the time and the subject the turn was asked under. */
  function GenerateChatResponse(completion: Result<Option<string>>, subject: Option<string>, now: int)
    : (r: Result<ChatResponse>)
    ensures r.Success? <==> completion.Success?
    ensures r.Success? ==>
              && r.value.content == OrDefault(completion.value, "")
              && r.value.metadata == MessageMetadata("gpt-4o", now, subject)
    ensures r.Failure? ==> r.error == Rethrow(ChatTurn, completion.error)
  {
    match completion
    case Failure(msg) => Failure(Rethrow(ChatTurn, msg))
    case Success(text) => Success(ChatResponse(OrDefault(text, ""), MessageMetadata("gpt-4o", now, subject)))
  }

  // ------------------------------------------------- assessment questions

  datatype AssessmentQuestion = AssessmentQuestion(
    question: string, options: seq<string>, correctAnswer: int, explanation: string, difficulty: string)

  /** The request after the route's and the function's defaults. */
  datatype QuestionRequest = QuestionRequest(subject: string, chapter: Option<string>, difficulty: string, count: int)

  /** An absent difficulty is "medium", an absent count is 5. */
  function QuestionRequestOf(subject: string, chapter: Option<string>, difficulty: Option<string>, count: Option<int>)
    : (r: QuestionRequest)
    ensures r.difficulty == (if difficulty.None? then "medium" else difficulty.value)
    ensures r.count == (if count.None? then 5 else count.value)
    ensures r.subject == subject && r.chapter == chapter
  {
    QuestionRequest(subject, chapter, difficulty.GetOr("medium"), count.GetOr(5))
  }

  /** The parsed question list, or the empty list when the object has no
      `questions`; a failed call or parse is rethrown. */
  function GenerateAssessmentQuestions(parsed: Result<Option<seq<AssessmentQuestion>>>)
    : (r: Result<seq<AssessmentQuestion>>)
    ensures r.Success? <==> parsed.Success?
    ensures r.Success? && parsed.value.None? ==> r.value == []
    ensures r.Success? && parsed.value.Some? ==> r.value == parsed.value.value
    ensures r.Failure? ==> r.error == Rethrow(QuestionGeneration, parsed.error)
  {
    match parsed
    case Failure(msg) => Failure(Rethrow(QuestionGeneration, msg))
    case Success(qs) => Success(qs.GetOr([]))
  }

  // ------------------------------------------------- performance analysis

  datatype Answer = Answer(questionId: int, userAnswer: int, correctAnswer: int)

  function IsCorrect(a: Answer): bool { a.userAnswer == a.correctAnswer }
  function IsWrong(a: Answer): bool { a.userAnswer != a.correctAnswer }

  /** The number of answers that match their correct answer. */
  function CorrectAnswers(answers: seq<Answer>): (n: nat)
    ensures n <= |answers|
  {
    |Select(answers, IsCorrect)|
  }

  /** Every answer is either right or wrong: the count of right answers and
      the count of wrong ones add up to the number of questions. */
  lemma {:induction false} CorrectPlusWrong(answers: seq<Answer>)
    ensures CorrectAnswers(answers) + |Select(answers, IsWrong)| == |answers|
  {
    if answers != [] {
      CorrectPlusWrong(answers[1..]);
    }
  }

  /** All answers right exactly when the count is the total; none right
      exactly when it is zero. */
  lemma {:induction false} CorrectAnswersExtremes(answers: seq<Answer>)
    ensures CorrectAnswers(answers) == |answers| <==> forall i :: 0 <= i < |answers| ==> IsCorrect(answers[i])
    ensures CorrectAnswers(answers) == 0 <==> forall i :: 0 <= i < |answers| ==> !IsCorrect(answers[i])
  {
    if answers != [] {
      CorrectAnswersExtremes(answers[1..]);
      assert forall i :: 1 <= i < |answers| ==> answers[i] == answers[1..][i - 1];
      assert |Select(answers[1..], IsCorrect)| <= |answers[1..]|;
    }
  }

  /** The percentage of correct answers, for a non-empty answer list. */
  function Score(answers: seq<Answer>): (r: real)
    requires |answers| > 0
    ensures 0.0 <= r <= 100.0
    ensures r == 100.0 <==> forall i :: 0 <= i < |answers| ==> IsCorrect(answers[i])
    ensures r == 0.0 <==> forall i :: 0 <= i < |answers| ==> !IsCorrect(answers[i])
  {
    CorrectAnswersExtremes(answers);
    ScoreBounds(CorrectAnswers(answers), |answers|);
    (CorrectAnswers(answers) as real / |answers| as real) * 100.0
  }

  lemma {:induction false} ScoreBounds(c: nat, n: nat)
    requires 0 < n && c <= n
    ensures 0.0 <= (c as real / n as real) * 100.0 <= 100.0
    ensures (c as real / n as real) * 100.0 == 100.0 <==> c == n
    ensures (c as real / n as real) * 100.0 == 0.0 <==> c == 0
  {
    var q := c as real / n as real;
    assert q * n as real == c as real;
    if c == n {
      assert q == 1.0;
    }
    if q == 1.0 {
      assert c as real == n as real;
    }
  }

  /** A JavaScript number: the score formula on an empty list is 0 / 0. */
  datatype JsNumber = Finite(r: real) | NaN

  /** The score formula as the source writes it, with no guard for an empty list. */
  function ScoreAsWritten(answers: seq<Answer>): JsNumber {
    if |answers| == 0 then NaN else Finite(Score(answers))
  }

  /** An empty answer list gets past the route's `!answers` check (an empty
      array is truthy) and scores 0 / 0. */
  lemma {:induction false} EmptyAnswersScoreNaN()
    ensures ScoreAsWritten([]) == NaN
    ensures CorrectAnswers([]) == 0
  {
  }

  /** What the model is shown about a graded quiz: the counts, the score and,
      question by question, only whether the answer was right. */
  datatype AnalysisRequest = AnalysisRequest(
    subject: string, chapter: Option<string>, totalQuestions: nat, correctAnswers: nat, marks: seq<bool>)

  function AnalysisRequestOf(subject: string, answers: seq<Answer>, chapter: Option<string>)
    : (r: AnalysisRequest)
    ensures r.totalQuestions == |answers| == |r.marks|
    ensures forall i :: 0 <= i < |answers| ==> r.marks[i] == IsCorrect(answers[i])
    ensures r.correctAnswers <= r.totalQuestions
  {
    assert |Select(answers, IsCorrect)| <= |answers|;
    AnalysisRequest(subject, chapter, |answers|, CorrectAnswers(answers),
                    seq(|answers|, i requires 0 <= i < |answers| => IsCorrect(answers[i])))
  }

  /** What the model is asked to return, after `JSON.parse`. */
  datatype ParsedAnalysis = ParsedAnalysis(weakAreas: Option<seq<string>>, recommendations: Option<seq<string>>)

  datatype WeaknessAnalysis = WeaknessAnalysis(
    subject: string, chapter: Option<string>, score: real, totalQuestions: nat, correctAnswers: nat,
    weakAreas: seq<string>, recommendations: seq<string>)

  /** The counts and the score are computed locally; only weak areas and
      recommendations come from the model, defaulting to empty lists. */
  function AnalyzePerformance(subject: string, answers: seq<Answer>, chapter: Option<string>,
                              parsed: Result<ParsedAnalysis>)
    : (r: Result<WeaknessAnalysis>)
    requires |answers| > 0
    ensures r.Success? <==> parsed.Success?
    ensures r.Success? ==>
              && r.value.subject == subject && r.value.chapter == chapter
              && r.value.totalQuestions == |answers|
              && r.value.correctAnswers <= r.value.totalQuestions
              && r.value.score == Score(answers)
              && 0.0 <= r.value.score <= 100.0
              && r.value.weakAreas == parsed.value.weakAreas.GetOr([])
              && r.value.recommendations == parsed.value.recommendations.GetOr([])
    ensures r.Failure? ==> r.error == Rethrow(PerformanceAnalysis, parsed.error)
  {
    match parsed
    case Failure(msg) => Failure(Rethrow(PerformanceAnalysis, msg))
    case Success(p) =>
      Success(WeaknessAnalysis(subject, chapter, Score(answers), |answers|, CorrectAnswers(answers),
                               p.weakAreas.GetOr([]), p.recommendations.GetOr([])))
  }

  // -------------------------------------------------------------- summary

  datatype SummaryTemplate = General | Weaknesses | ForgottenPoints | Clarifications

  /** The `switch` on `summaryType`: three named templates, anything else general. */
  function TemplateFor(summaryType: string): (t: SummaryTemplate)
    ensures t == Weaknesses <==> summaryType == "weaknesses"
    ensures t == ForgottenPoints <==> summaryType == "forgotten_points"
    ensures t == Clarifications <==> summaryType == "clarifications"
    ensures t == General <==> summaryType !in {"weaknesses", "forgotten_points", "clarifications"}
  {
    if summaryType == "weaknesses" then Weaknesses
    else if summaryType == "forgotten_points" then ForgottenPoints
    else if summaryType == "clarifications" then Clarifications
    else General
  }

  /** The strings of `xs` with `sep` between neighbours. */
  function Join(xs: seq<string>, sep: string): string {
    if xs == [] then "" else if |xs| == 1 then xs[0] else xs[0] + sep + Join(xs[1..], sep)
  }

  function TotalLength(xs: seq<string>): nat {
    if xs == [] then 0 else |xs[0]| + TotalLength(xs[1..])
  }

  /** A join holds every item and one separator between each pair. */
  lemma {:induction false} JoinLength(xs: seq<string>, sep: string)
    requires xs != []
    ensures |Join(xs, sep)| == TotalLength(xs) + (|xs| - 1) * |sep|
  {
    if |xs| > 1 {
      JoinLength(xs[1..], sep);
    }
  }

  /** The prompt: the chosen template applied to the content, and the focus
      areas joined by ", " when the list is present and not empty. */
  datatype SummaryPrompt = SummaryPrompt(template: SummaryTemplate, content: string, focus: Option<string>)

  function SummaryPromptOf(content: string, focusAreas: Option<seq<string>>, summaryType: string)
    : (p: SummaryPrompt)
    ensures p.template == TemplateFor(summaryType) && p.content == content
    ensures p.focus.Some? <==> focusAreas.Some? && |focusAreas.value| > 0
    ensures p.focus.Some? ==> p.focus.value == Join(focusAreas.value, ", ")
  {
    var focus := if focusAreas.Some? && |focusAreas.value| > 0 then Some(Join(focusAreas.value, ", ")) else None;
    SummaryPrompt(TemplateFor(summaryType), content, focus)
  }

  const NoSummary := "لا يمكن إنشاء الملخص في الوقت الحالي."

  function GenerateSummary(completion: Result<Option<string>>): (r: Result<string>)
    ensures r.Success? <==> completion.Success?
    ensures r.Success? ==> r.value == OrDefault(completion.value, NoSummary) && r.value != ""
    ensures r.Failure? ==> r.error == Rethrow(Summary, completion.error)
  {
    match completion
    case Failure(msg) => Failure(Rethrow(Summary, msg))
    case Success(text) => Success(OrDefault(text, NoSummary))
  }

  // --------------------------------------------------------- PDF analysis

  /** The part of a file the model is shown: its first 2000 characters. */
  function PdfExcerpt(content: string): (r: string)
    ensures |r| <= 2000 && r <= content
    ensures |content| <= 2000 ==> r == content
    ensures |content| > 2000 ==> |r| == 2000
  {
    if |content| <= 2000 then content else content[..2000]
  }

  /** What the model is shown about an uploaded file: its name and the excerpt. */
  datatype PdfRequest = PdfRequest(fileName: string, excerpt: string)

  function PdfRequestOf(content: string, fileName: string): (r: PdfRequest)
    ensures r.fileName == fileName && |r.excerpt| <= 2000 && r.excerpt <= content
  {
    PdfRequest(fileName, PdfExcerpt(content))
  }

  datatype ParsedPdf = ParsedPdf(subject: Option<string>, topics: Option<seq<string>>, summary: Option<string>)

  datatype PdfAnalysisResult = PdfAnalysisResult(subject: string, topics: seq<string>, summary: string)

  const UnknownSubject := "غير محدد"
  const NoSummaryAvailable := "لا يوجد ملخص متاح"

  /** Missing or empty fields of the model's answer take placeholders. */
  function AnalyzePdfContent(parsed: Result<ParsedPdf>): (r: Result<PdfAnalysisResult>)
    ensures r.Success? <==> parsed.Success?
    ensures r.Success? ==>
              && r.value.subject == OrDefault(parsed.value.subject, UnknownSubject)
              && r.value.topics == parsed.value.topics.GetOr([])
              && r.value.summary == OrDefault(parsed.value.summary, NoSummaryAvailable)
              && r.value.subject != "" && r.value.summary != ""
    ensures r.Failure? ==> r.error == Rethrow(PdfAnalysis, parsed.error)
  {
    match parsed
    case Failure(msg) => Failure(Rethrow(PdfAnalysis, msg))
    case Success(p) =>
      Success(PdfAnalysisResult(OrDefault(p.subject, UnknownSubject), p.topics.GetOr([]),
                                OrDefault(p.summary, NoSummaryAvailable)))
  }

  // ---------------------------------------------------------- translation

  /** Property names every plain object inherits from `Object.prototype`. */
  const InheritedKeys: set<string> := {
    "constructor", "toString", "toLocaleString", "valueOf", "hasOwnProperty",
    "isPrototypeOf", "propertyIsEnumerable", "__proto__", "__defineGetter__",
    "__defineSetter__", "__lookupGetter__", "__lookupSetter__"}

  /** An inherited member as a template string prints it: the prototype
      object as "[object Object]", a built-in function as its native source. */
  function InheritedText(key: string): string {
    if key == "__proto__" then "[object Object]"
    else if key == "constructor" then "function Object() { [native code] }"
    else "function " + key + "() { [native code] }"
  }

  /** The language map, looked up with the raw code as a plain object does:
      "ar" and "en" name their language, an inherited member name finds that
      member, and any other code finds nothing. */
  function LanguageName(code: string): (r: Option<string>)
    ensures r.Some? <==> code in {"ar", "en"} || code in InheritedKeys
    ensures code == "ar" ==> r == Some("العربية")
    ensures code == "en" ==> r == Some("الإنجليزية")
    ensures code in InheritedKeys ==> r == Some(InheritedText(code))
  {
    if code == "ar" then Some("العربية")
    else if code == "en" then Some("الإنجليزية")
    else if code in InheritedKeys then Some(InheritedText(code))
    else None
  }

  /** An inherited name is taken for a language: the model is asked to
      translate into the source text of `Object`. */
  lemma {:induction false} InheritedCodeIsNamed()
    ensures LanguageName("constructor") == Some("function Object() { [native code] }")
    ensures LanguageName("toString") == Some("function toString() { [native code] }")
    ensures LanguageName("fr").None?
  {
    assert "function " + "toString" + "() { [native code] }" == "function toString() { [native code] }";
  }

  /** What the model is told: the text and what the map gives for the target
      code, absent for a code the map does not find. */
  datatype TranslationRequest = TranslationRequest(content: string, language: Option<string>)

  function TranslationRequestOf(content: string, targetLanguage: string): (r: TranslationRequest)
    ensures r.content == content
    ensures r.language.Some? <==> targetLanguage in {"ar", "en"} || targetLanguage in InheritedKeys
    ensures r.language == LanguageName(targetLanguage)
  {
    TranslationRequest(content, LanguageName(targetLanguage))
  }

  const TranslationFailed := "فشل في الترجمة"

  function TranslateContent(completion: Result<Option<string>>): (r: Result<string>)
    ensures r.Success? <==> completion.Success?
    ensures r.Success? ==> r.value == OrDefault(completion.value, TranslationFailed)
    ensures r.Failure? ==> r.error == Rethrow(Translation, completion.error)
  {
    match completion
    case Failure(msg) => Failure(Rethrow(Translation, msg))
    case Success(text) => Success(OrDefault(text, TranslationFailed))
  }
}

/**
 * The chat screen: the pure string and list logic of Chat.js (keyword
 * classification, session titles, prompt stripping, the answer marker,
 * the reply assembled from a prediction) and the component state that
 * its handlers update, as the class ChatView.
 *
 * Every network outcome a handler awaits is a parameter; the requests a
 * handler issues are returned, in order, as a sequence of Calls.
 */
module Chat {
  import opened Wrappers
  import opened Text
  import opened Alerts
  import Server

  // ---------------------------------------------------------------------------
  // Keyword classification

  // The keyword lists, row by row as they are laid out in the handler.
  const MedicalRow1: seq<string> := ["환자", "증상", "병", "아픔", "통증", "열", "기침", "두통", "복통", "어지럼", "피로"]
  const MedicalRow2: seq<string> := ["혈압", "혈당", "심장", "폐", "간", "신장", "뇌", "관절", "근육", "뼈"]
  const MedicalRow3: seq<string> := ["약", "치료", "수술", "진단", "검사", "병원", "의사", "간호사", "응급"]
  const MedicalRow4: seq<string> := ["중증도", "위험", "생명", "회복", "완치", "재발", "합병증", "부작용"]
  const MedicalRow5: seq<string> := ["혈액", "소변", "대변", "가래", "구토", "설사", "변비", "불면", "식욕"]
  const MedicalRow6: seq<string> := ["체중", "호흡", "맥박", "체온", "의식", "기억", "집중", "기분", "스트레스"]
  const MedicalKeywords: seq<string> :=
    MedicalRow1 + MedicalRow2 + MedicalRow3 + MedicalRow4 + MedicalRow5 + MedicalRow6

  const GreetingRow1: seq<string> := ["안녕", "반갑", "안녕하세요", "안녕하십니까", "안녕하신가요"]
  const GreetingRow2: seq<string> := ["좋은", "오늘", "날씨", "기분", "어떻게", "지내", "잘", "괜찮"]
  const GreetingRow3: seq<string> := ["고맙", "감사", "수고", "힘내", "화이팅", "파이팅"]
  const GreetingKeywords: seq<string> := GreetingRow1 + GreetingRow2 + GreetingRow3

  /** `text.toLowerCase().includes(keyword.toLowerCase())` */
  predicate Mentions(text: string, keyword: string) {
    Contains(ToLower(text), ToLower(keyword))
  }

  /** `keywords.some(keyword => ...)`, scanning the list from the front. */
  function MentionsAny(text: string, keywords: seq<string>): (r: bool)
    ensures r <==> exists i :: 0 <= i < |keywords| && Mentions(text, keywords[i])
  {
    if |keywords| == 0 then false
    else Mentions(text, keywords[0]) || MentionsAny(text, keywords[1..])
  }

  /** A message is answered when it is a medical question or a greeting. */
  predicate Accepted(text: string): (r: bool)
    ensures r <==> exists i :: 0 <= i < |MedicalKeywords + GreetingKeywords|
                              && Mentions(text, (MedicalKeywords + GreetingKeywords)[i])
  {
    var all := MedicalKeywords + GreetingKeywords;
    assert forall i :: 0 <= i < |MedicalKeywords| ==> all[i] == MedicalKeywords[i];
    assert forall i :: 0 <= i < |GreetingKeywords| ==> all[|MedicalKeywords| + i] == GreetingKeywords[i];
    MentionsAny(text, MedicalKeywords) || MentionsAny(text, GreetingKeywords)
  }

  /** What the send handler goes on with: non-blank and accepted. */
  predicate Admitted(text: string) {
    !IsBlank(text) && Accepted(text)
  }

  predicate LetterFree(keywords: seq<string>) {
    forall i :: 0 <= i < |keywords| ==> NoAsciiLetters(keywords[i])
  }

  lemma LetterFreeConcat(a: seq<string>, b: seq<string>)
    requires LetterFree(a) && LetterFree(b)
    ensures LetterFree(a + b)
  {
    forall i | 0 <= i < |a + b| ensures NoAsciiLetters((a + b)[i]) {
      if i >= |a| {
        assert (a + b)[i] == b[i - |a|];
      }
    }
  }

  lemma SymptomRowsLetterFree()
    ensures LetterFree(MedicalRow1) && LetterFree(MedicalRow2)
  {
  }

  lemma CareRowsLetterFree()
    ensures LetterFree(MedicalRow3) && LetterFree(MedicalRow4)
  {
  }

  lemma BodyRowsLetterFree()
    ensures LetterFree(MedicalRow5) && LetterFree(MedicalRow6)
  {
  }

  lemma GreetingRowsLetterFree()
    ensures LetterFree(GreetingRow1) && LetterFree(GreetingRow2) && LetterFree(GreetingRow3)
  {
  }

  lemma KeywordsHaveNoAsciiLetters()
    ensures LetterFree(MedicalKeywords) && LetterFree(GreetingKeywords)
  {
    SymptomRowsLetterFree();
    CareRowsLetterFree();
    BodyRowsLetterFree();
    GreetingRowsLetterFree();
    LetterFreeConcat(MedicalRow1, MedicalRow2);
    LetterFreeConcat(MedicalRow1 + MedicalRow2, MedicalRow3);
    LetterFreeConcat(MedicalRow1 + MedicalRow2 + MedicalRow3, MedicalRow4);
    LetterFreeConcat(MedicalRow1 + MedicalRow2 + MedicalRow3 + MedicalRow4, MedicalRow5);
    LetterFreeConcat(MedicalRow1 + MedicalRow2 + MedicalRow3 + MedicalRow4 + MedicalRow5, MedicalRow6);
    LetterFreeConcat(GreetingRow1, GreetingRow2);
    LetterFreeConcat(GreetingRow1 + GreetingRow2, GreetingRow3);
  }

  /**
   * The keywords are Hangul, so lower-casing plays no part: a message is
   * accepted exactly when one of the keywords occurs in it verbatim.
   */
  lemma AcceptedIffKeywordOccurs(text: string)
    ensures Accepted(text) <==>
      (exists i :: 0 <= i < |MedicalKeywords| && Contains(text, MedicalKeywords[i])) ||
      (exists i :: 0 <= i < |GreetingKeywords| && Contains(text, GreetingKeywords[i]))
  {
    KeywordsHaveNoAsciiLetters();
    forall i | 0 <= i < |MedicalKeywords|
      ensures Mentions(text, MedicalKeywords[i]) <==> Contains(text, MedicalKeywords[i])
    {
      ContainsIgnoringCase(text, MedicalKeywords[i]);
    }
    forall i | 0 <= i < |GreetingKeywords|
      ensures Mentions(text, GreetingKeywords[i]) <==> Contains(text, GreetingKeywords[i])
    {
      ContainsIgnoringCase(text, GreetingKeywords[i]);
    }
  }

  // ---------------------------------------------------------------------------
  // Session title of a first message

  const TitleLimit: nat := 20
  const Ellipsis: string := "..."

  /** `inputText.length > 20 ? inputText.substring(0, 20) + '...' : inputText` */
  function SessionTitle(input: string): (title: string)
    ensures |title| <= TitleLimit + |Ellipsis|
    ensures |input| <= TitleLimit ==> title == input
    ensures |input| > TitleLimit ==>
      |title| == TitleLimit + |Ellipsis| && title[..TitleLimit] == input[..TitleLimit] && title[TitleLimit..] == Ellipsis
  {
    if |input| > TitleLimit then input[..TitleLimit] + Ellipsis else input
  }

  // ---------------------------------------------------------------------------
  // Prompt stripping and the answer marker

  const Prompts: seq<string> := [
    "다음 환자 정보를 바탕으로 간결하고 정확한 분석 보고서를 작성하세요.",
    "다음 환자 정보를 바탕으로 분석 보고서를 작성하세요.",
    "환자 정보를 바탕으로 분석 보고서를 작성하세요.",
    "다음 환자 정보를 분석해주세요.",
    "환자 정보를 분석해주세요.",
    "분석 보고서를 작성하세요.",
    "간결하고 정확한 분석 보고서를 작성하세요."
  ]

  /** For each prompt in list order: remove its first occurrence, then trim. */
  function RemovePrompts(text: string, prompts: seq<string>): (r: string)
    ensures |r| <= |text|
    ensures |prompts| == 0 ==> r == text
    decreases |prompts|
  {
    if |prompts| == 0 then text
    else RemovePrompts(Trim(ReplaceFirst(text, prompts[0], "")), prompts[1..])
  }

  /** `removePromptFromResponse`: the forEach that reassigns `cleanedText`. */
  method RemovePromptFromResponse(text: string) returns (cleaned: string)
    ensures cleaned == RemovePrompts(text, Prompts)
  {
    var prompts := Prompts;
    cleaned := text;
    var k := 0;
    while k < |prompts|
      invariant 0 <= k <= |prompts|
      invariant RemovePrompts(cleaned, prompts[k..]) == RemovePrompts(text, prompts)
    {
      RemovePromptsStep(cleaned, prompts, k);
      cleaned := Trim(ReplaceFirst(cleaned, prompts[k], ""));
      k := k + 1;
    }
  }

  /** One turn of the loop: the prompt at `k` is removed and the rest of the fold goes on from there. */
  lemma RemovePromptsStep(t: string, prompts: seq<string>, k: nat)
    requires k < |prompts|
    ensures RemovePrompts(t, prompts[k..]) == RemovePrompts(Trim(ReplaceFirst(t, prompts[k], "")), prompts[k + 1..])
  {
    assert prompts[k..][1..] == prompts[k + 1..];
  }

  /** After at least one prompt the text is trimmed. */
  lemma {:induction false} RemovePromptsTrimmed(text: string, prompts: seq<string>)
    requires |prompts| > 0
    ensures Trim(RemovePrompts(text, prompts)) == RemovePrompts(text, prompts)
    decreases |prompts|
  {
    var next := Trim(ReplaceFirst(text, prompts[0], ""));
    if |prompts| == 1 {
      TrimIdempotent(ReplaceFirst(text, prompts[0], ""));
    } else {
      RemovePromptsTrimmed(next, prompts[1..]);
    }
  }

  /** Text containing none of the prompts comes back merely trimmed. */
  lemma {:induction false} RemovePromptsWithoutPrompts(text: string, prompts: seq<string>)
    requires |prompts| > 0
    requires forall i :: 0 <= i < |prompts| ==> !Contains(text, prompts[i])
    ensures RemovePrompts(text, prompts) == Trim(text)
    decreases |prompts|
  {
    assert ReplaceFirst(text, prompts[0], "") == text;
    if |prompts| > 1 {
      forall i | 0 <= i < |prompts[1..]|
        ensures !Contains(Trim(text), prompts[1..][i])
      {
        if Contains(Trim(text), prompts[1..][i]) {
          ContainsTrimmed(text, prompts[i + 1]);
        }
      }
      RemovePromptsWithoutPrompts(Trim(text), prompts[1..]);
      TrimIdempotent(text);
    }
  }

  const AnswerMarker: string := "--- 답변 ---"

  /**
   * The plain reply: everything up to and including the first answer
   * marker removed and the rest trimmed; the text itself when there is no marker.
   */
  function AfterAnswerMarker(text: string): (r: string)
    ensures !Contains(text, AnswerMarker) ==> r == text
    ensures Contains(text, AnswerMarker) ==>
      exists i :: 0 <= i <= |text| && StartsWith(text[i..], AnswerMarker)
        && (forall j :: 0 <= j < i ==> !StartsWith(text[j..], AnswerMarker))
        && r == Trim(text[i..][|AnswerMarker|..])
  {
    var i := IndexOf(text, AnswerMarker);
    assert i != -1 ==> text[i..][|AnswerMarker|..] == text[i + |AnswerMarker|..];
    if i == -1 then text else Trim(text[i + |AnswerMarker|..])
  }

  // ---------------------------------------------------------------------------
  // The prediction and the reply built from it

  /**
   * One property of the `/predict` answer: missing, null, or a value shown
   * as a template literal shows it.
   */
  datatype Field = Absent | Null | Value(shown: string)

  /** `x !== null && x !== undefined` */
  predicate Present(f: Field) {
    f.Value?
  }

  /** A string field used as a condition: truthy iff non-empty. */
  predicate TruthyText(f: Field) {
    f.Value? && f.shown != ""
  }

  /** `${x}` */
  function Render(f: Field): string {
    match f
    case Absent => "undefined"
    case Null => "null"
    case Value(s) => s
  }

  datatype Prediction = Prediction(
    patientId: Field, hadmId: Field, severityScore: Field, featureImportance: Field,
    featureImportancePlot: Field, vitalsPreviewPlot: Field, report: Field, plotBase64: Field,
    normalText: Field)

  /** The eight properties other than `normal_text`, in the order the handler tests them. */
  function OtherFields(d: Prediction): seq<Field> {
    [d.patientId, d.hadmId, d.severityScore, d.featureImportance,
     d.featureImportancePlot, d.vitalsPreviewPlot, d.report, d.plotBase64]
  }

  predicate HasOtherData(d: Prediction) {
    exists i :: 0 <= i < |OtherFields(d)| && Present(OtherFields(d)[i])
  }

  /** The successive `if`s that set `hasOtherData`. */
  method CheckOtherData(d: Prediction) returns (hasOtherData: bool)
    ensures hasOtherData <==> HasOtherData(d)
    ensures !hasOtherData <==> forall i :: 0 <= i < |OtherFields(d)| ==> !Present(OtherFields(d)[i])
  {
    hasOtherData := false;
    if Present(d.patientId) { hasOtherData := true; }
    if Present(d.hadmId) { hasOtherData := true; }
    if Present(d.severityScore) { hasOtherData := true; }
    if Present(d.featureImportance) { hasOtherData := true; }
    if Present(d.featureImportancePlot) { hasOtherData := true; }
    if Present(d.vitalsPreviewPlot) { hasOtherData := true; }
    if Present(d.report) { hasOtherData := true; }
    if Present(d.plotBase64) { hasOtherData := true; }
    ghost var fields := OtherFields(d);
    assert fields[0] == d.patientId && fields[1] == d.hadmId && fields[2] == d.severityScore;
    assert fields[3] == d.featureImportance && fields[4] == d.featureImportancePlot;
    assert fields[5] == d.vitalsPreviewPlot && fields[6] == d.report && fields[7] == d.plotBase64;
  }

  /** The report layout of a structured prediction. */
  function StructuredReply(d: Prediction, report: string): (r: string)
    ensures StartsWith(r, "환자 ID: " + Render(d.patientId))
    ensures |report| <= |r| && r[|r| - |report|..] == report
  {
    var head := "환자 ID: " + Render(d.patientId);
    var body := "\n"
      + "중증도 점수: " + Render(d.severityScore) + "\n\n"
      + "특징 중요도:\n" + Render(d.featureImportance) + "\n\n"
      + "분석 리포트:\n";
    var r := head + body + report;
    assert r[..|head|] == head;
    assert r[|r| - |report|..] == report;
    r
  }

  /** Only `normal_text` is set, and it is truthy. */
  predicate PlainAnswer(d: Prediction) {
    !HasOtherData(d) && TruthyText(d.normalText)
  }

  /**
   * The reply text, or None where the handler throws: a structured reply
   * whose `report` is null or missing has no `replace` to call.
   */
  function ReplyText(d: Prediction): (r: Option<string>)
    ensures r.None? <==> !PlainAnswer(d) && !d.report.Value?
    ensures d.report.Value? ==> r.Some?
  {
    if PlainAnswer(d) then Some(AfterAnswerMarker(d.normalText.shown))
    else if d.report.Value? then Some(StructuredReply(d, RemovePrompts(d.report.shown, Prompts)))
    else None
  }

  /** The reply assembly of the send handler. */
  method ComposeReply(d: Prediction) returns (reply: Option<string>)
    ensures reply == ReplyText(d)
  {
    var hasOtherData := CheckOtherData(d);
    if !hasOtherData && TruthyText(d.normalText) {
      reply := Some(AfterAnswerMarker(d.normalText.shown));
    } else if d.report.Value? {
      var cleaned := RemovePromptFromResponse(d.report.shown);
      reply := Some(StructuredReply(d, cleaned));
    } else {
      reply := None;
    }
  }

  /** A prediction that holds a report always produces a reply, and that reply ends with the cleaned report. */
  lemma ReportAlwaysAnswered(d: Prediction)
    requires d.report.Value?
    ensures ReplyText(d).Some?
    ensures var r := ReplyText(d).value;
            var cleaned := RemovePrompts(d.report.shown, Prompts);
            |cleaned| <= |r| && r[|r| - |cleaned|..] == cleaned
  {
    assert Present(OtherFields(d)[6]);
  }

  /** A reply with neither a plain answer nor a report is the error path. */
  lemma MissingReportFails(d: Prediction)
    requires !d.report.Value? && !TruthyText(d.normalText)
    ensures ReplyText(d) == None
  {
  }

  /** A plain answer without a marker is shown exactly as the model wrote it. */
  lemma PlainAnswerWithoutMarker(d: Prediction)
    requires forall i :: 0 <= i < |OtherFields(d)| ==> !Present(OtherFields(d)[i])
    requires TruthyText(d.normalText) && !Contains(d.normalText.shown, AnswerMarker)
    ensures ReplyText(d) == Some(d.normalText.shown)
  {
  }

  // ---------------------------------------------------------------------------
  // Messages, sessions and calls as the client holds them

  const WelcomeText: string := "안녕하세요! 저는 의사PT입니다. 환자에 관한 질문이나 지식이 필요하시면 언제든 말씀해 주세요. 테스트"
  const GreetingText: string := "안녕하세요! 저는 의사PT입니다. 환자에 관한 질문이나 지식이 필요하시면 언제든 말씀해 주세요."
  const RejectionText: string := "죄송합니다. 저는 의료 관련 질문이나 간단한 인사말에만 답변할 수 있습니다. 환자 증상, 진단, 치료 등 의료와 관련된 질문을 해주세요."
  const ServerErrorText: string := "죄송합니다. 서버와의 통신 중 오류가 발생했습니다. 다시 시도해 주세요."
  const PreviewText: string := "환자 데이터 프리뷰"

  const SessionStarted: string := "새 대화가 시작되었습니다"
  const CreateFailed: string := "새 대화 생성에 실패했습니다"
  const Renamed: string := "대화 이름이 변경되었습니다"
  const RenameFailed: string := "대화 이름 변경에 실패했습니다"
  const Deleted: string := "대화가 삭제되었습니다"
  const DeleteFailed: string := "대화 삭제에 실패했습니다"
  const LoadFailed: string := "대화 불러오기에 실패했습니다"

  datatype MessageData = NoData | PreviewData(plot: string) | PredictionData(prediction: Prediction)

  datatype ChatMessage = ChatMessage(id: nat, text: string, sender: Server.Sender, data: MessageData, isPreview: bool)

  function Greeting(text: string): ChatMessage {
    ChatMessage(1, text, Server.AssistantSide, NoData, false)
  }

  function UserMessage(id: nat, text: string): ChatMessage {
    ChatMessage(id, text, Server.UserSide, NoData, false)
  }

  function Rejection(id: nat): ChatMessage {
    ChatMessage(id, RejectionText, Server.AssistantSide, NoData, false)
  }

  function ErrorReply(id: nat): ChatMessage {
    ChatMessage(id, ServerErrorText, Server.AssistantSide, NoData, false)
  }

  function PreviewMessage(id: nat, plot: string): ChatMessage {
    ChatMessage(id, PreviewText, Server.AssistantSide, PreviewData(plot), true)
  }

  function AnswerMessage(id: nat, text: string, d: Prediction): ChatMessage {
    ChatMessage(id, text, Server.AssistantSide, PredictionData(d), false)
  }

  /** The fields of a session record the client reads. */
  datatype SessionItem = SessionItem(id: nat, title: string)

  /** The body of a message-save request. */
  datatype SaveRequest = SaveRequest(sessionId: nat, sender: Server.Sender, text: string, data: MessageData)

  /** The requests a handler issues. */
  datatype Call =
    | CreateSessionCall(title: string)
    | SaveCall(request: SaveRequest)
    | PredictCall(message: string)
    | LoadMessagesCall(sessionId: nat)

  /** The save request of every message, in order, when there is a session; nothing otherwise. */
  function SavesFor(current: Option<nat>, ms: seq<ChatMessage>): (calls: seq<Call>)
    ensures current.None? ==> calls == []
    ensures current.Some? ==> |calls| == |ms| && forall i :: 0 <= i < |ms| ==>
      calls[i] == SaveCall(SaveRequest(current.value, ms[i].sender, ms[i].text, ms[i].data))
  {
    if current.None? || |ms| == 0 then []
    else [SaveCall(SaveRequest(current.value, ms[0].sender, ms[0].text, ms[0].data))] + SavesFor(current, ms[1..])
  }

  lemma {:induction false} SavesForAppend(current: Option<nat>, a: seq<ChatMessage>, b: seq<ChatMessage>)
    ensures SavesFor(current, a + b) == SavesFor(current, a) + SavesFor(current, b)
  {
    if current.Some? && |a| > 0 {
      var t := a + b;
      assert t[0] == a[0] && t[1..] == a[1..] + b;
      var head := [SaveCall(SaveRequest(current.value, a[0].sender, a[0].text, a[0].data))];
      assert SavesFor(current, t) == head + SavesFor(current, a[1..] + b);
      SavesForAppend(current, a[1..], b);
    } else if current.Some? {
      assert a + b == b;
    }
  }

  /** The reply text for a prediction outcome: None when the request failed or the assembly threw. */
  function ReplyOf(predicted: Option<Prediction>): (r: Option<string>)
    ensures predicted.None? ==> r.None?
    ensures predicted.Some? && predicted.value.report.Value? ==> r.Some?
  {
    if predicted.None? then None else ReplyText(predicted.value)
  }

  /** The messages the handler appends after the user's, given the prediction and its reply text. */
  function Replies(n: nat, predicted: Option<Prediction>, reply: Option<string>): (rs: seq<ChatMessage>)
    ensures 1 <= |rs| <= 2
  {
    if predicted.None? || reply.None? then [ErrorReply(n + 2)]
    else
      var d := predicted.value;
      var preview := if TruthyText(d.vitalsPreviewPlot) then [PreviewMessage(n + 2, d.vitalsPreviewPlot.shown)] else [];
      preview + [AnswerMessage(n + 2 + |preview|, reply.value, d)]
  }

  /**
   * For any reply text: the replies number on from the user's message and
   * come from the assistant, the last one is the answer or the error text,
   * and a preview carrying the vitals plot comes before an answer exactly
   * when that plot is truthy.
   */
  lemma RepliesShape(n: nat, predicted: Option<Prediction>, reply: Option<string>)
    ensures var rs := Replies(n, predicted, reply);
      && 1 <= |rs| <= 2
      && (forall i :: 0 <= i < |rs| ==> rs[i].id == n + 2 + i && rs[i].sender == Server.AssistantSide)
      && (predicted.None? || reply.None? <==> rs == [ErrorReply(n + 2)])
      && (predicted.Some? && reply.Some? ==> rs[|rs| - 1] == AnswerMessage(n + 1 + |rs|, reply.value, predicted.value))
      && (|rs| == 2 ==> rs[0].isPreview)
      && (predicted.Some? && reply.Some? ==>
            && (|rs| == 2 <==> TruthyText(predicted.value.vitalsPreviewPlot))
            && (|rs| == 2 ==> rs[0] == PreviewMessage(n + 2, predicted.value.vitalsPreviewPlot.shown)))
  {
    if predicted.Some? && reply.Some? {
      var d := predicted.value;
      if TruthyText(d.vitalsPreviewPlot) {
        assert Replies(n, predicted, reply)
            == [PreviewMessage(n + 2, d.vitalsPreviewPlot.shown), AnswerMessage(n + 3, reply.value, d)];
      } else {
        assert Replies(n, predicted, reply) == [AnswerMessage(n + 2, reply.value, d)];
      }
    }
  }

  /** The same for the reply the handler composes: the error text appears exactly when no reply could be made. */
  lemma RepliesNumbered(n: nat, predicted: Option<Prediction>)
    ensures var rs := Replies(n, predicted, ReplyOf(predicted));
      && 1 <= |rs| <= 2
      && (forall i :: 0 <= i < |rs| ==> rs[i].id == n + 2 + i && rs[i].sender == Server.AssistantSide)
      && (ReplyOf(predicted).None? <==> rs == [ErrorReply(n + 2)])
      && (ReplyOf(predicted).Some? ==> rs[|rs| - 1] == AnswerMessage(n + 1 + |rs|, ReplyOf(predicted).value, predicted.value))
      && (|rs| == 2 ==> rs[0].isPreview)
      && (ReplyOf(predicted).Some? ==>
            && (|rs| == 2 <==> TruthyText(predicted.value.vitalsPreviewPlot))
            && (|rs| == 2 ==> rs[0] == PreviewMessage(n + 2, predicted.value.vitalsPreviewPlot.shown)))
  {
    var reply := ReplyOf(predicted);
    RepliesShape(n, predicted, reply);
  }

  // ---------------------------------------------------------------------------
  // The session list updates

  /** `prev.map(s => s.id === id ? { ...s, title } : s)` */
  function RenameIn(list: seq<SessionItem>, id: nat, title: string): (r: seq<SessionItem>)
    ensures |r| == |list|
    ensures forall i :: 0 <= i < |list| ==> r[i].id == list[i].id
    ensures forall i :: 0 <= i < |list| ==> r[i].title == (if list[i].id == id then title else list[i].title)
  {
    if |list| == 0 then []
    else [if list[0].id == id then list[0].(title := title) else list[0]] + RenameIn(list[1..], id, title)
  }

  /** `prev.filter(s => s.id !== id)` */
  function RemoveFrom(list: seq<SessionItem>, id: nat): (r: seq<SessionItem>)
    ensures |r| <= |list|
    ensures forall s :: s in r <==> s in list && s.id != id
  {
    if |list| == 0 then []
    else if list[0].id == id then RemoveFrom(list[1..], id)
    else [list[0]] + RemoveFrom(list[1..], id)
  }

  /** Removal keeps the relative order of the rest: it distributes over concatenation. */
  lemma {:induction false} RemoveFromKeepsOrder(a: seq<SessionItem>, b: seq<SessionItem>, id: nat)
    ensures RemoveFrom(a + b, id) == RemoveFrom(a, id) + RemoveFrom(b, id)
  {
    if |a| == 0 {
      assert a + b == b;
    } else {
      assert (a + b)[0] == a[0] && (a + b)[1..] == a[1..] + b;
      RemoveFromKeepsOrder(a[1..], b, id);
    }
  }

  // ---------------------------------------------------------------------------
  // The component state

  datatype ChatState = ChatState(
    messages: seq<ChatMessage>, inputText: string, isLoading: bool,
    chatSessions: seq<SessionItem>, currentSessionId: Option<nat>,
    editingSessionId: Option<nat>, editingTitle: string, alert: Alert)

  /** A first message with no session yet opens a session of its own. */
  predicate StartsSession(current: Option<nat>, count: nat) {
    current.None? && count == 1
  }

  class ChatView {
    var messages: seq<ChatMessage>
    var inputText: string
    var isLoading: bool
    var chatSessions: seq<SessionItem>
    var currentSessionId: Option<nat>
    var editingSessionId: Option<nat>
    var editingTitle: string
    var alert: Alert

    function State(): ChatState
      reads this
    {
      ChatState(messages, inputText, isLoading, chatSessions, currentSessionId, editingSessionId, editingTitle, alert)
    }

    /** The initial state: the welcome message alone, no session. */
    constructor ()
      ensures State() == ChatState([Greeting(WelcomeText)], "", false, [], None, None, "", Hidden)
    {
      messages := [Greeting(WelcomeText)];
      inputText := "";
      isLoading := false;
      chatSessions := [];
      currentSessionId := None;
      editingSessionId := None;
      editingTitle := "";
      alert := Hidden;
    }

    /** `saveMessage`: the save request for the current session, none without one. */
    function SaveMessage(m: ChatMessage): (calls: seq<Call>)
      reads this
      ensures calls == [] <==> currentSessionId.None?
      ensures calls != [] ==> calls == [SaveCall(SaveRequest(currentSessionId.value, m.sender, m.text, m.data))]
    {
      SavesFor(currentSessionId, [m])
    }

    /** The input field's onChange. */
    method EditInput(text: string)
      modifies this
      ensures State() == old(State()).(inputText := text)
    {
      inputText := text;
    }

    /** The session list loaded on mount; a failed load keeps the list. */
    method LoadChatSessions(loaded: Option<seq<SessionItem>>)
      modifies this
      ensures loaded.Some? ==> State() == old(State()).(chatSessions := loaded.value)
      ensures loaded.None? ==> State() == old(State())
    {
      if loaded.Some? {
        chatSessions := loaded.value;
      }
    }

    /** `createNewSession`: `created` is the server's new session, None when the call threw. */
    method CreateNewSession(created: Option<SessionItem>) returns (call: Call)
      modifies this
      ensures call == CreateSessionCall(Server.DefaultTitle)
      ensures created.Some? ==> State() == old(State()).(
        chatSessions := [created.value] + old(chatSessions), currentSessionId := Some(created.value.id),
        messages := [Greeting(GreetingText)], alert := Shown(SessionStarted, SuccessAlert))
      ensures created.None? ==> State() == old(State()).(alert := Shown(CreateFailed, ErrorAlert))
    {
      call := CreateSessionCall(Server.DefaultTitle);
      if created.Some? {
        chatSessions := [created.value] + chatSessions;
        currentSessionId := Some(created.value.id);
        messages := [Greeting(GreetingText)];
        alert := Shown(SessionStarted, SuccessAlert);
      } else {
        alert := Shown(CreateFailed, ErrorAlert);
      }
    }

    method StartEditingTitle(session: SessionItem)
      modifies this
      ensures State() == old(State()).(editingSessionId := Some(session.id), editingTitle := session.title)
    {
      editingSessionId := Some(session.id);
      editingTitle := session.title;
    }

    method CancelEditingTitle()
      modifies this
      ensures State() == old(State()).(editingSessionId := None, editingTitle := "")
    {
      editingSessionId := None;
      editingTitle := "";
    }

    /** `updateSessionTitle`: `succeeded` is whether the PUT resolved. */
    method UpdateSessionTitle(sessionId: nat, newTitle: string, succeeded: bool)
      modifies this
      ensures succeeded ==> State() == old(State()).(
        chatSessions := RenameIn(old(chatSessions), sessionId, newTitle),
        editingSessionId := None, editingTitle := "", alert := Shown(Renamed, SuccessAlert))
      ensures !succeeded ==> State() == old(State()).(alert := Shown(RenameFailed, ErrorAlert))
    {
      if succeeded {
        chatSessions := RenameIn(chatSessions, sessionId, newTitle);
        editingSessionId := None;
        editingTitle := "";
        alert := Shown(Renamed, SuccessAlert);
      } else {
        alert := Shown(RenameFailed, ErrorAlert);
      }
    }

    /** `selectSession`: `loaded` is the session's messages, None when the call threw. */
    method SelectSession(sessionId: nat, loaded: Option<seq<ChatMessage>>) returns (call: Call)
      modifies this
      ensures call == LoadMessagesCall(sessionId)
      ensures loaded.Some? ==> State() == old(State()).(currentSessionId := Some(sessionId), messages := loaded.value)
      ensures loaded.None? ==> State() == old(State()).(alert := Shown(LoadFailed, ErrorAlert))
    {
      call := LoadMessagesCall(sessionId);
      if loaded.Some? {
        currentSessionId := Some(sessionId);
        messages := loaded.value;
      } else {
        alert := Shown(LoadFailed, ErrorAlert);
      }
    }

    /**
     * `deleteSession`: `deleted` is whether the DELETE resolved, `loaded` the
     * outcome of selecting the first remaining session when the current one
     * went. That selection is not awaited, so its outcome lands after the
     * deletion notice.
     */
    method DeleteSession(sessionId: nat, deleted: bool, loaded: Option<seq<ChatMessage>>) returns (calls: seq<Call>)
      modifies this
      ensures !deleted ==> calls == [] && State() == old(State()).(alert := Shown(DeleteFailed, ErrorAlert))
      ensures deleted ==> chatSessions == RemoveFrom(old(chatSessions), sessionId)
      ensures deleted && old(currentSessionId) != Some(sessionId) ==>
        && calls == []
        && State() == old(State()).(chatSessions := RemoveFrom(old(chatSessions), sessionId), alert := Shown(Deleted, SuccessAlert))
      ensures deleted && old(currentSessionId) == Some(sessionId) && chatSessions == [] ==>
        && calls == []
        && State() == old(State()).(chatSessions := [], currentSessionId := None,
                                    messages := [Greeting(GreetingText)], alert := Shown(Deleted, SuccessAlert))
      ensures deleted && old(currentSessionId) == Some(sessionId) && chatSessions != [] ==>
        && calls == [LoadMessagesCall(chatSessions[0].id)]
        && (loaded.Some? ==> State() == old(State()).(chatSessions := chatSessions,
              currentSessionId := Some(chatSessions[0].id), messages := loaded.value, alert := Shown(Deleted, SuccessAlert)))
        && (loaded.None? ==> State() == old(State()).(chatSessions := chatSessions, alert := Shown(LoadFailed, ErrorAlert)))
    {
      calls := [];
      if !deleted {
        alert := Shown(DeleteFailed, ErrorAlert);
        return;
      }
      chatSessions := RemoveFrom(chatSessions, sessionId);
      alert := Shown(Deleted, SuccessAlert);
      if currentSessionId == Some(sessionId) {
        if |chatSessions| > 0 {
          var call := SelectSession(chatSessions[0].id, loaded);
          calls := [call];
        } else {
          currentSessionId := None;
          messages := [Greeting(GreetingText)];
        }
      }
    }

    /**
     * `handleSendMessage`. `created` is the session the server creates for
     * a first message (None when that call threw); `predicted` is the
     * prediction answer (None when the request failed or answered non-ok).
     * When opening the session fails the handler returns before its
     * `finally`, so `isLoading` stays set.
     */
    method HandleSendMessage(created: Option<SessionItem>, predicted: Option<Prediction>) returns (calls: seq<Call>)
      modifies this
      // blank input: nothing happens
      ensures IsBlank(old(inputText)) ==> calls == [] && State() == old(State())
      // rejected input: one rejection message, no request
      ensures !IsBlank(old(inputText)) && !Accepted(old(inputText)) ==>
        calls == [] && State() == old(State()).(messages := old(messages) + [Rejection(|old(messages)| + 1)])
      // accepted input: the user's message, the session it opens, the prediction and the replies, each saved
      ensures Admitted(old(inputText)) ==>
        var n := |old(messages)|;
        var user := UserMessage(n + 1, old(inputText));
        var starts := StartsSession(old(currentSessionId), n);
        var proceed := !(starts && created.None?);
        var replies := Replies(n, predicted, ReplyOf(predicted));
        && State() == old(State()).(
             messages := old(messages) + [user] + (if proceed then replies else []),
             inputText := "", isLoading := !proceed,
             chatSessions := if starts && created.Some? then [created.value] + old(chatSessions) else old(chatSessions),
             currentSessionId := if starts && created.Some? then Some(created.value.id) else old(currentSessionId),
             alert := if proceed then old(alert) else Shown(CreateFailed, ErrorAlert))
        && calls == (if starts then [CreateSessionCall(SessionTitle(old(inputText)))] else [])
                    + (if proceed
                       then SavesFor(currentSessionId, [user]) + [PredictCall(old(inputText))] + SavesFor(currentSessionId, replies)
                       else [])
    {
      calls := [];
      var input := inputText;
      if IsBlank(input) {
        return;
      }
      var n := |messages|;
      if !Accepted(input) {
        messages := messages + [Rejection(n + 1)];
        return;
      }
      calls := SendAccepted(created, predicted);
    }

    /** `handleSendMessage` from the user's message on, for input that passed both checks. */
    method SendAccepted(created: Option<SessionItem>, predicted: Option<Prediction>) returns (calls: seq<Call>)
      modifies this
      ensures var n := |old(messages)|;
        var user := UserMessage(n + 1, old(inputText));
        var starts := StartsSession(old(currentSessionId), n);
        var proceed := !(starts && created.None?);
        var replies := Replies(n, predicted, ReplyOf(predicted));
        && State() == old(State()).(
             messages := old(messages) + [user] + (if proceed then replies else []),
             inputText := "", isLoading := !proceed,
             chatSessions := if starts && created.Some? then [created.value] + old(chatSessions) else old(chatSessions),
             currentSessionId := if starts && created.Some? then Some(created.value.id) else old(currentSessionId),
             alert := if proceed then old(alert) else Shown(CreateFailed, ErrorAlert))
        && calls == (if starts then [CreateSessionCall(SessionTitle(old(inputText)))] else [])
                    + (if proceed
                       then SavesFor(currentSessionId, [user]) + [PredictCall(old(inputText))] + SavesFor(currentSessionId, replies)
                       else [])
    {
      var input := inputText;
      var n := |messages|;
      var proceed;
      calls, proceed := PostUserMessage(input, created);
      if !proceed {
        return;
      }
      var answered := AnswerPrediction(n, input, predicted);
      calls := calls + answered;
    }

    /**
     * The part of `handleSendMessage` from the prediction request on: the
     * reply is composed, the replies are appended and saved, and loading ends.
     */
    method AnswerPrediction(n: nat, input: string, predicted: Option<Prediction>) returns (calls: seq<Call>)
      modifies this
      ensures var replies := Replies(n, predicted, ReplyOf(predicted));
        && State() == old(State()).(messages := old(messages) + replies, isLoading := false)
        && calls == [PredictCall(input)] + SavesFor(currentSessionId, replies)
    {
      var reply: Option<string> := None;
      if predicted.Some? {
        reply := ComposeReply(predicted.value);
      }
      var saves := PostReplies(n, predicted, reply);
      calls := [PredictCall(input)] + saves;
      isLoading := false;
    }

    /**
     * The part of `handleSendMessage` before the prediction request: the
     * user's message goes in, a first message opens a session titled after
     * it, and the message is saved. `proceed` is false when opening the
     * session threw.
     */
    method PostUserMessage(input: string, created: Option<SessionItem>) returns (calls: seq<Call>, proceed: bool)
      modifies this
      ensures var user := UserMessage(|old(messages)| + 1, input);
        var starts := StartsSession(old(currentSessionId), |old(messages)|);
        && proceed == !(starts && created.None?)
        && State() == old(State()).(
             messages := old(messages) + [user], inputText := "", isLoading := true,
             chatSessions := if starts && created.Some? then [created.value] + old(chatSessions) else old(chatSessions),
             currentSessionId := if starts && created.Some? then Some(created.value.id) else old(currentSessionId),
             alert := if proceed then old(alert) else Shown(CreateFailed, ErrorAlert))
        && calls == (if starts then [CreateSessionCall(SessionTitle(input))] else [])
                    + (if proceed then SavesFor(currentSessionId, [user]) else [])
    {
      var userMessage := UserMessage(|messages| + 1, input);
      var starts := StartsSession(currentSessionId, |messages|);
      messages := messages + [userMessage];
      inputText := "";
      isLoading := true;
      calls := [];
      proceed := true;
      if starts {
        calls := [CreateSessionCall(SessionTitle(input))];
        if created.None? {
          alert := Shown(CreateFailed, ErrorAlert);
          proceed := false;
          return;
        }
        chatSessions := [created.value] + chatSessions;
        currentSessionId := Some(created.value.id);
      }
      calls := calls + SaveMessage(userMessage);
    }

    /**
     * The part of `handleSendMessage` after the prediction request: the
     * preview and the answer, or the error text, each saved to the session.
     */
    method PostReplies(n: nat, predicted: Option<Prediction>, reply: Option<string>) returns (saves: seq<Call>)
      modifies this
      ensures State() == old(State()).(messages := old(messages) + Replies(n, predicted, reply))
      ensures saves == SavesFor(currentSessionId, Replies(n, predicted, reply))
    {
      if predicted.None? || reply.None? {
        var errorMessage := ErrorReply(n + 2);
        messages := messages + [errorMessage];
        saves := SaveMessage(errorMessage);
      } else {
        var d := predicted.value;
        var next := n + 2;
        var preview: seq<ChatMessage> := [];
        if TruthyText(d.vitalsPreviewPlot) {
          preview := [PreviewMessage(n + 2, d.vitalsPreviewPlot.shown)];
          next := n + 3;
        }
        var answer := AnswerMessage(next, reply.value, d);
        messages := messages + preview + [answer];
        saves := SavesFor(currentSessionId, preview) + SaveMessage(answer);
        SavesForAppend(currentSessionId, preview, [answer]);
      }
    }
  }
}

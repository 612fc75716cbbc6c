/** The classification engine of lib/ai-engine.ts: the prompt sent to the hosted
    model, and the post-processing that turns the model's JSON reply into a
    bounded, defaulted classification record. The model call itself and
    JSON.parse are parameters. */
module AiEngine {
  import opened JsBuiltins

  /** The fields of the parsed reply that the engine reads; each may be absent. */
  datatype ReplyFields = ReplyFields(
    category: Option<string>,
    urgencyScore: Option<int>,
    summary: Option<string>,
    sentiment: Option<string>,
    suggestedReply: Option<string>)

  /** What `JSON.parse` makes of the reply text. A JSON primitive other than
      `null` reads as a value whose fields are all absent. */
  datatype ParsedJson = NotJson | JsonNull | JsonValue(fields: ReplyFields)

  /** The outcome of `openai.chat.completions.create`: it throws, or it yields
      the first choice's message content, which may be null. */
  datatype Completion = CallFailed | Completed(content: Option<string>)

  datatype ChatMessage = ChatMessage(role: string, content: string)

  /** The request sent to the model; temperature is in hundredths. */
  datatype ChatRequest = ChatRequest(
    model: string,
    messages: seq<ChatMessage>,
    jsonObjectFormat: bool,
    temperatureHundredths: nat,
    maxTokens: nat)

  /** The record `analyzeEmail` returns. */
  datatype Classification = Classification(
    category: string,
    urgencyScore: int,
    summary: string,
    sentiment: string,
    suggestedReply: string)

  /** The categories the prompt offers the model. */
  const PromptCategories: seq<string> := ["Urgent", "Devis", "Facture", "Newsletter", "Personnel", "Autre"]

  const DefaultCategory := "Autre"
  const DefaultScore := 50
  const DefaultSummary := "Email non analysé"
  const DefaultSentiment := "Neutre"
  const ErrorSummary := "Erreur lors de l'analyse"

  /** The record returned whenever analysis fails. */
  const Fallback := Classification(DefaultCategory, DefaultScore, ErrorSummary, DefaultSentiment, "")

  const SystemInstruction := "Tu es une API JSON stricte. Retourne UNIQUEMENT du JSON valide."

  const PromptHead := "\nTu es un assistant exécutif expert en gestion des emails. Analyse cet email entrant avec précision.\n\n"
  const SenderLabel := "Expéditeur: "
  const SubjectLabel := "\nSujet: "
  const ContentLabel := "\nContenu: "
  const PromptTail :=
    "\n\nEffectue les tâches suivantes:\n" +
    "1. Catégorise l'email (Urgent, Devis, Facture, Newsletter, Personnel, Autre)\n" +
    "2. Donne un score d'urgence de 0 à 100\n" +
    "3. Résume l'email en une phrase courte\n" +
    "4. Analyse le sentiment (Positif, Négatif, Neutre)\n" +
    "5. Suggère une réponse courte si pertinent\n\n" +
    "Réponds UNIQUEMENT en JSON valide avec les clés: category, urgency_score, summary, sentiment, suggested_reply\n    "

  /** The user prompt: the three inputs are spliced into the template as they are. */
  function UserPrompt(sender: string, subject: string, content: string): string {
    PromptHead + SenderLabel + sender + SubjectLabel + subject + ContentLabel + content + PromptTail
  }

  /** The request `analyzeEmail` sends. */
  function AnalyzeRequest(subject: string, content: string, sender: string): ChatRequest {
    ChatRequest("gpt-4o-mini",
      [ChatMessage("system", SystemInstruction), ChatMessage("user", UserPrompt(sender, subject, content))],
      true, 30, 500)
  }

  /** `result.urgency_score || 50`, then clamped with Math.min / Math.max. */
  function ClampScore(score: Option<int>): (r: int)
    ensures 0 <= r <= 100
  {
    var s := if score.Some? && score.value != 0 then score.value else DefaultScore;
    Min(100, Max(0, s))
  }

  /** The post-processing of a parsed reply (the object literal of `analyzeEmail`). */
  function Normalise(f: ReplyFields): (r: Classification)
    ensures 0 <= r.urgencyScore <= 100
    ensures r.category != "" && r.summary != "" && r.sentiment != ""
  {
    Classification(
      OrElse(f.category, DefaultCategory),
      ClampScore(f.urgencyScore),
      OrElse(f.summary, DefaultSummary),
      OrElse(f.sentiment, DefaultSentiment),
      OrElse(f.suggestedReply, ""))
  }

  /** `analyzeEmail(subject, content, sender)`: `model` answers the request and
      `parse` stands for JSON.parse. Every failure is caught and gives Fallback. */
  function AnalyzeEmail(subject: string, content: string, sender: string,
                        model: ChatRequest -> Completion, parse: string -> ParsedJson): (r: Classification)
    ensures 0 <= r.urgencyScore <= 100
    ensures r.category != "" && r.summary != "" && r.sentiment != ""
  {
    match model(AnalyzeRequest(subject, content, sender))
    case CallFailed => Fallback
    case Completed(text) =>
      if !Truthy(text) then Fallback
      else match parse(text.value)
        case NotJson => Fallback
        case JsonNull => Fallback
        case JsonValue(f) => Normalise(f)
  }

  /** A present, non-zero score is clamped into [0, 100]. */
  lemma ScoreClamped(f: ReplyFields, s: int)
    requires f.urgencyScore == Some(s) && s != 0
    ensures s < 0 ==> Normalise(f).urgencyScore == 0
    ensures 0 < s <= 100 ==> Normalise(f).urgencyScore == s
    ensures s > 100 ==> Normalise(f).urgencyScore == 100
  {
  }

  /** A missing score and a score of 0 both become 50: `||` treats 0 as absent. */
  lemma ZeroOrMissingScoreIsFifty(f: ReplyFields)
    requires f.urgencyScore == None || f.urgencyScore == Some(0)
    ensures Normalise(f).urgencyScore == 50
  {
  }

  /** The engine reports an urgency of 0 exactly when the model gave a negative score. */
  lemma ZeroOnlyFromNegative(f: ReplyFields)
    ensures Normalise(f).urgencyScore == 0 <==> (f.urgencyScore.Some? && f.urgencyScore.value < 0)
  {
  }

  /** A missing or empty category becomes 'Autre'; any other string passes
      through unchanged, with no check against PromptCategories. */
  lemma CategoryDefaultOrVerbatim(f: ReplyFields)
    ensures !Truthy(f.category) ==> Normalise(f).category == "Autre"
    ensures Truthy(f.category) ==> Normalise(f).category == f.category.value
  {
  }

  /** The text fields default to fixed strings when missing or empty. */
  lemma TextDefaults(f: ReplyFields)
    ensures Normalise(f).summary == (if Truthy(f.summary) then f.summary.value else "Email non analysé")
    ensures Normalise(f).sentiment == (if Truthy(f.sentiment) then f.sentiment.value else "Neutre")
    ensures Normalise(f).suggestedReply == (if Truthy(f.suggestedReply) then f.suggestedReply.value else "")
  {
  }

  /** A classification read back as a reply, every field present. */
  function AsReply(c: Classification): ReplyFields {
    ReplyFields(Some(c.category), Some(c.urgencyScore), Some(c.summary), Some(c.sentiment), Some(c.suggestedReply))
  }

  /** Normalising an already normalised record changes it exactly when its
      score is 0: that 0 is read back as absent and becomes 50. */
  lemma NormaliseStableIffNonZero(f: ReplyFields)
    ensures Normalise(AsReply(Normalise(f))) == Normalise(f) <==> Normalise(f).urgencyScore != 0
  {
    var c := Normalise(f);
    if c.urgencyScore == 0 {
      assert Normalise(AsReply(c)).urgencyScore == 50;
    }
  }

  /** A failed call, empty content, unparseable text and a JSON null all give
      exactly the fallback record: no failure escapes. */
  lemma FailuresGiveFallback(subject: string, content: string, sender: string,
                             model: ChatRequest -> Completion, parse: string -> ParsedJson)
    requires
      var c := model(AnalyzeRequest(subject, content, sender));
      c == CallFailed || !Truthy(c.content) || parse(c.content.value).NotJson? || parse(c.content.value).JsonNull?
    ensures AnalyzeEmail(subject, content, sender, model, parse)
         == Classification("Autre", 50, "Erreur lors de l'analyse", "Neutre", "")
  {
  }

  /** A parsed object reply is normalised, and the result is the fallback only
      if the model itself wrote the fallback's summary. */
  lemma ParsedReplyIsNormalised(subject: string, content: string, sender: string,
                                model: ChatRequest -> Completion, parse: string -> ParsedJson, text: string, f: ReplyFields)
    requires model(AnalyzeRequest(subject, content, sender)) == Completed(Some(text))
    requires text != "" && parse(text) == JsonValue(f)
    ensures AnalyzeEmail(subject, content, sender, model, parse) == Normalise(f)
    ensures AnalyzeEmail(subject, content, sender, model, parse) == Fallback ==> f.summary == Some(ErrorSummary)
  {
  }

  /** Splicing three values between four fixed texts leaves each value,
      with the label before it, at a computable offset. */
  lemma SplicedAt(head: string, l1: string, a: string, l2: string, b: string, l3: string, c: string, tail: string)
    ensures var p := head + l1 + a + l2 + b + l3 + c + tail;
      var i := |head|;
      var j := i + |l1| + |a|;
      var k := j + |l2| + |b|;
      && |p| == k + |l3| + |c| + |tail|
      && p[i..j] == l1 + a
      && p[j..k] == l2 + b
      && p[k..k + |l3| + |c|] == l3 + c
  {
    var p := head + l1 + a + l2 + b + l3 + c + tail;
    assert p == head + (l1 + a) + (l2 + b) + (l3 + c) + tail;
  }

  /** The sender, subject and content appear verbatim right after their labels. */
  lemma PromptCarriesInputs(sender: string, subject: string, content: string)
    ensures var p := UserPrompt(sender, subject, content);
      var i := |PromptHead|;
      var j := i + |SenderLabel| + |sender|;
      var k := j + |SubjectLabel| + |subject|;
      && |p| == k + |ContentLabel| + |content| + |PromptTail|
      && p[i..j] == SenderLabel + sender
      && p[j..k] == SubjectLabel + subject
      && p[k..k + |ContentLabel| + |content|] == ContentLabel + content
  {
    SplicedAt(PromptHead, SenderLabel, sender, SubjectLabel, subject, ContentLabel, content, PromptTail);
  }

  /** Splicing `a + l2 + b` into the first slot and the empty string into the
      second gives the same text as splicing `a` and `b + l2`. */
  lemma Regrouped(head: string, l1: string, a: string, l2: string, b: string, l3: string, c: string, tail: string)
    ensures head + l1 + (a + l2 + b) + l2 + "" + l3 + c + tail == head + l1 + a + l2 + (b + l2) + l3 + c + tail
  {
  }

  /** The inputs are not delimited or escaped: a sender that contains the
      subject label yields the same prompt as a different sender and subject. */
  lemma PromptDoesNotSeparateInputs(sender: string, subject: string, content: string)
    ensures UserPrompt(sender + SubjectLabel + subject, "", content) == UserPrompt(sender, subject + SubjectLabel, content)
  {
    Regrouped(PromptHead, SenderLabel, sender, SubjectLabel, subject, ContentLabel, content, PromptTail);
  }

  /** The three inputs reach the model only through the user prompt: inputs that
      splice into the same prompt get the same classification, whatever the
      model and the parser do. */
  lemma AnalysisSeesOnlyThePrompt(subject1: string, content1: string, sender1: string,
                                  subject2: string, content2: string, sender2: string,
                                  model: ChatRequest -> Completion, parse: string -> ParsedJson)
    requires UserPrompt(sender1, subject1, content1) == UserPrompt(sender2, subject2, content2)
    ensures AnalyzeEmail(subject1, content1, sender1, model, parse) == AnalyzeEmail(subject2, content2, sender2, model, parse)
  {
    assert AnalyzeRequest(subject1, content1, sender1) == AnalyzeRequest(subject2, content2, sender2);
  }

  /** So a sender that carries the subject label and a subject is classified
      exactly like that sender with the label moved into the subject. */
  lemma RegroupedInputsClassifyAlike(sender: string, subject: string, content: string,
                                     model: ChatRequest -> Completion, parse: string -> ParsedJson)
    ensures AnalyzeEmail("", content, sender + SubjectLabel + subject, model, parse)
         == AnalyzeEmail(subject + SubjectLabel, content, sender, model, parse)
  {
    PromptDoesNotSeparateInputs(sender, subject, content);
    AnalysisSeesOnlyThePrompt("", content, sender + SubjectLabel + subject, subject + SubjectLabel, content, sender, model, parse);
  }

  /** Splicing two values between three fixed texts leaves each value, with
      the label before it, at a computable offset. */
  lemma SplicedPairAt(head: string, l1: string, a: string, l2: string, b: string, tail: string)
    ensures var p := head + l1 + a + l2 + b + tail;
      var i := |head|;
      var j := i + |l1| + |a|;
      && |p| == j + |l2| + |b| + |tail|
      && p[i..j] == l1 + a
      && p[j..j + |l2| + |b|] == l2 + b
  {
    var p := head + l1 + a + l2 + b + tail;
    assert p == head + (l1 + a) + (l2 + b) + tail;
  }

  const ReplyHead := "Tu es un assistant professionnel qui rédige des réponses d'email courtes et appropriées."
  const CategoryLabel := "\nCatégorie: "
  const ReceivedLabel := "\nEmail reçu: "
  const ReplyTail := "\n\nRédige une réponse professionnelle brève (2-3 phrases max)."

  /** The reply prompt: the category and the email are spliced in as they are. */
  function ReplyPrompt(emailContent: string, category: string): string {
    ReplyHead + CategoryLabel + category + ReceivedLabel + emailContent + ReplyTail
  }

  /** The category and the received email appear verbatim right after their labels. */
  lemma ReplyPromptCarriesInputs(emailContent: string, category: string)
    ensures var p := ReplyPrompt(emailContent, category);
      var i := |ReplyHead|;
      var j := i + |CategoryLabel| + |category|;
      && |p| == j + |ReceivedLabel| + |emailContent| + |ReplyTail|
      && p[i..j] == CategoryLabel + category
      && p[j..j + |ReceivedLabel| + |emailContent|] == ReceivedLabel + emailContent
  {
    SplicedPairAt(ReplyHead, CategoryLabel, category, ReceivedLabel, emailContent, ReplyTail);
  }

  /** The request `generateSmartReply` sends (no system message, free text). */
  function ReplyRequest(emailContent: string, category: string): ChatRequest {
    ChatRequest("gpt-4o-mini", [ChatMessage("user", ReplyPrompt(emailContent, category))], false, 70, 200)
  }

  /** `generateSmartReply`: the model's text, or '' when it is null or the call fails. */
  function GenerateSmartReply(emailContent: string, category: string, model: ChatRequest -> Completion): (r: string)
    ensures r == "" || model(ReplyRequest(emailContent, category)) == Completed(Some(r))
    ensures model(ReplyRequest(emailContent, category)) == CallFailed ==> r == ""
    ensures model(ReplyRequest(emailContent, category)) == Completed(None) ==> r == ""
    ensures forall t :: model(ReplyRequest(emailContent, category)) == Completed(Some(t)) ==> r == t
  {
    match model(ReplyRequest(emailContent, category))
    case CallFailed => ""
    case Completed(text) => OrElse(text, "")
  }
}

/** The shared generation client (geminiService.ts): the prompts it sends,
    and what it makes of the model's response text. The model call and
    `JSON.parse` are opaque: the call's settled result arrives as an
    `Outcome<Option<string>>` (`None` when the response has no text) and
    the parser is a parameter. */
module GeminiService {
  import opened Wrappers
  import opened Seqs
  import opened Text
  import opened Types

  /** The indentation that the template literals carry into the prompts. */
  const Indent := "               "

  const ContentHead := "Siz professional metodistsiz. Quyidagi mavzu bo'yicha o'qituvchi uchun to'liq dars paketi yarating: \""

  const ContentTail :=
    "\".\n"
    + Indent + "Paket quyidagilardan iborat bo'lsin:\n"
    + Indent + "1. Mavzuning qisqacha mazmuni va maqsadli yosh guruhi.\n"
    + Indent + "2. 3 ta asosiy dars moduli (title, duration, keyPoints, activity).\n"
    + Indent + "3. 5 ta savoldan iborat quiz (question, options, correctAnswer).\n"
    + Indent + "4. Talabalar uchun ushbu darsga moslashtirilgan React + Tailwind CSS mobil ilovasi kodi.\n"
    + Indent + "5. Ilova uchun mos akademik rang (hex formatida).\n"
    + "\n"
    + Indent + "Ma'lumotlarni JSON formatida qaytaring."

  /** The instruction sent for a lesson package: the caller's prompt,
      verbatim and in quotes, inside fixed instructions. The prompt can be
      read back out of it, so distinct prompts give distinct instructions. */
  function ContentPrompt(prompt: string): (r: string)
    ensures Contains(r, prompt)
    ensures Enclosed(r, ContentHead, ContentTail) == Some(prompt)
  {
    ContainsMiddle(ContentHead, prompt, ContentTail);
    EnclosedFrame(ContentHead, prompt, ContentTail);
    ContentHead + prompt + ContentTail
  }

  /** The text handed to `JSON.parse`: the trimmed response text, or `"{}"`
      when the response has no text or only white space. It is never empty
      and never has white space at either end. */
  function StructuredPayload(text: Option<string>): (r: string)
    ensures r != "" && Trim(r) == r
    ensures text.None? || IsBlank(text.value) ==> r == "{}"
    ensures text.Some? && !IsBlank(text.value) ==> r == Trim(text.value)
  {
    match text
    case None => "{}"
    case Some(t) =>
      var trimmed := Trim(t);
      TrimIdempotent(t);
      if trimmed == "" then "{}" else trimmed
  }

  /** `generateEducationalContent`: a rejected call rejects; otherwise the
      result is whatever the parser makes of the payload. */
  function GenerateEducationalContent<T>(response: Outcome<Option<string>>, parse: string -> Outcome<T>): (r: Outcome<T>)
    ensures response.Err? ==> r.Err?
    ensures response.Ok? ==> r == parse(StructuredPayload(response.value))
  {
    match response
    case Err => Err
    case Ok(text) => parse(StructuredPayload(text))
  }

  /** A blank or missing response text is not a failure: it reaches the
      parser as `"{}"`, which `JSON.parse` accepts. */
  lemma BlankResponseIsNotFailure<T>(text: Option<string>, parse: string -> Outcome<T>)
    requires text.None? || IsBlank(text.value)
    requires parse("{}").Ok?
    ensures GenerateEducationalContent(Ok(text), parse) == parse("{}")
    ensures GenerateEducationalContent(Ok(text), parse).Ok?
  {
  }

  const Apology := "Kechirasiz, xatolik yuz berdi."

  /** The chat reply: the model's text when it has any, otherwise the fixed
      apology. White space is not trimmed, so a reply of spaces is kept. The
      reply is never empty. */
  function ChatReply(text: Option<string>): (r: string)
    ensures r != ""
    ensures text.Some? && text.value != "" ==> r == text.value
    ensures text.None? || text.value == "" ==> r == Apology
  {
    match text
    case Some(t) => if t != "" then t else Apology
    case None => Apology
  }

  /** `simulateBotResponse`: rejects exactly when the call rejects;
      otherwise resolves to a non-empty reply. */
  function SimulateBotResponse(response: Outcome<Option<string>>): (r: Outcome<string>)
    ensures r.Ok? <==> response.Ok?
    ensures r.Ok? ==> r.value != "" && r.value == ChatReply(response.value)
  {
    match response
    case Err => Err
    case Ok(text) => Ok(ChatReply(text))
  }

  /** The instruction sent for a chat reply: the personality's name and
      description and the user's text, each verbatim. */
  function ChatPrompt(userText: string, p: BotPersonality): (r: string)
    ensures Contains(r, p.name) && Contains(r, p.description) && Contains(r, userText)
  {
    var beforeName := "Siz quyidagi personajsiz:\n" + Indent + "Ism: ";
    var beforeDescription := "\n" + Indent + "Tavsif: ";
    var beforeText := "\n" + Indent + "\n" + Indent + "Foydalanuvchi xabari: \"";
    var afterText := "\"\n" + Indent + "\n" + Indent + "Ushbu personaj nomidan qisqa va mos javob qaytaring.";
    var r := beforeName + p.name + beforeDescription + p.description + beforeText + userText + afterText;
    ContainsEachOfThree(beforeName, p.name, beforeDescription, p.description, beforeText, userText, afterText);
    r
  }

  /** The chat instruction reads nothing of the personality but its name and
      description: the welcome message, the commands and the framework do
      not reach the model. */
  lemma ChatPromptIgnoresOtherFields(userText: string, p: BotPersonality, q: BotPersonality)
    requires p.name == q.name && p.description == q.description
    ensures ChatPrompt(userText, p) == ChatPrompt(userText, q)
  {
  }
}

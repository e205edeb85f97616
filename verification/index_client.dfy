/** The standalone page's own generation client (`generateContent` in
    index.tsx): a different prompt, a schema with `summary`, and a response
    fallback that does not trim. */
module IndexClient {
  import opened Wrappers
  import opened Seqs
  import opened Text
  import GeminiService

  const Indent := "    "

  const PromptHead := "Siz xalqaro darajadagi ta'lim metodistisiz. Quyidagi mavzu bo'yicha to'liq o'quv paketini yarating: \""

  const PromptTail :=
    "\".\n"
    + Indent + "\n"
    + Indent + "Paket quyidagilarni o'z ichiga olishi shart:\n"
    + Indent + "1. Mavzuning qisqacha mazmuni (summary) va maqsadli auditoriya.\n"
    + Indent + "2. 3 ta mantiqiy dars moduli (title, duration, keyPoints, activity).\n"
    + Indent + "3. 5 ta tanlovli test savoli (question, options, correctAnswer).\n"
    + Indent + "4. Ushbu darsga oid ma'lumotlarni ko'rsatuvchi Talabalar uchun \"Student Portal\" kodi (React + Tailwind CSS yordamida, faqat bitta komponent).\n"
    + Indent + "5. Brend rangi (hex formatida).\n"
    + "\n"
    + Indent + "Javobni FAQAT JSON formatida qaytaring."

  /** The instruction sent for a topic: the topic verbatim, in quotes,
      inside fixed instructions, and recoverable from them. */
  function TopicPrompt(topic: string): (r: string)
    ensures Contains(r, topic)
    ensures Enclosed(r, PromptHead, PromptTail) == Some(topic)
  {
    ContainsMiddle(PromptHead, topic, PromptTail);
    EnclosedFrame(PromptHead, topic, PromptTail);
    PromptHead + topic + PromptTail
  }

  /** `response.text || "{}"`: only a missing or empty text becomes
      `"{}"`; any other text, white space included, goes to the parser
      untrimmed. */
  function Payload(text: Option<string>): (r: string)
    ensures r != ""
    ensures text.None? || text.value == "" ==> r == "{}"
    ensures text.Some? && text.value != "" ==> r == text.value
  {
    match text
    case Some(t) => if t != "" then t else "{}"
    case None => "{}"
  }

  /** `generateContent`: a rejected call rejects; otherwise the result is
      whatever the parser makes of the payload. */
  function GenerateContent<T>(response: Outcome<Option<string>>, parse: string -> Outcome<T>): (r: Outcome<T>)
    ensures response.Err? ==> r.Err?
    ensures response.Ok? ==> r == parse(Payload(response.value))
  {
    match response
    case Err => Err
    case Ok(text) => parse(Payload(text))
  }

  /** The two clients agree on a missing, empty or non-blank response
      except for trimming, and disagree on a response of white space only:
      the shared client parses `"{}"`, the standalone page the white space
      itself (which `JSON.parse` rejects). */
  lemma PayloadsComparedWithSharedClient(text: Option<string>)
    ensures text.None? || text.value == "" ==> Payload(text) == GeminiService.StructuredPayload(text)
    ensures text.Some? && !IsBlank(text.value) ==> GeminiService.StructuredPayload(text) == Trim(Payload(text))
    ensures text.Some? && text.value != "" && IsBlank(text.value) ==>
      GeminiService.StructuredPayload(text) == "{}" && Payload(text) == text.value
  {
  }
}

/** The records the studio exchanges with the model and renders (types.ts),
    plus the local project shape of the standalone page (index.tsx). Every
    field is mandatory except where an `Option` says otherwise. */
module Types {
  import opened Wrappers

  /** One module of a lesson plan. */
  datatype LessonModule = LessonModule(
    title: string,
    duration: string,
    keyPoints: seq<string>,
    activity: string)

  /** A project quiz question: the right answer is named by its text. */
  datatype QuizQuestion = QuizQuestion(
    question: string,
    options: seq<string>,
    correctAnswer: string)

  /** The shared lesson package (types.ts): six fields, no summary. */
  datatype EducationalProject = EducationalProject(
    subject: string,
    targetAge: string,
    curriculum: seq<LessonModule>,
    quiz: seq<QuizQuestion>,
    studentAppCode: string,
    themeColor: string)

  /** The standalone page's own lesson package (index.tsx): the shared six
      fields and a `summary`. */
  datatype SummarizedProject = SummarizedProject(
    subject: string,
    targetAge: string,
    curriculum: seq<LessonModule>,
    quiz: seq<QuizQuestion>,
    studentAppCode: string,
    themeColor: string,
    summary: string)

  /** Who wrote a chat message. */
  datatype Sender = User | Bot

  /** One chat transcript entry; `timestamp` is a clock reading in
      milliseconds. */
  datatype Message = Message(id: string, text: string, sender: Sender, timestamp: int)

  /** The five kinds of mini-app component. */
  datatype ComponentKind = Button | Card | Input | List | Chart

  /** A page component; `caption` is the source's `label` (a reserved word
      in Dafny). */
  datatype PageComponent = PageComponent(kind: ComponentKind, caption: string, details: string)

  datatype MiniAppPage = MiniAppPage(
    title: string,
    route: string,
    content: string,
    components: seq<PageComponent>)

  datatype MiniAppProject = MiniAppProject(
    name: string,
    themeColor: string,
    pages: seq<MiniAppPage>,
    fullCode: string,
    botIntegrationGuide: string)

  /** A bot menu command; `command` is the bare token without its slash. */
  datatype BotCommand = BotCommand(command: string, description: string)

  datatype BotPersonality = BotPersonality(
    name: string,
    description: string,
    welcomeMessage: string,
    commands: seq<BotCommand>,
    suggestedFramework: string)

  /** A channel post; only the image address is optional. */
  datatype GeneratedPost = GeneratedPost(
    text: string,
    hashtags: seq<string>,
    imageUrl: Option<string>,
    imagePrompt: string)

  /** A course lesson's quiz option: correctness is a flag on each option,
      unlike `QuizQuestion`, which names its answer. */
  datatype LessonQuizOption = LessonQuizOption(text: string, isCorrect: bool)

  datatype LessonQuiz = LessonQuiz(question: string, options: seq<LessonQuizOption>)

  /** A course lesson; only the image address is optional. */
  datatype Lesson = Lesson(
    title: string,
    content: string,
    imageUrl: Option<string>,
    quiz: LessonQuiz)

  datatype Course = Course(topic: string, description: string, lessons: seq<Lesson>)

  /** The literal a sender is written as. */
  function SenderName(s: Sender): string {
    match s
    case User => "user"
    case Bot => "bot"
  }

  /** Reads the `'user' | 'bot'` union: exactly those two literals are
      senders, and each reads back as the sender it names. */
  function ParseSender(t: string): (r: Option<Sender>)
    ensures r.Some? <==> t == "user" || t == "bot"
    ensures r.Some? ==> SenderName(r.value) == t
  {
    if t == "user" then Some(User)
    else if t == "bot" then Some(Bot)
    else None
  }

  /** The literal a component kind is written as. */
  function KindName(k: ComponentKind): string {
    match k
    case Button => "button"
    case Card => "card"
    case Input => "input"
    case List => "list"
    case Chart => "chart"
  }

  /** Reads the five-literal component-type union. */
  function ParseKind(t: string): (r: Option<ComponentKind>)
    ensures r.Some? <==> t in {"button", "card", "input", "list", "chart"}
    ensures r.Some? ==> KindName(r.value) == t
  {
    if t == "button" then Some(Button)
    else if t == "card" then Some(Card)
    else if t == "input" then Some(Input)
    else if t == "list" then Some(List)
    else if t == "chart" then Some(Chart)
    else None
  }

  /** Printing then reading a sender or a kind gives it back, so the
      literal unions and the enumerations are in one-to-one correspondence. */
  lemma LiteralsRoundTrip(s: Sender, k: ComponentKind)
    ensures ParseSender(SenderName(s)) == Some(s)
    ensures ParseKind(KindName(k)) == Some(k)
  {
  }
}

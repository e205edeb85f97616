/** The page session of both entry points: `handleCreate` of the standalone
    page (index.tsx) and `handleGenerate` of the shared page (App.tsx).
    Each awaited handler is split into a `Begin` step, after which the
    loading flag is observable, and a `Complete` step fed with the settled
    result of the generation client. The two pages differ in one respect:
    only the standalone page brings the plan tab back after a success. */
module Session {
  import opened Wrappers
  import opened Text
  import GeminiService
  import IndexClient
  import Schema

  /** The three content tabs. */
  datatype Tab = Plan | Quiz | App

  /** Which page's handler runs. */
  datatype Variant = Standalone | Shared

  /** The page state: prompt field, loading flag, current project (if any)
      and active tab. `P` is the page's project record. */
  datatype State<P> = State(input: string, loading: bool, project: Option<P>, tab: Tab)

  /** A user-visible event: the blocking `alert` shown after a failure. */
  datatype Notice = Alert(message: string)

  /** The state after `Begin`, and the prompt handed to the client, if one
      was. */
  datatype Started<P> = Started(state: State<P>, request: Option<string>)

  /** The state after `Complete`, and the notices it raised. */
  datatype Settled<P> = Settled(state: State<P>, notices: seq<Notice>)

  /** What the page shows below the header. */
  datatype View = PromptForm | TabPanel(tab: Tab)

  /** The state a page starts in. */
  function Initial<P>(): (s: State<P>)
    ensures s.input == "" && !s.loading && s.project.None? && s.tab == Plan
  {
    State("", false, None, Plan)
  }

  /** The alert text of each page. */
  function FailureMessage(v: Variant): string {
    match v
    case Standalone => "Kechirasiz, ma'lumotlarni yaratishda xatolik yuz berdi. Iltimos, qaytadan urinib ko'ring."
    case Shared => "Xatolik yuz berdi. Qayta urinib ko'ring."
  }

  /** Typing in the prompt field. */
  function EditInput<P>(s: State<P>, text: string): (r: State<P>)
    ensures r.input == text && r.(input := s.input) == s
  {
    s.(input := text)
  }

  /** First half of the handler: a blank prompt does nothing; otherwise
      loading goes on and the untrimmed prompt is sent. The loading flag is
      not consulted. */
  function Begin<P>(s: State<P>): (r: Started<P>)
    ensures r.request.Some? <==> !IsBlank(s.input)
    ensures r.request.Some? ==> r.request.value == s.input && r.state == s.(loading := true)
    ensures r.request.None? ==> r.state == s
  {
    if Trim(s.input) == "" then Started(s, None)
    else Started(s.(loading := true), Some(s.input))
  }

  /** Second half of the handler. Success replaces the project wholesale
      (and, on the standalone page only, returns to the plan tab); failure
      leaves project and tab alone and raises one alert. Either way loading
      ends off and the prompt text stays. */
  function Complete<P>(v: Variant, s: State<P>, outcome: Outcome<P>): (r: Settled<P>)
    ensures !r.state.loading && r.state.input == s.input
    ensures outcome.Ok? ==> r.state.project == Some(outcome.value) && r.notices == []
    ensures outcome.Ok? ==> r.state.tab == (if v == Standalone then Plan else s.tab)
    ensures outcome.Err? ==> r.state == s.(loading := false)
    ensures outcome.Err? ==> r.notices == [Alert(FailureMessage(v))]
  {
    match outcome
    case Ok(p) =>
      var tab := if v == Standalone then Plan else s.tab;
      Settled(s.(project := Some(p), tab := tab, loading := false), [])
    case Err =>
      Settled(s.(loading := false), [Alert(FailureMessage(v))])
  }

  /** A whole handler run with no other event in between. */
  function Generate<P>(v: Variant, s: State<P>, outcome: Outcome<P>): Settled<P> {
    var started := Begin(s);
    if started.request.None? then Settled(s, []) else Complete(v, started.state, outcome)
  }

  /** Loading is on while the request is in flight and off once it has
      settled, whatever the outcome. */
  lemma LoadingBracketsRequest<P>(v: Variant, s: State<P>, outcome: Outcome<P>)
    requires !IsBlank(s.input)
    ensures Begin(s).state.loading
    ensures !Complete(v, Begin(s).state, outcome).state.loading
  {
  }

  /** A failed generation started from a settled page leaves the page
      exactly as it was, apart from the one alert. */
  lemma FailureLeavesStateAlone<P>(v: Variant, s: State<P>)
    requires !s.loading
    ensures Generate(v, s, Err).state == s
    ensures |Generate(v, s, Err).notices| == (if IsBlank(s.input) then 0 else 1)
  {
  }

  /** The two pages settle a success identically except for the tab. */
  lemma PagesDifferOnlyInTab<P>(s: State<P>, p: P)
    ensures Complete(Standalone, s, Ok(p)).state == Complete(Shared, s, Ok(p)).state.(tab := Plan)
    ensures Complete(Shared, s, Ok(p)).state.tab == s.tab
  {
  }

  /** The submit button: disabled while loading or while the prompt is
      blank. */
  function Click<P>(s: State<P>): (r: Started<P>)
    ensures r.request.Some? <==> !s.loading && !IsBlank(s.input)
    ensures r.request.None? ==> r.state == s
  {
    if s.loading || Trim(s.input) == "" then Started(s, None) else Begin(s)
  }

  /** A key press in the prompt field: Enter calls the handler directly. */
  function KeyDown<P>(s: State<P>, key: string): Started<P> {
    if key == "Enter" then Begin(s) else Started(s, None)
  }

  /** The only guard against a second request is the disabled button:
      Enter while a request is in flight sends another. */
  lemma EnterBypassesLoadingGuard<P>(s: State<P>)
    requires s.loading && !IsBlank(s.input)
    ensures KeyDown(s, "Enter").request == Some(s.input)
    ensures Click(s).request.None?
  {
  }

  /** "New lesson" (and, on the standalone page, the logo): the project is
      cleared; the tab, the flag and the prompt stay. */
  function Reset<P>(s: State<P>): (r: State<P>)
    ensures r.project.None?
    ensures r.input == s.input && r.loading == s.loading && r.tab == s.tab
  {
    s.(project := None)
  }

  /** The tab buttons, shown only under `project &&`: while a project is
      stored and the stored value is truthy. `truthy` is JavaScript's
      truthiness of the page's project values. */
  function TabsOffered<P>(s: State<P>, truthy: P -> bool): (r: seq<Tab>)
    ensures r == [] <==> s.project.None? || !truthy(s.project.value)
    ensures s.project.Some? && truthy(s.project.value) ==> |r| == 3 && Plan in r && Quiz in r && App in r
  {
    match s.project
    case Some(p) => if truthy(p) then [Plan, Quiz, App] else []
    case None => []
  }

  /** Choosing a tab sets exactly the tab. */
  function SelectTab<P>(s: State<P>, t: Tab): (r: State<P>)
    ensures r.tab == t && r.(tab := s.tab) == s
  {
    s.(tab := t)
  }

  /** `!project ?`: the prompt form while no truthy project is stored, the
      active tab's panel otherwise. */
  function ViewOf<P>(s: State<P>, truthy: P -> bool): (r: View)
    ensures r == PromptForm <==> s.project.None? || !truthy(s.project.value)
    ensures s.project.Some? && truthy(s.project.value) ==> r == TabPanel(s.tab)
  {
    match s.project
    case Some(p) => if truthy(p) then TabPanel(s.tab) else PromptForm
    case None => PromptForm
  }

  /** A page opens on the prompt form, with no tab buttons. */
  lemma OpensOnPromptForm<P>(truthy: P -> bool)
    ensures ViewOf(Initial<P>(), truthy) == PromptForm
    ensures TabsOffered(Initial<P>(), truthy) == []
  {
  }

  /** After a reset and a new success, the standalone page shows the plan,
      while the shared page shows whichever tab was last chosen; a falsy
      result leaves both on the prompt form. */
  lemma ViewAfterNewLesson<P>(s: State<P>, p: P, truthy: P -> bool)
    requires !IsBlank(s.input)
    ensures ViewOf(Generate(Standalone, Reset(s), Ok(p)).state, truthy) == (if truthy(p) then TabPanel(Plan) else PromptForm)
    ensures ViewOf(Generate(Shared, Reset(s), Ok(p)).state, truthy) == (if truthy(p) then TabPanel(s.tab) else PromptForm)
  {
  }

  /** No request is ever cancelled: a result that arrives after a reset
      still becomes the project. */
  lemma LateResultAppliedAfterReset<P>(v: Variant, s: State<P>, p: P)
    requires !IsBlank(s.input)
    ensures Complete(v, Reset(Begin(s).state), Ok(p)).state.project == Some(p)
  {
  }

  // ----- The handlers with their generation clients -----

  /** The shared page with `generateEducationalContent`: a missing or blank
      response text is parsed as `"{}"`, and whatever that parses to is
      stored as the project with no alert, so the panel of the last chosen
      tab is shown. */
  lemma SharedPageStoresBlankResponse<P>(s: State<P>, text: Option<string>, parse: string -> Outcome<P>, j: P, truthy: P -> bool)
    requires !IsBlank(s.input)
    requires text.None? || IsBlank(text.value)
    requires parse("{}") == Ok(j)
    ensures var r := Generate(Shared, s, GeminiService.GenerateEducationalContent(Ok(text), parse));
      && r.state.project == Some(j) && !r.state.loading && r.notices == []
      && ViewOf(r.state, truthy) == (if truthy(j) then TabPanel(s.tab) else PromptForm)
  {
    GeminiService.BlankResponseIsNotFailure(text, parse);
  }

  /** The standalone page with its own `generateContent`: a missing or
      empty response text is parsed as `"{}"` and stored the same way, and
      the plan tab is shown. */
  lemma StandalonePageStoresEmptyResponse<P>(s: State<P>, text: Option<string>, parse: string -> Outcome<P>, j: P, truthy: P -> bool)
    requires !IsBlank(s.input)
    requires text.None? || text.value == ""
    requires parse("{}") == Ok(j)
    ensures var r := Generate(Standalone, s, IndexClient.GenerateContent(Ok(text), parse));
      && r.state.project == Some(j) && !r.state.loading && r.notices == []
      && ViewOf(r.state, truthy) == (if truthy(j) then TabPanel(Plan) else PromptForm)
  {
  }

  /** A response of white space only reaches the standalone page's parser
      unchanged, so a parser that rejects it ends in the alert with the
      page otherwise untouched. */
  lemma WhitespaceReachesStandaloneParser<P>(s: State<P>, t: string, parse: string -> Outcome<P>)
    requires !s.loading && !IsBlank(s.input)
    requires t != "" && IsBlank(t)
    ensures Generate(Standalone, s, IndexClient.GenerateContent(Ok(Some(t)), parse)) == Generate(Standalone, s, parse(t))
    ensures parse(t).Err? ==>
      Generate(Standalone, s, IndexClient.GenerateContent(Ok(Some(t)), parse)) == Settled(s, [Alert(FailureMessage(Standalone))])
  {
    assert IndexClient.Payload(Some(t)) == t;
    assert IndexClient.GenerateContent(Ok(Some(t)), parse) == parse(t);
    if parse(t).Err? {
      FailureLeavesStateAlone(Standalone, s);
    }
  }

  /** The shared page parses `"{}"` in place of a response of white space
      only. */
  lemma WhitespaceReplacedOnSharedPage<P>(s: State<P>, t: string, parse: string -> Outcome<P>)
    requires t != "" && IsBlank(t)
    ensures Generate(Shared, s, GeminiService.GenerateEducationalContent(Ok(Some(t)), parse)) == Generate(Shared, s, parse("{}"))
  {
    IndexClient.PayloadsComparedWithSharedClient(Some(t));
    assert GeminiService.GenerateEducationalContent(Ok(Some(t)), parse) == parse("{}");
  }

  /** The cast of the parsed response is not checked: with a parser that
      reads `"{}"` as the empty object, a blank response on the shared page
      stores that object as the project, although it reads as no project
      at all, and its panel is shown. */
  lemma EmptyObjectStoredAsProject(s: State<Schema.Json>, text: Option<string>, parse: string -> Outcome<Schema.Json>)
    requires !IsBlank(s.input)
    requires text.None? || IsBlank(text.value)
    requires parse("{}") == Ok(Schema.JObject([]))
    ensures var r := Generate(Shared, s, GeminiService.GenerateEducationalContent(Ok(text), parse));
      && r.state.project == Some(Schema.JObject([])) && r.notices == []
      && Schema.DecodeProject(r.state.project.value).None?
      && ViewOf(r.state, Schema.Truthy) == TabPanel(s.tab)
  {
    SharedPageStoresBlankResponse(s, text, parse, Schema.JObject([]), Schema.Truthy);
    Schema.EmptyObjectIsNoProject();
  }

  /** A parse that is falsy (`""`, `null`, `0` or `false`) is stored
      without an alert, yet the page tests the stored value for truthiness
      and so keeps showing the prompt form, with no tab buttons. */
  lemma FalsyParseShowsForm(v: Variant, s: State<Schema.Json>, j: Schema.Json)
    requires !IsBlank(s.input) && !Schema.Truthy(j)
    ensures var r := Generate(v, s, Ok(j));
      && r.state.project == Some(j) && !r.state.loading && r.notices == []
      && ViewOf(r.state, Schema.Truthy) == PromptForm
      && TabsOffered(r.state, Schema.Truthy) == []
  {
  }

  /** A structured response whose text is `""` (two quote marks), read by
      a parser that returns the empty string for it, leaves the shared page
      on the prompt form with neither project panel nor alert. */
  lemma QuotedEmptyResponseShowsForm(s: State<Schema.Json>, parse: string -> Outcome<Schema.Json>)
    requires !IsBlank(s.input)
    requires parse("\"\"") == Ok(Schema.JString(""))
    ensures var r := Generate(Shared, s, GeminiService.GenerateEducationalContent(Ok(Some("\"\"")), parse));
      && r.state.project == Some(Schema.JString("")) && r.notices == []
      && ViewOf(r.state, Schema.Truthy) == PromptForm
  {
    var t := "\"\"";
    assert !IsBlank(t) && Trim(t) == t by {
      assert !IsWhitespace(t[0]) && !IsWhitespace(t[1]);
    }
    assert GeminiService.GenerateEducationalContent(Ok(Some(t)), parse) == parse(t);
  }
}

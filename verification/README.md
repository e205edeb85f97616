# EduStudio AI: a Dafny model of its state logic

EduStudio AI is a React front end to a hosted language model. A teacher
types a topic and gets back a lesson package: a plan of modules, a quiz and
the code of a student app. Other screens let the teacher design a Telegram
bot, chat with a simulated version of it, preview a mini app and preview a
channel post.

Under the markup sit a few small, sequential pieces of logic. This project
lifts each of them out as pure functions over immutable records and proves
what they promise:

- the generation session of the two lesson pages, split into a begin step
  and a complete step so that the in-flight state can be observed (`Session`);
- the response-text fallbacks, the prompt texts and the response schemas,
  checked against the record types (`GeminiService`, `IndexClient`, `Schema`);
- the quiz view's correct-answer marking (`QuizView`);
- the simulated bot chat transcript (`TelegramChat`);
- the bot configuration form (`BotDesigner`);
- the mini-app preview's page navigation (`MiniApp`);
- the channel-post preview (`PostPreview`).

Three things from outside the code become inputs:

- The model call becomes an `Outcome<Option<string>>`. `Err` is a rejected
  call. `Ok(None)` is a response without text.
- `JSON.parse` becomes a function parameter `string -> Outcome<T>`.
- The clock becomes a `nat` parameter in milliseconds.

`Wrappers` holds `Option` and `Outcome`. `Seqs` holds counting and
containment facts. `Text` models the JavaScript string operations the code
uses: `trim`, `replace` with a one-character pattern, `split(' ')[0]`,
`join` and `toString`.

Four behaviours of the code are worth stating:

- A missing or blank response on the shared page, and a missing or empty
  one on the standalone page, is parsed as `"{}"`. It is not reported as a
  failure, and the unchecked cast stores whatever the parser returns as the
  project (`Session.SharedPageStoresBlankResponse`,
  `Session.StandalonePageStoresEmptyResponse`,
  `Session.EmptyObjectStoredAsProject`). A response of white space only
  reaches the standalone page's parser unchanged, so there it ends in the
  alert (`Session.WhitespaceReachesStandaloneParser`).
- The pages test the stored value for truthiness, not for presence. A
  parse that yields `""`, `null`, `0` or `false` is stored without an
  alert, yet the prompt form stays on screen with no tab buttons
  (`Session.FalsyParseShowsForm`).
- The generation handlers have no "already loading" guard. The disabled
  submit button is the only guard, and the Enter key calls the handler
  directly (`Session.EnterBypassesLoadingGuard`).
- No request is tagged or discarded. A result that arrives after "new
  lesson" is still applied (`Session.LateResultAppliedAfterReset`).
- Only the standalone page resets the tab to the plan on success. The shared
  page keeps the current tab (`Session.PagesDifferOnlyInTab`).

## Model

The handler runs themselves (`Session.Generate`, `Session.KeyDown`) and
the two generation clients (`GeminiService.GenerateEducationalContent`,
`IndexClient.GenerateContent`) have no rows of their own: the lemmas that
run them (`Session.FailureLeavesStateAlone`,
`Session.EnterBypassesLoadingGuard`,
`Session.SharedPageStoresBlankResponse`,
`Session.StandalonePageStoresEmptyResponse` and those after them) state what
they do.

| member | source | states |
|---|---|---|
| Types.ParseSender | types.ts:27 | a message sender is exactly one of the literals `user` and `bot`, and each reads back as the sender it names |
| Types.ParseKind | types.ts:36 | a component type is exactly one of the five literals button, card, input, list and chart |
| Types.LiteralsRoundTrip | types.ts:24-39 | printing a sender or a component kind and reading it back gives the same value, so the literal unions match the enumerations one to one |
| Schema.RequiredListsMatchRecords | geminiService.ts:58 | the top-level required list names exactly the six fields of the shared project record, in the order an encoded record lists them; it has no `summary`, while the standalone page's list has seven entries including `summary` |
| Schema.RequiredListsAreNames | geminiService.ts:27-58 | in all four object schemas (shared and standalone), every required name is a declared property, the required list holds no duplicates, and it covers all declared properties |
| Schema.SchemasWellFormed | geminiService.ts:25-59 | both top-level schemas are well formed: every required name of every nested object is declared |
| Schema.ModuleConforms | geminiService.ts:33-42 | every lesson module, written as JSON, meets the curriculum item schema (title, duration, keyPoints and activity required) |
| Schema.QuestionConforms | geminiService.ts:45-54 | every quiz question, written as JSON, meets the quiz item schema (question, options and correctAnswer required) |
| Schema.ProjectConforms | geminiService.ts:25-59 | every shared project record, written as JSON, meets the top-level response schema |
| Schema.SummarizedConforms | index.tsx:48-83 | every standalone project record, written as JSON, meets the standalone page's response schema |
| Schema.DecodeEach | types.ts:18-19 | reading a JSON array succeeds exactly when every item reads, and then yields one value per item in order |
| Schema.DecodeEachEncodeEach | types.ts:18-19 | reading back an encoded list gives the list when each item round-trips |
| Schema.ModuleRoundTrip | types.ts:2-7 | reading a written lesson module gives it back |
| Schema.QuestionRoundTrip | types.ts:9-13 | reading a written quiz question gives it back |
| Schema.ListsRoundTrip | types.ts:18-19 | reading a written curriculum or quiz gives it back |
| Schema.ProjectRoundTrip | geminiService.ts:64 | reading the JSON of a shared project as a project record gives the record back |
| Schema.SummarizedRoundTrip | index.tsx:88 | reading the JSON of a standalone project as a record gives the record back |
| Schema.ConformingModuleReads | geminiService.ts:41 | any JSON meeting the curriculum item schema reads as a lesson module |
| Schema.ConformingQuestionReads | geminiService.ts:53 | any JSON meeting the quiz item schema reads as a quiz question |
| Schema.ConformingCurriculumReads | geminiService.ts:31-43 | the curriculum of any schema-conforming response reads as a list of modules |
| Schema.ConformingQuizReads | geminiService.ts:44-55 | the quiz of any schema-conforming response reads as a list of questions |
| Schema.ConformingProjectReads | geminiService.ts:58-64 | any response meeting the top-level schema reads as a project record |
| Schema.Truthy | App.tsx:40 | a parsed value is falsy exactly when it is `null`, `false`, `0` or the empty string; every array and object is truthy |
| Schema.EmptyObjectIsNoProject | geminiService.ts:63-64 | the `"{}"` fallback's value meets neither top-level schema and is no project record |
| GeminiService.ContentPrompt | geminiService.ts:14-22 | the lesson instruction contains the caller's prompt verbatim, and the prompt can be cut back out from between the fixed head and tail |
| GeminiService.StructuredPayload | geminiService.ts:63 | the text handed to the parser is never empty and is already trimmed; it is `"{}"` exactly when the response text is missing or blank, and the trimmed text otherwise |
| GeminiService.BlankResponseIsNotFailure | geminiService.ts:63-64 | a missing or blank response text is not a failure: it is parsed as `"{}"` |
| GeminiService.ChatReply | geminiService.ts:83 | the chat reply is never empty: it is the model's text when that is non-empty, and otherwise the fixed apology "Kechirasiz, xatolik yuz berdi." |
| GeminiService.SimulateBotResponse | geminiService.ts:70-84 | the chat call rejects exactly when the model call rejects; otherwise its reply is the non-empty chat reply |
| GeminiService.ChatPrompt | geminiService.ts:74-80 | the chat instruction contains the personality's name, its description and the user's text |
| GeminiService.ChatPromptIgnoresOtherFields | geminiService.ts:74-80 | two personalities with the same name and description give the same chat instruction, so the welcome text, commands and framework are never sent |
| IndexClient.TopicPrompt | index.tsx:36-45 | the standalone page's instruction contains the topic verbatim, and the topic can be cut back out from between the fixed head and tail |
| IndexClient.Payload | index.tsx:87 | the parser gets `"{}"` only for a missing or empty response text; any other text is passed untrimmed |
| IndexClient.PayloadsComparedWithSharedClient | index.tsx:87 | the standalone client and the shared client agree on a missing or empty text, and differ by trimming otherwise; a whitespace-only text goes to the parser unchanged here and as `"{}"` in the shared client |
| QuizView.MarkOptions | index.tsx:266-273 | one highlight flag per option, in order, and an option is highlighted exactly when it equals the correct answer string |
| QuizView.MarkedCountIsOccurrences | App.tsx:144-147 | the number of highlighted options equals the number of copies of the answer among the options |
| QuizView.HighlightedOptions | index.tsx:267-269 | an answer that occurs once gives exactly one highlighted option; an answer that is absent gives none |
| Session.Initial | index.tsx:93-96 | a page starts with an empty prompt, not loading, no project and the plan tab |
| Session.EditInput | index.tsx:164 | typing changes the prompt text and nothing else |
| Session.Begin | index.tsx:99-102 | a blank prompt (after trimming) changes nothing and sends nothing; otherwise loading turns on, nothing else changes, and the untrimmed prompt is sent |
| Session.Complete | index.tsx:101-110 | loading ends false either way and the prompt is kept; success replaces the project wholesale, raises no notice and sets the tab to plan on the standalone page only; failure changes nothing but loading and raises exactly one alert with the page's message |
| Session.LoadingBracketsRequest | App.tsx:14-23 | loading is on while a request is in flight and off once it settles, whatever the outcome |
| Session.FailureLeavesStateAlone | App.tsx:18-23 | a failed run from a settled page leaves the page exactly as it was, with one alert (none when the prompt is blank) |
| Session.PagesDifferOnlyInTab | App.tsx:16-17 | the two pages settle a success identically except that the shared page keeps the current tab |
| Session.Click | index.tsx:170-171 | the submit button sends a request exactly when the page is not loading and the prompt is not blank |
| Session.EnterBypassesLoadingGuard | index.tsx:165 | while loading, Enter sends a second request that the disabled button would refuse |
| Session.Reset | index.tsx:118 | "new lesson" and the logo clear the project and leave the prompt, the loading flag and the tab as they are |
| Session.TabsOffered | App.tsx:40-45 | tab buttons are offered exactly while a truthy project is stored (`project &&`), and then all three tabs are offered |
| Session.SelectTab | index.tsx:133 | choosing a tab sets exactly that tab and changes nothing else |
| Session.ViewOf | index.tsx:147 | the prompt form shows exactly when no project is stored or the stored value is falsy (`!project`); otherwise the current tab's panel shows |
| Session.OpensOnPromptForm | index.tsx:93-96 | a page opens on the prompt form with no tab buttons |
| Session.ViewAfterNewLesson | index.tsx:103-104 | after a reset and a successful run with a truthy result, the standalone page shows the plan, while the shared page shows whichever tab was current; with a falsy result both show the prompt form |
| Session.LateResultAppliedAfterReset | index.tsx:101-103 | a result that arrives after a reset is still stored as the project |
| Session.SharedPageStoresBlankResponse | App.tsx:13-17 | on the shared page with its generation client, a missing or blank response text is parsed as `"{}"` and its parse is stored as the project with no alert and loading off; the current tab's panel shows when that parse is truthy, the prompt form otherwise |
| Session.StandalonePageStoresEmptyResponse | index.tsx:99-104 | on the standalone page with its own client, a missing or empty response text is parsed as `"{}"` and its parse is stored with no alert and loading off; the plan panel shows when that parse is truthy, the prompt form otherwise |
| Session.WhitespaceReachesStandaloneParser | index.tsx:87-88 | a response of white space only reaches the standalone page's parser unchanged; when the parser rejects it, the page ends exactly as it was with one alert |
| Session.WhitespaceReplacedOnSharedPage | geminiService.ts:63-64 | on the shared page a response of white space only settles as if the model had answered `"{}"` |
| Session.EmptyObjectStoredAsProject | App.tsx:16-17 | with a parser that reads `"{}"` as the empty object, a blank response stores that object as the project without an alert, although it reads as no project record, and, being truthy, its panel is shown |
| Session.FalsyParseShowsForm | App.tsx:40-58 | on either page, a falsy parse (`""`, `null`, `0`, `false`) is stored without an alert, yet the prompt form shows and no tab buttons are offered |
| Session.QuotedEmptyResponseShowsForm | geminiService.ts:63-64 | a response whose text is `""` (two quote marks) passes the blank fallback, parses to the empty string and leaves the shared page on the prompt form with no alert |
| TelegramChat.WelcomeReset | components/TelegramPreview.tsx:16-25 | the welcome effect leaves the transcript as one bot message with id `start` and the welcome text, discarding prior entries; the input and typing flag are not touched |
| TelegramChat.Mount | components/TelegramPreview.tsx:11-25 | a freshly shown chat holds only the welcome message, with an empty field and no typing |
| TelegramChat.PersonalityChanged | components/TelegramPreview.tsx:25 | a new personality resets the transcript exactly when its welcome text differs; any other change keeps the chat as it was |
| TelegramChat.TypeText | components/TelegramPreview.tsx:147 | typing sets the message field and nothing else |
| TelegramChat.TapCommand | components/TelegramPreview.tsx:129 | a command shortcut sets the field to "/" followed by the command, leaving transcript and typing alone |
| TelegramChat.SendBegin | components/TelegramPreview.tsx:33-45 | blank input changes nothing and sends nothing; otherwise one user message with the untrimmed text and the clock's id is appended, the field is cleared, typing starts, and the instruction sent contains the text, the bot's name and its description |
| TelegramChat.SendComplete | components/TelegramPreview.tsx:47-60 | a reply appends exactly one non-empty bot message after the existing entries, with id from the clock plus one; a rejected call appends nothing; typing ends false either way |
| TelegramChat.ExchangeAppendsPair | components/TelegramPreview.tsx:36-55 | one answered exchange appends its user message and then its reply, and leaves the field empty and typing off |
| TelegramChat.ConversationTranscript | components/TelegramPreview.tsx:43-55 | after any series of answered exchanges the transcript is the old one followed by each exchange's user message and reply, in order |
| TelegramChat.FreshConversation | components/TelegramPreview.tsx:16-55 | from a fresh chat, N answered sends leave 1 + 2N messages: the welcome message, then user and bot messages alternating, each holding its exchange's text and reply |
| TelegramChat.MessageIds | components/TelegramPreview.tsx:37-51 | a user id and a reply id coincide exactly when the send's clock reading is one more than the reply's, so ids are not unique; no clock id equals the welcome id `start` |
| BotDesigner.Extensionality | types.ts:61-67 | two personalities that agree on all five fields are equal |
| BotDesigner.Apply | components/BotDesigner.tsx:12 | spreading with one key sets that field to the value and keeps every other field |
| BotDesigner.UpdateField | components/BotDesigner.tsx:11-13 | an absent personality stays absent; a present one gets the named field replaced and no other field changed |
| BotDesigner.EditLaws | components/BotDesigner.tsx:11-13 | writing back a field's own value changes nothing; a second write to a field overrides the first; writes to different fields commute |
| BotDesigner.UpdateCommand | components/BotDesigner.tsx:15-17 | the list keeps its length and every other command; command `i` gets the chosen field set and keeps its other field |
| BotDesigner.StripSlash | components/BotDesigner.tsx:67 | typed text without a slash is kept; otherwise the result is the text before the first slash followed by the text after it, so exactly one slash goes and later slashes stay |
| BotDesigner.StripSlashExamples | components/BotDesigner.tsx:67 | a name typed with a leading slash is stored bare; of a bare name followed by a slash only that slash goes, and a slash between two copies of a name is dropped |
| BotDesigner.DropIndex | components/BotDesigner.tsx:80 | the index filter removes exactly the element at that position and keeps the rest in order; an index outside the list removes nothing |
| BotDesigner.EditCommandName | components/BotDesigner.tsx:64-67 | a keystroke in a name box sends the shown list with that command's name set to the slash-stripped text, its description and all other commands unchanged |
| BotDesigner.EditCommandDescription | components/BotDesigner.tsx:71-74 | a keystroke in a description box sends the shown list with only that command's description replaced |
| BotDesigner.RemoveCommand | components/BotDesigner.tsx:79-81 | the trash button sends the shown list without exactly the command at that position, the rest in order |
| BotDesigner.AddCommand | components/BotDesigner.tsx:90 | the add button sends the shown list unchanged followed by the command "new" / "What this does" |
| BotDesigner.CommandEditsKeepProfile | components/BotDesigner.tsx:15-19 | a command-list edit keeps name, description, welcome text and framework, so the chat preview keeps its transcript |
| MiniApp.TabIcons | components/MiniAppPreview.tsx:89-93 | the first three tabs show house, box and user icons, all different; a tab shows the gear exactly from index 3 on |
| MiniApp.TabCaption | components/MiniAppPreview.tsx:95 | a tab caption is a space-free prefix of the page title: the whole title when it has no space, empty when it starts with one |
| MiniApp.TabCaptionIsFirstWord | components/MiniAppPreview.tsx:95 | the caption is the unique space-free prefix of the title that is followed by a space or by the end |
| MiniApp.NavBar | components/MiniAppPreview.tsx:78-96 | one tab per page in page order, each with its index, first-word caption and positional icon; a tab is highlighted exactly when its index is the active one |
| MiniApp.OneHighlightedTab | components/MiniAppPreview.tsx:82-83 | exactly one tab is highlighted when the active index names a page, and none otherwise |
| MiniApp.BadgesDistinct | components/MiniAppPreview.tsx:48-53 | different component kinds get different badge icons |
| MiniApp.CardOf | components/MiniAppPreview.tsx:37-61 | a component card gets button styling exactly when its type is button, and shows its label, details and the kind's badge |
| MiniApp.Render | components/MiniAppPreview.tsx:11-37 | the preview renders exactly when the active index is below the page count (an empty list fails); it then shows that page's title, content, one card per component in order, and the navigation bar |
| MiniApp.Tap | components/MiniAppPreview.tsx:78-81 | tapping a drawn tab makes its page active, so the index stays below the page count and that tab becomes highlighted |
| MiniApp.OpensOnFirstPage | components/MiniAppPreview.tsx:10-11 | the preview opens on index 0: it draws the first page, with the first tab highlighted, exactly when the project has a page |
| MiniApp.AlwaysRenders | components/MiniAppPreview.tsx:10-11 | from a valid index, any sequence of tab taps keeps the preview rendering, and the active page is the last one tapped |
| PostPreview.ExactlyOnePanel | components/PostPreview.tsx:33-48 | exactly one panel shows: the post whenever there is one, otherwise the writing panel while loading, otherwise the empty state |
| PostPreview.HashtagDisplay | components/PostPreview.tsx:71 | a drawn hashtag is `#` followed by the tag with its first `#` removed: the tag whole when it has no `#`, otherwise the text before its first `#` and then the text after it |
| PostPreview.HashtagDisplayMatchesClipboard | components/PostPreview.tsx:71 | the card and the clipboard write a tag the same way exactly when the tag contains no `#` |
| PostPreview.HashtagDisplayExamples | components/PostPreview.tsx:71 | a tag written `#word` is drawn as written, and a tag written `##word` keeps one of its two `#` |
| PostPreview.ShowsImagePlaceholder | components/PostPreview.tsx:52-59 | the image placeholder shows exactly when the image address is absent or empty |
| PostPreview.Prefixed | components/PostPreview.tsx:105 | each hashtag gets a `#` in front, unconditionally, and the list keeps its length and order |
| PostPreview.CopyText | components/PostPreview.tsx:105 | the clipboard text starts with the post text and a blank line; with no hashtags it is exactly that |
| PostPreview.CopyTextLayout | components/PostPreview.tsx:105 | on the clipboard, after the text and the blank line, the tags follow in their order, each behind its own `#`, at the offset of the earlier tags plus two characters for each, with one space after every tag but the last |
| PostPreview.CopyTextContents | components/PostPreview.tsx:105 | the clipboard text contains every hashtag behind a `#` of its own, and its length is the text, two newlines, each tag plus one, and the spaces between tags |
| PostPreview.DoubledHashOnClipboard | components/PostPreview.tsx:105 | the tag `#ai` is copied as `##ai` even though the card draws it as `#ai` |
| PostPreview.FooterOf | components/PostPreview.tsx:100-113 | the prompt and copy footer shows exactly when there is a post, and carries its image prompt and copy text |
| Text.Trim | geminiService.ts:63 | `trim` removes exactly the leading and trailing ECMAScript white space: the result is the input's slice after the leading run, the cut-off tail is blank, and the result is empty exactly when the input is blank |
| Text.TrimIdempotent | geminiService.ts:63 | trimming twice is trimming once |
| Text.RemoveFirst | components/BotDesigner.tsx:67 | replacing a one-character pattern with nothing deletes its first occurrence only, and changes nothing when it does not occur |
| Text.RemoveFirstCount | components/PostPreview.tsx:71 | the replacement takes away exactly one copy of the character when there is one, and no other character |
| Text.BeforeFirst | components/MiniAppPreview.tsx:95 | `split(sep)[0]` is a prefix without the separator that ends at the first separator or at the end |
| Text.BeforeFirstUnique | components/MiniAppPreview.tsx:95 | those three properties leave only one candidate |
| Text.JoinLength | components/PostPreview.tsx:105 | a joined string is as long as its parts plus one separator between each neighbouring pair |
| Text.JoinLayout | components/PostPreview.tsx:105 | in a joined string part `i` sits at the summed length of the earlier parts plus one separator for each, and the separator follows every part but the last |
| Text.JoinContainsParts | components/PostPreview.tsx:105 | every part appears in the joined string |
| Text.NatToString | components/TelegramPreview.tsx:37 | a clock reading prints as a non-empty run of decimal digits without a leading zero |
| Text.DecimalRoundTrip | components/TelegramPreview.tsx:37 | reading a printed number back gives the number |
| Text.NatToStringInjective | components/TelegramPreview.tsx:51 | two printed readings agree exactly when the readings do |

## Left out

- React rendering, hooks, effect scheduling, scrolling, CSS classes and JSX layout are presentation. The model keeps only what the markup decides: which panel, tab, highlight, caption and icon shows.
- The Gemini client, model names and the network are not modelled. A call is an `Outcome<Option<string>>` supplied by the caller.
- `JSON.parse` is not modelled as a parser of text. Generation passes it in as a function. The `as EducationalProject` cast checks nothing at run time, so the pages store whatever the parser returns (`Session.EmptyObjectStoredAsProject`). `Schema` models the parsed value as a JSON tree; `DecodeProject` and `DecodeSummarized` state which trees carry every field a panel reads, and are not on the page's path.
- JSON numbers are modelled as integers. Fractions are left out; they matter only to the truthiness test. `-0` is read as `0`, which is falsy in both.
- The panels' reads of a stored value that is no project are not modelled. On the `{}` object, `project.curriculum.map` (App.tsx:107) throws while rendering; the model stops at the stored value and the panel it selects.
- Schema.ConformingProjectReads: states only the shared schema's direction from schema to record. The same statement for the standalone schema is not proved.
- `alert` is modelled as an emitted `Alert` notice. `console.error` is left out because it has no effect on state.
- The clipboard write is left out. Only the copied text is modelled (`PostPreview.CopyText`). The "Copied to clipboard!" alert is not modelled either.
- `Date.now()` and `new Date()` are one clock reading per step. The model does not claim that message ids are unique (`TelegramChat.MessageIds` shows when two coincide). Timestamps are modelled as milliseconds rather than `Date` objects.
- Interleaved in-flight requests are not modelled: begin and complete steps run in sequence. The missing loading guard is shown rather than modelled as a concurrency hazard.
- TelegramChat.SendBegin: does not consult the typing flag, because the source does not either. A second send while a reply is pending is possible but its interleaving is not modelled.
- BotDesigner.UpdateCommand: requires an index inside the list, because the form only calls it for rendered rows. The JavaScript behaviour for an index past the end, which writes a partial command into a hole, is not modelled.
- `updateField` takes `value: any`. `BotDesigner.Edit` admits only values of each field's own type, which every call site passes.
- components/ChannelPreview.tsx is not part of this model: it is pure rendering with fixed timestamp strings.
- components/CodeExporter.tsx is not part of this model: it is a clipboard write and a two-second timer.
- The source's `label` field of a page component is named `caption`, because `label` is a reserved word in Dafny.
- `Lesson` and `Course` are data only: no operation of the modelled code reads them.

/** The bot configuration form (components/BotDesigner.tsx): edits to one
    field of the personality by name, and the command-list edits built on
    them. Every edit is a function of the personality the form shows and is
    applied to the stored one, which may be absent. */
module BotDesigner {
  import opened Wrappers
  import opened Seqs
  import opened Text
  import opened Types
  import TelegramChat

  /** The keys of a personality. */
  datatype Field = Name | Description | WelcomeMessage | Commands | SuggestedFramework

  /** A field's content: text, or the command list. */
  datatype Value = Str(text: string) | CommandList(commands: seq<BotCommand>)

  /** Reading a field by name. */
  function Get(p: BotPersonality, f: Field): Value {
    match f
    case Name => Str(p.name)
    case Description => Str(p.description)
    case WelcomeMessage => Str(p.welcomeMessage)
    case Commands => CommandList(p.commands)
    case SuggestedFramework => Str(p.suggestedFramework)
  }

  /** Two personalities that agree on every field are the same. */
  lemma Extensionality(p: BotPersonality, q: BotPersonality)
    requires forall f: Field :: Get(p, f) == Get(q, f)
    ensures p == q
  {
    assert Get(p, Name) == Get(q, Name);
    assert Get(p, Description) == Get(q, Description);
    assert Get(p, WelcomeMessage) == Get(q, WelcomeMessage);
    assert Get(p, Commands) == Get(q, Commands);
    assert Get(p, SuggestedFramework) == Get(q, SuggestedFramework);
  }

  /** The `[field]: value` argument of `updateField`, one alternative per
      key with a value of that key's type. */
  datatype Edit =
    | SetName(name: string)
    | SetDescription(description: string)
    | SetWelcome(welcomeMessage: string)
    | SetCommands(commands: seq<BotCommand>)
    | SetFramework(framework: string)

  function FieldOf(e: Edit): Field {
    match e
    case SetName(_) => Name
    case SetDescription(_) => Description
    case SetWelcome(_) => WelcomeMessage
    case SetCommands(_) => Commands
    case SetFramework(_) => SuggestedFramework
  }

  function ValueOf(e: Edit): Value {
    match e
    case SetName(t) => Str(t)
    case SetDescription(t) => Str(t)
    case SetWelcome(t) => Str(t)
    case SetCommands(cs) => CommandList(cs)
    case SetFramework(t) => Str(t)
  }

  /** `{ ...prev, [field]: value }`: the named field takes the value and
      every other field keeps its content. */
  function Apply(p: BotPersonality, e: Edit): (r: BotPersonality)
    ensures Get(r, FieldOf(e)) == ValueOf(e)
    ensures forall f: Field :: f != FieldOf(e) ==> Get(r, f) == Get(p, f)
  {
    match e
    case SetName(t) => p.(name := t)
    case SetDescription(t) => p.(description := t)
    case SetWelcome(t) => p.(welcomeMessage := t)
    case SetCommands(cs) => p.(commands := cs)
    case SetFramework(t) => p.(suggestedFramework := t)
  }

  /** `updateField`: an absent personality stays absent; a present one has
      the named field replaced and nothing else changed. */
  function UpdateField(prev: Option<BotPersonality>, e: Edit): (r: Option<BotPersonality>)
    ensures r.Some? <==> prev.Some?
    ensures r.Some? ==> Get(r.value, FieldOf(e)) == ValueOf(e)
    ensures r.Some? ==> forall f: Field :: f != FieldOf(e) ==> Get(r.value, f) == Get(prev.value, f)
  {
    match prev
    case Some(p) => Some(Apply(p, e))
    case None => None
  }

  /** The field edits behave as a lens: writing back what is there changes
      nothing, a second write to a field overrides the first, and writes to
      different fields commute. */
  lemma EditLaws(p: BotPersonality, e: Edit, e2: Edit)
    ensures ValueOf(e) == Get(p, FieldOf(e)) ==> Apply(p, e) == p
    ensures FieldOf(e) == FieldOf(e2) ==> Apply(Apply(p, e), e2) == Apply(p, e2)
    ensures FieldOf(e) != FieldOf(e2) ==> Apply(Apply(p, e), e2) == Apply(Apply(p, e2), e)
  {
    if ValueOf(e) == Get(p, FieldOf(e)) {
      Extensionality(Apply(p, e), p);
    }
    if FieldOf(e) == FieldOf(e2) {
      Extensionality(Apply(Apply(p, e), e2), Apply(p, e2));
    } else {
      Extensionality(Apply(Apply(p, e), e2), Apply(Apply(p, e2), e));
    }
  }

  /** The keys of a command. */
  datatype CommandField = CommandName | CommandDescription

  /** `updateCommand`'s list: command `i` gets field `f` set to `v`; the
      length, the command's other field and every other command stay. */
  function UpdateCommand(commands: seq<BotCommand>, i: nat, f: CommandField, v: string): (r: seq<BotCommand>)
    requires i < |commands|
    ensures |r| == |commands|
    ensures forall j :: 0 <= j < |r| && j != i ==> r[j] == commands[j]
    ensures f == CommandName ==> r[i].command == v && r[i].description == commands[i].description
    ensures f == CommandDescription ==> r[i].description == v && r[i].command == commands[i].command
  {
    var c := commands[i];
    commands[i := match f case CommandName => c.(command := v) case CommandDescription => c.(description := v)]
  }

  /** The command-name box drops the first slash typed and nothing else:
      text without one is kept, otherwise exactly one slash goes and every
      other character keeps its count. */
  function StripSlash(typed: string): (r: string)
    ensures '/' !in typed ==> r == typed
    ensures '/' in typed ==> r == typed[..FirstIndexOf(typed, '/')] + typed[FirstIndexOf(typed, '/') + 1..]
    ensures '/' in typed ==> |r| == |typed| - 1
    ensures forall d: char :: Count(r, d) == Count(typed, d) - (if '/' in typed && d == '/' then 1 else 0)
  {
    var r := RemoveFirst(typed, '/');
    forall d: char ensures Count(r, d) == Count(typed, d) - (if '/' in typed && d == '/' then 1 else 0) {
      RemoveFirstCount(typed, '/', d);
    }
    r
  }

  /** Typing a command with its slash stores the bare name, and of a name
      that already has its slash stripped only a slash typed later goes. */
  lemma StripSlashExamples(name: string)
    requires '/' !in name
    ensures StripSlash("/" + name) == name
    ensures StripSlash(name + "/") == name
    ensures StripSlash(name + "/" + name) == name + name
  {
    assert ("/" + name)[0] == '/';
    assert FirstIndexOf(name + "/", '/') == |name| by {
      assert (name + "/")[|name|] == '/';
      assert (name + "/")[..|name|] == name;
    }
    assert FirstIndexOf(name + "/" + name, '/') == |name| by {
      assert (name + "/" + name)[|name|] == '/';
      assert (name + "/" + name)[..|name|] == name;
    }
    assert (name + "/")[..|name|] == name;
    assert (name + "/" + name)[..|name|] == name;
    assert (name + "/" + name)[|name| + 1..] == name;
  }

  /** `filter((_, i) => i !== idx)`: walks the list keeping every element
      whose position differs from `idx`. */
  function DropIndex<T>(s: seq<T>, idx: int): (r: seq<T>)
    ensures 0 <= idx < |s| ==> r == s[..idx] + s[idx + 1..]
    ensures !(0 <= idx < |s|) ==> r == s
    decreases |s|
  {
    if |s| == 0 then []
    else
      var rest := DropIndex(s[1..], idx - 1);
      if idx == 0 then
        rest
      else
        assert 0 < idx < |s| ==> rest == s[1..][..idx - 1] + s[idx + 1..];
        assert 0 < idx < |s| ==> s[..idx] == [s[0]] + s[1..][..idx - 1];
        [s[0]] + rest
  }

  /** The default command the add button appends. */
  const DefaultCommand := BotCommand("new", "What this does")

  /** The edit a keystroke in command `i`'s name box sends, built from the
      shown list. */
  function EditCommandName(shown: BotPersonality, i: nat, typed: string): (e: Edit)
    requires i < |shown.commands|
    ensures e.SetCommands? && |e.commands| == |shown.commands|
    ensures e.commands[i] == BotCommand(StripSlash(typed), shown.commands[i].description)
    ensures forall j :: 0 <= j < |e.commands| && j != i ==> e.commands[j] == shown.commands[j]
  {
    SetCommands(UpdateCommand(shown.commands, i, CommandName, StripSlash(typed)))
  }

  /** The edit a keystroke in command `i`'s description box sends. */
  function EditCommandDescription(shown: BotPersonality, i: nat, typed: string): (e: Edit)
    requires i < |shown.commands|
    ensures e.SetCommands? && |e.commands| == |shown.commands|
    ensures e.commands[i] == BotCommand(shown.commands[i].command, typed)
    ensures forall j :: 0 <= j < |e.commands| && j != i ==> e.commands[j] == shown.commands[j]
  {
    SetCommands(UpdateCommand(shown.commands, i, CommandDescription, typed))
  }

  /** The edit the trash button of command `idx` sends. */
  function RemoveCommand(shown: BotPersonality, idx: nat): (e: Edit)
    ensures e.SetCommands?
    ensures idx < |shown.commands| ==> e.commands == shown.commands[..idx] + shown.commands[idx + 1..]
    ensures idx >= |shown.commands| ==> e.commands == shown.commands
  {
    SetCommands(DropIndex(shown.commands, idx))
  }

  /** The edit the add button sends: the shown list and the default
      command at its end. */
  function AddCommand(shown: BotPersonality): (e: Edit)
    ensures e.SetCommands? && |e.commands| == |shown.commands| + 1
    ensures e.commands[..|shown.commands|] == shown.commands
    ensures e.commands[|shown.commands|] == DefaultCommand
  {
    SetCommands(shown.commands + [DefaultCommand])
  }

  /** A command-list edit touches nothing but the list: name, bio, welcome
      text and framework keep their values, and so the chat preview keeps
      its transcript. */
  lemma CommandEditsKeepProfile(p: BotPersonality, e: Edit, chat: TelegramChat.Chat, now: nat)
    requires e.SetCommands?
    ensures UpdateField(Some(p), e).Some?
    ensures var q := UpdateField(Some(p), e).value;
      && q.name == p.name && q.description == p.description
      && q.welcomeMessage == p.welcomeMessage && q.suggestedFramework == p.suggestedFramework
      && q.commands == e.commands
    ensures TelegramChat.PersonalityChanged(chat, p, UpdateField(Some(p), e).value, now) == chat
  {
    var q := UpdateField(Some(p), e).value;
    assert Get(q, Name) == Get(p, Name);
    assert Get(q, Description) == Get(p, Description);
    assert Get(q, WelcomeMessage) == Get(p, WelcomeMessage);
    assert Get(q, SuggestedFramework) == Get(p, SuggestedFramework);
    assert Get(q, Commands) == CommandList(e.commands);
  }
}

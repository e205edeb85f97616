/** The response schemas handed to the model (geminiService.ts and
    index.tsx) and their correspondence with the record types: every record,
    written as JSON, satisfies its schema, and every JSON value that
    satisfies the schema reads back as a record with all fields present. */
module Schema {
  import opened Wrappers
  import opened Types

  /** A value `JSON.parse` returns. Numbers are integers here (see the
      notes on what is left out). Object members keep their textual order. */
  datatype Json =
    | JNull
    | JBool(truth: bool)
    | JNumber(number: int)
    | JString(str: string)
    | JArray(items: seq<Json>)
    | JObject(members: seq<Member>)
  datatype Member = Member(key: string, value: Json)

  /** JavaScript truthiness of a parsed value: `null`, `false`, `0` and the
      empty string are falsy; every array and object, even an empty one, is
      truthy. */
  predicate Truthy(v: Json)
    ensures Truthy(v) <==> !(v == JNull || v == JBool(false) || v == JNumber(0) || v == JString(""))
  {
    match v
    case JNull => false
    case JBool(b) => b
    case JNumber(n) => n != 0
    case JString(t) => t != ""
    case JArray(_) => true
    case JObject(_) => true
  }

  /** A response schema: `Type.STRING`, `Type.ARRAY` with `items`, or
      `Type.OBJECT` with `properties` and a `required` list. */
  datatype Shape =
    | StringShape
    | ArrayShape(item: Shape)
    | ObjectShape(properties: seq<Property>, required: seq<string>)
  datatype Property = Property(name: string, shape: Shape)

  /** Declared property names, in order. */
  function Names(ps: seq<Property>): (r: seq<string>)
    ensures |r| == |ps|
    ensures forall i :: 0 <= i < |ps| ==> r[i] == ps[i].name
  {
    seq(|ps|, i requires 0 <= i < |ps| => ps[i].name)
  }

  /** Member keys of an object, in order. */
  function Keys(ms: seq<Member>): (r: seq<string>)
    ensures |r| == |ms|
    ensures forall i :: 0 <= i < |ms| ==> r[i] == ms[i].key
  {
    seq(|ms|, i requires 0 <= i < |ms| => ms[i].key)
  }

  /** The shape declared for `name`, if the schema declares it. */
  function ShapeOf(ps: seq<Property>, name: string): (r: Option<Shape>)
    ensures r.Some? <==> name in Names(ps)
    ensures r.Some? ==> exists i :: 0 <= i < |ps| && ps[i] == Property(name, r.value)
  {
    if |ps| == 0 then None
    else if ps[0].name == name then Some(ps[0].shape)
    else
      var r := ShapeOf(ps[1..], name);
      assert Names(ps) == [ps[0].name] + Names(ps[1..]);
      assert r.Some? ==> exists i :: 0 <= i < |ps| && ps[i] == Property(name, r.value) by {
        if r.Some? {
          var j :| 0 <= j < |ps| - 1 && ps[1..][j] == Property(name, r.value);
          assert ps[j + 1] == Property(name, r.value);
        }
      }
      r
  }

  /** The value `JSON.parse` keeps for `key`: the last member with that key. */
  function Lookup(ms: seq<Member>, key: string): (r: Option<Json>)
    ensures r.Some? <==> key in Keys(ms)
    ensures r.Some? ==> exists i :: 0 <= i < |ms| && ms[i] == Member(key, r.value)
  {
    if |ms| == 0 then None
    else if ms[|ms| - 1].key == key then Some(ms[|ms| - 1].value)
    else
      var r := Lookup(ms[..|ms| - 1], key);
      assert Keys(ms) == Keys(ms[..|ms| - 1]) + [ms[|ms| - 1].key];
      assert r.Some? ==> exists i :: 0 <= i < |ms| && ms[i] == Member(key, r.value) by {
        if r.Some? {
          var j :| 0 <= j < |ms| - 1 && ms[..|ms| - 1][j] == Member(key, r.value);
          assert ms[j] == Member(key, r.value);
        }
      }
      r
  }

  /** Every name in every `required` list is a declared property of the
      same object. */
  predicate WellFormed(s: Shape) {
    match s
    case StringShape => true
    case ArrayShape(item) => WellFormed(item)
    case ObjectShape(ps, req) =>
      && (forall i :: 0 <= i < |req| ==> req[i] in Names(ps))
      && (forall i :: 0 <= i < |ps| ==> WellFormed(ps[i].shape))
  }

  /** `v` satisfies schema `s`: the right kind of value, every required key
      present, every declared member of the declared shape. Undeclared
      members are tolerated. */
  predicate Conforms(v: Json, s: Shape)
    decreases v
  {
    match s
    case StringShape => v.JString?
    case ArrayShape(item) =>
      v.JArray? && forall i :: 0 <= i < |v.items| ==> Conforms(v.items[i], item)
    case ObjectShape(ps, req) =>
      && v.JObject?
      && (forall i :: 0 <= i < |req| ==> req[i] in Keys(v.members))
      && forall i :: 0 <= i < |v.members| ==> MemberConforms(v, i, ps)
  }

  /** Member `i` of object `v` has the shape `ps` declares for its key, if
      any. */
  predicate MemberConforms(v: Json, i: nat, ps: seq<Property>)
    requires v.JObject? && i < |v.members|
    decreases v, 0
  {
    var m := v.members[i];
    match ShapeOf(ps, m.key)
    case None => true
    case Some(sh) => Conforms(m.value, sh)
  }

  const StringList := ArrayShape(StringShape)

  /** The curriculum item schema (the same in both files). */
  const LessonModuleShape := ObjectShape(
    [ Property("title", StringShape), Property("duration", StringShape),
      Property("keyPoints", StringList), Property("activity", StringShape) ],
    ["title", "duration", "keyPoints", "activity"])

  /** The quiz item schema (the same in both files). */
  const QuizQuestionShape := ObjectShape(
    [ Property("question", StringShape), Property("options", StringList),
      Property("correctAnswer", StringShape) ],
    ["question", "options", "correctAnswer"])

  /** The top-level schema of the shared generation client. */
  const ProjectShape := ObjectShape(
    [ Property("subject", StringShape), Property("targetAge", StringShape),
      Property("themeColor", StringShape),
      Property("curriculum", ArrayShape(LessonModuleShape)),
      Property("quiz", ArrayShape(QuizQuestionShape)),
      Property("studentAppCode", StringShape) ],
    ["subject", "targetAge", "themeColor", "curriculum", "quiz", "studentAppCode"])

  /** The top-level schema of the standalone page: the same plus `summary`. */
  const SummarizedProjectShape := ObjectShape(
    [ Property("subject", StringShape), Property("targetAge", StringShape),
      Property("summary", StringShape), Property("themeColor", StringShape),
      Property("curriculum", ArrayShape(LessonModuleShape)),
      Property("quiz", ArrayShape(QuizQuestionShape)),
      Property("studentAppCode", StringShape) ],
    ["subject", "targetAge", "summary", "themeColor", "curriculum", "quiz", "studentAppCode"])

  /** Both schemas only require properties they declare. */
  lemma SchemasWellFormed()
    ensures WellFormed(ProjectShape) && WellFormed(SummarizedProjectShape)
  {
    ItemShapesWellFormed();
    assert Names(ProjectShape.properties) == ProjectShape.required;
    assert Names(SummarizedProjectShape.properties) == SummarizedProjectShape.required;
  }

  lemma ItemShapesWellFormed()
    ensures WellFormed(LessonModuleShape) && WellFormed(QuizQuestionShape)
  {
    assert Names(LessonModuleShape.properties) == LessonModuleShape.required;
    assert Names(QuizQuestionShape.properties) == QuizQuestionShape.required;
  }

  // ----- Records written as JSON -----

  function EncodeEach<T>(xs: seq<T>, enc: T -> Json): (r: seq<Json>)
    ensures |r| == |xs|
    ensures forall i :: 0 <= i < |xs| ==> r[i] == enc(xs[i])
  {
    seq(|xs|, i requires 0 <= i < |xs| => enc(xs[i]))
  }

  function EncodeString(s: string): Json {
    JString(s)
  }

  function EncodeModule(m: LessonModule): Json {
    JObject([
      Member("title", JString(m.title)), Member("duration", JString(m.duration)),
      Member("keyPoints", JArray(EncodeEach(m.keyPoints, EncodeString))),
      Member("activity", JString(m.activity)) ])
  }

  function EncodeQuestion(q: QuizQuestion): Json {
    JObject([
      Member("question", JString(q.question)),
      Member("options", JArray(EncodeEach(q.options, EncodeString))),
      Member("correctAnswer", JString(q.correctAnswer)) ])
  }

  function EncodeProject(p: EducationalProject): Json {
    JObject([
      Member("subject", JString(p.subject)), Member("targetAge", JString(p.targetAge)),
      Member("themeColor", JString(p.themeColor)),
      Member("curriculum", JArray(EncodeEach(p.curriculum, EncodeModule))),
      Member("quiz", JArray(EncodeEach(p.quiz, EncodeQuestion))),
      Member("studentAppCode", JString(p.studentAppCode)) ])
  }

  function EncodeSummarized(p: SummarizedProject): Json {
    JObject([
      Member("subject", JString(p.subject)), Member("targetAge", JString(p.targetAge)),
      Member("summary", JString(p.summary)), Member("themeColor", JString(p.themeColor)),
      Member("curriculum", JArray(EncodeEach(p.curriculum, EncodeModule))),
      Member("quiz", JArray(EncodeEach(p.quiz, EncodeQuestion))),
      Member("studentAppCode", JString(p.studentAppCode)) ])
  }

  // ----- Reading parsed JSON as records (the field reads the views
  // perform on a parsed value) -----

  /** Reads every element with `dec`; fails if any element fails. */
  function DecodeEach<T>(items: seq<Json>, dec: Json -> Option<T>): (r: Option<seq<T>>)
    ensures r.Some? <==> forall i :: 0 <= i < |items| ==> dec(items[i]).Some?
    ensures r.Some? ==> |r.value| == |items|
    ensures r.Some? ==> forall i :: 0 <= i < |items| ==> dec(items[i]) == Some(r.value[i])
  {
    if |items| == 0 then Some([])
    else
      var rest := DecodeEach(items[1..], dec);
      assert forall i :: 1 <= i < |items| ==> items[1..][i - 1] == items[i];
      match dec(items[0])
      case None => None
      case Some(x) =>
        match rest
        case None => None
        case Some(xs) => Some([x] + xs)
  }

  function DecodeString(v: Json): Option<string> {
    if v.JString? then Some(v.str) else None
  }

  function StringField(v: Json, key: string): Option<string>
    requires v.JObject?
  {
    match Lookup(v.members, key)
    case Some(JString(s)) => Some(s)
    case _ => None
  }

  function ArrayField<T>(v: Json, key: string, dec: Json -> Option<T>): Option<seq<T>>
    requires v.JObject?
  {
    match Lookup(v.members, key)
    case Some(JArray(items)) => DecodeEach(items, dec)
    case _ => None
  }

  function DecodeModule(v: Json): Option<LessonModule> {
    if !v.JObject? then None
    else
      var title := StringField(v, "title");
      var duration := StringField(v, "duration");
      var keyPoints := ArrayField(v, "keyPoints", DecodeString);
      var activity := StringField(v, "activity");
      if title.Some? && duration.Some? && keyPoints.Some? && activity.Some? then
        Some(LessonModule(title.value, duration.value, keyPoints.value, activity.value))
      else None
  }

  function DecodeQuestion(v: Json): Option<QuizQuestion> {
    if !v.JObject? then None
    else
      var question := StringField(v, "question");
      var options := ArrayField(v, "options", DecodeString);
      var answer := StringField(v, "correctAnswer");
      if question.Some? && options.Some? && answer.Some? then
        Some(QuizQuestion(question.value, options.value, answer.value))
      else None
  }

  function DecodeProject(v: Json): Option<EducationalProject> {
    if !v.JObject? then None
    else
      var subject := StringField(v, "subject");
      var targetAge := StringField(v, "targetAge");
      var themeColor := StringField(v, "themeColor");
      var curriculum := ArrayField(v, "curriculum", DecodeModule);
      var quiz := ArrayField(v, "quiz", DecodeQuestion);
      var code := StringField(v, "studentAppCode");
      if subject.Some? && targetAge.Some? && themeColor.Some? && curriculum.Some?
         && quiz.Some? && code.Some? then
        Some(EducationalProject(subject.value, targetAge.value, curriculum.value,
                                quiz.value, code.value, themeColor.value))
      else None
  }

  function DecodeSummarized(v: Json): Option<SummarizedProject> {
    if !v.JObject? then None
    else
      match (DecodeProject(v), StringField(v, "summary"))
      case (Some(p), Some(summary)) =>
        Some(SummarizedProject(p.subject, p.targetAge, p.curriculum, p.quiz,
                               p.studentAppCode, p.themeColor, summary))
      case _ => None
  }

  // ----- Lookups in objects whose names do not repeat -----

  /** No name is listed twice. */
  predicate Distinct(names: seq<string>) {
    forall i, j :: 0 <= i < j < |names| ==> names[i] != names[j]
  }

  predicate DistinctNames(ps: seq<Property>) {
    Distinct(Names(ps))
  }

  predicate DistinctKeys(ms: seq<Member>) {
    Distinct(Keys(ms))
  }

  /** The required lists of all four object schemas name every property,
      in declaration order, each once. */
  lemma RequiredListsAreNames()
    ensures Names(LessonModuleShape.properties) == LessonModuleShape.required
    ensures Names(QuizQuestionShape.properties) == QuizQuestionShape.required
    ensures Names(ProjectShape.properties) == ProjectShape.required
    ensures Names(SummarizedProjectShape.properties) == SummarizedProjectShape.required
    ensures Distinct(LessonModuleShape.required) && Distinct(QuizQuestionShape.required)
    ensures Distinct(ProjectShape.required) && Distinct(SummarizedProjectShape.required)
  {
    ModuleNames();
    QuestionNames();
    ProjectNames();
    SummarizedNames();
  }

  lemma ModuleNames()
    ensures Names(LessonModuleShape.properties) == LessonModuleShape.required
    ensures Distinct(LessonModuleShape.required)
  {
  }

  lemma QuestionNames()
    ensures Names(QuizQuestionShape.properties) == QuizQuestionShape.required
    ensures Distinct(QuizQuestionShape.required)
  {
  }

  lemma ProjectNames()
    ensures Names(ProjectShape.properties) == ProjectShape.required
    ensures Distinct(ProjectShape.required)
  {
  }

  lemma SummarizedNames()
    ensures Names(SummarizedProjectShape.properties) == SummarizedProjectShape.required
    ensures Distinct(SummarizedProjectShape.required)
  {
  }

  /** An object whose members line up one-for-one with the declared
      properties, each of the declared shape, satisfies the schema. */
  lemma ObjectConforms(v: Json, ps: seq<Property>, req: seq<string>)
    requires v.JObject? && DistinctNames(ps)
    requires Keys(v.members) == Names(ps) == req
    requires forall i :: 0 <= i < |ps| ==> Conforms(v.members[i].value, ps[i].shape)
    ensures Conforms(v, ObjectShape(ps, req))
  {
    forall i | 0 <= i < |v.members| ensures MemberConforms(v, i, ps) {
      ShapeOfAt(ps, i);
    }
  }

  lemma {:induction false} ShapeOfAt(ps: seq<Property>, i: nat)
    requires DistinctNames(ps) && i < |ps|
    ensures ShapeOf(ps, ps[i].name) == Some(ps[i].shape)
  {
    if i > 0 {
      ShapeOfAt(ps[1..], i - 1);
    }
  }

  lemma {:induction false} LookupAt(ms: seq<Member>, i: nat)
    requires DistinctKeys(ms) && i < |ms|
    ensures Lookup(ms, ms[i].key) == Some(ms[i].value)
  {
    if i < |ms| - 1 {
      LookupAt(ms[..|ms| - 1], i);
    }
  }

  // ----- Correspondence between records and schemas -----

  /** The top-level required lists name exactly the record fields: six for
      the shared project, and the same six plus `summary` for the
      standalone page's project. */
  lemma RequiredListsMatchRecords(p: EducationalProject, q: SummarizedProject)
    ensures Keys(EncodeProject(p).members) == ProjectShape.required
    ensures Keys(EncodeSummarized(q).members) == SummarizedProjectShape.required
    ensures "summary" !in ProjectShape.required && "summary" in SummarizedProjectShape.required
    ensures |ProjectShape.required| == 6 && |SummarizedProjectShape.required| == 7
  {
  }

  lemma {:induction false} EncodeEachConforms<T>(xs: seq<T>, enc: T -> Json, s: Shape)
    requires forall i :: 0 <= i < |xs| ==> Conforms(enc(xs[i]), s)
    ensures Conforms(JArray(EncodeEach(xs, enc)), ArrayShape(s))
  {
  }

  lemma ModuleConforms(m: LessonModule)
    ensures Conforms(EncodeModule(m), LessonModuleShape)
  {
    ModuleNames();
    EncodeEachConforms(m.keyPoints, EncodeString, StringShape);
    ObjectConforms(EncodeModule(m), LessonModuleShape.properties, LessonModuleShape.required);
  }

  lemma QuestionConforms(q: QuizQuestion)
    ensures Conforms(EncodeQuestion(q), QuizQuestionShape)
  {
    QuestionNames();
    EncodeEachConforms(q.options, EncodeString, StringShape);
    ObjectConforms(EncodeQuestion(q), QuizQuestionShape.properties, QuizQuestionShape.required);
  }

  /** Record to schema: every shared project, written as JSON, satisfies
      the schema the client sends. */
  lemma ProjectConforms(p: EducationalProject)
    ensures Conforms(EncodeProject(p), ProjectShape)
  {
    forall i | 0 <= i < |p.curriculum| ensures Conforms(EncodeModule(p.curriculum[i]), LessonModuleShape) {
      ModuleConforms(p.curriculum[i]);
    }
    forall i | 0 <= i < |p.quiz| ensures Conforms(EncodeQuestion(p.quiz[i]), QuizQuestionShape) {
      QuestionConforms(p.quiz[i]);
    }
    EncodeEachConforms(p.curriculum, EncodeModule, LessonModuleShape);
    EncodeEachConforms(p.quiz, EncodeQuestion, QuizQuestionShape);
    ProjectNames();
    ObjectConforms(EncodeProject(p), ProjectShape.properties, ProjectShape.required);
  }

  /** The standalone page's project likewise satisfies its own schema. */
  lemma SummarizedConforms(p: SummarizedProject)
    ensures Conforms(EncodeSummarized(p), SummarizedProjectShape)
  {
    forall i | 0 <= i < |p.curriculum| ensures Conforms(EncodeModule(p.curriculum[i]), LessonModuleShape) {
      ModuleConforms(p.curriculum[i]);
    }
    forall i | 0 <= i < |p.quiz| ensures Conforms(EncodeQuestion(p.quiz[i]), QuizQuestionShape) {
      QuestionConforms(p.quiz[i]);
    }
    EncodeEachConforms(p.curriculum, EncodeModule, LessonModuleShape);
    EncodeEachConforms(p.quiz, EncodeQuestion, QuizQuestionShape);
    SummarizedNames();
    ObjectConforms(EncodeSummarized(p), SummarizedProjectShape.properties, SummarizedProjectShape.required);
  }

  lemma {:induction false} DecodeEachEncodeEach<T>(xs: seq<T>, enc: T -> Json, dec: Json -> Option<T>)
    requires forall i :: 0 <= i < |xs| ==> dec(enc(xs[i])) == Some(xs[i])
    ensures DecodeEach(EncodeEach(xs, enc), dec) == Some(xs)
  {
    var r := DecodeEach(EncodeEach(xs, enc), dec);
    assert r.Some?;
    assert r.value == xs;
  }

  lemma ModuleRoundTrip(m: LessonModule)
    ensures DecodeModule(EncodeModule(m)) == Some(m)
  {
    var v := EncodeModule(m);
    ModuleMembersFound(m);
    DecodeEachEncodeEach(m.keyPoints, EncodeString, DecodeString);
    assert StringField(v, "title") == Some(m.title);
    assert StringField(v, "duration") == Some(m.duration);
    assert ArrayField(v, "keyPoints", DecodeString) == Some(m.keyPoints);
    assert StringField(v, "activity") == Some(m.activity);
  }

  /** Each key of a written module finds its own field. */
  lemma ModuleMembersFound(m: LessonModule)
    ensures var ms := EncodeModule(m).members;
      && Lookup(ms, "title") == Some(JString(m.title))
      && Lookup(ms, "duration") == Some(JString(m.duration))
      && Lookup(ms, "keyPoints") == Some(JArray(EncodeEach(m.keyPoints, EncodeString)))
      && Lookup(ms, "activity") == Some(JString(m.activity))
  {
    var ms := EncodeModule(m).members;
    ModuleNames();
    assert Keys(ms) == LessonModuleShape.required;
    LookupAt(ms, 0); LookupAt(ms, 1); LookupAt(ms, 2); LookupAt(ms, 3);
  }

  lemma QuestionRoundTrip(q: QuizQuestion)
    ensures DecodeQuestion(EncodeQuestion(q)) == Some(q)
  {
    var ms := EncodeQuestion(q).members;
    QuestionNames();
    assert Keys(ms) == QuizQuestionShape.required;
    LookupAt(ms, 0); LookupAt(ms, 1); LookupAt(ms, 2);
    DecodeEachEncodeEach(q.options, EncodeString, DecodeString);
  }

  /** Each key of a written project finds its own field. */
  lemma ProjectMembersFound(p: EducationalProject)
    ensures var ms := EncodeProject(p).members;
      && Lookup(ms, "subject") == Some(JString(p.subject))
      && Lookup(ms, "targetAge") == Some(JString(p.targetAge))
      && Lookup(ms, "themeColor") == Some(JString(p.themeColor))
      && Lookup(ms, "curriculum") == Some(JArray(EncodeEach(p.curriculum, EncodeModule)))
      && Lookup(ms, "quiz") == Some(JArray(EncodeEach(p.quiz, EncodeQuestion)))
      && Lookup(ms, "studentAppCode") == Some(JString(p.studentAppCode))
  {
    var ms := EncodeProject(p).members;
    ProjectNames();
    assert Keys(ms) == ProjectShape.required;
    LookupAt(ms, 0); LookupAt(ms, 1); LookupAt(ms, 2);
    LookupAt(ms, 3); LookupAt(ms, 4); LookupAt(ms, 5);
  }

  lemma SummarizedMembersFound(p: SummarizedProject)
    ensures var ms := EncodeSummarized(p).members;
      && Lookup(ms, "subject") == Some(JString(p.subject))
      && Lookup(ms, "targetAge") == Some(JString(p.targetAge))
      && Lookup(ms, "summary") == Some(JString(p.summary))
      && Lookup(ms, "themeColor") == Some(JString(p.themeColor))
      && Lookup(ms, "curriculum") == Some(JArray(EncodeEach(p.curriculum, EncodeModule)))
      && Lookup(ms, "quiz") == Some(JArray(EncodeEach(p.quiz, EncodeQuestion)))
      && Lookup(ms, "studentAppCode") == Some(JString(p.studentAppCode))
  {
    var ms := EncodeSummarized(p).members;
    SummarizedNames();
    assert Keys(ms) == SummarizedProjectShape.required;
    LookupAt(ms, 0); LookupAt(ms, 1); LookupAt(ms, 2); LookupAt(ms, 3);
    LookupAt(ms, 4); LookupAt(ms, 5); LookupAt(ms, 6);
  }

  /** Both lists of a project read back element by element. */
  lemma ListsRoundTrip(curriculum: seq<LessonModule>, quiz: seq<QuizQuestion>)
    ensures DecodeEach(EncodeEach(curriculum, EncodeModule), DecodeModule) == Some(curriculum)
    ensures DecodeEach(EncodeEach(quiz, EncodeQuestion), DecodeQuestion) == Some(quiz)
  {
    forall i | 0 <= i < |curriculum| ensures DecodeModule(EncodeModule(curriculum[i])) == Some(curriculum[i]) {
      ModuleRoundTrip(curriculum[i]);
    }
    forall i | 0 <= i < |quiz| ensures DecodeQuestion(EncodeQuestion(quiz[i])) == Some(quiz[i]) {
      QuestionRoundTrip(quiz[i]);
    }
    DecodeEachEncodeEach(curriculum, EncodeModule, DecodeModule);
    DecodeEachEncodeEach(quiz, EncodeQuestion, DecodeQuestion);
  }

  /** An object whose members hold a project's fields, its lists written
      element by element, reads as that project. */
  lemma ProjectFromMembers(v: Json, p: EducationalProject)
    requires v.JObject?
    requires Lookup(v.members, "subject") == Some(JString(p.subject))
    requires Lookup(v.members, "targetAge") == Some(JString(p.targetAge))
    requires Lookup(v.members, "themeColor") == Some(JString(p.themeColor))
    requires Lookup(v.members, "curriculum") == Some(JArray(EncodeEach(p.curriculum, EncodeModule)))
    requires Lookup(v.members, "quiz") == Some(JArray(EncodeEach(p.quiz, EncodeQuestion)))
    requires Lookup(v.members, "studentAppCode") == Some(JString(p.studentAppCode))
    ensures DecodeProject(v) == Some(p)
  {
    ListFieldsRead(v, p.curriculum, p.quiz);
    assert StringField(v, "subject") == Some(p.subject);
    assert StringField(v, "targetAge") == Some(p.targetAge);
    assert StringField(v, "themeColor") == Some(p.themeColor);
    assert StringField(v, "studentAppCode") == Some(p.studentAppCode);
  }

  /** Both written lists of an object read back. */
  lemma ListFieldsRead(v: Json, curriculum: seq<LessonModule>, quiz: seq<QuizQuestion>)
    requires v.JObject?
    requires Lookup(v.members, "curriculum") == Some(JArray(EncodeEach(curriculum, EncodeModule)))
    requires Lookup(v.members, "quiz") == Some(JArray(EncodeEach(quiz, EncodeQuestion)))
    ensures ArrayField(v, "curriculum", DecodeModule) == Some(curriculum)
    ensures ArrayField(v, "quiz", DecodeQuestion) == Some(quiz)
  {
    ListsRoundTrip(curriculum, quiz);
  }

  /** Reading a written project gives it back, with every list in its
      original order. */
  lemma ProjectRoundTrip(p: EducationalProject)
    ensures DecodeProject(EncodeProject(p)) == Some(p)
  {
    ProjectMembersFound(p);
    ProjectFromMembers(EncodeProject(p), p);
  }

  /** The standalone page's project reads back the same way. */
  lemma SummarizedRoundTrip(p: SummarizedProject)
    ensures DecodeSummarized(EncodeSummarized(p)) == Some(p)
  {
    SummarizedMembersFound(p);
    SummarizedFromMembers(EncodeSummarized(p), p);
  }

  /** An object whose members hold a standalone project's fields reads as
      that project. */
  lemma SummarizedFromMembers(v: Json, p: SummarizedProject)
    requires v.JObject?
    requires Lookup(v.members, "subject") == Some(JString(p.subject))
    requires Lookup(v.members, "targetAge") == Some(JString(p.targetAge))
    requires Lookup(v.members, "summary") == Some(JString(p.summary))
    requires Lookup(v.members, "themeColor") == Some(JString(p.themeColor))
    requires Lookup(v.members, "curriculum") == Some(JArray(EncodeEach(p.curriculum, EncodeModule)))
    requires Lookup(v.members, "quiz") == Some(JArray(EncodeEach(p.quiz, EncodeQuestion)))
    requires Lookup(v.members, "studentAppCode") == Some(JString(p.studentAppCode))
    ensures DecodeSummarized(v) == Some(p)
  {
    ProjectFromMembers(v, EducationalProject(p.subject, p.targetAge, p.curriculum,
                                             p.quiz, p.studentAppCode, p.themeColor));
    assert StringField(v, "summary") == Some(p.summary);
  }

  /** The `"{}"` that a blank response turns into satisfies neither
      schema and reads as no project at all: every required field is
      missing. */
  lemma EmptyObjectIsNoProject()
    ensures !Conforms(JObject([]), ProjectShape) && !Conforms(JObject([]), SummarizedProjectShape)
    ensures DecodeProject(JObject([])) == None && DecodeSummarized(JObject([])) == None
  {
    assert ProjectShape.required[0] !in Keys([]);
    assert SummarizedProjectShape.required[0] !in Keys([]);
  }

  // ----- Schema to record -----

  /** A required member of a conforming object is present and has its
      declared shape. */
  lemma RequiredMemberConforms(v: Json, ps: seq<Property>, req: seq<string>, k: nat, sh: Shape)
    requires Conforms(v, ObjectShape(ps, req))
    requires k < |req| && ShapeOf(ps, req[k]) == Some(sh)
    ensures Lookup(v.members, req[k]).Some?
    ensures Conforms(Lookup(v.members, req[k]).value, sh)
  {
    assert req[k] in Keys(v.members);
    var x := Lookup(v.members, req[k]).value;
    var i :| 0 <= i < |v.members| && v.members[i] == Member(req[k], x);
    assert MemberConforms(v, i, ps);
  }

  lemma {:induction false} ConformingItemsRead<T>(items: seq<Json>, sh: Shape, dec: Json -> Option<T>)
    requires forall i :: 0 <= i < |items| ==> Conforms(items[i], sh)
    requires forall x :: Conforms(x, sh) ==> dec(x).Some?
    ensures DecodeEach(items, dec).Some?
  {
  }

  /** A required string member of a conforming object reads as a string. */
  lemma RequiredStringRead(v: Json, ps: seq<Property>, req: seq<string>, k: nat)
    requires Conforms(v, ObjectShape(ps, req))
    requires DistinctNames(ps) && k < |ps| && k < |req| && ps[k] == Property(req[k], StringShape)
    ensures v.JObject? && StringField(v, req[k]).Some?
  {
    ShapeOfAt(ps, k);
    RequiredMemberConforms(v, ps, req, k, StringShape);
  }

  /** A required string-list member of a conforming object reads as a
      list of strings. */
  lemma RequiredStringListRead(v: Json, ps: seq<Property>, req: seq<string>, k: nat)
    requires Conforms(v, ObjectShape(ps, req))
    requires DistinctNames(ps) && k < |ps| && k < |req| && ps[k] == Property(req[k], StringList)
    ensures v.JObject? && ArrayField(v, req[k], DecodeString).Some?
  {
    ShapeOfAt(ps, k);
    RequiredMemberConforms(v, ps, req, k, StringList);
    ConformingItemsRead(Lookup(v.members, req[k]).value.items, StringShape, DecodeString);
  }

  lemma ConformingModuleReads(v: Json)
    requires Conforms(v, LessonModuleShape)
    ensures DecodeModule(v).Some?
  {
    var ps, req := LessonModuleShape.properties, LessonModuleShape.required;
    ModuleNames();
    assert StringField(v, "title").Some? by {
      RequiredStringRead(v, ps, req, 0);
    }
    assert StringField(v, "duration").Some? by {
      RequiredStringRead(v, ps, req, 1);
    }
    assert ArrayField(v, "keyPoints", DecodeString).Some? by {
      RequiredStringListRead(v, ps, req, 2);
    }
    assert StringField(v, "activity").Some? by {
      RequiredStringRead(v, ps, req, 3);
    }
  }

  lemma ConformingQuestionReads(v: Json)
    requires Conforms(v, QuizQuestionShape)
    ensures DecodeQuestion(v).Some?
  {
    var ps, req := QuizQuestionShape.properties, QuizQuestionShape.required;
    QuestionNames();
    assert StringField(v, "question").Some? by {
      RequiredStringRead(v, ps, req, 0);
    }
    assert ArrayField(v, "options", DecodeString).Some? by {
      RequiredStringListRead(v, ps, req, 1);
    }
    assert StringField(v, "correctAnswer").Some? by {
      RequiredStringRead(v, ps, req, 2);
    }
  }

  lemma ConformingCurriculumReads(v: Json)
    requires Conforms(v, ProjectShape)
    ensures ArrayField(v, "curriculum", DecodeModule).Some?
  {
    var ps, req := ProjectShape.properties, ProjectShape.required;
    ProjectNames();
    ShapeOfAt(ps, 3);
    RequiredMemberConforms(v, ps, req, 3, ArrayShape(LessonModuleShape));
    forall x | Conforms(x, LessonModuleShape) ensures DecodeModule(x).Some? {
      ConformingModuleReads(x);
    }
    ConformingItemsRead(Lookup(v.members, "curriculum").value.items, LessonModuleShape, DecodeModule);
  }

  lemma ConformingQuizReads(v: Json)
    requires Conforms(v, ProjectShape)
    ensures ArrayField(v, "quiz", DecodeQuestion).Some?
  {
    var ps, req := ProjectShape.properties, ProjectShape.required;
    ProjectNames();
    ShapeOfAt(ps, 4);
    RequiredMemberConforms(v, ps, req, 4, ArrayShape(QuizQuestionShape));
    forall x | Conforms(x, QuizQuestionShape) ensures DecodeQuestion(x).Some? {
      ConformingQuestionReads(x);
    }
    ConformingItemsRead(Lookup(v.members, "quiz").value.items, QuizQuestionShape, DecodeQuestion);
  }

  /** Schema to record: any response that satisfies the client's schema
      reads as a project with every field present, so the unchecked cast
      is sound for conforming responses. */
  lemma ConformingProjectReads(v: Json)
    requires Conforms(v, ProjectShape)
    ensures DecodeProject(v).Some?
  {
    var ps, req := ProjectShape.properties, ProjectShape.required;
    ProjectNames();
    assert StringField(v, "subject").Some? by {
      RequiredStringRead(v, ps, req, 0);
    }
    assert StringField(v, "targetAge").Some? by {
      RequiredStringRead(v, ps, req, 1);
    }
    assert StringField(v, "themeColor").Some? by {
      RequiredStringRead(v, ps, req, 2);
    }
    assert StringField(v, "studentAppCode").Some? by {
      RequiredStringRead(v, ps, req, 5);
    }
    ConformingCurriculumReads(v);
    ConformingQuizReads(v);
  }
}

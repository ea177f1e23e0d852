/**
 * The older problem handlers of src/controller/problem.controllers.ts. They talk to the
 * problem collection directly and write their own JSON replies: validation with the zod
 * schema (the same schema as src/validations/problem.validation.ts), a 409 for a taken
 * slug, the record built from the parsed body with each language's template reduced to
 * its first file's content, and 404 replies for slugs that are not stored. Every thrown
 * error ends in the handler's own `catch`.
 */
module ProblemControllers {
  import opened Wrappers
  import opened Json
  import opened Zod
  import opened ApiErrors
  import PV = ProblemValidation
  import PS = ProblemService

  /** `res.status(status).json(body)`. */
  datatype JsonReply = JsonReply(status: int, body: Json)

  const NotFound := Failed(404, "Problem not found")

  /** `{ success: false, message }`. */
  function Failed(status: int, message: string): JsonReply {
    JsonReply(status, JObj(map["success" := JBool(false), "message" := JStr(message)]))
  }

  /** `{ success: true, message, ...extra }`. */
  function Succeeded(status: int, message: string, extra: map<string, Json>): JsonReply {
    JsonReply(status, JObj(map["success" := JBool(true), "message" := JStr(message)] + extra))
  }

  /** The 400 reply of a failed validation: one text per issue, in zod's order, each the
      issue's path joined by "." followed by ": " and its message. */
  function ValidationFailed(issues: seq<Issue>): (r: JsonReply)
    ensures r.status == 400 && r.body.JObj? && r.body.fields.Keys == {"success", "message", "errors"}
    ensures r.body.fields["success"] == JBool(false) && r.body.fields["message"] == JStr("Validation failed")
    ensures var errors := r.body.fields["errors"];
      && errors.JArr? && |errors.items| == |issues|
      && forall k :: 0 <= k < |issues| ==>
           errors.items[k] == JStr(Strings.Join(issues[k].path, ".") + ": " + issues[k].message)
  {
    var texts := FormatIssues(issues);
    JsonReply(400, JObj(map[
      "success" := JBool(false),
      "message" := JStr("Validation failed"),
      "errors" := JArr(seq(|texts|, k requires 0 <= k < |texts| => JStr(texts[k])))]))
  }

  /** `error.message` of a caught error. */
  function ErrorMessage(e: Err): Option<string> {
    match e
    case ApiError(_, message, _) => Some(message)
    case Thrown(_, message, _, _) => message
  }

  /** The `catch` of `createProblem`: 500 with the error's message (left out when the
      error has none). */
  function CaughtError(e: Err): JsonReply {
    var m := ErrorMessage(e);
    JsonReply(500, JObj(map["success" := JBool(false)] + (if m.Some? then map["message" := JStr(m.value)] else map[])))
  }

  /** `v?.[0]`. */
  function First(v: Option<Json>): Option<Json> {
    if v.None? then None
    else match v.value
      case JArr(items) => if items == [] then None else Some(items[0])
      case JStr(s) => if s == "" then None else Some(JStr(s[..1]))
      case JObj(_) => Get(v.value, "0")
      case _ => None
  }

  /** `templates?.[lang]?.files?.[0]?.content ?? ''`. */
  function TemplateContent(templates: Option<Json>, lang: string): Json {
    LanguageContent(if templates.Some? then Get(templates.value, lang) else None)
  }

  /** `language?.files?.[0]?.content ?? ''`. */
  function LanguageContent(language: Option<Json>): Json {
    var files := if language.Some? then Get(language.value, "files") else None;
    var file := First(files);
    Coalesce(if file.Some? then Get(file.value, "content") else None, JStr(""))
  }

  function MapTemplates(templates: Option<Json>): Json {
    JObj(map[
      "python" := TemplateContent(templates, "python"),
      "java" := TemplateContent(templates, "java"),
      "cpp" := TemplateContent(templates, "cpp"),
      "c" := TemplateContent(templates, "c")])
  }

  const TextKeys := ["title", "slug", "difficulty", "description", "constraints"]

  /** The `problemData` literal built from the validated data. */
  function ProblemData(data: Json): map<string, Json> {
    Pick(data, TextKeys)
      ["tags" := Coalesce(Get(data, "tags"), JArr([]))]
      ["templates" := MapTemplates(Get(data, "templates"))]
      ["totalSubmissions" := JNum(0)]
      ["acceptedSubmissions" := JNum(0)]
  }

  /** The literal copies the text fields that are defined, defaults the tags to `[]`,
      maps the templates and starts both counters at 0, and has no other property. */
  lemma ProblemDataShape(data: Json)
    ensures var r := ProblemData(data);
      && (forall k :: k in r <==> (k in TextKeys && Get(data, k).Some?) || k in {"tags", "templates", "totalSubmissions", "acceptedSubmissions"})
      && (forall k :: k in TextKeys && Get(data, k).Some? ==> k in r && r[k] == Get(data, k).value)
      && r["tags"] == Coalesce(Get(data, "tags"), JArr([]))
      && r["templates"] == MapTemplates(Get(data, "templates"))
      && r["totalSubmissions"] == JNum(0) && r["acceptedSubmissions"] == JNum(0)
  {
    assert forall k :: k in TextKeys ==> k !in {"tags", "templates", "totalSubmissions", "acceptedSubmissions"};
  }

  /** The record is stored under the slug of the data. */
  lemma SlugOfProblemData(data: Json)
    ensures PS.SlugOf(ProblemData(data)) == Get(data, "slug")
  {
    assert "slug" in TextKeys;
  }

  /** The data `safeParse` returns. */
  function Parsed(body: Option<Json>): Json {
    Output(PV.CreateProblemSchema, body).GetOr(JNull)
  }

  /** `createProblem` on the collection state: validation, duplicate check, insert. */
  function CreateProblemReply(st: PS.ProblemsState, body: Option<Json>, now: int): (JsonReply, PS.ProblemsState) {
    var issues := Check(PV.CreateProblemSchema, body, []);
    if issues != [] then (ValidationFailed(issues), st)
    else
      var data := Parsed(body);
      if PS.FindBySlug(st.problems, Get(data, "slug")).Some? then (Failed(409, "Problem with this slug already exists"), st)
      else
        var (r, st') := PS.InsertSpec(st, ProblemData(data), now);
        if r.Failure? then (CaughtError(r.error), st')
        else (Succeeded(201, "Problem created successfully", map["data" := PS.ProblemJson(r.value)]), st')
  }

  /** `getProblems`: every record, newest first, and how many there are. */
  function GetProblemsReply(st: PS.ProblemsState): JsonReply {
    var problems := PS.SortByCreatedDesc(st.problems);
    Succeeded(200, "Problems fetched successfully", map["total" := JNum(|problems|), "data" := JArr(PS.ProblemsJson(problems))])
  }

  /** `getProblemBySlug`. */
  function GetProblemReply(st: PS.ProblemsState, slug: string): JsonReply {
    match PS.FindBySlug(st.problems, Some(JStr(slug)))
    case None => NotFound
    case Some(i) => Succeeded(200, "Problem fetched successfully", map["data" := PS.ProblemJson(st.problems[i])])
  }

  /** The update document: the request body's properties, merged as literal fields (a body
      that is not an object updates nothing). Mongoose's update operators, strict-mode key
      dropping and casting are not applied. */
  function UpdateDocument(body: Option<Json>): map<string, Json> {
    if body.Some? && body.value.JObj? then body.value.fields else map[]
  }

  /** `updateProblem`: the body is applied unvalidated; any error becomes a 500. */
  function UpdateProblemReply(st: PS.ProblemsState, slug: string, body: Option<Json>): (JsonReply, PS.ProblemsState) {
    var (r, st') := PS.FindOneAndUpdateSpec(st, slug, UpdateDocument(body));
    if r.Failure? then (Failed(500, "Failed to update problem"), st')
    else if r.value.None? then (NotFound, st')
    else (Succeeded(200, "Problem updated successfully", map["data" := PS.ProblemJson(r.value.value)]), st')
  }

  /** `deleteProblem`. */
  function DeleteProblemReply(st: PS.ProblemsState, slug: string): (JsonReply, PS.ProblemsState) {
    var (r, st') := PS.FindOneAndDeleteSpec(st, slug);
    if r.None? then (NotFound, st') else (Succeeded(200, "Problem deleted successfully", map[]), st')
  }

  // ---------------------------------------------------------------------------------------
  // What the handlers promise

  /** The reply is 400 exactly when the body fails the schema; then it lists the issues
      and the collection is not touched. */
  lemma ValidationFailureIs400(st: PS.ProblemsState, body: Option<Json>, now: int)
    ensures var (reply, st') := CreateProblemReply(st, body, now);
      && (reply.status == 400 <==> !PV.ValidProblem(body))
      && (reply.status == 400 ==> reply == ValidationFailed(Check(PV.CreateProblemSchema, body, [])) && st' == st)
  {
    CheckEmptyIffAccepts(PV.CreateProblemSchema, body, []);
    PV.CreateProblemAccepts(body);
  }

  /** A parsed text field is the request's own value. */
  lemma ParsedText(body: Option<Json>, j: nat)
    requires Accepts(PV.CreateProblemSchema, body) && j < 5
    ensures TextKeys[j] == PV.CreateProblemSchema.fields[j].key
    ensures Get(Parsed(body), TextKeys[j]) == Get(body.value, TextKeys[j])
  {
    PV.SchemasWellFormed();
    ParsedEntry(PV.CreateProblemSchema, body, j);
    var f := PV.CreateProblemSchema.fields[j];
    assert f.schema.SString? || f.schema.SEnum?;
  }

  /** A valid body whose slug is stored gets 409 and creates nothing. */
  lemma DuplicateSlugIs409(st: PS.ProblemsState, body: Option<Json>, now: int, i: nat)
    requires PV.ValidProblem(body) && i < |st.problems| && PS.SlugOf(st.problems[i].fields) == Get(body.value, "slug")
    ensures CreateProblemReply(st, body, now) == (Failed(409, "Problem with this slug already exists"), st)
  {
    PV.CreateProblemAccepts(body);
    CheckEmptyIffAccepts(PV.CreateProblemSchema, body, []);
    ParsedText(body, 1);
  }

  /** A valid body with a fresh slug is stored as one new record built from the parsed
      data, and the reply is 201 with that record. */
  lemma FreshSlugIsCreated(st: PS.ProblemsState, body: Option<Json>, now: int)
    requires PV.ValidProblem(body)
    requires forall j :: 0 <= j < |st.problems| ==> PS.SlugOf(st.problems[j].fields) != Get(body.value, "slug")
    ensures var rec := PS.ProblemRecord(st.nextId, now, ProblemData(Parsed(body)));
      CreateProblemReply(st, body, now) ==
        (Succeeded(201, "Problem created successfully", map["data" := PS.ProblemJson(rec)]),
         PS.ProblemsState(st.problems + [rec], st.nextId + 1))
  {
    PV.CreateProblemAccepts(body);
    CheckEmptyIffAccepts(PV.CreateProblemSchema, body, []);
    ParsedText(body, 1);
    SlugOfProblemData(Parsed(body));
    PS.FreshSlugUnmatched(st.problems, Get(body.value, "slug").value);
  }

  /** The parsed tags are the request's tags. */
  lemma ParsedTags(body: Option<Json>)
    requires Accepts(PV.CreateProblemSchema, body)
    ensures Get(Parsed(body), "tags") == Get(body.value, "tags")
  {
    PV.SchemasWellFormed();
    ParsedEntry(PV.CreateProblemSchema, body, 5);
    assert PV.CreateProblemSchema.fields[5] == Field("tags", PV.TagsSchema);
    var tags := Get(body.value, "tags");
    if tags.Some? {
      ScalarItemsUnchanged(SArray(SString(0, None), 0, None), tags.value.items);
    }
  }

  /** The record of a valid body: its text fields as given, its tags as given or `[]`,
      and both counters 0. */
  lemma CreatedRecordFields(body: Option<Json>)
    requires PV.ValidProblem(body)
    ensures var r := ProblemData(Parsed(body));
      && (forall j :: 0 <= j < 5 ==> TextKeys[j] in r && Some(r[TextKeys[j]]) == Get(body.value, TextKeys[j]))
      && r["tags"] == (if Get(body.value, "tags").Some? then Get(body.value, "tags").value else JArr([]))
      && r["totalSubmissions"] == JNum(0) && r["acceptedSubmissions"] == JNum(0)
  {
    PV.CreateProblemAccepts(body);
    ProblemDataShape(Parsed(body));
    forall j | 0 <= j < 5
      ensures Get(Parsed(body), TextKeys[j]) == Get(body.value, TextKeys[j])
    {
      ParsedText(body, j);
    }
    ParsedTags(body);
  }

  /** The parsed entry of a language is the language schema's parse of the given value. */
  lemma ParsedLanguage(body: Option<Json>, li: nat)
    requires PV.ValidProblem(body) && li < 4
    ensures var templates := Get(Parsed(body), "templates");
      && templates.Some?
      && Get(templates.value, PV.Languages[li]) == Output(SOptional(PV.LanguageTemplateSchema), Get(Get(body.value, "templates").value, PV.Languages[li]))
  {
    PV.CreateProblemAccepts(body);
    PV.SchemasWellFormed();
    var tIn := Get(body.value, "templates");
    ParsedEntry(PV.CreateProblemSchema, body, 6);
    assert PV.CreateProblemSchema.fields[6] == Field("templates", PV.TemplatesSchema);
    PV.TemplatesAccepts(tIn);
    ParsedEntry(PV.TemplatesSchema, tIn, li);
    assert PV.TemplatesSchema.fields[li] == Field(PV.Languages[li], SOptional(PV.LanguageTemplateSchema));
  }

  /** A valid language template, once parsed, yields its first file's content, which is a
      non-empty string. */
  lemma FirstFileContent(given: Json)
    requires PV.ValidLanguageTemplate(Some(given))
    ensures var files := Get(given, "files").value.items;
      var c := LanguageContent(Output(PV.LanguageTemplateSchema, Some(given)));
      Some(c) == Get(files[0], "content") && c.JStr? && c.s != ""
  {
    PV.SchemasWellFormed();
    var arr := SArray(PV.TemplateFileSchema, 1, Some("At least one file is required"));
    ParsedEntry(PV.LanguageTemplateSchema, Some(given), 0);
    assert PV.LanguageTemplateSchema.fields[0] == Field("files", arr);
    var items := Get(given, "files").value.items;
    OutputItemsAt(arr, items, 0);
    assert PV.ValidTemplateFile(Some(items[0]));
    ParsedEntry(PV.TemplateFileSchema, Some(items[0]), 0);
    assert PV.TemplateFileSchema.fields[0] == Field("content", SString(1, Some("Template content is required")));
  }

  /** Each language of a valid body: a language given yields its first file's content,
      which is a non-empty string; a language left out yields `''`. */
  lemma TemplateOfLanguage(body: Option<Json>, li: nat)
    requires PV.ValidProblem(body) && li < 4
    ensures var lang := PV.Languages[li];
      var given := Get(Get(body.value, "templates").value, lang);
      var t := TemplateContent(Get(Parsed(body), "templates"), lang);
      && (given.None? ==> t == JStr(""))
      && (given.Some? ==>
            && PV.ValidLanguageTemplate(given)
            && Some(t) == Get(Get(given.value, "files").value.items[0], "content")
            && t.JStr? && t.s != "")
  {
    PV.CreateProblemAccepts(body);
    ParsedLanguage(body, li);
    var given := Get(Get(body.value, "templates").value, PV.Languages[li]);
    assert PV.Languages[li] in PV.Languages;
    if given.Some? {
      FirstFileContent(given.value);
    }
  }

  /** The listing replies 200 with every record, newest first, and their number. */
  lemma ListsEveryProblem(st: PS.ProblemsState)
    ensures var reply := GetProblemsReply(st);
      var sorted := PS.SortByCreatedDesc(st.problems);
      && reply.status == 200
      && reply.body.fields["total"] == JNum(|st.problems|)
      && reply.body.fields["data"] == JArr(PS.ProblemsJson(sorted))
      && PS.NewestFirst(sorted) && multiset(sorted) == multiset(st.problems)
  {
    PS.SortByCreatedDescSpec(st.problems);
  }

  /** Get, update and delete of a slug that is not stored all reply 404 and change nothing. */
  lemma MissingSlugIs404(st: PS.ProblemsState, slug: string, body: Option<Json>)
    requires forall j :: 0 <= j < |st.problems| ==> PS.SlugOf(st.problems[j].fields) != Some(JStr(slug))
    ensures GetProblemReply(st, slug) == NotFound && NotFound.status == 404
    ensures UpdateProblemReply(st, slug, body) == (NotFound, st)
    ensures DeleteProblemReply(st, slug) == (NotFound, st)
  {
  }

  /** A stored slug is found, updated or deleted with 200. The update overrides the
      record's fields in place and replies with the updated record, unless the new fields
      would give it another record's slug: exactly then the unique index's error is caught
      as a 500 and nothing changes. The delete removes that record and no other. */
  lemma StoredSlugSucceeds(st: PS.ProblemsState, slug: string, body: Option<Json>, i: nat)
    requires PS.ValidProblems(st) && i < |st.problems| && PS.SlugOf(st.problems[i].fields) == Some(JStr(slug))
    ensures GetProblemReply(st, slug) == Succeeded(200, "Problem fetched successfully", map["data" := PS.ProblemJson(st.problems[i])])
    ensures DeleteProblemReply(st, slug)
         == (Succeeded(200, "Problem deleted successfully", map[]), st.(problems := st.problems[..i] + st.problems[i + 1..]))
    ensures var (reply, st') := UpdateProblemReply(st, slug, body);
      var updated := st.problems[i].(fields := st.problems[i].fields + UpdateDocument(body));
      var clash := exists j :: 0 <= j < |st.problems| && j != i && PS.SlugOf(st.problems[j].fields) == PS.SlugOf(updated.fields);
      && (reply == Failed(500, "Failed to update problem") && st' == st <==> clash)
      && (!clash ==>
            && reply == Succeeded(200, "Problem updated successfully", map["data" := PS.ProblemJson(updated)])
            && st' == st.(problems := st.problems[i := updated]))
  {
    PS.FindBySlugUnique(st, i);
    StoredSlugUpdated(st, slug, body, i);
  }

  /** The update half of the lemma above, split out for the solver. */
  lemma StoredSlugUpdated(st: PS.ProblemsState, slug: string, body: Option<Json>, i: nat)
    requires PS.ValidProblems(st) && i < |st.problems| && PS.SlugOf(st.problems[i].fields) == Some(JStr(slug))
    ensures var (reply, st') := UpdateProblemReply(st, slug, body);
      var updated := st.problems[i].(fields := st.problems[i].fields + UpdateDocument(body));
      var clash := exists j :: 0 <= j < |st.problems| && j != i && PS.SlugOf(st.problems[j].fields) == PS.SlugOf(updated.fields);
      && (clash ==> reply == Failed(500, "Failed to update problem") && st' == st)
      && (!clash ==>
            && reply == Succeeded(200, "Problem updated successfully", map["data" := PS.ProblemJson(updated)])
            && st' == st.(problems := st.problems[i := updated]))
  {
    PS.FindBySlugUnique(st, i);
  }

  // ---------------------------------------------------------------------------------------
  // The handlers

  method CreateProblem(store: PS.ProblemStore, body: Option<Json>, now: int) returns (reply: JsonReply)
    requires store.Valid()
    modifies store
    ensures store.Valid()
    ensures (reply, store.State()) == CreateProblemReply(old(store.State()), body, now)
  {
    var issues := Check(PV.CreateProblemSchema, body, []);
    if issues != [] {
      return ValidationFailed(issues);
    }
    var data := Parsed(body);
    var existing := store.FindOne(Get(data, "slug"));
    if existing.Some? {
      return Failed(409, "Problem with this slug already exists");
    }
    var r := store.Create(ProblemData(data), now);
    if r.Failure? {
      return CaughtError(r.error);
    }
    reply := Succeeded(201, "Problem created successfully", map["data" := PS.ProblemJson(r.value)]);
  }

  method GetProblems(store: PS.ProblemStore) returns (reply: JsonReply)
    ensures reply == GetProblemsReply(store.State())
  {
    var problems := store.FindSorted();
    reply := Succeeded(200, "Problems fetched successfully", map["total" := JNum(|problems|), "data" := JArr(PS.ProblemsJson(problems))]);
  }

  method GetProblemBySlug(store: PS.ProblemStore, slug: string) returns (reply: JsonReply)
    ensures reply == GetProblemReply(store.State(), slug)
  {
    var problem := store.FindOne(Some(JStr(slug)));
    if problem.None? {
      return NotFound;
    }
    reply := Succeeded(200, "Problem fetched successfully", map["data" := PS.ProblemJson(problem.value)]);
  }

  method UpdateProblem(store: PS.ProblemStore, slug: string, body: Option<Json>) returns (reply: JsonReply)
    requires store.Valid()
    modifies store
    ensures store.Valid()
    ensures (reply, store.State()) == UpdateProblemReply(old(store.State()), slug, body)
  {
    var updated := store.FindOneAndUpdate(slug, UpdateDocument(body));
    if updated.Failure? {
      return Failed(500, "Failed to update problem");
    }
    if updated.value.None? {
      return NotFound;
    }
    reply := Succeeded(200, "Problem updated successfully", map["data" := PS.ProblemJson(updated.value.value)]);
  }

  method DeleteProblem(store: PS.ProblemStore, slug: string) returns (reply: JsonReply)
    requires store.Valid()
    modifies store
    ensures store.Valid()
    ensures (reply, store.State()) == DeleteProblemReply(old(store.State()), slug)
  {
    var deleted := store.FindOneAndDelete(slug);
    if deleted.None? {
      return NotFound;
    }
    reply := Succeeded(200, "Problem deleted successfully", map[]);
  }
}

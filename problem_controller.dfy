/**
 * The problem handlers of src/controller/problem.controller.ts, the ones the problem routes
 * mount. Each is wrapped in `asyncHandler`, so whatever it throws reaches the error
 * middleware; it parses its input with the schemas of src/validations/problem.validator.ts
 * (a failed `parse` throws a ZodError) before any call into the problem service, and a
 * created problem is built from the parsed payload with a fixed `pending` status and zero
 * counters.
 */
module ProblemController {
  import opened Wrappers
  import opened Json
  import opened Zod
  import opened ApiErrors
  import opened ApiResponses
  import opened RequestInput
  import ErrorMiddleware
  import PV = ProblemValidation
  import PVR = ProblemValidator
  import PS = ProblemService

  /** The ZodError `parse` throws: not an ApiError, with no status code, and with the
      issues as its `errors`. */
  function ZodError(issues: seq<Issue>): Err {
    Thrown(None, Some(Strings.Join(FormatIssues(issues), "\n")), Some(FormatIssues(issues)), false)
  }

  /** The error middleware answers a failed parse with 500, listing one entry per issue. */
  lemma ZodErrorIs500(issues: seq<Issue>, requestId: Option<string>, dev: bool)
    requires issues != []
    ensures var reply := ErrorMiddleware.ErrorHandler(ZodError(issues), requestId, dev);
      && reply.status == 500
      && |reply.body.errors| == |issues|
      && forall k :: 0 <= k < |issues| ==> reply.body.errors[k] == FormatIssue(issues[k])
  {
    var texts := FormatIssues(issues);
    assert texts[0] == FormatIssue(issues[0]);
    assert texts[0] != "";
  }

  /** `new ApiResponse(status, data, message)` sent with `res.status(status).json(...)`. */
  function Sent(status: int, data: Json, message: string): Outcome {
    Respond(status, NewApiResponse(status, data, message), [])
  }

  const TextKeys := ["title", "slug", "difficulty", "description", "constraints"]

  /** The `problemData` literal built from the parsed payload. */
  function NewProblemData(payload: Json): map<string, Json> {
    var templates := Get(payload, "templates").GetOr(JNull);
    Pick(payload, TextKeys)
      ["examples" := Coalesce(Get(payload, "examples"), JArr([]))]
      ["tags" := Coalesce(Get(payload, "tags"), JArr([]))]
      ["templates" := JObj(Pick(templates, PV.Languages))]
      ["status" := JStr("pending")]
      ["totalSubmissions" := JNum(0)]
      ["acceptedSubmissions" := JNum(0)]
  }

  /** The record is `pending` with both counters 0; text fields and each given language
      template are copied unchanged, and missing examples and tags become `[]`. */
  lemma NewProblemDataShape(payload: Json)
    ensures var r := NewProblemData(payload);
      && r["status"] == JStr("pending")
      && r["totalSubmissions"] == JNum(0) && r["acceptedSubmissions"] == JNum(0)
      && (forall k :: k in TextKeys ==> (k in r <==> Get(payload, k).Some?) && (k in r ==> Some(r[k]) == Get(payload, k)))
      && r["examples"] == (if Get(payload, "examples").None? || Get(payload, "examples").value.JNull? then JArr([]) else Get(payload, "examples").value)
      && r["tags"] == (if Get(payload, "tags").None? || Get(payload, "tags").value.JNull? then JArr([]) else Get(payload, "tags").value)
      && (forall l :: l in PV.Languages ==> Get(r["templates"], l) == Get(Get(payload, "templates").GetOr(JNull), l))
  {
    assert forall k :: k in TextKeys ==> k !in {"examples", "tags", "templates", "status", "totalSubmissions", "acceptedSubmissions"};
  }

  /** The payload `createProblemSchema.parse` returns. */
  function Payload(body: Option<Json>): Json {
    Output(PVR.CreateProblemSchema, body).GetOr(JNull)
  }

  /** `createProblem`. */
  function CreateProblemOutcome(st: PS.ProblemsState, body: Option<Json>, now: int): (Outcome, PS.ProblemsState) {
    var issues := Check(PVR.CreateProblemSchema, body, []);
    if issues != [] then (Throw(ZodError(issues)), st)
    else
      var (r, st') := PS.CreateProblemSpec(st, NewProblemData(Payload(body)), now);
      if r.Failure? then (Throw(r.error), st')
      else (Sent(201, PS.ProblemJson(r.value), "Problem created successfully"), st')
  }

  /** `getProblems`. */
  function GetProblemsOutcome(st: PS.ProblemsState): Outcome {
    Sent(200, JArr(PS.ProblemsJson(PS.SortByCreatedDesc(st.problems))), "Problems fetched successfully")
  }

  /** `slugParamSchema.parse(req.params)`: the slug, which parsing leaves as it is. */
  function SlugParam(params: Json): (r: Result<string, Err>)
    ensures r.Success? <==> Accepts(PVR.SlugParamSchema, Some(params))
    ensures r.Success? ==> Get(params, "slug") == Some(JStr(r.value)) && r.value != ""
    ensures r.Failure? ==> r.error == ZodError(Check(PVR.SlugParamSchema, Some(params), []))
  {
    var issues := Check(PVR.SlugParamSchema, Some(params), []);
    CheckEmptyIffAccepts(PVR.SlugParamSchema, Some(params), []);
    PVR.SlugParamAccepts(Some(params));
    if issues != [] then Failure(ZodError(issues)) else Success(params.fields["slug"].s)
  }

  /** `getProblemBySlug`. */
  function GetProblemOutcome(st: PS.ProblemsState, params: Json): Outcome {
    match SlugParam(params)
    case Failure(e) => Throw(e)
    case Success(slug) =>
      match PS.GetProblemBySlugSpec(st, slug)
      case Failure(e) => Throw(e)
      case Success(rec) => Sent(200, PS.ProblemJson(rec), "Problem fetched successfully")
  }

  /** The fields `updateProblemSchema.parse(req.body)` returns. */
  function UpdatePayload(body: Option<Json>): map<string, Json> {
    var p := Output(PVR.UpdateProblemSchema, body).GetOr(JNull);
    if p.JObj? then p.fields else map[]
  }

  /** `updateProblem`: the slug is parsed first, then the payload. */
  function UpdateProblemOutcome(st: PS.ProblemsState, params: Json, body: Option<Json>): (Outcome, PS.ProblemsState) {
    match SlugParam(params)
    case Failure(e) => (Throw(e), st)
    case Success(slug) =>
      var issues := Check(PVR.UpdateProblemSchema, body, []);
      if issues != [] then (Throw(ZodError(issues)), st)
      else
        var (r, st') := PS.UpdateProblemBySlugSpec(st, slug, UpdatePayload(body));
        if r.Failure? then (Throw(r.error), st')
        else (Sent(200, PS.ProblemJson(r.value), "Problem updated successfully"), st')
  }

  /** `deleteProblem`. */
  function DeleteProblemOutcome(st: PS.ProblemsState, params: Json): (Outcome, PS.ProblemsState) {
    match SlugParam(params)
    case Failure(e) => (Throw(e), st)
    case Success(slug) =>
      var (r, st') := PS.DeleteProblemBySlugSpec(st, slug);
      if r.Failure? then (Throw(r.error), st')
      else (Sent(200, JNull, "Problem deleted successfully"), st')
  }

  // ---------------------------------------------------------------------------------------
  // What the handlers promise

  /** A body the schema refuses is thrown as a ZodError before the service is called, and
      only then. */
  lemma CreateParsesFirst(st: PS.ProblemsState, body: Option<Json>, now: int)
    ensures var (outcome, st') := CreateProblemOutcome(st, body, now);
      && (outcome == Throw(ZodError(Check(PVR.CreateProblemSchema, body, []))) <==> !PVR.ValidProblem(body))
      && (!PVR.ValidProblem(body) ==> st' == st)
  {
    CheckEmptyIffAccepts(PVR.CreateProblemSchema, body, []);
    PVR.CreateProblemAccepts(body);
  }

  /** A parsed text field is the request's own value. */
  lemma PayloadText(body: Option<Json>, j: nat)
    requires PVR.ValidProblem(body) && j < 5
    ensures Get(Payload(body), TextKeys[j]) == Get(body.value, TextKeys[j])
  {
    PVR.CreateProblemAccepts(body);
    PVR.SchemasWellFormed();
    var idx := [0, 1, 2, 3, 5][j];
    assert PVR.CreateProblemSchema.fields[idx].key == TextKeys[j];
    ParsedEntry(PVR.CreateProblemSchema, body, idx);
    var f := PVR.CreateProblemSchema.fields[idx];
    assert f.schema.SString? || f.schema.SEnum?;
  }

  /** A valid body with a slug already stored is refused with the service's 409 and
      nothing is created. */
  lemma CreateDuplicate(st: PS.ProblemsState, body: Option<Json>, now: int, i: nat)
    requires PVR.ValidProblem(body) && i < |st.problems| && PS.SlugOf(st.problems[i].fields) == Get(body.value, "slug")
    ensures CreateProblemOutcome(st, body, now) == (Throw(PS.SlugTaken), st)
  {
    CreateParsesFirst(st, body, now);
    PayloadText(body, 1);
    NewProblemDataSlug(Payload(body));
    PS.CreateDuplicateSlug(st, NewProblemData(Payload(body)), now, i);
  }

  /** A valid body with a fresh slug is stored as one new `pending` record with zero
      counters and the request's text fields, and answered 201 with it. */
  lemma CreateFresh(st: PS.ProblemsState, body: Option<Json>, now: int)
    requires PVR.ValidProblem(body)
    requires forall j :: 0 <= j < |st.problems| ==> PS.SlugOf(st.problems[j].fields) != Get(body.value, "slug")
    ensures var (outcome, st') := CreateProblemOutcome(st, body, now);
      var rec := PS.ProblemRecord(st.nextId, now, NewProblemData(Payload(body)));
      && outcome == Sent(201, PS.ProblemJson(rec), "Problem created successfully")
      && st'.problems == st.problems + [rec]
      && rec.fields["status"] == JStr("pending")
      && rec.fields["totalSubmissions"] == JNum(0) && rec.fields["acceptedSubmissions"] == JNum(0)
      && forall j :: 0 <= j < 5 ==> TextKeys[j] in rec.fields && Some(rec.fields[TextKeys[j]]) == Get(body.value, TextKeys[j])
  {
    CreateFreshStores(st, body, now);
    CreatedFields(body);
  }

  lemma CreatedFields(body: Option<Json>)
    requires PVR.ValidProblem(body)
    ensures var r := NewProblemData(Payload(body));
      && r["status"] == JStr("pending")
      && r["totalSubmissions"] == JNum(0) && r["acceptedSubmissions"] == JNum(0)
      && forall j :: 0 <= j < 5 ==> TextKeys[j] in r && Some(r[TextKeys[j]]) == Get(body.value, TextKeys[j])
  {
    var payload := Payload(body);
    NewProblemDataShape(payload);
    forall j | 0 <= j < 5
      ensures Get(payload, TextKeys[j]) == Get(body.value, TextKeys[j])
    {
      PayloadText(body, j);
    }
  }

  lemma CreateFreshStores(st: PS.ProblemsState, body: Option<Json>, now: int)
    requires PVR.ValidProblem(body)
    requires forall j :: 0 <= j < |st.problems| ==> PS.SlugOf(st.problems[j].fields) != Get(body.value, "slug")
    ensures var (outcome, st') := CreateProblemOutcome(st, body, now);
      var rec := PS.ProblemRecord(st.nextId, now, NewProblemData(Payload(body)));
      && outcome == Sent(201, PS.ProblemJson(rec), "Problem created successfully")
      && st'.problems == st.problems + [rec]
  {
    CreateParsesFirst(st, body, now);
    PayloadText(body, 1);
    NewProblemDataSlug(Payload(body));
    PS.FreshSlugUnmatched(st.problems, Get(body.value, "slug").value);
    PS.CreateFreshSlug(st, NewProblemData(Payload(body)), now);
  }

  /** The record is stored under the payload's slug. */
  lemma NewProblemDataSlug(payload: Json)
    ensures PS.SlugOf(NewProblemData(payload)) == Get(payload, "slug")
  {
    assert "slug" in TextKeys;
  }

  /** Route parameters without a non-empty slug are thrown as a ZodError by get, update and
      delete before the service is called, whatever the body. */
  lemma SlugParsedFirst(st: PS.ProblemsState, params: Json, body: Option<Json>)
    requires !Accepts(PVR.SlugParamSchema, Some(params))
    ensures var e := Throw(ZodError(Check(PVR.SlugParamSchema, Some(params), [])));
      && GetProblemOutcome(st, params) == e
      && UpdateProblemOutcome(st, params, body) == (e, st)
      && DeleteProblemOutcome(st, params) == (e, st)
  {
  }

  /** With a valid slug, an update body the partial schema refuses is thrown as a ZodError
      and nothing changes. */
  lemma UpdateParsesPayload(st: PS.ProblemsState, params: Json, body: Option<Json>)
    requires Accepts(PVR.SlugParamSchema, Some(params)) && !Accepts(PVR.UpdateProblemSchema, body)
    ensures UpdateProblemOutcome(st, params, body) == (Throw(ZodError(Check(PVR.UpdateProblemSchema, body, []))), st)
  {
    CheckEmptyIffAccepts(PVR.UpdateProblemSchema, body, []);
  }

  /** Parsing strips every property the schema does not name, so an update cannot set the
      status or the counters. */
  lemma UpdateCannotSetSystemFields(body: Option<Json>)
    ensures var data := UpdatePayload(body);
      "status" !in data && "totalSubmissions" !in data && "acceptedSubmissions" !in data
  {
    var s := PVR.UpdateProblemSchema;
    var p := Output(s, body).GetOr(JNull);
    if body.Some? && body.value.JObj? {
      PVR.SchemasWellFormed();
      OutputFieldsShape(s, body.value.fields, 0);
      assert forall j :: 0 <= j < |s.fields| ==> s.fields[j].key == PVR.CreateProblemSchema.fields[j].key;
      PVR.CreateProblemKeys();
    }
  }

  /** A stored slug: get answers 200 with its record, and delete answers 200 and removes
      that record and no other. An update is refused with the unique index's error, with
      nothing changed, exactly when the merged fields would give the record another
      record's slug; otherwise it answers 200 with the merged record, which replaces the
      old one in place and keeps its status and counters. */
  lemma StoredSlug(st: PS.ProblemsState, params: Json, body: Option<Json>, i: nat)
    requires PS.ValidProblems(st) && i < |st.problems|
    requires Accepts(PVR.SlugParamSchema, Some(params)) && PS.SlugOf(st.problems[i].fields) == Get(params, "slug")
    requires Accepts(PVR.UpdateProblemSchema, body)
    ensures GetProblemOutcome(st, params) == Sent(200, PS.ProblemJson(st.problems[i]), "Problem fetched successfully")
    ensures DeleteProblemOutcome(st, params)
         == (Sent(200, JNull, "Problem deleted successfully"), st.(problems := st.problems[..i] + st.problems[i + 1..]))
    ensures var (outcome, st') := UpdateProblemOutcome(st, params, body);
      var updated := st.problems[i].(fields := st.problems[i].fields + UpdatePayload(body));
      var clash := exists j :: 0 <= j < |st.problems| && j != i && PS.SlugOf(st.problems[j].fields) == PS.SlugOf(updated.fields);
      && (outcome == Throw(PS.SlugIndexError) && st' == st <==> clash)
      && (!clash ==>
            && outcome == Sent(200, PS.ProblemJson(updated), "Problem updated successfully")
            && st' == st.(problems := st.problems[i := updated])
            && forall k :: k in ["status", "totalSubmissions", "acceptedSubmissions"] && k in st.problems[i].fields ==>
                 k in st'.problems[i].fields && st'.problems[i].fields[k] == st.problems[i].fields[k])
  {
    var slug := SlugParam(params).value;
    PS.FindBySlugUnique(st, i);
    CheckEmptyIffAccepts(PVR.UpdateProblemSchema, body, []);
    UpdateCannotSetSystemFields(body);
    PS.UpdatePresent(st, slug, UpdatePayload(body), i);
  }

  // ---------------------------------------------------------------------------------------
  // The handlers

  method CreateProblem(store: PS.ProblemStore, body: Option<Json>, now: int) returns (outcome: Outcome)
    requires store.Valid()
    modifies store
    ensures store.Valid()
    ensures (outcome, store.State()) == CreateProblemOutcome(old(store.State()), body, now)
  {
    var issues := Check(PVR.CreateProblemSchema, body, []);
    if issues != [] {
      return Throw(ZodError(issues));
    }
    var problem := PS.CreateProblem(store, NewProblemData(Payload(body)), now);
    if problem.Failure? {
      return Throw(problem.error);
    }
    outcome := Sent(201, PS.ProblemJson(problem.value), "Problem created successfully");
  }

  method GetProblems(store: PS.ProblemStore) returns (outcome: Outcome)
    ensures outcome == GetProblemsOutcome(store.State())
  {
    var problems := PS.GetAllProblems(store);
    outcome := Sent(200, JArr(PS.ProblemsJson(problems)), "Problems fetched successfully");
  }

  method GetProblemBySlug(store: PS.ProblemStore, params: Json) returns (outcome: Outcome)
    ensures outcome == GetProblemOutcome(store.State(), params)
  {
    var slug := SlugParam(params);
    if slug.Failure? {
      return Throw(slug.error);
    }
    var problem := PS.GetProblemBySlug(store, slug.value);
    if problem.Failure? {
      return Throw(problem.error);
    }
    outcome := Sent(200, PS.ProblemJson(problem.value), "Problem fetched successfully");
  }

  method UpdateProblem(store: PS.ProblemStore, params: Json, body: Option<Json>) returns (outcome: Outcome)
    requires store.Valid()
    modifies store
    ensures store.Valid()
    ensures (outcome, store.State()) == UpdateProblemOutcome(old(store.State()), params, body)
  {
    var slug := SlugParam(params);
    if slug.Failure? {
      return Throw(slug.error);
    }
    var issues := Check(PVR.UpdateProblemSchema, body, []);
    if issues != [] {
      return Throw(ZodError(issues));
    }
    var updated := PS.UpdateProblemBySlug(store, slug.value, UpdatePayload(body));
    if updated.Failure? {
      return Throw(updated.error);
    }
    outcome := Sent(200, PS.ProblemJson(updated.value), "Problem updated successfully");
  }

  method DeleteProblem(store: PS.ProblemStore, params: Json) returns (outcome: Outcome)
    requires store.Valid()
    modifies store
    ensures store.Valid()
    ensures (outcome, store.State()) == DeleteProblemOutcome(old(store.State()), params)
  {
    var slug := SlugParam(params);
    if slug.Failure? {
      return Throw(slug.error);
    }
    var deleted := PS.DeleteProblemBySlug(store, slug.value);
    if deleted.Failure? {
      return Throw(deleted.error);
    }
    outcome := Sent(200, JNull, "Problem deleted successfully");
  }
}

/**
 * The zod schemas of src/validations/problem.validator.ts, used by
 * src/controller/problem.controller.ts: the route parameter schema, the example schema,
 * the problem schema (whose templates object takes any value per language) and its
 * partial form for updates.
 */
module ProblemValidator {
  import opened Wrappers
  import opened Json
  import opened Zod
  import ProblemValidation

  const SlugParamSchema := SObject([Field("slug", SString(1, Some("Slug is required")))])

  const ProblemExampleSchema := SObject([
    Field("input", SString(1, Some("Input is required"))),
    Field("output", SString(1, Some("Output is required"))),
    Field("explanation", SOptional(SString(0, None)))])

  const AnyTemplatesSchema := SObject([
    Field("python", SOptional(SAny)),
    Field("java", SOptional(SAny)),
    Field("cpp", SOptional(SAny)),
    Field("c", SOptional(SAny))])

  const ExamplesSchema := SOptional(SArray(ProblemExampleSchema, 0, None))

  const CreateProblemSchema := SObject([
    Field("title", SString(1, None)),
    Field("slug", SString(1, None)),
    Field("difficulty", SEnum(ProblemValidation.Difficulties)),
    Field("description", SString(1, None)),
    Field("examples", ExamplesSchema),
    Field("constraints", SString(1, None)),
    Field("tags", ProblemValidation.TagsSchema),
    Field("templates", AnyTemplatesSchema)])

  const UpdateProblemSchema := Partial(CreateProblemSchema)

  predicate ValidExample(v: Option<Json>) {
    && v.Some? && v.value.JObj?
    && ProblemValidation.NonEmptyString(Get(v.value, "input"))
    && ProblemValidation.NonEmptyString(Get(v.value, "output"))
    && (var e := Get(v.value, "explanation"); e.None? || e.value.JStr?)
  }

  predicate ValidProblem(v: Option<Json>) {
    && v.Some? && v.value.JObj?
    && ProblemValidation.NonEmptyString(Get(v.value, "title")) && ProblemValidation.NonEmptyString(Get(v.value, "slug"))
    && ProblemValidation.NonEmptyString(Get(v.value, "description")) && ProblemValidation.NonEmptyString(Get(v.value, "constraints"))
    && (var d := Get(v.value, "difficulty"); d.Some? && d.value.JStr? && d.value.s in ProblemValidation.Difficulties)
    && (var ex := Get(v.value, "examples");
        ex.None? || (ex.value.JArr? && forall i :: 0 <= i < |ex.value.items| ==> ValidExample(Some(ex.value.items[i]))))
    && (Get(v.value, "tags").None? || ProblemValidation.StringList(Get(v.value, "tags")))
    && (var t := Get(v.value, "templates"); t.Some? && t.value.JObj?)
  }

  /** The route parameters are accepted exactly when `slug` is a string of length at
      least 1. */
  lemma SlugParamAccepts(v: Option<Json>)
    ensures Accepts(SlugParamSchema, v) <==> v.Some? && v.value.JObj? && ProblemValidation.NonEmptyString(Get(v.value, "slug"))
  {
    assert SlugParamSchema.fields[0] == Field("slug", SString(1, Some("Slug is required")));
  }

  /** An example needs a non-empty input and output; the explanation may be left out. */
  lemma ExampleAccepts(v: Option<Json>)
    ensures Accepts(ProblemExampleSchema, v) <==> ValidExample(v)
  {
    var fs := ProblemExampleSchema.fields;
    assert fs[0] == Field("input", SString(1, Some("Input is required")));
    assert fs[1] == Field("output", SString(1, Some("Output is required")));
    assert fs[2] == Field("explanation", SOptional(SString(0, None)));
  }

  /** The templates object is required, but each language takes any value, or none. */
  lemma AnyTemplatesAccepts(v: Option<Json>)
    ensures Accepts(AnyTemplatesSchema, v) <==> v.Some? && v.value.JObj?
  {
  }

  /** The problem schema, stated field by field. */
  lemma CreateProblemAccepts(v: Option<Json>)
    ensures Accepts(CreateProblemSchema, v) <==> ValidProblem(v)
  {
    if v.Some? && v.value.JObj? {
      var o := v.value;
      var fs := CreateProblemSchema.fields;
      ExamplesAccepts(Get(o, "examples"));
      ProblemValidation.TagsAccepts(Get(o, "tags"));
      AnyTemplatesAccepts(Get(o, "templates"));
      assert Accepts(fs[0].schema, Get(o, fs[0].key)) <==> ProblemValidation.NonEmptyString(Get(o, "title"));
      assert Accepts(fs[1].schema, Get(o, fs[1].key)) <==> ProblemValidation.NonEmptyString(Get(o, "slug"));
      assert Accepts(fs[3].schema, Get(o, fs[3].key)) <==> ProblemValidation.NonEmptyString(Get(o, "description"));
      assert Accepts(fs[5].schema, Get(o, fs[5].key)) <==> ProblemValidation.NonEmptyString(Get(o, "constraints"));
      assert fs[4] == Field("examples", ExamplesSchema);
      assert fs[6] == Field("tags", ProblemValidation.TagsSchema);
      assert fs[7] == Field("templates", AnyTemplatesSchema);
      assert (forall i :: 0 <= i < |fs| ==> Accepts(fs[i].schema, Get(o, fs[i].key))) <==>
        && Accepts(fs[0].schema, Get(o, fs[0].key)) && Accepts(fs[1].schema, Get(o, fs[1].key))
        && Accepts(fs[2].schema, Get(o, fs[2].key)) && Accepts(fs[3].schema, Get(o, fs[3].key))
        && Accepts(fs[4].schema, Get(o, fs[4].key)) && Accepts(fs[5].schema, Get(o, fs[5].key))
        && Accepts(fs[6].schema, Get(o, fs[6].key)) && Accepts(fs[7].schema, Get(o, fs[7].key));
    }
  }

  lemma ExamplesAccepts(ex: Option<Json>)
    ensures Accepts(ExamplesSchema, ex) <==>
      ex.None? || (ex.value.JArr? && forall i :: 0 <= i < |ex.value.items| ==> ValidExample(Some(ex.value.items[i])))
  {
    if ex.Some? && ex.value.JArr? {
      forall i | 0 <= i < |ex.value.items|
        ensures Accepts(ProblemExampleSchema, Some(ex.value.items[i])) <==> ValidExample(Some(ex.value.items[i]))
      {
        ExampleAccepts(Some(ex.value.items[i]));
      }
    }
  }

  /** The update schema accepts every problem the create schema accepts, and the empty
      object too. */
  lemma UpdateAcceptsCreateAndEmpty(v: Option<Json>)
    ensures Accepts(CreateProblemSchema, v) ==> Accepts(UpdateProblemSchema, v)
    ensures Accepts(UpdateProblemSchema, Some(JObj(map[])))
  {
    PartialWeakens(CreateProblemSchema, v);
  }

  /** The update schema checks only the fields present: any field it is given must be as
      the create schema wants it. */
  lemma UpdateChecksPresentFields(v: Json, i: nat)
    requires Accepts(UpdateProblemSchema, Some(v)) && i < |CreateProblemSchema.fields|
    requires Get(v, CreateProblemSchema.fields[i].key).Some?
    ensures Accepts(CreateProblemSchema.fields[i].schema, Get(v, CreateProblemSchema.fields[i].key))
  {
    assert UpdateProblemSchema.fields[i] == Field(CreateProblemSchema.fields[i].key, SOptional(CreateProblemSchema.fields[i].schema));
  }

  /** The keys of the problem schema, in order; none is a field the system sets. */
  lemma CreateProblemKeys()
    ensures |CreateProblemSchema.fields| == 8
    ensures forall j :: 0 <= j < 8 ==>
      CreateProblemSchema.fields[j].key == ["title", "slug", "difficulty", "description", "examples", "constraints", "tags", "templates"][j]
    ensures forall j :: 0 <= j < 8 ==> CreateProblemSchema.fields[j].key !in ["status", "totalSubmissions", "acceptedSubmissions"]
  {
  }

  /** Every object schema here, the partial one included, names each key once. */
  lemma SchemasWellFormed()
    ensures DistinctKeys(CreateProblemSchema.fields) && DistinctKeys(UpdateProblemSchema.fields)
    ensures DistinctKeys(SlugParamSchema.fields)
  {
    var keys := ["title", "slug", "difficulty", "description", "examples", "constraints", "tags", "templates"];
    CreateProblemKeys();
    assert "description"[0] != "constraints"[0];
    assert forall i, j :: 0 <= i < j < 8 ==> keys[i] != keys[j];
    assert forall j :: 0 <= j < 8 ==> UpdateProblemSchema.fields[j].key == keys[j];
  }
}

/**
 * The zod schemas of src/validations/problem.validation.ts: a template file needs content,
 * a language template needs at least one valid file, and a problem needs its text fields,
 * a known difficulty, optional string tags and a templates object whose four languages are
 * each optional. src/controller/problem.controllers.ts declares an identical copy of these
 * three schemas, which this module also stands for.
 */
module ProblemValidation {
  import opened Wrappers
  import opened Json
  import opened Zod

  const Difficulties := ["easy", "medium", "hard"]
  const Languages := ["python", "java", "cpp", "c"]

  const TemplateFileSchema := SObject([Field("content", SString(1, Some("Template content is required")))])

  const LanguageTemplateSchema := SObject([Field("files", SArray(TemplateFileSchema, 1, Some("At least one file is required")))])

  const TemplatesSchema := SObject([
    Field("python", SOptional(LanguageTemplateSchema)),
    Field("java", SOptional(LanguageTemplateSchema)),
    Field("cpp", SOptional(LanguageTemplateSchema)),
    Field("c", SOptional(LanguageTemplateSchema))])

  const TagsSchema := SOptional(SArray(SString(0, None), 0, None))

  const CreateProblemSchema := SObject([
    Field("title", SString(1, Some("Title is required"))),
    Field("slug", SString(1, Some("Slug is required"))),
    Field("difficulty", SEnum(Difficulties)),
    Field("description", SString(1, Some("Description is required"))),
    Field("constraints", SString(1, Some("Constraints are required"))),
    Field("tags", TagsSchema),
    Field("templates", TemplatesSchema)])

  /** A present, non-empty string. */
  predicate NonEmptyString(v: Option<Json>) {
    v.Some? && v.value.JStr? && v.value.s != ""
  }

  /** A present array of strings. */
  predicate StringList(v: Option<Json>) {
    v.Some? && v.value.JArr? && forall i :: 0 <= i < |v.value.items| ==> v.value.items[i].JStr?
  }

  predicate ValidTemplateFile(v: Option<Json>) {
    v.Some? && v.value.JObj? && NonEmptyString(Get(v.value, "content"))
  }

  predicate ValidLanguageTemplate(v: Option<Json>) {
    && v.Some? && v.value.JObj?
    && var files := Get(v.value, "files");
       && files.Some? && files.value.JArr? && |files.value.items| >= 1
       && forall i :: 0 <= i < |files.value.items| ==> ValidTemplateFile(Some(files.value.items[i]))
  }

  predicate ValidTemplates(v: Option<Json>) {
    && v.Some? && v.value.JObj?
    && forall l :: l in Languages ==> Get(v.value, l).None? || ValidLanguageTemplate(Get(v.value, l))
  }

  predicate ValidProblem(v: Option<Json>) {
    && v.Some? && v.value.JObj?
    && NonEmptyString(Get(v.value, "title")) && NonEmptyString(Get(v.value, "slug"))
    && NonEmptyString(Get(v.value, "description")) && NonEmptyString(Get(v.value, "constraints"))
    && (var d := Get(v.value, "difficulty"); d.Some? && d.value.JStr? && d.value.s in Difficulties)
    && (Get(v.value, "tags").None? || StringList(Get(v.value, "tags")))
    && ValidTemplates(Get(v.value, "templates"))
  }

  /** A template file is valid iff its content is a string of length at least 1. */
  lemma TemplateFileAccepts(v: Option<Json>)
    ensures Accepts(TemplateFileSchema, v) <==> ValidTemplateFile(v)
  {
    assert TemplateFileSchema.fields[0] == Field("content", SString(1, Some("Template content is required")));
  }

  /** A language template is valid iff it has at least one file and every file is valid. */
  lemma LanguageTemplateAccepts(v: Option<Json>)
    ensures Accepts(LanguageTemplateSchema, v) <==> ValidLanguageTemplate(v)
  {
    assert LanguageTemplateSchema.fields[0].schema == SArray(TemplateFileSchema, 1, Some("At least one file is required"));
    if v.Some? && v.value.JObj? {
      var files := Get(v.value, "files");
      if files.Some? && files.value.JArr? {
        forall i | 0 <= i < |files.value.items|
          ensures Accepts(TemplateFileSchema, Some(files.value.items[i])) <==> ValidTemplateFile(Some(files.value.items[i]))
        {
          TemplateFileAccepts(Some(files.value.items[i]));
        }
      }
    }
  }

  /** The templates object is required, may leave out any language, and checks every
      language it gives. */
  lemma TemplatesAccepts(v: Option<Json>)
    ensures Accepts(TemplatesSchema, v) <==> ValidTemplates(v)
    ensures Accepts(TemplatesSchema, Some(JObj(map[])))
    ensures !Accepts(TemplatesSchema, None)
  {
    var fs := TemplatesSchema.fields;
    assert forall i :: 0 <= i < 4 ==> fs[i] == Field(Languages[i], SOptional(LanguageTemplateSchema));
    if v.Some? && v.value.JObj? {
      forall i | 0 <= i < 4
        ensures Accepts(fs[i].schema, Get(v.value, fs[i].key)) <==>
          Get(v.value, Languages[i]).None? || ValidLanguageTemplate(Get(v.value, Languages[i]))
      {
        LanguageTemplateAccepts(Get(v.value, Languages[i]));
      }
      assert forall l :: l in Languages ==> exists i :: 0 <= i < 4 && Languages[i] == l;
    }
  }

  /** Tags may be left out; when given they must be a list of strings. */
  lemma TagsAccepts(tags: Option<Json>)
    ensures Accepts(TagsSchema, tags) <==> tags.None? || StringList(tags)
  {
  }

  /** The problem schema, stated field by field. */
  lemma CreateProblemAccepts(v: Option<Json>)
    ensures Accepts(CreateProblemSchema, v) <==> ValidProblem(v)
  {
    var fs := CreateProblemSchema.fields;
    if v.Some? && v.value.JObj? {
      TemplatesAccepts(Get(v.value, "templates"));
      assert fs[6] == Field("templates", TemplatesSchema);
      assert fs[5] == Field("tags", TagsSchema);
      TagsAccepts(Get(v.value, "tags"));
      assert (forall i :: 0 <= i < |fs| ==> Accepts(fs[i].schema, Get(v.value, fs[i].key))) <==>
        && Accepts(fs[0].schema, Get(v.value, fs[0].key)) && Accepts(fs[1].schema, Get(v.value, fs[1].key))
        && Accepts(fs[2].schema, Get(v.value, fs[2].key)) && Accepts(fs[3].schema, Get(v.value, fs[3].key))
        && Accepts(fs[4].schema, Get(v.value, fs[4].key)) && Accepts(fs[5].schema, Get(v.value, fs[5].key))
        && Accepts(fs[6].schema, Get(v.value, fs[6].key));
    }
  }

  /** Every object schema here names each of its keys once. */
  lemma SchemasWellFormed()
    ensures DistinctKeys(TemplateFileSchema.fields) && DistinctKeys(LanguageTemplateSchema.fields)
    ensures DistinctKeys(TemplatesSchema.fields) && DistinctKeys(CreateProblemSchema.fields)
    ensures WellFormed(CreateProblemSchema)
  {
    TemplatesWellFormed();
    CreateProblemKeysDistinct();
    var fs := CreateProblemSchema.fields;
    forall f | f in fs
      ensures WellFormed(f.schema)
    {
      var k :| 0 <= k < |fs| && fs[k] == f;
      assert k == 6 ==> f.schema == TemplatesSchema;
    }
  }

  lemma CreateProblemKeysDistinct()
    ensures DistinctKeys(CreateProblemSchema.fields)
  {
    var keys := ["title", "slug", "difficulty", "description", "constraints", "tags", "templates"];
    assert forall i :: 0 <= i < 7 ==> CreateProblemSchema.fields[i].key == keys[i];
    assert "description"[0] != "constraints"[0];
    assert forall i, j :: 0 <= i < j < 7 ==> keys[i] != keys[j];
  }

  lemma TemplatesWellFormed()
    ensures DistinctKeys(TemplateFileSchema.fields) && DistinctKeys(LanguageTemplateSchema.fields)
    ensures DistinctKeys(TemplatesSchema.fields) && WellFormed(TemplatesSchema)
  {
    assert WellFormed(TemplateFileSchema);
    assert WellFormed(LanguageTemplateSchema);
    var fs := TemplatesSchema.fields;
    assert forall f :: f in fs ==> f.schema == SOptional(LanguageTemplateSchema);
  }
}

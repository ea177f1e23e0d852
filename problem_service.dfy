/**
 * The problem collection and src/services/problem.service.ts over it. The collection is a
 * sequence of records in insertion order; `findOne({ slug })` finds the first record the filter
 * matches: an undefined filter value is dropped from the query, so every record matches;
 * `null` matches a missing or null slug; any other value matches an equal slug. The unique
 * index on `slug` refuses a second record with the same slug, and the creation time is
 * given by the caller.
 */
module ProblemService {
  import opened Wrappers
  import opened Json
  import opened ApiErrors

  const SlugTaken := NewApiError(409, "Problem with this slug already exists")
  const ProblemNotFound := NewApiError(404, "Problem not found")

  /** A stored problem: its id, its creation time and its fields as written. */
  datatype ProblemRecord = ProblemRecord(id: nat, createdAt: int, fields: map<string, Json>)

  datatype ProblemsState = ProblemsState(problems: seq<ProblemRecord>, nextId: nat)

  /** The record as a reply shows it: its fields and its `_id`. */
  function ProblemJson(rec: ProblemRecord): (j: Json)
    ensures j.JObj? && j.fields.Keys == rec.fields.Keys + {"_id"} && j.fields["_id"] == JNum(rec.id)
    ensures forall k :: k in rec.fields && k != "_id" ==> j.fields[k] == rec.fields[k]
  {
    JObj(rec.fields["_id" := JNum(rec.id)])
  }

  function ProblemsJson(recs: seq<ProblemRecord>): (r: seq<Json>)
    ensures |r| == |recs| && forall i :: 0 <= i < |r| ==> r[i] == ProblemJson(recs[i])
  {
    seq(|recs|, i requires 0 <= i < |recs| => ProblemJson(recs[i]))
  }

  /** The record's `slug`, undefined when it has none. */
  function SlugOf(fields: map<string, Json>): Option<Json> {
    Get(JObj(fields), "slug")
  }

  /** The MongoServerError of the unique slug index. */
  const SlugIndexError := Thrown(None, Some("E11000 duplicate key error collection: problems index: slug_1 dup key"), None, false)

  /** Ids are below `nextId` and distinct, and no two records share a slug. */
  ghost predicate ValidProblems(st: ProblemsState) {
    && (forall i :: 0 <= i < |st.problems| ==> st.problems[i].id < st.nextId)
    && (forall i, j :: 0 <= i < |st.problems| && 0 <= j < |st.problems| && i != j ==>
          st.problems[i].id != st.problems[j].id && SlugOf(st.problems[i].fields) != SlugOf(st.problems[j].fields))
  }

  /** Whether the filter `{ slug }` matches a record: an undefined value leaves the filter
      empty, `null` matches a missing or null slug, and any other value an equal slug. */
  predicate SlugMatches(fields: map<string, Json>, slug: Option<Json>) {
    match slug
    case None => true
    case Some(JNull) => SlugOf(fields).None? || SlugOf(fields) == Some(JNull)
    case Some(v) => SlugOf(fields) == Some(v)
  }

  /** `findOne({ slug })`: the first record the filter matches; with an undefined slug,
      the first record of a non-empty collection. */
  function FindBySlug(problems: seq<ProblemRecord>, slug: Option<Json>): (r: Option<nat>)
    ensures r.Some? ==> r.value < |problems| && SlugMatches(problems[r.value].fields, slug)
    ensures r.Some? ==> forall j :: 0 <= j < r.value ==> !SlugMatches(problems[j].fields, slug)
    ensures r.None? <==> forall j :: 0 <= j < |problems| ==> !SlugMatches(problems[j].fields, slug)
    ensures slug.None? ==> r == (if problems == [] then None else Some(0))
    decreases |problems|
  {
    if problems == [] then None
    else if SlugMatches(problems[0].fields, slug) then Some(0)
    else
      var rest := FindBySlug(problems[1..], slug);
      assert forall j :: 1 <= j < |problems| ==> problems[j] == problems[1..][j - 1];
      if rest.None? then None else Some(rest.value + 1)
  }

  /** In a valid collection the record with a non-null slug is the only one with it. (A
      missing and a null slug are both matched by `null`, so for those the record found
      need not be this one.) */
  lemma FindBySlugUnique(st: ProblemsState, i: nat)
    requires ValidProblems(st) && i < |st.problems|
    requires SlugOf(st.problems[i].fields).Some? && !SlugOf(st.problems[i].fields).value.JNull?
    ensures FindBySlug(st.problems, SlugOf(st.problems[i].fields)) == Some(i)
  {
  }

  // ---------------------------------------------------------------------------------------
  // The collection's own operations

  /** The unique index already holds this slug. */
  predicate SlugIndexed(problems: seq<ProblemRecord>, slug: Option<Json>) {
    exists j :: 0 <= j < |problems| && SlugOf(problems[j].fields) == slug
  }

  /** `ProblemModel.create(data)`: refused by the unique index if the slug is taken,
      otherwise appended under the next id. */
  function InsertSpec(st: ProblemsState, data: map<string, Json>, now: int): (Result<ProblemRecord, Err>, ProblemsState) {
    if SlugIndexed(st.problems, SlugOf(data)) then (Failure(SlugIndexError), st)
    else
      var rec := ProblemRecord(st.nextId, now, data);
      (Success(rec), ProblemsState(st.problems + [rec], st.nextId + 1))
  }

  /** `findOneAndUpdate({ slug }, data, { new: true })`: the first record with the slug gets
      the given top-level fields; the result is the updated record, or null if none has
      the slug. Giving it a slug another record has is refused by the index. */
  function FindOneAndUpdateSpec(st: ProblemsState, slug: string, data: map<string, Json>)
    : (Result<Option<ProblemRecord>, Err>, ProblemsState)
  {
    match FindBySlug(st.problems, Some(JStr(slug)))
    case None => (Success(None), st)
    case Some(i) =>
      var updated := st.problems[i].(fields := st.problems[i].fields + data);
      if exists j :: 0 <= j < |st.problems| && j != i && SlugOf(st.problems[j].fields) == SlugOf(updated.fields)
      then (Failure(SlugIndexError), st)
      else (Success(Some(updated)), st.(problems := st.problems[i := updated]))
  }

  /** `findOneAndDelete({ slug })`: removes the first record with the slug and returns it. */
  function FindOneAndDeleteSpec(st: ProblemsState, slug: string): (Option<ProblemRecord>, ProblemsState) {
    match FindBySlug(st.problems, Some(JStr(slug)))
    case None => (None, st)
    case Some(i) => (Some(st.problems[i]), st.(problems := st.problems[..i] + st.problems[i + 1..]))
  }

  /** Records with later creation times come first. */
  predicate NewestFirst(s: seq<ProblemRecord>) {
    forall i, j :: 0 <= i < j < |s| ==> s[i].createdAt >= s[j].createdAt
  }

  /** `find().sort({ createdAt: -1 })`. Records created at the same time keep their
      insertion order. */
  function SortByCreatedDesc(s: seq<ProblemRecord>): seq<ProblemRecord>
    decreases |s|
  {
    if s == [] then [] else InsertByCreated(s[0], SortByCreatedDesc(s[1..]))
  }

  function InsertByCreated(x: ProblemRecord, s: seq<ProblemRecord>): seq<ProblemRecord>
    decreases |s|
  {
    if s == [] || x.createdAt >= s[0].createdAt then [x] + s else [s[0]] + InsertByCreated(x, s[1..])
  }

  lemma {:induction false} InsertByCreatedPerm(x: ProblemRecord, s: seq<ProblemRecord>)
    ensures multiset(InsertByCreated(x, s)) == multiset(s) + multiset{x}
    ensures |InsertByCreated(x, s)| == |s| + 1
    decreases |s|
  {
    if s != [] && x.createdAt < s[0].createdAt {
      InsertByCreatedPerm(x, s[1..]);
      assert s == [s[0]] + s[1..];
    }
  }

  lemma {:induction false} InsertByCreatedSorted(x: ProblemRecord, s: seq<ProblemRecord>)
    requires NewestFirst(s)
    ensures NewestFirst(InsertByCreated(x, s))
    ensures InsertByCreated(x, s) != [] && (InsertByCreated(x, s)[0] == x || InsertByCreated(x, s)[0] == s[0])
    decreases |s|
  {
    if s != [] && x.createdAt < s[0].createdAt {
      var rest := InsertByCreated(x, s[1..]);
      InsertByCreatedSorted(x, s[1..]);
      var r := [s[0]] + rest;
      assert rest[0].createdAt <= s[0].createdAt;
      forall i, j | 0 <= i < j < |r|
        ensures r[i].createdAt >= r[j].createdAt
      {
        if i == 0 && j > 1 {
          assert r[j] == rest[j - 1];
        }
      }
    }
  }

  /** The listing holds every record, each as often as stored, newest first. */
  lemma {:induction false} SortByCreatedDescSpec(s: seq<ProblemRecord>)
    ensures NewestFirst(SortByCreatedDesc(s))
    ensures multiset(SortByCreatedDesc(s)) == multiset(s)
    ensures |SortByCreatedDesc(s)| == |s|
    decreases |s|
  {
    if s != [] {
      SortByCreatedDescSpec(s[1..]);
      InsertByCreatedPerm(s[0], SortByCreatedDesc(s[1..]));
      InsertByCreatedSorted(s[0], SortByCreatedDesc(s[1..]));
      assert s == [s[0]] + s[1..];
    }
  }

  // ---------------------------------------------------------------------------------------
  // The service

  /** `createProblem`: a taken slug is refused with 409 before the insert. */
  function CreateProblemSpec(st: ProblemsState, data: map<string, Json>, now: int): (Result<ProblemRecord, Err>, ProblemsState) {
    if FindBySlug(st.problems, SlugOf(data)).Some? then (Failure(SlugTaken), st)
    else InsertSpec(st, data, now)
  }

  /** `getProblemBySlug`. */
  function GetProblemBySlugSpec(st: ProblemsState, slug: string): Result<ProblemRecord, Err> {
    match FindBySlug(st.problems, Some(JStr(slug)))
    case None => Failure(ProblemNotFound)
    case Some(i) => Success(st.problems[i])
  }

  /** `updateProblemBySlug`. */
  function UpdateProblemBySlugSpec(st: ProblemsState, slug: string, data: map<string, Json>)
    : (Result<ProblemRecord, Err>, ProblemsState)
  {
    var (r, st') := FindOneAndUpdateSpec(st, slug, data);
    if r.Failure? then (Failure(r.error), st')
    else if r.value.None? then (Failure(ProblemNotFound), st')
    else (Success(r.value.value), st')
  }

  /** `deleteProblemBySlug`. */
  function DeleteProblemBySlugSpec(st: ProblemsState, slug: string): (Result<(), Err>, ProblemsState) {
    var (r, st') := FindOneAndDeleteSpec(st, slug);
    if r.None? then (Failure(ProblemNotFound), st') else (Success(()), st')
  }

  /** A slug already stored is refused with 409 and nothing changes. */
  lemma CreateDuplicateSlug(st: ProblemsState, data: map<string, Json>, now: int, i: nat)
    requires i < |st.problems| && SlugOf(st.problems[i].fields) == SlugOf(data)
    ensures CreateProblemSpec(st, data, now) == (Failure(SlugTaken), st)
  {
  }

  /** A non-null slug no record holds is neither found by the lookup nor held by the index. */
  lemma FreshSlugUnmatched(problems: seq<ProblemRecord>, slug: Json)
    requires !slug.JNull?
    requires forall j :: 0 <= j < |problems| ==> SlugOf(problems[j].fields) != Some(slug)
    ensures FindBySlug(problems, Some(slug)).None? && !SlugIndexed(problems, Some(slug))
  {
  }

  /** Data without a slug is refused with 409 by any non-empty collection: the lookup's
      filter is empty, so it finds the first record. */
  lemma CreateWithoutSlugRefused(st: ProblemsState, data: map<string, Json>, now: int)
    requires SlugOf(data).None? && st.problems != []
    ensures CreateProblemSpec(st, data, now) == (Failure(SlugTaken), st)
  {
  }

  /** A slug the lookup matches nowhere adds exactly one record, holding the data, after
      the unchanged others. */
  lemma CreateFreshSlug(st: ProblemsState, data: map<string, Json>, now: int)
    requires forall j :: 0 <= j < |st.problems| ==> !SlugMatches(st.problems[j].fields, SlugOf(data))
    ensures var (r, st') := CreateProblemSpec(st, data, now);
      && r.Success? && r.value.fields == data && r.value.id == st.nextId && r.value.createdAt == now
      && st'.problems == st.problems + [r.value]
  {
  }

  lemma CreatePreservesValid(st: ProblemsState, data: map<string, Json>, now: int)
    requires ValidProblems(st)
    ensures ValidProblems(CreateProblemSpec(st, data, now).1)
  {
  }

  /** The record returned is the stored one with that slug; 404 exactly when none has it. */
  lemma GetBySlugFinds(st: ProblemsState, slug: string)
    ensures var r := GetProblemBySlugSpec(st, slug);
      && (r.Success? <==> exists j :: 0 <= j < |st.problems| && SlugOf(st.problems[j].fields) == Some(JStr(slug)))
      && (r.Success? ==> r.value in st.problems && SlugOf(r.value.fields) == Some(JStr(slug)))
      && (r.Failure? ==> r.error == ProblemNotFound)
  {
    var f := FindBySlug(st.problems, Some(JStr(slug)));
    if f.Some? {
      assert SlugOf(st.problems[f.value].fields) == Some(JStr(slug));
    }
  }

  /** Updating an absent slug fails with 404 and changes nothing. */
  lemma UpdateAbsent(st: ProblemsState, slug: string, data: map<string, Json>)
    requires forall j :: 0 <= j < |st.problems| ==> SlugOf(st.problems[j].fields) != Some(JStr(slug))
    ensures UpdateProblemBySlugSpec(st, slug, data) == (Failure(ProblemNotFound), st)
  {
  }

  /** Updating a present slug returns the record with the given fields overridden and all
      others kept, and replaces it in place; only a new slug that another record has is
      refused, with nothing changed. */
  lemma UpdatePresent(st: ProblemsState, slug: string, data: map<string, Json>, i: nat)
    requires ValidProblems(st) && i < |st.problems| && SlugOf(st.problems[i].fields) == Some(JStr(slug))
    ensures var (r, st') := UpdateProblemBySlugSpec(st, slug, data);
      var updated := st.problems[i].(fields := st.problems[i].fields + data);
      && (r.Success? <==> forall j :: 0 <= j < |st.problems| && j != i ==> SlugOf(st.problems[j].fields) != SlugOf(updated.fields))
      && (r.Success? ==>
            && r.value == updated
            && (forall k :: k in data ==> k in r.value.fields && r.value.fields[k] == data[k])
            && (forall k :: k in st.problems[i].fields && k !in data ==> k in r.value.fields && r.value.fields[k] == st.problems[i].fields[k])
            && st' == st.(problems := st.problems[i := updated]))
      && (r.Failure? ==> r.error == SlugIndexError && st' == st)
  {
    FindBySlugUnique(st, i);
  }

  lemma UpdatePreservesValid(st: ProblemsState, slug: string, data: map<string, Json>)
    requires ValidProblems(st)
    ensures ValidProblems(UpdateProblemBySlugSpec(st, slug, data).1)
  {
  }

  /** Deleting an absent slug fails with 404 and changes nothing; deleting a present one
      succeeds and removes exactly that record, so the slug is gone and the others keep
      their order. */
  lemma DeleteRemovesOnlySlug(st: ProblemsState, slug: string)
    requires ValidProblems(st)
    ensures var (r, st') := DeleteProblemBySlugSpec(st, slug);
      && ((forall j :: 0 <= j < |st.problems| ==> SlugOf(st.problems[j].fields) != Some(JStr(slug))) ==>
            r == Failure(ProblemNotFound) && st' == st)
      && (forall i :: 0 <= i < |st.problems| && SlugOf(st.problems[i].fields) == Some(JStr(slug)) ==>
            r == Success(()) && st' == st.(problems := st.problems[..i] + st.problems[i + 1..]))
      && (r.Success? ==>
            && (forall j :: 0 <= j < |st'.problems| ==> SlugOf(st'.problems[j].fields) != Some(JStr(slug)))
            && |st'.problems| == |st.problems| - 1
            && (forall p :: p in st.problems && SlugOf(p.fields) != Some(JStr(slug)) ==> p in st'.problems))
  {
    forall i | 0 <= i < |st.problems| && SlugOf(st.problems[i].fields) == Some(JStr(slug))
      ensures DeleteProblemBySlugSpec(st, slug) == (Success(()), st.(problems := st.problems[..i] + st.problems[i + 1..]))
    {
      DeleteAt(st, slug, i);
    }
    var f := FindBySlug(st.problems, Some(JStr(slug)));
    if f.Some? {
      DeleteAt(st, slug, f.value);
      RemoveOnlyHolder(st, slug, f.value);
    }
  }

  /** The record holding the slug is the one deleted. */
  lemma DeleteAt(st: ProblemsState, slug: string, i: nat)
    requires ValidProblems(st) && i < |st.problems| && SlugOf(st.problems[i].fields) == Some(JStr(slug))
    ensures DeleteProblemBySlugSpec(st, slug) == (Success(()), st.(problems := st.problems[..i] + st.problems[i + 1..]))
  {
    FindBySlugUnique(st, i);
  }

  /** Cutting out the slug's holder leaves no record with the slug and keeps every other. */
  lemma RemoveOnlyHolder(st: ProblemsState, slug: string, i: nat)
    requires ValidProblems(st) && i < |st.problems| && SlugOf(st.problems[i].fields) == Some(JStr(slug))
    ensures var rest := st.problems[..i] + st.problems[i + 1..];
      && (forall j :: 0 <= j < |rest| ==> SlugOf(rest[j].fields) != Some(JStr(slug)))
      && (forall p :: p in st.problems && SlugOf(p.fields) != Some(JStr(slug)) ==> p in rest)
  {
    var rest := st.problems[..i] + st.problems[i + 1..];
    forall j | 0 <= j < |rest|
      ensures SlugOf(rest[j].fields) != Some(JStr(slug))
    {
      if j < i {
        assert rest[j] == st.problems[j];
      } else {
        assert rest[j] == st.problems[j + 1];
      }
    }
    forall p | p in st.problems && SlugOf(p.fields) != Some(JStr(slug))
      ensures p in rest
    {
      var k :| 0 <= k < |st.problems| && st.problems[k] == p;
      if k < i {
        assert rest[k] == p;
      } else {
        assert rest[k - 1] == p;
      }
    }
  }

  lemma DeletePreservesValid(st: ProblemsState, slug: string)
    requires ValidProblems(st)
    ensures ValidProblems(DeleteProblemBySlugSpec(st, slug).1)
  {
    var f := FindBySlug(st.problems, Some(JStr(slug)));
    if f.Some? {
      RemovePreservesValid(st, f.value);
    }
  }

  /** Removing one record keeps ids below `nextId`, distinct, and slugs unique. */
  lemma RemovePreservesValid(st: ProblemsState, i: nat)
    requires ValidProblems(st) && i < |st.problems|
    ensures ValidProblems(st.(problems := st.problems[..i] + st.problems[i + 1..]))
  {
    var rest := st.problems[..i] + st.problems[i + 1..];
    forall j | 0 <= j < |rest|
      ensures rest[j] == st.problems[if j < i then j else j + 1]
    {
    }
  }

  /** The problem collection. */
  class ProblemStore {
    var problems: seq<ProblemRecord>
    var nextId: nat

    function State(): ProblemsState
      reads this
    {
      ProblemsState(problems, nextId)
    }

    ghost predicate Valid()
      reads this
    {
      ValidProblems(State())
    }

    constructor ()
      ensures State() == ProblemsState([], 0) && Valid()
    {
      problems := [];
      nextId := 0;
    }

    /** `findOne({ slug })`, returning the record. */
    function FindOne(slug: Option<Json>): (r: Option<ProblemRecord>)
      reads this
      ensures r.Some? <==> FindBySlug(problems, slug).Some?
      ensures r.Some? ==> r.value in problems && SlugMatches(r.value.fields, slug)
      ensures r.Some? && slug.Some? && !slug.value.JNull? ==> SlugOf(r.value.fields) == slug
    {
      var i := FindBySlug(problems, slug);
      if i.None? then None else Some(problems[i.value])
    }

    method Create(data: map<string, Json>, now: int) returns (r: Result<ProblemRecord, Err>)
      requires Valid()
      modifies this
      ensures Valid()
      ensures (r, State()) == InsertSpec(old(State()), data, now)
    {
      if exists j :: 0 <= j < |problems| && SlugOf(problems[j].fields) == SlugOf(data) {
        return Failure(SlugIndexError);
      }
      var rec := ProblemRecord(nextId, now, data);
      problems := problems + [rec];
      nextId := nextId + 1;
      r := Success(rec);
    }

    method FindOneAndUpdate(slug: string, data: map<string, Json>) returns (r: Result<Option<ProblemRecord>, Err>)
      requires Valid()
      modifies this
      ensures Valid()
      ensures (r, State()) == FindOneAndUpdateSpec(old(State()), slug, data)
    {
      UpdatePreservesValid(State(), slug, data);
      var found := FindBySlug(problems, Some(JStr(slug)));
      if found.None? {
        return Success(None);
      }
      var i := found.value;
      var updated := problems[i].(fields := problems[i].fields + data);
      if exists j :: 0 <= j < |problems| && j != i && SlugOf(problems[j].fields) == SlugOf(updated.fields) {
        return Failure(SlugIndexError);
      }
      problems := problems[i := updated];
      r := Success(Some(updated));
    }

    method FindOneAndDelete(slug: string) returns (r: Option<ProblemRecord>)
      requires Valid()
      modifies this
      ensures Valid()
      ensures (r, State()) == FindOneAndDeleteSpec(old(State()), slug)
    {
      DeletePreservesValid(State(), slug);
      var found := FindBySlug(problems, Some(JStr(slug)));
      if found.None? {
        return None;
      }
      var i := found.value;
      r := Some(problems[i]);
      problems := problems[..i] + problems[i + 1..];
    }

    /** `find().sort({ createdAt: -1 })`: reads the collection and changes nothing. */
    method FindSorted() returns (r: seq<ProblemRecord>)
      ensures r == SortByCreatedDesc(problems)
      ensures NewestFirst(r) && multiset(r) == multiset(problems)
    {
      SortByCreatedDescSpec(problems);
      r := SortByCreatedDesc(problems);
    }
  }

  /** `createProblem`. */
  method CreateProblem(store: ProblemStore, data: map<string, Json>, now: int) returns (r: Result<ProblemRecord, Err>)
    requires store.Valid()
    modifies store
    ensures store.Valid()
    ensures (r, store.State()) == CreateProblemSpec(old(store.State()), data, now)
  {
    var existing := store.FindOne(SlugOf(data));
    if existing.Some? {
      return Failure(SlugTaken);
    }
    r := store.Create(data, now);
  }

  /** `getAllProblems`. */
  method GetAllProblems(store: ProblemStore) returns (r: seq<ProblemRecord>)
    ensures r == SortByCreatedDesc(store.problems)
    ensures NewestFirst(r) && multiset(r) == multiset(store.problems)
  {
    r := store.FindSorted();
  }

  /** `getProblemBySlug`. */
  method GetProblemBySlug(store: ProblemStore, slug: string) returns (r: Result<ProblemRecord, Err>)
    ensures r == GetProblemBySlugSpec(store.State(), slug)
  {
    var problem := store.FindOne(Some(JStr(slug)));
    if problem.None? {
      return Failure(ProblemNotFound);
    }
    r := Success(problem.value);
  }

  /** `updateProblemBySlug`. */
  method UpdateProblemBySlug(store: ProblemStore, slug: string, data: map<string, Json>) returns (r: Result<ProblemRecord, Err>)
    requires store.Valid()
    modifies store
    ensures store.Valid()
    ensures (r, store.State()) == UpdateProblemBySlugSpec(old(store.State()), slug, data)
  {
    var updated := store.FindOneAndUpdate(slug, data);
    if updated.Failure? {
      return Failure(updated.error);
    }
    if updated.value.None? {
      return Failure(ProblemNotFound);
    }
    r := Success(updated.value.value);
  }

  /** `deleteProblemBySlug`. */
  method DeleteProblemBySlug(store: ProblemStore, slug: string) returns (r: Result<(), Err>)
    requires store.Valid()
    modifies store
    ensures store.Valid()
    ensures (r, store.State()) == DeleteProblemBySlugSpec(old(store.State()), slug)
  {
    var deleted := store.FindOneAndDelete(slug);
    if deleted.None? {
      return Failure(ProblemNotFound);
    }
    r := Success(());
  }
}

/**
 * What a controller does with a request before any service call: take a body property,
 * normalise it with `v?.trim()` (and `.toLowerCase()` for emails, usernames and login
 * credentials), and test it with JavaScript's `!v`. Also the reply a controller produces.
 */
module RequestInput {
  import opened Wrappers
  import opened Strings
  import opened Json
  import opened ApiErrors
  import opened ApiResponses

  /** The TypeError thrown when a property that is not a function is called. */
  function NotAFunction(expr: string): Err {
    PlainError(expr + " is not a function")
  }

  /** `v?.trim()`, followed by `.toLowerCase()` when `lower` holds. Undefined and null give
      undefined; a string is trimmed (and lower-cased); any other value has no `trim`
      method, so the call throws a TypeError. */
  function NormalizeField(name: string, v: Option<Json>, lower: bool): Result<Option<string>, Err> {
    match v
    case None => Success(None)
    case Some(JNull) => Success(None)
    case Some(JStr(s)) => Success(Some(if lower then ToLower(Trim(s)) else Trim(s)))
    case Some(_) => Failure(NotAFunction(name + "?.trim"))
  }

  /** The property of the body, normalised. */
  function FieldOf(body: Json, name: string, lower: bool): Result<Option<string>, Err> {
    NormalizeField(name, Get(body, name), lower)
  }

  /** The body holds a string under `name`. */
  predicate HasString(body: Json, name: string) {
    body.JObj? && name in body.fields && body.fields[name].JStr?
  }

  /** The normalised field of a body, case by case: the normaliser's cases read through
      `Get`, as the controllers' contracts use them. */
  lemma FieldOfCases(body: Json, name: string, lower: bool)
    ensures HasString(body, name) ==>
      FieldOf(body, name, lower) == Success(Some(if lower then ToLower(Trim(body.fields[name].s)) else Trim(body.fields[name].s)))
    ensures Get(body, name).None? || Get(body, name) == Some(JNull) ==> FieldOf(body, name, lower) == Success(None)
    ensures FieldOf(body, name, lower).Failure? ==> !HasString(body, name)
  {
  }

  /** Normalising a body property throws exactly when the property is there, is not null
      and is not a string, and then the TypeError names the `trim` call; it gives a value
      exactly when the body holds a string under that name. */
  lemma FieldOfFailsIff(body: Json, name: string, lower: bool)
    ensures var r := FieldOf(body, name, lower);
      && (r.Failure? <==> body.JObj? && name in body.fields && !body.fields[name].JNull? && !body.fields[name].JStr?)
      && (r.Failure? ==> r.error == NotAFunction(name + "?.trim"))
      && (r.Success? && r.value.Some? <==> HasString(body, name))
  {
  }

  /** JavaScript truthiness of a normalised field: present and not empty. */
  predicate Present(v: Option<string>) {
    v.Some? && v.value != ""
  }

  /** A normalised string is of the form the normaliser produces: no surrounding
      whitespace (and no capital when lower-cased), so normalising it again changes
      nothing; undefined and null are told apart from strings, and a blank string is
      not present. */
  lemma NormalizeFieldIdempotent(name: string, v: Option<Json>, lower: bool)
    ensures var r := NormalizeField(name, v, lower);
      && (r.Success? && r.value.Some? ==> NormalizeField(name, Some(JStr(r.value.value)), lower) == r)
      && (r.Success? <==> v.None? || v.value.JNull? || v.value.JStr?)
      && (r.Success? && r.value.Some? ==> r.value.value == [] || (!IsSpace(r.value.value[0]) && !IsSpace(r.value.value[|r.value.value| - 1])))
  {
    if v.Some? && v.value.JStr? {
      if lower {
        LoweredNormalFixed(name, v.value.s);
      } else {
        TrimmedNormalFixed(name, v.value.s);
      }
    }
  }

  /** Without lower-casing, the normal form of a string is the normaliser's fixed point. */
  lemma TrimmedNormalFixed(name: string, s: string)
    ensures var t := Trim(s);
      && NormalizeField(name, Some(JStr(s)), false) == Success(Some(t))
      && NormalizeField(name, Some(JStr(t)), false) == Success(Some(t))
      && (t == [] || (!IsSpace(t[0]) && !IsSpace(t[|t| - 1])))
  {
    NormalizeString(name, s, false);
    NormalizeString(name, Trim(s), false);
    TrimmedFormFixed(s);
  }

  /** With lower-casing, the normal form of a string is the normaliser's fixed point. */
  lemma LoweredNormalFixed(name: string, s: string)
    ensures var t := ToLower(Trim(s));
      && NormalizeField(name, Some(JStr(s)), true) == Success(Some(t))
      && NormalizeField(name, Some(JStr(t)), true) == Success(Some(t))
      && (t == [] || (!IsSpace(t[0]) && !IsSpace(t[|t| - 1])))
  {
    NormalizeString(name, s, true);
    NormalizeString(name, ToLower(Trim(s)), true);
    LoweredFormFixed(s);
  }

  /** The string case of the normaliser, unfolded on its own so that the fixed-point
      lemmas above each reason about one call at a time. */
  lemma NormalizeString(name: string, s: string, lower: bool)
    ensures NormalizeField(name, Some(JStr(s)), lower) == Success(Some(if lower then ToLower(Trim(s)) else Trim(s)))
  {
  }

  /** A trimmed string has no surrounding whitespace and trims to itself. */
  lemma TrimmedFormFixed(s: string)
    ensures var t := Trim(s);
      && Trim(t) == t
      && (t == [] || (!IsSpace(t[0]) && !IsSpace(t[|t| - 1])))
  {
    TrimIdempotent(s);
    TrimShape(s);
  }

  /** A trimmed, lower-cased string has no surrounding whitespace and normalises to
      itself. */
  lemma LoweredFormFixed(s: string)
    ensures var t := ToLower(Trim(s));
      && ToLower(Trim(t)) == t
      && (t == [] || (!IsSpace(t[0]) && !IsSpace(t[|t| - 1])))
  {
    TrimmedFormFixed(s);
    var t := ToLower(Trim(s));
    TrimToLowerCommute(Trim(s));
    ToLowerIdempotent(Trim(s));
    assert Trim(t) == t;
    if t != [] {
      LowerCharKeepsSpace(Trim(s)[0]);
      LowerCharKeepsSpace(Trim(s)[|t| - 1]);
    }
  }

  /** A string made only of whitespace normalises to the empty string, which is not
      present. */
  lemma BlankIsMissing(name: string, s: string, lower: bool)
    requires forall i :: 0 <= i < |s| ==> IsSpace(s[i])
    ensures var r := NormalizeField(name, Some(JStr(s)), lower);
      r == Success(Some("")) && !Present(r.value)
  {
    TrimShape(s);
    assert Trim(s) == [];
    assert ToLower(Trim(s)) == [];
  }

  /** `res.cookie(name, value, options)` and `res.clearCookie(name, options)`. */
  datatype CookieOp =
    | SetCookie(name: string, value: string, maxAge: nat)
    | ClearCookie(name: string)

  /** An HTTP reply with its cookies, or a value thrown to the error middleware. */
  datatype Outcome =
    | Respond(status: int, body: ApiResponse<Json>, cookies: seq<CookieOp>)
    | Throw(err: Err)
}

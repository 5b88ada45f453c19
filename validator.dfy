/**
 * The backend's request validation (backend/middlewares/validator.js): the
 * express-validator rule chains of `userValidation` and the `validate`
 * middleware that folds their errors into one 400 response.
 *
 * A chain has no `bail()`, so every failing check of a field adds its own
 * error, in rule order. A body field that is absent is read through the `trim`
 * sanitizer as the empty string. `isEmail` and `isMongoId` are library
 * predicates and are passed in.
 */
module Validator {
  import opened Wrappers
  import opened JsValues
  import opened Text
  import opened ErrorFold
  import opened Responses

  /** The messages the rule chains attach with `withMessage`. */
  const NameRequired := "Name is required"
  const NameLength := "Name must be between 2 and 50 characters"
  const EmailRequired := "Email is required"
  const EmailInvalid := "Invalid email address"
  const InvalidId := "Invalid user ID"
  const PageInvalid := "Page must be a positive integer"
  const LimitInvalid := "Limit must be between 1 and 100"
  const SortInvalid := "Sort field must contain only letters"

  /** What the middleware does with a request: pass it on, answer it, or throw. */
  datatype Outcome = Next | Reject(response: Envelope) | Throw(error: string)

  /** The value a chain sees for a body field: absent reads as "", then `trim()`. */
  function Trimmed(v: Option<string>): string
  {
    if v.Some? then Trim(v.value) else ""
  }

  /** The presentation selectors U+FE0E and U+FE0F, which `isLength` leaves out of its count. */
  predicate IsPresentationSelector(c: char)
  {
    c == '\U{FE0E}' || c == '\U{FE0F}'
  }

  /**
   * The length `isLength` measures: code points (a surrogate pair counts once),
   * not counting the presentation selectors.
   */
  function IsLengthCount(s: string): (n: nat)
    ensures n <= |s|
    ensures (forall i :: 0 <= i < |s| ==> !IsPresentationSelector(s[i])) ==> n == |s|
    ensures (forall i :: 0 <= i < |s| ==> IsPresentationSelector(s[i])) ==> n == 0
  {
    if s == [] then 0
    else (if IsPresentationSelector(s[0]) then 0 else 1) + IsLengthCount(s[1..])
  }

  /** `isLength({ min: lo, max: hi })`. */
  predicate LengthBetween(s: string, lo: nat, hi: nat)
  {
    lo <= IsLengthCount(s) <= hi
  }

  /** "a" followed by U+FE0F is two characters long, yet `isLength` counts one and refuses it for a minimum of 2. */
  lemma SelectorNotCounted()
    ensures |"a\U{FE0F}"| == 2
    ensures IsLengthCount("a\U{FE0F}") == 1
    ensures !LengthBetween("a\U{FE0F}", 2, 50)
  {
    assert "a\U{FE0F}"[1..] == "\U{FE0F}";
    assert "\U{FE0F}"[1..] == "";
  }

  /** `body('name').trim().notEmpty().isLength({ min: 2, max: 50 })` in `create`. */
  function CreateNameErrors(name: Option<string>): (errs: seq<FieldError>)
    ensures errs == [] <==> LengthBetween(Trimmed(name), 2, 50)
    ensures forall i :: 0 <= i < |errs| ==> errs[i].path == "name"
    ensures Trimmed(name) == [] ==> errs == [FieldError("name", NameRequired), FieldError("name", NameLength)]
  {
    var v := Trimmed(name);
    (if v == [] then [FieldError("name", NameRequired)] else [])
    + (if !LengthBetween(v, 2, 50) then [FieldError("name", NameLength)] else [])
  }

  /** `body('email').trim().notEmpty().isEmail()` in `create`. */
  function CreateEmailErrors(email: Option<string>, isEmail: string -> bool): (errs: seq<FieldError>)
    ensures errs == [] <==> Trimmed(email) != [] && isEmail(Trimmed(email))
    ensures forall i :: 0 <= i < |errs| ==> errs[i].path == "email"
  {
    var v := Trimmed(email);
    (if v == [] then [FieldError("email", EmailRequired)] else [])
    + (if !isEmail(v) then [FieldError("email", EmailInvalid)] else [])
  }

  /** `param('id').isMongoId()`, shared by `update` and `getById`. */
  function IdErrors(id: string, isMongoId: string -> bool): (errs: seq<FieldError>)
    ensures errs == [] <==> isMongoId(id)
    ensures forall i :: 0 <= i < |errs| ==> errs[i] == FieldError("id", InvalidId)
  {
    if isMongoId(id) then [] else [FieldError("id", InvalidId)]
  }

  /** The `optional()` name chain of `update`: only a present name is checked. */
  function UpdateNameErrors(name: Option<string>): (errs: seq<FieldError>)
    ensures name.None? ==> errs == []
    ensures name.Some? ==> (errs == [] <==> LengthBetween(Trim(name.value), 2, 50))
    ensures forall i :: 0 <= i < |errs| ==> errs[i] == FieldError("name", NameLength)
  {
    if name.None? || LengthBetween(Trim(name.value), 2, 50) then []
    else [FieldError("name", NameLength)]
  }

  /** The `optional()` email chain of `update`. */
  function UpdateEmailErrors(email: Option<string>, isEmail: string -> bool): (errs: seq<FieldError>)
    ensures email.None? ==> errs == []
    ensures email.Some? ==> (errs == [] <==> isEmail(Trim(email.value)))
    ensures forall i :: 0 <= i < |errs| ==> errs[i] == FieldError("email", EmailInvalid)
  {
    if email.None? || isEmail(Trim(email.value)) then [] else [FieldError("email", EmailInvalid)]
  }

  /** `isInt`'s default pattern `^[-+]?[0-9]+$`: an optional sign, then at least one digit. */
  predicate IsIntString(s: string)
  {
    var b := IntDigits(s);
    b != [] && AllDigits(b)
  }

  /** The digits of a numeral, after its sign. */
  function IntDigits(s: string): (b: string)
    ensures |b| <= |s|
  {
    if s != [] && (s[0] == '+' || s[0] == '-') then s[1..] else s
  }

  /** `Number(s)` for a string that matches the integer pattern. */
  function IntStringValue(s: string): int
    requires IsIntString(s)
  {
    var v: int := DigitsValue(IntDigits(s));
    if s[0] == '-' then -v else v
  }

  /** `isInt({ min: lo, max: hi })`: the pattern, then the numeric bounds. */
  predicate IsIntInRange(s: string, lo: int, hi: Option<int>)
  {
    IsIntString(s) && lo <= IntStringValue(s) && (hi.None? || IntStringValue(s) <= hi.value)
  }

  /** `/^[a-zA-Z]+$/`. */
  predicate IsLetters(s: string)
  {
    s != [] && forall i :: 0 <= i < |s| ==> ('a' <= s[i] <= 'z' || 'A' <= s[i] <= 'Z')
  }

  /** The three optional query chains of `list`. */
  function ListErrors(page: Option<string>, limit: Option<string>, sort: Option<string>): (errs: seq<FieldError>)
    ensures errs == [] <==>
      (page.None? || IsIntInRange(page.value, 1, None)) &&
      (limit.None? || IsIntInRange(limit.value, 1, Some(100))) &&
      (sort.None? || IsLetters(sort.value))
    ensures |errs| <= 3
  {
    (if page.Some? && !IsIntInRange(page.value, 1, None) then [FieldError("page", PageInvalid)] else [])
    + (if limit.Some? && !IsIntInRange(limit.value, 1, Some(100)) then [FieldError("limit", LimitInvalid)] else [])
    + (if sort.Some? && !IsLetters(sort.value) then [FieldError("sort", SortInvalid)] else [])
  }

  /** The set of paths the errors name. */
  function Paths(errs: seq<FieldError>): set<string>
  {
    set i | 0 <= i < |errs| :: errs[i].path
  }

  /**
   * `validate(validations)` as its authors meant it: no error lets the request
   * through; otherwise the answer is 400 'Validation Error' with one member per
   * failing path.
   */
  function Validate(errs: seq<FieldError>): (o: Outcome)
    ensures o == Next <==> errs == []
    ensures o != Next ==>
      && o.Reject?
      && o.response.status == 400 && !o.response.success
      && o.response.message == "Validation Error"
      && o.response.errors.Some? && o.response.errors.value.Obj?
      && o.response.errors.value.fields.Keys == Paths(errs)
      && o.response.errors == Some(StringObject(FoldErrors(errs)))
  {
    if errs == [] then Next
    else
      var formatted := FoldErrors(errs);
      assert errs[0].path in formatted;
      Reject(ErrorResponse(400, "Validation Error", StringObject(formatted)))
  }

  /**
   * Whatever the errors, a rejected request reports under each failing path
   * the message of the last error for that path.
   */
  lemma ValidateReportsLast(errs: seq<FieldError>, i: nat)
    requires i < |errs|
    requires forall j :: i < j < |errs| ==> errs[j].path != errs[i].path
    ensures Validate(errs).Reject?
    ensures errs[i].path in Validate(errs).response.errors.value.fields
    ensures Validate(errs).response.errors.value.fields[errs[i].path] == Str(errs[i].msg)
  {
    FoldKeepsLast(errs, i);
  }

  /**
   * `validate` as written: line 13 reads `validationChain`, which is not
   * defined, so every request makes the middleware throw a ReferenceError,
   * whatever its errors.
   */
  function ValidateAsWritten(errs: seq<FieldError>): (o: Outcome)
    ensures o.Throw?
  {
    Throw("ReferenceError: validationChain is not defined")
  }

  /** A request that passes every rule is still not passed on by the middleware as written. */
  lemma AsWrittenBlocksValidRequests()
    ensures Validate([]) == Next
    ensures ValidateAsWritten([]) != Next
  {
  }

  function ValidateCreate(name: Option<string>, email: Option<string>, isEmail: string -> bool): Outcome
  {
    Validate(CreateNameErrors(name) + CreateEmailErrors(email, isEmail))
  }

  /** `create` lets a request through exactly when the trimmed name has 2..50 characters and the trimmed email is a non-empty address. */
  lemma CreateAccepts(name: Option<string>, email: Option<string>, isEmail: string -> bool)
    ensures ValidateCreate(name, email, isEmail) == Next <==>
      LengthBetween(Trimmed(name), 2, 50) && Trimmed(email) != [] && isEmail(Trimmed(email))
  {
  }

  /** The fold of a blank name's two errors, followed by the email's, keeps the length message. */
  lemma BlankNameFold(name: Option<string>, email: Option<string>, isEmail: string -> bool)
    requires Trimmed(name) == []
    ensures var m := FoldErrors(CreateNameErrors(name) + CreateEmailErrors(email, isEmail));
      "name" in m && m["name"] == NameLength
  {
    var n := CreateNameErrors(name);
    var e := CreateEmailErrors(email, isEmail);
    var errs := n + e;
    assert errs[1] == n[1];
    assert forall j :: 1 < j < |errs| ==> errs[j] == e[j - 2];
    assert forall j :: 1 < j < |errs| ==> errs[j].path != errs[1].path;
    FoldKeepsLast(errs, 1);
  }

  /**
   * A missing or blank name fails both of its checks, and the fold keeps the
   * later message: the client sees the length message, not 'Name is required'.
   */
  lemma BlankNameReportsLength(name: Option<string>, email: Option<string>, isEmail: string -> bool)
    requires Trimmed(name) == []
    ensures var o := ValidateCreate(name, email, isEmail);
      && o.Reject? && o.response.errors.Some? && o.response.errors.value.Obj?
      && "name" in o.response.errors.value.fields
      && o.response.errors.value.fields["name"] == Str(NameLength)
  {
    BlankNameFold(name, email, isEmail);
    var m := FoldErrors(CreateNameErrors(name) + CreateEmailErrors(email, isEmail));
    assert ValidateCreate(name, email, isEmail) == Reject(ErrorResponse(400, "Validation Error", StringObject(m)));
  }

  function ValidateUpdate(id: string, name: Option<string>, email: Option<string>,
                          isMongoId: string -> bool, isEmail: string -> bool): Outcome
  {
    Validate(IdErrors(id, isMongoId) + UpdateNameErrors(name) + UpdateEmailErrors(email, isEmail))
  }

  /** `update` checks the id always and the name and email only when they are sent. */
  lemma UpdateAccepts(id: string, name: Option<string>, email: Option<string>,
                      isMongoId: string -> bool, isEmail: string -> bool)
    ensures ValidateUpdate(id, name, email, isMongoId, isEmail) == Next <==>
      isMongoId(id)
      && (name.None? || LengthBetween(Trim(name.value), 2, 50))
      && (email.None? || isEmail(Trim(email.value)))
  {
  }

  /** `getById` rejects exactly the ids that are not ObjectIds, and says so under `id`. */
  lemma GetByIdAccepts(id: string, isMongoId: string -> bool)
    ensures Validate(IdErrors(id, isMongoId)) == Next <==> isMongoId(id)
    ensures !isMongoId(id) ==>
      Validate(IdErrors(id, isMongoId)).response.errors.value.fields == map["id" := Str(InvalidId)]
  {
    var errs := IdErrors(id, isMongoId);
    if !isMongoId(id) {
      assert errs[..0] == [];
      assert FoldErrors(errs) == map["id" := InvalidId];
    }
  }

  /** A page of `"0"` or `"-3"` is refused, and any decimal numeral from 1 up is accepted, leading zeros included. */
  lemma PageBounds(p: string)
    requires IsIntString(p)
    ensures ListErrors(Some(p), None, None) == [] <==> IntStringValue(p) >= 1
  {
  }
}

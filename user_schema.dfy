/**
 * The Mongoose `User` schema (backend-rest-api/models/User.js): the setters
 * that normalise a document's fields, the path validators with their
 * messages, the default of `isActive`, and the two query statics.
 *
 * Mongoose runs a path's validators in order (required first) and reports the
 * first that fails. `validator.isEmail` is passed in.
 */
module UserSchema {
  import opened Wrappers
  import opened JsValues
  import opened Text
  import opened Seqs
  import opened ErrorFold

  /** A stored user's fields (timestamps and `__v` are not modelled). */
  datatype User = User(name: string, email: string, isActive: bool)

  /** A stored document: its ObjectId, abstracted to a number, and its fields. */
  datatype Doc = Doc(id: nat, user: User)

  /** The `trim: true` setter of `name`. */
  function SetName(raw: string): string
  {
    Trim(raw)
  }

  /** The `trim: true, lowercase: true` setters of `email`; query filters on `email` are cast through them too. */
  function SetEmail(raw: string): string
  {
    ToLower(Trim(raw))
  }

  /** Applying the email setters again changes nothing: a stored email is already in normal form. */
  lemma SetEmailIdempotent(raw: string)
    ensures SetEmail(SetEmail(raw)) == SetEmail(raw)
  {
    TrimLowerCommute(Trim(raw));
    TrimIdempotent(raw);
    ToLowerIdempotent(Trim(raw));
  }

  const NameRequired := "Name is required"
  const NameTooShort := "Name must be at least 2 characters long"
  const NameTooLong := "Name cannot exceed 50 characters"
  const EmailRequired := "Email is required"
  const EmailInvalid := "Please enter a valid email address"

  /** The validators of `name` on its set value: required, then `minlength`, then `maxLength`. */
  function NameError(name: Option<string>): (e: Option<string>)
    ensures e.None? <==> name.Some? && 2 <= |name.value| <= 50
    ensures e == Some(NameRequired) <==> name.None? || name.value == ""
  {
    if name.None? || name.value == "" then Some(NameRequired)
    else if |name.value| < 2 then Some(NameTooShort)
    else if |name.value| > 50 then Some(NameTooLong)
    else None
  }

  /** The validators of `email` on its set value: required, then `validator.isEmail`. */
  function EmailError(email: Option<string>, isEmail: string -> bool): (e: Option<string>)
    ensures e.None? <==> email.Some? && email.value != "" && isEmail(email.value)
  {
    if email.None? || email.value == "" then Some(EmailRequired)
    else if !isEmail(email.value) then Some(EmailInvalid)
    else None
  }

  /** The errors of a document's paths, in schema order (name, then email). */
  function DocErrors(name: Option<string>, email: Option<string>, isEmail: string -> bool): (errs: seq<FieldError>)
    ensures errs == [] <==> NameError(name).None? && EmailError(email, isEmail).None?
    ensures |errs| <= 2
    ensures forall i :: 0 <= i < |errs| ==> errs[i].path == "name" || errs[i].path == "email"
  {
    PathErrors("name", NameError(name)) + PathErrors("email", EmailError(email, isEmail))
  }

  /** The error reported for one path: none, or its validator's message under the path's name. */
  function PathErrors(path: string, e: Option<string>): seq<FieldError>
  {
    if e.Some? then [FieldError(path, e.value)] else []
  }

  /** The value the `name` setter leaves on the path; an absent name stays absent. */
  function SetNamePath(name: Option<string>): Option<string>
  {
    if name.Some? then Some(SetName(name.value)) else None
  }

  /** The value the `email` setters leave on the path; an absent email stays absent. */
  function SetEmailPath(email: Option<string>): Option<string>
  {
    if email.Some? then Some(SetEmail(email.value)) else None
  }

  /**
   * A new document from `{ name, email }`: the setters, the `isActive` default,
   * then validation. `Err` carries the failing paths.
   */
  function NewUser(name: Option<string>, email: Option<string>, isEmail: string -> bool): (r: Result<User, seq<FieldError>>)
    ensures r.Ok? <==> DocErrors(SetNamePath(name), SetEmailPath(email), isEmail) == []
    ensures r.Ok? ==> r.value == User(SetName(name.value), SetEmail(email.value), true)
    ensures r.Err? ==> r.error == DocErrors(SetNamePath(name), SetEmailPath(email), isEmail)
  {
    var n := SetNamePath(name);
    var e := SetEmailPath(email);
    var errs := DocErrors(n, e, isEmail);
    if errs == [] then Ok(User(n.value, e.value, true)) else Err(errs)
  }

  /** A user the schema accepts: a trimmed name of 2..50 characters and a normalised, valid email. */
  predicate WellFormed(u: User, isEmail: string -> bool)
  {
    2 <= |u.name| <= 50 && u.name == Trim(u.name)
    && u.email != "" && u.email == SetEmail(u.email) && isEmail(u.email)
  }

  /** Whatever `NewUser` accepts is well formed and active; a blank name or email is refused as missing. */
  lemma NewUserAccepts(name: Option<string>, email: Option<string>, isEmail: string -> bool)
    ensures NewUser(name, email, isEmail).Ok? ==>
      WellFormed(NewUser(name, email, isEmail).value, isEmail) && NewUser(name, email, isEmail).value.isActive
    ensures name.None? || SetName(name.value) == "" ==>
      NewUser(name, email, isEmail)
        == Err([FieldError("name", NameRequired)] + PathErrors("email", EmailError(SetEmailPath(email), isEmail)))
  {
    if name.Some? {
      TrimIdempotent(name.value);
    }
    if email.Some? {
      SetEmailIdempotent(email.value);
    }
  }

  /** `ValidationError.message`: "User validation failed: " and each path with its message, joined by ", ". */
  function ValidationMessage(errs: seq<FieldError>): string
  {
    "User validation failed: " + Join(Map(errs, (e: FieldError) => e.path + ": " + e.msg), ", ")
  }

  /** `User.findByEmail(email)` (`findOne({ email })`): the first document whose email is the cast filter value. */
  function FindByEmail(docs: seq<Doc>, email: string): (r: Option<Doc>)
    ensures r.Some? <==> exists i :: 0 <= i < |docs| && docs[i].user.email == SetEmail(email)
    ensures r.Some? ==> r.value in docs && r.value.user.email == SetEmail(email)
  {
    if docs == [] then None
    else if docs[0].user.email == SetEmail(email) then Some(docs[0])
    else
      var r := FindByEmail(docs[1..], email);
      assert forall i :: 1 <= i < |docs| ==> docs[i] == docs[1..][i - 1];
      r
  }

  /** The unique index on `email`: no two documents share an email (or an id). */
  predicate UniqueKeys(docs: seq<Doc>)
  {
    forall i, j :: 0 <= i < j < |docs| ==> docs[i].user.email != docs[j].user.email && docs[i].id != docs[j].id
  }

  predicate IsActive(d: Doc)
  {
    d.user.isActive
  }

  /** `User.findActive()` (`find({ isActive: true })`): exactly the active documents, in stored order. */
  function FindActive(docs: seq<Doc>): (r: seq<Doc>)
    ensures forall i :: 0 <= i < |r| ==> r[i] in docs && r[i].user.isActive
    ensures forall i :: 0 <= i < |docs| && docs[i].user.isActive ==> docs[i] in r
  {
    Filter(docs, IsActive)
  }

  /** The active and inactive documents together are all of them, and the active ones keep their order. */
  lemma FindActivePartition(docs: seq<Doc>)
    ensures |FindActive(docs)| + |Filter(docs, (d: Doc) => !d.user.isActive)| == |docs|
    ensures IsSubseq(FindActive(docs), docs)
  {
    CountSplit(docs, IsActive, (d: Doc) => !d.user.isActive);
    FilterIsSubseq(docs, IsActive);
  }

  /** A body field is truthy: sent and not empty. */
  predicate Sent(v: Option<string>)
  {
    v.Some? && v.value != ""
  }

  /**
   * `user.name = name || user.name; user.email = email || user.email`: a
   * field is replaced only by a truthy value, through its setter.
   */
  function Merge(d: Doc, name: Option<string>, email: Option<string>): (m: Doc)
    ensures m.id == d.id && m.user.isActive == d.user.isActive
    ensures !Sent(name) ==> m.user.name == d.user.name
    ensures !Sent(email) ==> m.user.email == d.user.email
    ensures Sent(name) ==> m.user.name == SetName(name.value)
    ensures Sent(email) ==> m.user.email == SetEmail(email.value)
  {
    Doc(d.id, User(
      if Sent(name) then SetName(name.value) else d.user.name,
      if Sent(email) then SetEmail(email.value) else d.user.email,
      d.user.isActive))
  }

  /** Sending the same update twice changes nothing the second time: the setters are idempotent. */
  lemma MergeIdempotent(d: Doc, name: Option<string>, email: Option<string>)
    ensures Merge(Merge(d, name, email), name, email) == Merge(d, name, email)
  {
    if Sent(name) {
      TrimIdempotent(name.value);
    }
    if Sent(email) {
      SetEmailIdempotent(email.value);
    }
  }

  /** A document as JSON: `_id`, `name`, `email`, `isActive`. */
  function UserJson(d: Doc): (j: JsValue)
    ensures j.Obj? && j.fields.Keys == {"_id", "name", "email", "isActive"}
  {
    Obj(map["_id" := Num(d.id), "name" := Str(d.user.name), "email" := Str(d.user.email), "isActive" := Bool(d.user.isActive)])
  }
}

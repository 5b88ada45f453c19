/**
 * The REST API's user controller (backend-rest-api/controllers/userController.js):
 * the same five handlers as the backend's, answering with a bare JSON body and
 * catching their own errors. A malformed id is a CastError of kind `ObjectId`;
 * a document that fails validation is a ValidationError; a write the unique
 * index refuses carries code 11000.
 */
module RestUsers {
  import opened Wrappers
  import opened JsValues
  import opened UserSchema
  import opened UserStore

  /** `res.status(status).json(body)`. */
  datatype Reply = Reply(status: int, body: JsValue)

  /** `{ error: message }`. */
  function ErrorBody(message: string): JsValue
  {
    Obj(map["error" := Str(message)])
  }

  const NotFound := "User not found"
  const InvalidId := "Invalid user ID"
  const EmailExists := "Email already exists"
  const Deleted := "User deleted successfully"

  /** The JSON array of the documents, in stored order. */
  function UsersJson(docs: seq<Doc>): (j: JsValue)
    ensures j.Arr? && |j.items| == |docs|
    ensures forall i :: 0 <= i < |docs| ==> j.items[i] == UserJson(docs[i])
  {
    Arr(seq(|docs|, i requires 0 <= i < |docs| => UserJson(docs[i])))
  }

  /** `getUsers`: every stored user, in stored order, with 200. */
  function GetUsers(docs: seq<Doc>): (r: Reply)
    ensures r.status == 200 && r.body.Arr? && |r.body.items| == |docs|
    ensures forall i :: 0 <= i < |docs| ==> r.body.items[i] == UserJson(docs[i])
  {
    Reply(200, UsersJson(docs))
  }

  /** The listing shows each stored user once: it has one entry per id, and each id is present. */
  lemma GetUsersShowsEach(docs: seq<Doc>, id: nat)
    requires UniqueKeys(docs)
    ensures FindById(docs, id).Some? ==> UserJson(FindById(docs, id).value) in GetUsers(docs).body.items
    ensures forall i, j :: 0 <= i < j < |docs| ==> GetUsers(docs).body.items[i] != GetUsers(docs).body.items[j]
  {
    var items := GetUsers(docs).body.items;
    if FindById(docs, id).Some? {
      var k :| 0 <= k < |docs| && docs[k] == FindById(docs, id).value;
      assert items[k] == UserJson(docs[k]);
    }
    forall i, j | 0 <= i < j < |docs|
      ensures items[i] != items[j]
    {
      assert items[i].fields["_id"] == Num(docs[i].id);
      assert items[j].fields["_id"] == Num(docs[j].id);
    }
  }

  /** `getUserById`: 400 for a malformed id, 404 for an absent one, otherwise that user. */
  function GetUserById(docs: seq<Doc>, rawId: string, castId: string -> Option<nat>): (r: Reply)
    ensures castId(rawId).None? ==> r == Reply(400, ErrorBody(InvalidId))
    ensures castId(rawId).Some? && FindById(docs, castId(rawId).value).None? ==> r == Reply(404, ErrorBody(NotFound))
    ensures castId(rawId).Some? && FindById(docs, castId(rawId).value).Some? ==>
      exists i :: 0 <= i < |docs| && docs[i].id == castId(rawId).value && r == Reply(200, UserJson(docs[i]))
  {
    match castId(rawId)
    case None => Reply(400, ErrorBody(InvalidId))
    case Some(id) =>
      match FindById(docs, id)
      case None => Reply(404, ErrorBody(NotFound))
      case Some(d) =>
        var k :| 0 <= k < |docs| && docs[k] == d;
        Reply(200, UserJson(d))
  }

  /**
   * `createUser`: a new document that fails validation is answered with 400
   * and the ValidationError's message; one whose email is taken with 400
   * 'Email already exists'; neither adds a user. Otherwise the user is added
   * and returned with 201.
   */
  method CreateUser(store: Collection, name: Option<string>, email: Option<string>, isEmail: string -> bool)
    returns (r: Reply)
    requires store.Valid()
    modifies store
    ensures store.Valid()
    ensures NewUser(name, email, isEmail).Err? ==>
      r == Reply(400, ErrorBody(ValidationMessage(NewUser(name, email, isEmail).error)))
      && store.docs == old(store.docs)
    ensures NewUser(name, email, isEmail).Ok? ==>
      var u := NewUser(name, email, isEmail).value;
      && (EmailTaken(old(store.docs), u.email, old(store.nextId)) ==>
        r == Reply(400, ErrorBody(EmailExists)) && store.docs == old(store.docs))
      && (!EmailTaken(old(store.docs), u.email, old(store.nextId)) ==>
        && r == Reply(201, UserJson(Doc(old(store.nextId), u)))
        && store.docs == old(store.docs) + [Doc(old(store.nextId), u)])
  {
    var made := NewUser(name, email, isEmail);
    if made.Err? {
      return Reply(400, ErrorBody(ValidationMessage(made.error)));
    }
    SetEmailIdempotent(email.value);
    var created := store.Create(made.value);
    match created
    case Err(_) =>
      r := Reply(400, ErrorBody(EmailExists));
    case Ok(d) =>
      r := Reply(201, UserJson(d));
  }

  /**
   * `updateUser`: 400 for a malformed id and 404 for an absent one; otherwise
   * the omitted or empty fields keep their stored values, and the merged
   * document is validated and saved. A validation or duplicate-key failure is
   * answered with 400 and changes nothing.
   */
  method UpdateUser(store: Collection, rawId: string, castId: string -> Option<nat>,
                    name: Option<string>, email: Option<string>, isEmail: string -> bool)
    returns (r: Reply)
    requires store.Valid()
    modifies store
    ensures store.Valid()
    ensures castId(rawId).None? ==> r == Reply(400, ErrorBody(InvalidId)) && store.docs == old(store.docs)
    ensures castId(rawId).Some? && FindById(old(store.docs), castId(rawId).value).None? ==>
      r == Reply(404, ErrorBody(NotFound)) && store.docs == old(store.docs)
    ensures castId(rawId).Some? && FindById(old(store.docs), castId(rawId).value).Some? ==>
      var m := Merge(FindById(old(store.docs), castId(rawId).value).value, name, email);
      var errs := DocErrors(Some(m.user.name), Some(m.user.email), isEmail);
      && (errs != [] ==> r == Reply(400, ErrorBody(ValidationMessage(errs))) && store.docs == old(store.docs))
      && (errs == [] && EmailTaken(old(store.docs), m.user.email, m.id) ==>
        r == Reply(400, ErrorBody(EmailExists)) && store.docs == old(store.docs))
      && (errs == [] && !EmailTaken(old(store.docs), m.user.email, m.id) ==>
        r == Reply(200, UserJson(m)) && store.docs == Replace(old(store.docs), m))
  {
    var id := castId(rawId);
    if id.None? {
      return Reply(400, ErrorBody(InvalidId));
    }
    var found := FindById(store.docs, id.value);
    if found.None? {
      return Reply(404, ErrorBody(NotFound));
    }
    var m := Merge(found.value, name, email);
    var errs := DocErrors(Some(m.user.name), Some(m.user.email), isEmail);
    if errs != [] {
      return Reply(400, ErrorBody(ValidationMessage(errs)));
    }
    MergedEmailNormal(store.docs, found.value, name, email);
    var saved := store.Save(m);
    match saved
    case Err(_) =>
      r := Reply(400, ErrorBody(EmailExists));
    case Ok(_) =>
      r := Reply(200, UserJson(m));
  }

  /** A merged document's email is in the setters' normal form, whether it was sent or kept. */
  lemma MergedEmailNormal(docs: seq<Doc>, d: Doc, name: Option<string>, email: Option<string>)
    requires Normalized(docs) && d in docs
    ensures Merge(d, name, email).user.email == SetEmail(Merge(d, name, email).user.email)
  {
    if Sent(email) {
      SetEmailIdempotent(email.value);
    }
  }

  /** `deleteUser`: 400 for a malformed id, 404 for an absent one, otherwise exactly that user is removed. */
  method DeleteUser(store: Collection, rawId: string, castId: string -> Option<nat>) returns (r: Reply)
    requires store.Valid()
    modifies store
    ensures store.Valid()
    ensures castId(rawId).None? ==> r == Reply(400, ErrorBody(InvalidId)) && store.docs == old(store.docs)
    ensures castId(rawId).Some? && FindById(old(store.docs), castId(rawId).value).None? ==>
      r == Reply(404, ErrorBody(NotFound)) && store.docs == old(store.docs)
    ensures castId(rawId).Some? && FindById(old(store.docs), castId(rawId).value).Some? ==>
      && r == Reply(200, Obj(map["message" := Str(Deleted)]))
      && store.docs == Without(old(store.docs), castId(rawId).value)
      && |store.docs| == |old(store.docs)| - 1
  {
    var id := castId(rawId);
    if id.None? {
      return Reply(400, ErrorBody(InvalidId));
    }
    if FindById(store.docs, id.value).None? {
      return Reply(404, ErrorBody(NotFound));
    }
    WithoutRemovesExactly(store.docs, id.value);
    var removed := store.Delete(id.value);
    r := Reply(200, Obj(map["message" := Str(Deleted)]));
  }
}

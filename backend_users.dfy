/**
 * The backend's user controller (backend/controllers/userController.js): the
 * paginated listing and the create, read, update and delete handlers over the
 * `users` collection.
 *
 * Every handler is wrapped in `catchAsync`, so an error a query throws reaches
 * the global error middleware, modelled here by `ErrorHandler.HandleError`.
 * Request parameters that Express leaves out are `None`. `req.params.id` is
 * cast to an ObjectId by the passed-in `castId`; a failed cast is Mongoose's
 * CastError on path `_id`. The body is the one the controller is handed, taken
 * as sent: the validator's `trim` and `normalizeEmail` sanitizers are not
 * applied to it here.
 */
module BackendUsers {
  import opened Wrappers
  import opened JsValues
  import opened Text
  import opened ErrorFold
  import opened Responses
  import opened ErrorHandler
  import opened UserSchema
  import opened UserStore

  /** `parseInt(q, 10) || fallback`: an absent, unparseable or zero parameter takes the fallback. */
  function IntOr(q: Option<string>, fallback: int): (v: int)
    requires fallback != 0
    ensures v != 0
    ensures v == fallback || (q.Some? && ParseInt(q.value) == Some(v))
    ensures q.None? || ParseInt(q.value).None? || ParseInt(q.value) == Some(0) ==> v == fallback
  {
    if q.Some? && ParseInt(q.value).Some? && ParseInt(q.value).value != 0 then ParseInt(q.value).value
    else fallback
  }

  /** `(page - 1) * limit`. */
  function Skip(page: int, limit: int): int
  {
    (page - 1) * limit
  }

  function Abs(n: int): nat
  {
    if n < 0 then -n else n
  }

  function Min(a: int, b: int): int
  {
    if a < b then a else b
  }

  /** `Math.ceil(a / b)`: the least integer not below the quotient. */
  function CeilDiv(a: int, b: int): (q: int)
    requires b != 0
    ensures b > 0 ==> (q - 1) * b < a <= q * b
    ensures b < 0 ==> q * b <= a < (q - 1) * b
  {
    if b > 0 then
      var q := (a + b - 1) / b;
      assert a + b - 1 == q * b + (a + b - 1) % b;
      q
    else
      var q := (-a - b - 1) / (-b);
      assert -a - b - 1 == q * (-b) + (-a - b - 1) % (-b);
      q
  }

  /** `Math.ceil(total / limit)`. */
  function Pages(total: nat, limit: int): int
    requires limit != 0
  {
    CeilDiv(total, limit)
  }

  /** With a positive limit, an empty collection has no pages and a non-empty one exactly enough to hold it. */
  lemma PagesBound(total: nat, limit: int)
    requires limit > 0
    ensures total == 0 <==> Pages(total, limit) == 0
    ensures total > 0 ==> Pages(total, limit) >= 1
    ensures total > 0 ==> (Pages(total, limit) - 1) * limit < total <= Pages(total, limit) * limit
  {
    var p := Pages(total, limit);
    MulSign(p, limit);
    MulSign(p - 1, limit);
  }

  lemma MulSign(a: int, b: int)
    requires b > 0
    ensures a * b >= 0 <==> a >= 0
    ensures a * b > 0 <==> a > 0
  {
  }

  lemma MulNonNegative(a: int, b: int)
    requires a >= 0 && b > 0
    ensures a * b >= 0
  {
  }

  /** Multiplying by a positive limit keeps the order of page numbers. */
  lemma MulMonotone(a: int, b: int, c: int)
    requires a <= b && c > 0
    ensures a * c <= b * c
  {
    assert b * c - a * c == (b - a) * c;
    MulNonNegative(b - a, c);
  }

  /**
   * With a positive limit, the `k`-th stored user is on page `k / limit + 1`,
   * which lies between 1 and `pages`, and on no other page.
   */
  lemma EveryUserOnOnePage(total: nat, limit: int, k: nat)
    requires limit > 0 && k < total
    ensures var p := k / limit + 1;
      && 1 <= p <= Pages(total, limit)
      && Skip(p, limit) <= k < Skip(p, limit) + limit
    ensures forall q :: Skip(q, limit) <= k < Skip(q, limit) + limit ==> q == k / limit + 1
  {
    var p := k / limit + 1;
    assert k == (p - 1) * limit + k % limit;
    assert Skip(p, limit) + limit == p * limit;
    PagesBound(total, limit);
    var pages := Pages(total, limit);
    if p > pages {
      MulMonotone(pages, p - 1, limit);
    }
    forall q | Skip(q, limit) <= k < Skip(q, limit) + limit
      ensures q == p
    {
      assert Skip(q, limit) + limit == q * limit;
      if q < p {
        MulMonotone(q, p - 1, limit);
      } else if q > p {
        MulMonotone(p, q - 1, limit);
      }
    }
  }

  /**
   * `find().skip(skip).limit(n)` in stored order: the documents from position
   * `skip` on, at most `n` of them.
   */
  function Window(docs: seq<Doc>, skip: nat, n: nat): (w: seq<Doc>)
    ensures |w| == (if skip >= |docs| then 0 else Min(n, |docs| - skip))
    ensures forall i :: 0 <= i < |w| ==> w[i] == docs[skip + i]
  {
    if skip >= |docs| then [] else docs[skip..skip + Min(n, |docs| - skip)]
  }

  /** With a positive page and limit, a page holds users exactly when its number is at most `pages`. */
  lemma PageFilledIffInRange(docs: seq<Doc>, page: int, limit: int)
    requires page >= 1 && limit > 0
    ensures |Window(docs, Skip(page, limit), limit)| > 0 <==> page <= Pages(|docs|, limit)
    ensures page < Pages(|docs|, limit) ==> |Window(docs, Skip(page, limit), limit)| == limit
  {
    MulNonNegative(page - 1, limit);
    var total := |docs|;
    var pages := Pages(total, limit);
    PagesBound(total, limit);
    if page <= pages {
      MulMonotone(page - 1, pages - 1, limit);
    } else {
      MulMonotone(pages, page - 1, limit);
    }
    if page < pages {
      MulMonotone(page, pages - 1, limit);
      assert Skip(page, limit) + limit == page * limit;
    }
  }

  /** The `data` of a listing: the page of users and the pagination block. */
  function Listing(users: seq<Doc>, total: nat, page: int, limit: int): JsValue
    requires limit != 0
  {
    Obj(map[
      "users" := Arr(seq(|users|, i requires 0 <= i < |users| => UserJson(users[i]))),
      "pagination" := Obj(map[
        "total" := Num(total), "pages" := Num(Pages(total, limit)), "page" := Num(page), "limit" := Num(limit)])])
  }

  /** The error the server raises for a negative `skip`: it has no status code of its own. */
  function BadSkip(stack: string): ServerError
  {
    ServerError("MongoServerError", None, [], [], "", None, "BadValue: skip value must be non-negative", stack)
  }

  /**
   * `getUsers`: the page and limit parameters with their defaults, then one
   * page of users (a negative limit returns that many users as if positive)
   * and the pagination block. A negative page makes `skip` negative, which the
   * server refuses.
   */
  function GetUsers(docs: seq<Doc>, pageQ: Option<string>, limitQ: Option<string>,
                    nodeEnv: Option<string>, stack: string): (r: Envelope)
    ensures var page := IntOr(pageQ, 1);
      var limit := IntOr(limitQ, 10);
      && (Skip(page, limit) < 0 ==> r.status == 500 && !r.success && r.message == "Internal Server Error")
      && (Skip(page, limit) >= 0 ==>
        && r.status == 200 && r.success && r.message == "Users retrieved successfully"
        && r.data == Some(Listing(Window(docs, Skip(page, limit), Abs(limit)), |docs|, page, limit)))
  {
    var page := IntOr(pageQ, 1);
    var limit := IntOr(limitQ, 10);
    var skip := Skip(page, limit);
    if skip < 0 then
      UnknownErrorsAreHidden(BadSkip(stack), nodeEnv);
      HandleError(BadSkip(stack), nodeEnv)
    else
      SuccessResponse(200, "Users retrieved successfully", Listing(Window(docs, skip, Abs(limit)), |docs|, page, limit))
  }

  /** Without parameters the listing is the first ten users, page 1 of ⌈total / 10⌉. */
  lemma GetUsersDefaults(docs: seq<Doc>, nodeEnv: Option<string>, stack: string)
    ensures var r := GetUsers(docs, None, None, nodeEnv, stack);
      && r.status == 200
      && r.data == Some(Listing(docs[..Min(10, |docs|)], |docs|, 1, 10))
  {
    assert Window(docs, 0, 10) == docs[..Min(10, |docs|)];
  }

  /** The CastError Mongoose raises for an id that is not an ObjectId. */
  function CastFailure(stack: string): ServerError
  {
    ServerError("CastError", None, [], [], "_id", None, "Cast to ObjectId failed for value at path \"_id\"", stack)
  }

  /** The ValidationError Mongoose raises for a document whose paths fail. */
  function ValidationFailureOf(errs: seq<FieldError>, stack: string): ServerError
  {
    ServerError("ValidationError", None, errs, [], "", None, ValidationMessage(errs), stack)
  }

  /** The duplicate-key error the unique index on `email` raises. */
  function DuplicateEmail(stack: string): ServerError
  {
    ServerError("MongoServerError", Some(11000), [], ["email"], "", None, "E11000 duplicate key error", stack)
  }

  /** A document that fails validation is answered with 400 'Validation Error'. */
  lemma ValidationFailureAnswer(errs: seq<FieldError>, stack: string, nodeEnv: Option<string>)
    ensures var r := HandleError(ValidationFailureOf(errs, stack), nodeEnv);
      r.status == 400 && !r.success && r.message == "Validation Error"
  {
    assert Kind(ValidationFailureOf(errs, stack)) == ValidationFailure;
  }

  /** A malformed id is answered with 400 'Invalid ID' naming `_id`. */
  lemma CastFailureAnswer(stack: string, nodeEnv: Option<string>)
    ensures var r := HandleError(CastFailure(stack), nodeEnv);
      r.status == 400 && r.message == "Invalid ID" && r.errors == Some(Obj(map["_id" := Str("Invalid _id")]))
  {
    assert "Invalid " + "_id" == "Invalid _id";
  }

  /** `{ user }`: an object, so always attached as `data`. */
  function UserData(d: Doc): (j: JsValue)
    ensures j.Obj? && Truthy(j)
  {
    Obj(map["user" := UserJson(d)])
  }

  /** `getUserById`: 400 for a malformed id, 404 for an absent one, otherwise that user. */
  function GetUserById(docs: seq<Doc>, rawId: string, castId: string -> Option<nat>,
                       nodeEnv: Option<string>, stack: string): (r: Envelope)
    ensures castId(rawId).None? ==>
      r.status == 400 && r.message == "Invalid ID" && r.errors == Some(Obj(map["_id" := Str("Invalid _id")]))
    ensures castId(rawId).Some? && FindById(docs, castId(rawId).value).None? ==>
      r.status == 404 && !r.success && r.message == "User not found" && r.errors == None
    ensures castId(rawId).Some? && FindById(docs, castId(rawId).value).Some? ==>
      var d := FindById(docs, castId(rawId).value).value;
      && r.status == 200 && r.success && r.data == Some(UserData(d))
      && d in docs && d.id == castId(rawId).value
  {
    match castId(rawId)
    case None =>
      CastFailureAnswer(stack, nodeEnv);
      HandleError(CastFailure(stack), nodeEnv)
    case Some(id) =>
      match FindById(docs, id)
      case None => ErrorResponse(404, "User not found", Undefined)
      case Some(d) => SuccessResponse(200, "User retrieved successfully", UserData(d))
  }

  /** `findOne({ email })` for a body field: an absent email matches no document. */
  function FindByBodyEmail(docs: seq<Doc>, email: Option<string>): Option<Doc>
  {
    if email.Some? then FindByEmail(docs, email.value) else None
  }

  /**
   * `createUser`: 409 when a user already has the email; otherwise the new
   * document is validated and inserted, and the store keeps its unique index.
   */
  method CreateUser(store: Collection, name: Option<string>, email: Option<string>, isEmail: string -> bool,
                    nodeEnv: Option<string>, stack: string) returns (r: Envelope)
    requires store.Valid()
    modifies store
    ensures store.Valid()
    ensures FindByBodyEmail(old(store.docs), email).Some? ==>
      r.status == 409 && !r.success && r.message == "Email already exists" && store.docs == old(store.docs)
    ensures FindByBodyEmail(old(store.docs), email).None? && NewUser(name, email, isEmail).Err? ==>
      && r == HandleError(ValidationFailureOf(NewUser(name, email, isEmail).error, stack), nodeEnv)
      && r.status == 400 && store.docs == old(store.docs)
    ensures FindByBodyEmail(old(store.docs), email).None? && NewUser(name, email, isEmail).Ok? ==>
      var d := Doc(old(store.nextId), NewUser(name, email, isEmail).value);
      && r.status == 201 && r.success && r.message == "User created successfully" && r.data == Some(UserData(d))
      && store.docs == old(store.docs) + [d]
  {
    if FindByBodyEmail(store.docs, email).Some? {
      return ErrorResponse(409, "Email already exists", Undefined);
    }
    var made := NewUser(name, email, isEmail);
    if made.Err? {
      ValidationFailureAnswer(made.error, stack, nodeEnv);
      return HandleError(ValidationFailureOf(made.error, stack), nodeEnv);
    }
    var u := made.value;
    SetEmailIdempotent(email.value);
    FreshEmailNotTaken(store.docs, email.value, store.nextId);
    var created := store.Create(u);
    match created
    case Err(_) =>
      r := HandleError(DuplicateEmail(stack), nodeEnv);
    case Ok(d) =>
      r := SuccessResponse(201, "User created successfully", UserData(d));
  }

  /** `if (email && email !== user.email)` and `findOne({ email })` finds a document. */
  predicate EmailClash(docs: seq<Doc>, d: Doc, email: Option<string>)
  {
    Sent(email) && email.value != d.user.email && FindByEmail(docs, email.value).Some?
  }

  /** An update that passes the email check never trips the unique index. */
  lemma NoClashNoDuplicate(docs: seq<Doc>, nextId: nat, d: Doc, name: Option<string>, email: Option<string>)
    requires Consistent(docs, nextId) && d in docs
    requires !EmailClash(docs, d, email)
    ensures !EmailTaken(docs, Merge(d, name, email).user.email, d.id)
    ensures Merge(d, name, email).user.email == SetEmail(Merge(d, name, email).user.email)
  {
    var e := Merge(d, name, email).user.email;
    var k :| 0 <= k < |docs| && docs[k] == d;
    if Sent(email) {
      SetEmailIdempotent(email.value);
    }
    if Sent(email) && email.value != d.user.email {
      FreshEmailNotTaken(docs, email.value, d.id);
    } else {
      assert e == d.user.email;
      forall i | 0 <= i < |docs| && docs[i].id != d.id
        ensures docs[i].user.email != e
      {
        assert i != k;
      }
    }
  }

  /** An email `findOne` does not find is held by no document. */
  lemma FreshEmailNotTaken(docs: seq<Doc>, email: string, id: nat)
    requires FindByEmail(docs, email).None?
    ensures !EmailTaken(docs, SetEmail(email), id)
  {
  }

  /**
   * Re-sending the stored email as it is stored passes the check, while the
   * same address in another case or with surrounding spaces is refused: the
   * check compares the raw body value, and `findOne` then finds the user itself.
   * The body is taken as sent: the request validator's `trim` and
   * `normalizeEmail` rewrites are not applied before the controller.
   */
  lemma OwnEmailResent(docs: seq<Doc>, d: Doc, e: string)
    requires d in docs
    ensures !EmailClash(docs, d, Some(d.user.email))
    ensures e != "" && e != d.user.email && SetEmail(e) == d.user.email ==> EmailClash(docs, d, Some(e))
  {
    var k :| 0 <= k < |docs| && docs[k] == d;
    if e != "" && e != d.user.email && SetEmail(e) == d.user.email {
      assert docs[k].user.email == SetEmail(e);
    }
  }

  /**
   * `updateUser`: 400 for a malformed id and 404 for an absent one; 409 when
   * the email is changed to one a user already has; otherwise the merged
   * document is validated and saved over the old one, and no other user changes.
   */
  method UpdateUser(store: Collection, rawId: string, castId: string -> Option<nat>,
                    name: Option<string>, email: Option<string>, isEmail: string -> bool,
                    nodeEnv: Option<string>, stack: string) returns (r: Envelope)
    requires store.Valid()
    modifies store
    ensures store.Valid()
    ensures castId(rawId).None? ==>
      r.status == 400 && r.message == "Invalid ID" && store.docs == old(store.docs)
    ensures castId(rawId).Some? && FindById(old(store.docs), castId(rawId).value).None? ==>
      r.status == 404 && r.message == "User not found" && store.docs == old(store.docs)
    ensures castId(rawId).Some? && FindById(old(store.docs), castId(rawId).value).Some? ==>
      var d := FindById(old(store.docs), castId(rawId).value).value;
      var m := Merge(d, name, email);
      var errs := DocErrors(Some(m.user.name), Some(m.user.email), isEmail);
      && (EmailClash(old(store.docs), d, email) ==>
        r.status == 409 && r.message == "Email already exists" && store.docs == old(store.docs))
      && (!EmailClash(old(store.docs), d, email) && errs != [] ==>
        r == HandleError(ValidationFailureOf(errs, stack), nodeEnv) && store.docs == old(store.docs))
      && (!EmailClash(old(store.docs), d, email) && errs == [] ==>
        && r.status == 200 && r.success && r.message == "User updated successfully" && r.data == Some(UserData(m))
        && store.docs == Replace(old(store.docs), m))
  {
    var id := castId(rawId);
    if id.None? {
      CastFailureAnswer(stack, nodeEnv);
      return HandleError(CastFailure(stack), nodeEnv);
    }
    var found := FindById(store.docs, id.value);
    if found.None? {
      return ErrorResponse(404, "User not found", Undefined);
    }
    var d := found.value;
    if EmailClash(store.docs, d, email) {
      return ErrorResponse(409, "Email already exists", Undefined);
    }
    var m := Merge(d, name, email);
    var errs := DocErrors(Some(m.user.name), Some(m.user.email), isEmail);
    if errs != [] {
      ValidationFailureAnswer(errs, stack, nodeEnv);
      return HandleError(ValidationFailureOf(errs, stack), nodeEnv);
    }
    NoClashNoDuplicate(store.docs, store.nextId, d, name, email);
    var saved := store.Save(m);
    match saved
    case Err(_) =>
      r := HandleError(DuplicateEmail(stack), nodeEnv);
    case Ok(_) =>
      r := SuccessResponse(200, "User updated successfully", UserData(m));
  }

  /** `deleteUser`: 400 for a malformed id, 404 for an absent one, otherwise exactly that user is removed. */
  method DeleteUser(store: Collection, rawId: string, castId: string -> Option<nat>,
                    nodeEnv: Option<string>, stack: string) returns (r: Envelope)
    requires store.Valid()
    modifies store
    ensures store.Valid()
    ensures castId(rawId).None? ==>
      r.status == 400 && r.message == "Invalid ID" && store.docs == old(store.docs)
    ensures castId(rawId).Some? && FindById(old(store.docs), castId(rawId).value).None? ==>
      r.status == 404 && r.message == "User not found" && store.docs == old(store.docs)
    ensures castId(rawId).Some? && FindById(old(store.docs), castId(rawId).value).Some? ==>
      && r.status == 200 && r.success && r.message == "User deleted successfully" && r.data == None
      && store.docs == Without(old(store.docs), castId(rawId).value)
      && |store.docs| == |old(store.docs)| - 1
  {
    var id := castId(rawId);
    if id.None? {
      CastFailureAnswer(stack, nodeEnv);
      return HandleError(CastFailure(stack), nodeEnv);
    }
    WithoutRemovesExactly(store.docs, id.value);
    var removed := store.Delete(id.value);
    if removed.None? {
      return ErrorResponse(404, "User not found", Undefined);
    }
    r := SuccessResponse(200, "User deleted successfully", Undefined);
  }
}

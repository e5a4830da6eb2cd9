/** lib/handlers.js: the request handlers behind the router. The users and
    tokens handlers validate request fields and create, read, update or
    delete documents of the `users` and `tokens` collections; each reply is a
    status code with an optional payload. Each handler is specified by a
    function from the database to its reply and the new database, and
    implemented by a method of `Api` that changes the store in place. */
module Handlers {
  import opened Text
  import opened Js
  import opened Helpers
  import opened Data

  /** The `data` object the server hands every handler. */
  datatype RequestData = RequestData(
    trimmedPath: string,
    queryStringObject: JsValue,
    httpMethod: string,
    headers: JsValue,
    payload: JsValue)

  /** What a handler does with its callback: call it with a status code and a
      payload (`undefined` when none is passed), never call it, or throw
      before calling it. */
  datatype Reply = Reply(status: int, payload: JsValue) | NoReply | Throws

  /** A reply and the database after the handler. */
  datatype Outcome = Outcome(reply: Reply, db: Database)

  /** The store's write failures, which the model cannot foresee. */
  datatype Faults = Faults(createFails: bool, updateFails: bool, deleteFails: bool)

  /** Everything a handler depends on besides the request and the database,
      as it stands when that one request is handled. */
  datatype Context = Context(natives: Natives, helpers: MissingHelpers, now: int, faults: Faults)

  function Failure(status: int, message: string): Reply {
    Reply(status, ErrorObject(Str(message)))
  }

  /** `typeof v == 'string' && v.trim().length > 0 ? v.trim() : false`. */
  function NonBlank(v: JsValue): (r: JsValue)
    ensures Truthy(r) <==> r.Str?
    ensures r.Str? <==> v.Str? && Trim(v.s) != ""
  {
    if v.Str? && |Trim(v.s)| > 0 then Str(Trim(v.s)) else Bool(false)
  }

  /** `v || false`. */
  function OrFalse(v: JsValue): JsValue {
    if Truthy(v) then v else Bool(false)
  }

  /** The methods the users and tokens handlers accept. */
  const AcceptableMethods: seq<string> := ["post", "get", "put", "delete"]

  // ===== users.post =====

  /** The user document `_users.post` stores. */
  function NewUser(firstName: JsValue, lastName: JsValue, phone: JsValue, hashedPassword: JsValue): JsValue {
    Obj(map["firstName" := firstName, "lastName" := lastName, "phone" := phone,
            "hashedPassword" := hashedPassword, "tosAgreement" := Bool(true)])
  }

  lemma NewUserDigest(firstName: JsValue, lastName: JsValue, phone: JsValue, hashedPassword: JsValue)
    ensures Get(NewUser(firstName, lastName, phone, hashedPassword), "hashedPassword") == hashedPassword
  {
  }

  /** Whether a users.post payload carries every required field. */
  predicate SignupComplete(payload: JsValue) {
    && Truthy(NonBlank(Get(payload, "firstName")))
    && Truthy(NonBlank(Get(payload, "lastName")))
    && Truthy(ValidatePhone(Get(payload, "phone")))
    && Truthy(NonBlank(Get(payload, "password")))
    && Get(payload, "tosAgreement") == Bool(true)
  }

  /** `_users.post` once the password digest `hashedPassword` is computed.
      The existence check reads the raw phone; the new user is created under
      the trimmed one. */
  function SignupWith(db: Database, payload: JsValue, hashedPassword: JsValue, createFails: bool): Outcome {
    if !CanDestructure(payload) then Outcome(Throws, db)
    else if !SignupComplete(payload) then Outcome(Failure(400, "Missing required field(s)."), db)
    else if Lookup(db, "users", ToJsString(Get(payload, "phone"))).Some? then
      Outcome(Failure(400, "A user with that phone number already exists."), db)
    else if !Truthy(hashedPassword) then Outcome(Failure(500, "Could not hash password."), db)
    else
      var isPhone := ValidatePhone(Get(payload, "phone"));
      var user := NewUser(NonBlank(Get(payload, "firstName")), NonBlank(Get(payload, "lastName")),
                          isPhone, hashedPassword);
      if CreateFails(db, "users", isPhone.s, createFails) then
        Outcome(Failure(500, "Could not create new user."), db)
      else Outcome(Reply(200, Undefined), Put(db, "users", isPhone.s, user))
  }

  /** `_users.post` as written: it hashes the raw `password`, not the trimmed
      `isPassword` it validated. */
  function UsersPostAsWritten(ctx: Context, db: Database, payload: JsValue): Outcome {
    SignupWith(db, payload, Hash(ctx.natives, Get(payload, "password")), ctx.faults.createFails)
  }

  /** `_users.post` as intended: it hashes the trimmed password, the same
      value `_tokens.post` later hashes to compare. */
  function UsersPostOutcome(ctx: Context, db: Database, payload: JsValue): Outcome {
    SignupWith(db, payload, Hash(ctx.natives, NonBlank(Get(payload, "password"))), ctx.faults.createFails)
  }

  /** A sign-up payload with every field a string and the terms agreed. */
  function SignupPayload(first: string, last: string, phone: string, password: string): (payload: JsValue)
    ensures CanDestructure(payload)
    ensures Get(payload, "firstName") == Str(first) && Get(payload, "lastName") == Str(last)
    ensures Get(payload, "phone") == Str(phone) && Get(payload, "password") == Str(password)
    ensures Get(payload, "tosAgreement") == Bool(true)
  {
    Obj(map["firstName" := Str(first), "lastName" := Str(last), "phone" := Str(phone),
            "password" := Str(password), "tosAgreement" := Bool(true)])
  }

  /** An incomplete sign-up is refused with 400 and changes nothing; a
      null or undefined payload throws, since the handler destructures it. */
  lemma SignupRejectsIncomplete(ctx: Context, db: Database, payload: JsValue)
    ensures !CanDestructure(payload) ==> UsersPostOutcome(ctx, db, payload) == Outcome(Throws, db)
    ensures CanDestructure(payload) && !SignupComplete(payload) ==>
              UsersPostOutcome(ctx, db, payload) == Outcome(Failure(400, "Missing required field(s)."), db)
  {
  }

  /** users.post never overwrites: every existing document, in every
      collection, is unchanged. A 200 reply means the user was new under the
      trimmed phone and is now stored with the trimmed names, the trimmed
      phone, the digest of the trimmed password and `tosAgreement: true`. */
  lemma {:induction false} SignupNeverOverwrites(ctx: Context, db: Database, payload: JsValue)
    ensures var r := UsersPostOutcome(ctx, db, payload);
            forall d, id :: id in Docs(db, d) ==> id in Docs(r.db, d) && Docs(r.db, d)[id] == Docs(db, d)[id]
    ensures var r := UsersPostOutcome(ctx, db, payload);
            r.reply == Reply(200, Undefined) ==>
              var isPhone := ValidatePhone(Get(payload, "phone"));
              && SignupComplete(payload)
              && isPhone.s !in Docs(db, "users")
              && r.db == Put(db, "users", isPhone.s,
                             NewUser(NonBlank(Get(payload, "firstName")), NonBlank(Get(payload, "lastName")),
                                     isPhone, Hash(ctx.natives, NonBlank(Get(payload, "password")))))
    ensures var r := UsersPostOutcome(ctx, db, payload);
            r.reply != Reply(200, Undefined) ==> r.db == db
  {
    var hashed := Hash(ctx.natives, NonBlank(Get(payload, "password")));
    SignupWithShape(db, payload, hashed, ctx.faults.createFails);
  }

  /** `SignupWith` either creates the new user under the trimmed phone, which
      was free, and answers 200, or answers otherwise and changes nothing. */
  lemma SignupWithShape(db: Database, payload: JsValue, hashedPassword: JsValue, createFails: bool)
    ensures var r := SignupWith(db, payload, hashedPassword, createFails);
            r.reply == Reply(200, Undefined) ==>
              var isPhone := ValidatePhone(Get(payload, "phone"));
              && SignupComplete(payload)
              && isPhone.s !in Docs(db, "users")
              && r.db == Put(db, "users", isPhone.s,
                             NewUser(NonBlank(Get(payload, "firstName")), NonBlank(Get(payload, "lastName")),
                                     isPhone, hashedPassword))
    ensures var r := SignupWith(db, payload, hashedPassword, createFails);
            r.reply != Reply(200, Undefined) ==> r.db == db
  {
    if CanDestructure(payload) && SignupComplete(payload)
       && Lookup(db, "users", ToJsString(Get(payload, "phone"))).None? && Truthy(hashedPassword)
       && !CreateFails(db, "users", ValidatePhone(Get(payload, "phone")).s, createFails) {
      SignupSucceeds(db, payload, hashedPassword, createFails);
    }
  }

  /** The existence check reads the raw phone, so a padded phone of an
      existing user is not caught there: the create under the trimmed phone
      fails instead, and the reply is 500 rather than 400. */
  lemma PaddedPhoneOfExistingUser(ctx: Context, db: Database, first: string, last: string, password: string)
    requires Trim(first) != "" && Trim(last) != "" && Trim(password) != ""
    requires DigestsNonEmpty(ctx.natives)
    requires "5551234567" in Docs(db, "users") && " 5551234567" !in Docs(db, "users")
    ensures UsersPostOutcome(ctx, db, SignupPayload(first, last, " 5551234567", password))
              == Outcome(Failure(500, "Could not create new user."), db)
  {
    var payload := SignupPayload(first, last, " 5551234567", password);
    var hashed := Hash(ctx.natives, NonBlank(Str(password)));
    PaddedPhoneTrims();
    assert SignupComplete(payload);
    assert Lookup(db, "users", ToJsString(Get(payload, "phone"))).None?;
    HashTruthy(ctx.natives, NonBlank(Str(password)));
    SignupCreateFails(db, payload, hashed, ctx.faults.createFails);
  }

  /** The sign-up path that reaches `create` and sees it fail. */
  lemma SignupCreateFails(db: Database, payload: JsValue, hashedPassword: JsValue, createFails: bool)
    requires CanDestructure(payload) && SignupComplete(payload)
    requires Lookup(db, "users", ToJsString(Get(payload, "phone"))).None? && Truthy(hashedPassword)
    requires CreateFails(db, "users", ValidatePhone(Get(payload, "phone")).s, createFails)
    ensures SignupWith(db, payload, hashedPassword, createFails) == Outcome(Failure(500, "Could not create new user."), db)
  {
  }

  /** The phone " 5551234567" validates to "5551234567". */
  lemma PaddedPhoneTrims()
    ensures ValidatePhone(Str(" 5551234567")) == Str("5551234567")
  {
    var digits := "5551234567";
    var padded := " 5551234567";
    assert padded == [' '] + digits;
    assert IsStripped(digits, IsWhitespace) by {
      assert digits[0] == '5' && digits[|digits| - 1] == '7';
    }
    TrimUnpadded(digits);
  }

  // ===== users.get =====

  /** `const { field } = data.queryStringObject || false`. */
  function QueryField(query: JsValue, key: string): JsValue {
    Get(OrFalse(query), key)
  }

  /** `delete data.hashedPassword` on the document read. */
  function WithoutHash(user: JsValue): (r: JsValue)
    ensures r.Obj? ==> "hashedPassword" !in r.fields
  {
    if user.Obj? then Obj(user.fields - {"hashedPassword"}) else user
  }

  function UsersGetReply(db: Database, query: JsValue): Reply {
    var isPhone := ValidatePhone(QueryField(query, "phone"));
    if !Truthy(isPhone) then Failure(400, "Missing required field.")
    else match Lookup(db, "users", isPhone.s)
      case Some(user) => if Truthy(user) then Reply(200, WithoutHash(user)) else Reply(404, Undefined)
      case None => Reply(404, Undefined)
  }

  /** users.get answers 200 with the stored user minus its password digest,
      404 when there is no such user, 400 for an invalid phone. */
  lemma UsersGetCases(db: Database, query: JsValue, user: JsValue)
    ensures !ValidatePhone(QueryField(query, "phone")).Str? ==>
              UsersGetReply(db, query) == Failure(400, "Missing required field.")
    ensures var isPhone := ValidatePhone(QueryField(query, "phone"));
            isPhone.Str? && isPhone.s !in Docs(db, "users") ==> UsersGetReply(db, query) == Reply(404, Undefined)
    ensures var isPhone := ValidatePhone(QueryField(query, "phone"));
            isPhone.Str? && Lookup(db, "users", isPhone.s) == Some(user) && user.Obj? ==>
              UsersGetReply(db, query) == Reply(200, Obj(user.fields - {"hashedPassword"}))
  {
  }

  // ===== users.put =====

  /** The stored user after the provided fields are assigned as written:
      the raw (not trimmed) names, and the digest of the raw password.
      Assignments to a document that is not an object are dropped. */
  function UpdatedUserAsWritten(n: Natives, user: JsValue, payload: JsValue): JsValue {
    if !user.Obj? then user
    else
      var firstName := Get(payload, "firstName");
      var lastName := Get(payload, "lastName");
      var password := Get(payload, "password");
      var f1 := if Truthy(firstName) then user.fields["firstName" := firstName] else user.fields;
      var f2 := if Truthy(lastName) then f1["lastName" := lastName] else f1;
      var f3 := if Truthy(password) then f2["hashedPassword" := Hash(n, password)] else f2;
      Obj(f3)
  }

  /** The stored user after the provided fields are assigned as intended:
      the raw names, as written, but the digest of the trimmed password
      `isPassword`, which is what `_tokens.post` later compares against. */
  function UpdatedUser(n: Natives, user: JsValue, payload: JsValue): JsValue {
    if !user.Obj? then user
    else
      var firstName := Get(payload, "firstName");
      var lastName := Get(payload, "lastName");
      var isPassword := NonBlank(Get(payload, "password"));
      var f1 := if Truthy(firstName) then user.fields["firstName" := firstName] else user.fields;
      var f2 := if Truthy(lastName) then f1["lastName" := lastName] else f1;
      var f3 := if Truthy(isPassword) then f2["hashedPassword" := Hash(n, isPassword)] else f2;
      Obj(f3)
  }

  /** `_users.put`, with `update` assigning the provided fields to the user
      read from the store. */
  function UsersPutWith(ctx: Context, db: Database, payload: JsValue,
                        update: (Natives, JsValue, JsValue) -> JsValue): Outcome {
    var p := OrFalse(payload);
    var isPhone := ValidatePhone(Get(p, "phone"));
    if !Truthy(isPhone) then Outcome(Failure(400, "Missing required field."), db)
    else if !(Truthy(NonBlank(Get(p, "firstName"))) || Truthy(NonBlank(Get(p, "lastName")))
              || Truthy(NonBlank(Get(p, "password")))) then
      Outcome(Failure(400, "Missing field(s) to update."), db)
    else match Lookup(db, "users", isPhone.s)
      case Some(user) =>
        if !Truthy(user) then Outcome(Failure(400, "The specified user does not exist."), db)
        else if ChangeFails(db, "users", isPhone.s, ctx.faults.updateFails) then
          Outcome(Failure(500, "Could not update the user data."), db)
        else Outcome(Reply(200, Undefined), Put(db, "users", isPhone.s, update(ctx.natives, user, p)))
      case None => Outcome(Failure(400, "The specified user does not exist."), db)
  }

  /** `_users.put` as written: it hashes the raw `password`. */
  function UsersPutAsWritten(ctx: Context, db: Database, payload: JsValue): Outcome {
    UsersPutWith(ctx, db, payload, UpdatedUserAsWritten)
  }

  /** `_users.put` as intended: it hashes the trimmed password. */
  function UsersPutOutcome(ctx: Context, db: Database, payload: JsValue): Outcome {
    UsersPutWith(ctx, db, payload, UpdatedUser)
  }

  /** Assigning the provided fields changes only `firstName`, `lastName`
      and `hashedPassword`: a name only when the request's value is truthy,
      and then to that untrimmed value; the digest only when the password is
      non-blank, and then to the digest of the trimmed password. */
  lemma UpdatedUserChangesOnlyProvided(n: Natives, user: JsValue, payload: JsValue)
    requires user.Obj?
    ensures var after := UpdatedUser(n, user, payload);
            && after.Obj?
            && after.fields.Keys <= user.fields.Keys + {"firstName", "lastName", "hashedPassword"}
            && (forall k :: k in user.fields && k !in {"firstName", "lastName", "hashedPassword"} ==>
                  k in after.fields && after.fields[k] == user.fields[k])
            && (Truthy(Get(payload, "firstName")) ==> Get(after, "firstName") == Get(payload, "firstName"))
            && (!Truthy(Get(payload, "firstName")) ==> Get(after, "firstName") == Get(user, "firstName"))
            && (Truthy(Get(payload, "lastName")) ==> Get(after, "lastName") == Get(payload, "lastName"))
            && (!Truthy(Get(payload, "lastName")) ==> Get(after, "lastName") == Get(user, "lastName"))
            && (Truthy(NonBlank(Get(payload, "password"))) ==>
                  Get(after, "hashedPassword") == Hash(n, NonBlank(Get(payload, "password"))))
            && (!Truthy(NonBlank(Get(payload, "password"))) ==>
                  Get(after, "hashedPassword") == Get(user, "hashedPassword"))
  {
  }

  /** users.put without any non-blank optional field is refused with 400;
      on 200 the named user, and only that user, is replaced by the user with
      the provided fields assigned; any other reply changes nothing. */
  lemma {:induction false} UsersPutCases(ctx: Context, db: Database, payload: JsValue)
    ensures var p := OrFalse(payload);
            ValidatePhone(Get(p, "phone")).Str?
            && !Truthy(NonBlank(Get(p, "firstName"))) && !Truthy(NonBlank(Get(p, "lastName")))
            && !Truthy(NonBlank(Get(p, "password"))) ==>
              UsersPutOutcome(ctx, db, payload) == Outcome(Failure(400, "Missing field(s) to update."), db)
    ensures var r := UsersPutOutcome(ctx, db, payload);
            var p := OrFalse(payload);
            var phone := ValidatePhone(Get(p, "phone"));
            r.reply == Reply(200, Undefined) ==>
              && phone.Str? && phone.s in Docs(db, "users")
              && r.db == Put(db, "users", phone.s, UpdatedUser(ctx.natives, Docs(db, "users")[phone.s], p))
    ensures var r := UsersPutOutcome(ctx, db, payload);
            r.reply != Reply(200, Undefined) ==> r.db == db
  {
    var p := OrFalse(payload);
    var isPhone := ValidatePhone(Get(p, "phone"));
    var r := UsersPutOutcome(ctx, db, payload);
    if isPhone.Str? && (Truthy(NonBlank(Get(p, "firstName"))) || Truthy(NonBlank(Get(p, "lastName")))
                        || Truthy(NonBlank(Get(p, "password")))) {
      match Lookup(db, "users", isPhone.s)
      case Some(user) =>
        if Truthy(user) && !ChangeFails(db, "users", isPhone.s, ctx.faults.updateFails) {
          assert r.db == Put(db, "users", isPhone.s, UpdatedUser(ctx.natives, user, p));
        } else {
          assert r.db == db;
        }
      case None =>
        assert r.db == db;
    } else {
      assert r.db == db;
    }
  }

  /** A users.put payload that changes only the password. */
  function PasswordChange(phone: string, password: string): (payload: JsValue)
    ensures payload.Obj? && OrFalse(payload) == payload
    ensures Get(payload, "phone") == Str(phone) && Get(payload, "password") == Str(password)
    ensures Get(payload, "firstName") == Undefined && Get(payload, "lastName") == Undefined
  {
    Obj(map["phone" := Str(phone), "password" := Str(password)])
  }

  /** The user stored under a validated phone is an object, so users.put's
      assignments take effect. */
  predicate UserIsObject(db: Database, phone: JsValue) {
    phone.Str? && phone.s in Docs(db, "users") && Docs(db, "users")[phone.s].Obj?
  }

  /** As written, changing the password to a padded one succeeds, but
      users.put stores the digest of the padded string while tokens.post
      hashes the trimmed one: with any HMAC that tells the two apart, the
      user can no longer obtain a token with the password just set. */
  lemma PutPaddedPasswordLocksOutAsWritten(ctx: Context, db: Database, phone: string, password: string)
    requires ValidatePhone(Str(phone)) == Str(phone)
    requires NonBlank(Str([' '] + password)) == Str(password)
    requires ctx.natives.hmac(ctx.natives.secret, [' '] + password) != ctx.natives.hmac(ctx.natives.secret, password)
    requires UserIsObject(db, Str(phone))
    requires !ctx.faults.updateFails
    ensures var payload := PasswordChange(phone, [' '] + password);
            var put := UsersPutAsWritten(ctx, db, payload);
            && put.reply == Reply(200, Undefined)
            && TokensPostOutcome(ctx, put.db, payload).reply == Failure(400, "Password did not match the user's password.")
  {
    var payload := PasswordChange(phone, [' '] + password);
    var user := Docs(db, "users")[phone];
    var after := UpdatedUserAsWritten(ctx.natives, user, payload);
    var put := UsersPutAsWritten(ctx, db, payload);
    assert Truthy(NonBlank(Get(payload, "password")));
    assert Lookup(db, "users", phone) == Some(user);
    assert put == Outcome(Reply(200, Undefined), Put(db, "users", phone, after));
    assert Get(after, "hashedPassword") == Str(ctx.natives.hmac(ctx.natives.secret, [' '] + password));
    assert Lookup(put.db, "users", phone) == Some(after);
    assert !PasswordMatches(ctx.natives, payload, after);
    LoginMismatch(ctx, put.db, payload, after);
  }

  /** With the corrected users.put, a user who set a new non-blank password
      can log in with it: tokens.post with the same payload passes the
      password check and answers 200 unless the token cannot be created. */
  lemma {:induction false} PutThenLogin(ctx: Context, db: Database, payload: JsValue)
    requires UserIsObject(db, ValidatePhone(Get(payload, "phone")))
    requires Truthy(NonBlank(Get(payload, "password")))
    requires UsersPutOutcome(ctx, db, payload).reply == Reply(200, Undefined)
    ensures var db' := UsersPutOutcome(ctx, db, payload).db;
            var r := TokensPostOutcome(ctx, db', payload);
            r.reply.Reply? && (r.reply.status == 200 || r.reply == Failure(500, "Could not create new token."))
  {
    var isPhone := ValidatePhone(Get(payload, "phone"));
    assert payload.Obj? && OrFalse(payload) == payload;
    var user := Docs(db, "users")[isPhone.s];
    var after := UpdatedUser(ctx.natives, user, payload);
    UsersPutCases(ctx, db, payload);
    var db' := UsersPutOutcome(ctx, db, payload).db;
    assert db' == Put(db, "users", isPhone.s, after);
    assert Lookup(db', "users", isPhone.s) == Some(after);
    UpdatedUserChangesOnlyProvided(ctx.natives, user, payload);
    NonBlankTruthy(Get(payload, "password"));
    LoginWithMatchingUser(ctx, db', payload, after);
  }

  // ===== users.delete =====

  function UsersDeleteOutcome(ctx: Context, db: Database, query: JsValue): Outcome {
    var isPhone := ValidatePhone(QueryField(query, "phone"));
    if !Truthy(isPhone) then Outcome(Failure(400, "Missing required field."), db)
    else match Lookup(db, "users", isPhone.s)
      case Some(user) =>
        if !Truthy(user) then Outcome(Failure(400, "Could not find the specified user."), db)
        else if ChangeFails(db, "users", isPhone.s, ctx.faults.deleteFails) then
          Outcome(Failure(500, "Could not delete the specified user."), db)
        else Outcome(Reply(200, Undefined), Remove(db, "users", isPhone.s))
      case None => Outcome(Failure(400, "Could not find the specified user."), db)
  }

  /** users.delete removes exactly the named user on 200; a missing user or
      an invalid phone is a 400 that changes nothing. */
  lemma UsersDeleteCases(ctx: Context, db: Database, query: JsValue)
    ensures var r := UsersDeleteOutcome(ctx, db, query);
            var isPhone := ValidatePhone(QueryField(query, "phone"));
            r.reply == Reply(200, Undefined) ==>
              && isPhone.Str? && isPhone.s in Docs(db, "users")
              && Docs(r.db, "users") == Docs(db, "users") - {isPhone.s}
              && (forall d :: d != "users" ==> Docs(r.db, d) == Docs(db, d))
    ensures var isPhone := ValidatePhone(QueryField(query, "phone"));
            isPhone.Str? && isPhone.s !in Docs(db, "users") ==>
              UsersDeleteOutcome(ctx, db, query) == Outcome(Failure(400, "Could not find the specified user."), db)
    ensures !ValidatePhone(QueryField(query, "phone")).Str? ==>
              UsersDeleteOutcome(ctx, db, query) == Outcome(Failure(400, "Missing required field."), db)
    ensures UsersDeleteOutcome(ctx, db, query).reply != Reply(200, Undefined) ==> UsersDeleteOutcome(ctx, db, query).db == db
  {
    var r := UsersDeleteOutcome(ctx, db, query);
    var isPhone := ValidatePhone(QueryField(query, "phone"));
    if !isPhone.Str? {
      assert r == Outcome(Failure(400, "Missing required field."), db);
    } else if isPhone.s !in Docs(db, "users") {
      assert r == Outcome(Failure(400, "Could not find the specified user."), db);
    } else {
      var user := Docs(db, "users")[isPhone.s];
      assert Lookup(db, "users", isPhone.s) == Some(user);
      if Truthy(user) && !ChangeFails(db, "users", isPhone.s, ctx.faults.deleteFails) {
        assert r == Outcome(Reply(200, Undefined), Remove(db, "users", isPhone.s));
      } else {
        assert r.db == db && r.reply != Reply(200, Undefined);
      }
    }
  }

  // ===== tokens.post =====

  /** A token lives one hour. */
  const TokenLifetime := 1000 * 60 * 60

  /** The token object `_tokens.post` creates. */
  function NewToken(phone: JsValue, id: JsValue, expires: int): JsValue {
    Obj(map["phone" := phone, "id" := id, "expires" := Num(expires)])
  }

  /** The password check: the digest of the trimmed password against the
      stored digest. (`==` is loose in the source; see README.) */
  predicate PasswordMatches(n: Natives, payload: JsValue, user: JsValue) {
    Hash(n, NonBlank(Get(payload, "password"))) == Get(user, "hashedPassword")
  }

  function TokensPostOutcome(ctx: Context, db: Database, payload: JsValue): Outcome {
    if !CanDestructure(payload) then Outcome(Throws, db)
    else
      var isPhone := ValidatePhone(Get(payload, "phone"));
      if !(Truthy(isPhone) && Truthy(Get(payload, "password"))) then
        Outcome(Failure(400, "Missing required field(s)."), db)
      else match Lookup(db, "users", isPhone.s)
        case Some(user) =>
          if !Truthy(user) then Outcome(Failure(400, "Could not find the specified user."), db)
          else if !PasswordMatches(ctx.natives, payload, user) then
            Outcome(Failure(400, "Password did not match the user's password."), db)
          else
            var tokenId := CreateRandomString(ctx.natives, Num(20));
            var token := NewToken(isPhone, tokenId, ctx.now + TokenLifetime);
            if CreateFails(db, "tokens", ToJsString(tokenId), ctx.faults.createFails) then
              Outcome(Failure(500, "Could not create new token."), db)
            else Outcome(Reply(200, token), Put(db, "tokens", ToJsString(tokenId), token))
        case None => Outcome(Failure(400, "Could not find the specified user."), db)
  }

  /** tokens.post issues a token only for a matching password: on 200 the
      reply is the new token `{phone, id, expires = now + 3600000}` with a
      20-character id, stored under that id and under no other (a mismatch
      is the 400 of LoginMismatch). */
  lemma {:induction false} TokenOnlyForMatchingPassword(ctx: Context, db: Database, payload: JsValue)
    ensures var r := TokensPostOutcome(ctx, db, payload);
            var isPhone := ValidatePhone(Get(payload, "phone"));
            r.reply.Reply? && r.reply.status == 200 ==>
              && isPhone.Str? && isPhone.s in Docs(db, "users")
              && PasswordMatches(ctx.natives, payload, Docs(db, "users")[isPhone.s])
              && var token := r.reply.payload;
                 && Get(token, "phone") == isPhone
                 && Get(token, "expires") == Num(ctx.now + 3600000)
                 && Get(token, "id").Str? && |Get(token, "id").s| == 20
                 && r.db == Put(db, "tokens", Get(token, "id").s, token)
                 && Get(token, "id").s !in Docs(db, "tokens")
  {
    var r := TokensPostOutcome(ctx, db, payload);
    var isPhone := ValidatePhone(Get(payload, "phone"));
    if CanDestructure(payload) && isPhone.Str? && Truthy(Get(payload, "password")) {
      match Lookup(db, "users", isPhone.s)
      case Some(user) =>
        if Truthy(user) && PasswordMatches(ctx.natives, payload, user) {
          TokenIssued(ctx, db, payload, user);
        } else if Truthy(user) {
          LoginMismatch(ctx, db, payload, user);
        } else {
          assert r.reply == Failure(400, "Could not find the specified user.");
        }
      case None =>
        assert r.reply == Failure(400, "Could not find the specified user.");
    } else if CanDestructure(payload) {
      assert r.reply == Failure(400, "Missing required field(s).");
    }
  }

  /** Every tokens.post reply other than 200 leaves the database as it was. */
  lemma {:induction false} TokensPostFailuresChangeNothing(ctx: Context, db: Database, payload: JsValue)
    ensures TokensPostOutcome(ctx, db, payload).reply.Reply? && TokensPostOutcome(ctx, db, payload).reply.status != 200 ==>
              TokensPostOutcome(ctx, db, payload).db == db
  {
    var isPhone := ValidatePhone(Get(payload, "phone"));
    if CanDestructure(payload) && isPhone.Str? && Truthy(Get(payload, "password")) {
      match Lookup(db, "users", isPhone.s)
      case Some(user) =>
        if Truthy(user) && PasswordMatches(ctx.natives, payload, user) {
          TokenIssued(ctx, db, payload, user);
        }
      case None =>
    }
  }

  /** The tokens.post path past the password check. */
  lemma TokenIssued(ctx: Context, db: Database, payload: JsValue, user: JsValue)
    requires CanDestructure(payload) && Truthy(Get(payload, "password"))
    requires ValidatePhone(Get(payload, "phone")).Str?
    requires Lookup(db, "users", ValidatePhone(Get(payload, "phone")).s) == Some(user)
    requires Truthy(user) && PasswordMatches(ctx.natives, payload, user)
    ensures var tokenId := CreateRandomString(ctx.natives, Num(20));
            var token := NewToken(ValidatePhone(Get(payload, "phone")), tokenId, ctx.now + TokenLifetime);
            && tokenId.Str? && |tokenId.s| == 20 && Get(token, "id") == tokenId
            && Get(token, "phone") == ValidatePhone(Get(payload, "phone"))
            && Get(token, "expires") == Num(ctx.now + 3600000)
            && TokensPostOutcome(ctx, db, payload)
               == if CreateFails(db, "tokens", tokenId.s, ctx.faults.createFails)
                  then Outcome(Failure(500, "Could not create new token."), db)
                  else Outcome(Reply(200, token), Put(db, "tokens", tokenId.s, token))
  {
    var tokenId := CreateRandomString(ctx.natives, Num(20));
    assert ToJsString(tokenId) == tokenId.s;
  }

  /** A user who signed up can log in with the same payload: after a
      successful users.post, tokens.post with that payload passes the
      password check and answers 200 unless the token cannot be created. */
  lemma {:induction false} SignupThenLogin(ctx: Context, db: Database, payload: JsValue)
    requires UsersPostOutcome(ctx, db, payload).reply == Reply(200, Undefined)
    ensures var db' := UsersPostOutcome(ctx, db, payload).db;
            var r := TokensPostOutcome(ctx, db', payload);
            r.reply.Reply? && (r.reply.status == 200 || r.reply == Failure(500, "Could not create new token."))
  {
    var isPhone := ValidatePhone(Get(payload, "phone"));
    var password := Get(payload, "password");
    var db' := UsersPostOutcome(ctx, db, payload).db;
    var user := NewUser(NonBlank(Get(payload, "firstName")), NonBlank(Get(payload, "lastName")),
                        isPhone, Hash(ctx.natives, NonBlank(password)));
    SignupStoresUser(ctx, db, payload);
    NewUserDigest(NonBlank(Get(payload, "firstName")), NonBlank(Get(payload, "lastName")),
                  isPhone, Hash(ctx.natives, NonBlank(password)));
    NonBlankTruthy(password);
    LoginWithMatchingUser(ctx, db', payload, user);
  }

  /** A successful sign-up leaves the new user readable under the trimmed
      phone. */
  lemma SignupStoresUser(ctx: Context, db: Database, payload: JsValue)
    requires UsersPostOutcome(ctx, db, payload).reply == Reply(200, Undefined)
    ensures CanDestructure(payload) && SignupComplete(payload)
    ensures ValidatePhone(Get(payload, "phone")).Str?
    ensures Lookup(UsersPostOutcome(ctx, db, payload).db, "users", ValidatePhone(Get(payload, "phone")).s)
         == Some(NewUser(NonBlank(Get(payload, "firstName")), NonBlank(Get(payload, "lastName")),
                         ValidatePhone(Get(payload, "phone")), Hash(ctx.natives, NonBlank(Get(payload, "password")))))
  {
    var hashed := Hash(ctx.natives, NonBlank(Get(payload, "password")));
    var r := SignupWith(db, payload, hashed, ctx.faults.createFails);
    assert UsersPostOutcome(ctx, db, payload) == r;
    var isPhone := ValidatePhone(Get(payload, "phone"));
    var user := NewUser(NonBlank(Get(payload, "firstName")), NonBlank(Get(payload, "lastName")), isPhone, hashed);
    SignupWithShape(db, payload, hashed, ctx.faults.createFails);
    assert Docs(r.db, "users")[isPhone.s] == user;
  }

  /** A non-blank string is truthy. */
  lemma NonBlankTruthy(v: JsValue)
    requires NonBlank(v).Str?
    ensures Truthy(v)
  {
  }

  /** tokens.post for a stored user whose digest matches answers 200, or 500
      when the token cannot be created. */
  lemma LoginWithMatchingUser(ctx: Context, db: Database, payload: JsValue, user: JsValue)
    requires CanDestructure(payload) && Truthy(Get(payload, "password"))
    requires ValidatePhone(Get(payload, "phone")).Str?
    requires Lookup(db, "users", ValidatePhone(Get(payload, "phone")).s) == Some(user)
    requires Truthy(user) && PasswordMatches(ctx.natives, payload, user)
    ensures var r := TokensPostOutcome(ctx, db, payload);
            r.reply.Reply? && (r.reply.status == 200 || r.reply == Failure(500, "Could not create new token."))
  {
  }

  /** As written, signing up with a padded password stores the digest of the
      padded string while tokens.post hashes the trimmed one: with any HMAC
      that tells the two apart, the new user can never obtain a token. */
  lemma PaddedPasswordLocksOutAsWritten(ctx: Context, db: Database, first: string, last: string,
                                        phone: string, password: string)
    requires NonBlank(Str(first)).Str? && NonBlank(Str(last)).Str?
    requires ValidatePhone(Str(phone)) == Str(phone)
    requires NonBlank(Str([' '] + password)) == Str(password)
    requires ctx.natives.hmac(ctx.natives.secret, [' '] + password) != ctx.natives.hmac(ctx.natives.secret, password)
    requires ctx.natives.hmac(ctx.natives.secret, [' '] + password) != ""
    requires phone !in Docs(db, "users")
    requires !ctx.faults.createFails
    ensures var payload := SignupPayload(first, last, phone, [' '] + password);
            var signup := UsersPostAsWritten(ctx, db, payload);
            && signup.reply == Reply(200, Undefined)
            && TokensPostOutcome(ctx, signup.db, payload).reply == Failure(400, "Password did not match the user's password.")
  {
    var payload := SignupPayload(first, last, phone, [' '] + password);
    var raw := Hash(ctx.natives, Str([' '] + password));
    var user := NewUser(NonBlank(Str(first)), NonBlank(Str(last)), Str(phone), raw);
    PaddedSignupStoresRawDigest(ctx, db, first, last, phone, password);
    var signup := UsersPostAsWritten(ctx, db, payload);
    assert Lookup(signup.db, "users", phone) == Some(user);
    NewUserDigest(NonBlank(Str(first)), NonBlank(Str(last)), Str(phone), raw);
    assert !PasswordMatches(ctx.natives, payload, user);
    LoginMismatch(ctx, signup.db, payload, user);
  }

  /** The first half of the lock-out: the as-written sign-up succeeds and
      stores the digest of the padded password. */
  lemma PaddedSignupStoresRawDigest(ctx: Context, db: Database, first: string, last: string,
                                    phone: string, password: string)
    requires NonBlank(Str(first)).Str? && NonBlank(Str(last)).Str?
    requires ValidatePhone(Str(phone)) == Str(phone)
    requires NonBlank(Str([' '] + password)) == Str(password)
    requires ctx.natives.hmac(ctx.natives.secret, [' '] + password) != ""
    requires phone !in Docs(db, "users")
    requires !ctx.faults.createFails
    ensures UsersPostAsWritten(ctx, db, SignupPayload(first, last, phone, [' '] + password))
              == Outcome(Reply(200, Undefined),
                         Put(db, "users", phone, NewUser(NonBlank(Str(first)), NonBlank(Str(last)),
                                                         Str(phone), Hash(ctx.natives, Str([' '] + password)))))
  {
    var payload := SignupPayload(first, last, phone, [' '] + password);
    var raw := Hash(ctx.natives, Str([' '] + password));
    assert SignupComplete(payload);
    SignupSucceeds(db, payload, raw, ctx.faults.createFails);
  }

  /** The sign-up path that reaches `create` and sees it succeed. */
  lemma SignupSucceeds(db: Database, payload: JsValue, hashedPassword: JsValue, createFails: bool)
    requires CanDestructure(payload) && SignupComplete(payload)
    requires Lookup(db, "users", ToJsString(Get(payload, "phone"))).None? && Truthy(hashedPassword)
    requires !CreateFails(db, "users", ValidatePhone(Get(payload, "phone")).s, createFails)
    ensures SignupWith(db, payload, hashedPassword, createFails)
              == Outcome(Reply(200, Undefined),
                         Put(db, "users", ValidatePhone(Get(payload, "phone")).s,
                             NewUser(NonBlank(Get(payload, "firstName")), NonBlank(Get(payload, "lastName")),
                                     ValidatePhone(Get(payload, "phone")), hashedPassword)))
  {
  }

  /** tokens.post for a stored user whose digest does not match. */
  lemma LoginMismatch(ctx: Context, db: Database, payload: JsValue, user: JsValue)
    requires CanDestructure(payload) && Truthy(Get(payload, "password"))
    requires ValidatePhone(Get(payload, "phone")).Str?
    requires Lookup(db, "users", ValidatePhone(Get(payload, "phone")).s) == Some(user)
    requires Truthy(user) && !PasswordMatches(ctx.natives, payload, user)
    ensures TokensPostOutcome(ctx, db, payload) == Outcome(Failure(400, "Password did not match the user's password."), db)
  {
  }

  // ===== tokens.get, ping, notFound =====

  function TokensGetReply(h: MissingHelpers, db: Database, query: JsValue): Reply {
    var isId := h.validateId(QueryField(query, "id"));
    if !Truthy(isId) then Failure(400, "Missing required field.")
    else match Lookup(db, "tokens", ToJsString(isId))
      case Some(token) => if Truthy(token) then Reply(200, token) else Reply(404, Undefined)
      case None => Reply(404, Undefined)
  }

  const PingReply := Reply(200, Obj(map["pinged" := Str("Server ping successful.")]))

  const NotFoundReply := Reply(404, Undefined)

  // ===== method dispatch =====

  /** handlers.users: dispatch the four accepted methods, 405 otherwise. */
  function UsersOutcome(ctx: Context, db: Database, data: RequestData): Outcome {
    match data.httpMethod
    case "post" => UsersPostOutcome(ctx, db, data.payload)
    case "get" => Outcome(UsersGetReply(db, data.queryStringObject), db)
    case "put" => UsersPutOutcome(ctx, db, data.payload)
    case "delete" => UsersDeleteOutcome(ctx, db, data.queryStringObject)
    case _ => Outcome(Reply(405, Undefined), db)
  }

  /** handlers.tokens: the same dispatch; put and delete are empty handlers
      that never call back. */
  function TokensOutcome(ctx: Context, db: Database, data: RequestData): Outcome {
    match data.httpMethod
    case "post" => TokensPostOutcome(ctx, db, data.payload)
    case "get" => Outcome(TokensGetReply(ctx.helpers, db, data.queryStringObject), db)
    case "put" => Outcome(NoReply, db)
    case "delete" => Outcome(NoReply, db)
    case _ => Outcome(Reply(405, Undefined), db)
  }

  /** A status a handler can answer with besides 405. */
  predicate HandlerStatus(r: Reply) {
    r.Reply? ==> r.status in {200, 400, 404, 500}
  }

  /** A status users.post, users.put, users.delete and tokens.post can answer
      with: none of them answers 404 (or 405). */
  predicate WriteStatus(r: Reply) {
    r.Reply? ==> r.status in {200, 400, 500}
  }

  lemma {:induction false} UsersPostStatuses(ctx: Context, db: Database, payload: JsValue)
    ensures WriteStatus(UsersPostOutcome(ctx, db, payload).reply)
  {
    SignupWithStatuses(db, payload, Hash(ctx.natives, NonBlank(Get(payload, "password"))), ctx.faults.createFails);
  }

  lemma SignupWithStatuses(db: Database, payload: JsValue, hashedPassword: JsValue, createFails: bool)
    ensures WriteStatus(SignupWith(db, payload, hashedPassword, createFails).reply)
  {
    var r := SignupWith(db, payload, hashedPassword, createFails).reply;
    if !CanDestructure(payload) {
      assert r == Throws;
    } else if !SignupComplete(payload) || Lookup(db, "users", ToJsString(Get(payload, "phone"))).Some? {
      assert r.status == 400;
    } else if !Truthy(hashedPassword) {
      assert r.status == 500;
    } else {
      assert r.status == 500 || r.status == 200;
    }
  }

  lemma {:induction false} UsersPutStatuses(ctx: Context, db: Database, payload: JsValue)
    ensures WriteStatus(UsersPutOutcome(ctx, db, payload).reply)
  {
    var p := OrFalse(payload);
    var isPhone := ValidatePhone(Get(p, "phone"));
    if isPhone.Str? {
      match Lookup(db, "users", isPhone.s)
      case Some(user) =>
      case None =>
    }
  }

  lemma {:induction false} UsersDeleteStatuses(ctx: Context, db: Database, query: JsValue)
    ensures WriteStatus(UsersDeleteOutcome(ctx, db, query).reply)
  {
    var isPhone := ValidatePhone(QueryField(query, "phone"));
    if isPhone.Str? {
      match Lookup(db, "users", isPhone.s)
      case Some(user) =>
      case None =>
    }
  }

  lemma {:induction false} TokensPostStatuses(ctx: Context, db: Database, payload: JsValue)
    ensures WriteStatus(TokensPostOutcome(ctx, db, payload).reply)
  {
    var isPhone := ValidatePhone(Get(payload, "phone"));
    if CanDestructure(payload) && isPhone.Str? && Truthy(Get(payload, "password")) {
      match Lookup(db, "users", isPhone.s)
      case Some(user) =>
      case None =>
    }
  }

  /** Only post, get, put and delete are dispatched; any other method is a
      405 that changes nothing, and no dispatched handler answers 405. */
  lemma {:induction false} DispatchOnlyAcceptable(ctx: Context, db: Database, data: RequestData)
    ensures data.httpMethod !in AcceptableMethods ==>
              UsersOutcome(ctx, db, data) == Outcome(Reply(405, Undefined), db)
              && TokensOutcome(ctx, db, data) == Outcome(Reply(405, Undefined), db)
    ensures data.httpMethod in AcceptableMethods ==>
              HandlerStatus(UsersOutcome(ctx, db, data).reply) && HandlerStatus(TokensOutcome(ctx, db, data).reply)
  {
    var m := data.httpMethod;
    if m == "post" {
      UsersPostStatuses(ctx, db, data.payload);
      TokensPostStatuses(ctx, db, data.payload);
    } else if m == "get" {
    } else if m == "put" {
      UsersPutStatuses(ctx, db, data.payload);
    } else if m == "delete" {
      UsersDeleteStatuses(ctx, db, data.queryStringObject);
    } else {
      assert m !in AcceptableMethods;
    }
  }

  /** The store the handlers work on, with the handlers as methods. Each
      call takes the context of its own request: the clock reading, the
      random draws and the store's write faults at that moment. */
  class Api {
    const store: Store

    constructor (store: Store)
      ensures this.store == store
    {
      this.store := store;
    }

    method UsersPost(ctx: Context, data: RequestData) returns (reply: Reply)
      modifies store
      ensures Outcome(reply, store.db) == UsersPostOutcome(ctx, old(store.db), data.payload)
    {
      if !CanDestructure(data.payload) {
        return Throws;
      }
      var phone := Get(data.payload, "phone");
      var password := Get(data.payload, "password");
      var isPhone := ValidatePhone(phone);
      var isFirstName := NonBlank(Get(data.payload, "firstName"));
      var isLastName := NonBlank(Get(data.payload, "lastName"));
      var isPassword := NonBlank(password);
      var isTosAgreement := Get(data.payload, "tosAgreement") == Bool(true);
      if !(Truthy(isFirstName) && Truthy(isLastName) && Truthy(isPhone) && Truthy(isPassword) && isTosAgreement) {
        return Failure(400, "Missing required field(s).");
      }
      var existing := store.Read("users", ToJsString(phone));
      if existing.Some? {
        return Failure(400, "A user with that phone number already exists.");
      }
      var hashedPassword := Hash(ctx.natives, isPassword);
      if !Truthy(hashedPassword) {
        return Failure(500, "Could not hash password.");
      }
      var userObj := NewUser(isFirstName, isLastName, isPhone, hashedPassword);
      var err := store.Create("users", isPhone.s, userObj, ctx.faults.createFails);
      reply := if err then Failure(500, "Could not create new user.") else Reply(200, Undefined);
    }

    method UsersGet(data: RequestData) returns (reply: Reply)
      ensures reply == UsersGetReply(store.db, data.queryStringObject)
    {
      var isPhone := ValidatePhone(QueryField(data.queryStringObject, "phone"));
      if !Truthy(isPhone) {
        return Failure(400, "Missing required field.");
      }
      var found := store.Read("users", isPhone.s);
      if found.Some? && Truthy(found.value) {
        var user := found.value;
        if user.Obj? {
          user := Obj(user.fields - {"hashedPassword"});
        }
        reply := Reply(200, user);
      } else {
        reply := Reply(404, Undefined);
      }
    }

    method UsersPut(ctx: Context, data: RequestData) returns (reply: Reply)
      modifies store
      ensures Outcome(reply, store.db) == UsersPutOutcome(ctx, old(store.db), data.payload)
    {
      var p := OrFalse(data.payload);
      var firstName := Get(p, "firstName");
      var lastName := Get(p, "lastName");
      var password := Get(p, "password");
      var isPhone := ValidatePhone(Get(p, "phone"));
      if !Truthy(isPhone) {
        return Failure(400, "Missing required field.");
      }
      if !(Truthy(NonBlank(firstName)) || Truthy(NonBlank(lastName)) || Truthy(NonBlank(password))) {
        return Failure(400, "Missing field(s) to update.");
      }
      var found := store.Read("users", isPhone.s);
      if found.None? || !Truthy(found.value) {
        return Failure(400, "The specified user does not exist.");
      }
      var userData := found.value;
      if userData.Obj? {
        if Truthy(firstName) {
          userData := userData.(fields := userData.fields["firstName" := firstName]);
        }
        if Truthy(lastName) {
          userData := userData.(fields := userData.fields["lastName" := lastName]);
        }
        var isPassword := NonBlank(password);
        if Truthy(isPassword) {
          userData := userData.(fields := userData.fields["hashedPassword" := Hash(ctx.natives, isPassword)]);
        }
      }
      var err := store.Update("users", isPhone.s, userData, ctx.faults.updateFails);
      reply := if err then Failure(500, "Could not update the user data.") else Reply(200, Undefined);
    }

    method UsersDelete(ctx: Context, data: RequestData) returns (reply: Reply)
      modifies store
      ensures Outcome(reply, store.db) == UsersDeleteOutcome(ctx, old(store.db), data.queryStringObject)
    {
      var isPhone := ValidatePhone(QueryField(data.queryStringObject, "phone"));
      if !Truthy(isPhone) {
        return Failure(400, "Missing required field.");
      }
      var found := store.Read("users", isPhone.s);
      if found.None? || !Truthy(found.value) {
        return Failure(400, "Could not find the specified user.");
      }
      var err := store.Delete("users", isPhone.s, ctx.faults.deleteFails);
      reply := if err then Failure(500, "Could not delete the specified user.") else Reply(200, Undefined);
    }

    method TokensPost(ctx: Context, data: RequestData) returns (reply: Reply)
      modifies store
      ensures Outcome(reply, store.db) == TokensPostOutcome(ctx, old(store.db), data.payload)
    {
      if !CanDestructure(data.payload) {
        return Throws;
      }
      var password := Get(data.payload, "password");
      var isPhone := ValidatePhone(Get(data.payload, "phone"));
      var isPassword := NonBlank(password);
      if !(Truthy(isPhone) && Truthy(password)) {
        return Failure(400, "Missing required field(s).");
      }
      var found := store.Read("users", isPhone.s);
      if found.None? || !Truthy(found.value) {
        return Failure(400, "Could not find the specified user.");
      }
      if Hash(ctx.natives, isPassword) != Get(found.value, "hashedPassword") {
        LoginMismatch(ctx, store.db, data.payload, found.value);
        return Failure(400, "Password did not match the user's password.");
      }
      reply := IssueToken(ctx, data.payload, found.value);
    }

    /** The end of `_tokens.post`: create the token for a user whose
        password matched. */
    method IssueToken(ctx: Context, payload: JsValue, user: JsValue) returns (reply: Reply)
      requires CanDestructure(payload) && Truthy(Get(payload, "password"))
      requires ValidatePhone(Get(payload, "phone")).Str?
      requires Lookup(store.db, "users", ValidatePhone(Get(payload, "phone")).s) == Some(user)
      requires Truthy(user) && PasswordMatches(ctx.natives, payload, user)
      modifies store
      ensures Outcome(reply, store.db) == TokensPostOutcome(ctx, old(store.db), payload)
    {
      TokenIssued(ctx, store.db, payload, user);
      var tokenId := CreateRandomString(ctx.natives, Num(20));
      var tokenObj := NewToken(ValidatePhone(Get(payload, "phone")), tokenId, ctx.now + TokenLifetime);
      var err := store.Create("tokens", ToJsString(tokenId), tokenObj, ctx.faults.createFails);
      reply := if err then Failure(500, "Could not create new token.") else Reply(200, tokenObj);
    }

    method TokensGet(ctx: Context, data: RequestData) returns (reply: Reply)
      ensures reply == TokensGetReply(ctx.helpers, store.db, data.queryStringObject)
    {
      var isId := ctx.helpers.validateId(QueryField(data.queryStringObject, "id"));
      if !Truthy(isId) {
        return Failure(400, "Missing required field.");
      }
      var found := store.Read("tokens", ToJsString(isId));
      reply := if found.Some? && Truthy(found.value) then Reply(200, found.value) else Reply(404, Undefined);
    }

    /** handlers.users. */
    method Users(ctx: Context, data: RequestData) returns (reply: Reply)
      modifies store
      ensures Outcome(reply, store.db) == UsersOutcome(ctx, old(store.db), data)
    {
      if data.httpMethod == "post" {
        reply := UsersPost(ctx, data);
      } else if data.httpMethod == "get" {
        reply := UsersGet(data);
      } else if data.httpMethod == "put" {
        reply := UsersPut(ctx, data);
      } else if data.httpMethod == "delete" {
        reply := UsersDelete(ctx, data);
      } else {
        reply := Reply(405, Undefined);
      }
    }

    /** handlers.tokens. */
    method Tokens(ctx: Context, data: RequestData) returns (reply: Reply)
      modifies store
      ensures Outcome(reply, store.db) == TokensOutcome(ctx, old(store.db), data)
    {
      if data.httpMethod == "post" {
        reply := TokensPost(ctx, data);
      } else if data.httpMethod == "get" {
        reply := TokensGet(ctx, data);
      } else if data.httpMethod == "put" || data.httpMethod == "delete" {
        reply := NoReply;
      } else {
        reply := Reply(405, Undefined);
      }
    }
  }
}

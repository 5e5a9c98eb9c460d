/** `server/src/routes/users.js`: the profile of one user, found by
    `pickIdentity`, shown without its password hash, and a `PATCH` that may
    change the names and nothing else. */
module Users {
  import opened Common
  import opened Accounts

  /** Where `pickIdentity` looks: the `X-User-Id` header, `?id=`, the body's
      `id`, then `?login=` or the body's `login` (an absent login is ""). */
  datatype Who = Who(header: IdArg, queryId: IdArg, bodyId: IdArg, queryLogin: string, bodyLogin: string)

  const BadHeaderMessage := "Invalid X-User-Id"
  const BadIdMessage := "Invalid id"
  const NoIdentityMessage := "Provide X-User-Id header, id, or login"
  const NoUserMessage := "User not found"
  const EmptyFirstMessage := "firstName cannot be empty"
  const EmptyLastMessage := "lastName cannot be empty"
  const NothingMessage := "No fields to update"

  /** Turns a sent id into a filter, a malformed one into `message`. */
  function IdFilter(a: IdArg, message: string): (r: Result<Lookup>)
    requires !a.Absent?
  {
    if a.Oid? then Ok(ById(a.id)) else Err(ApiError(400, message))
  }

  /** `pickIdentity(req)`; each thrown error becomes a 400. */
  function PickIdentity(w: Who): (r: Result<Lookup>)
    ensures r.Err? ==> r.error.status == 400
  {
    if !w.header.Absent? then IdFilter(w.header, BadHeaderMessage)
    else if !w.queryId.Absent? then IdFilter(w.queryId, BadIdMessage)
    else if !w.bodyId.Absent? then IdFilter(w.bodyId, BadIdMessage)
    else
      var login := Lower(Trim(if w.queryLogin != "" then w.queryLogin else w.bodyLogin));
      if login != "" then Ok(ByLogin(login)) else Err(ApiError(400, NoIdentityMessage))
  }

  /** The order of `pickIdentity`: the first id source sent decides, valid
      or not; a login is used only when no id was sent, and then a
      non-blank `?login=` wins over the body's. */
  lemma PickIdentityOrder(w: Who)
    ensures !w.header.Absent? ==>
      (PickIdentity(w).Ok? <==> w.header.Oid?) &&
      (w.header.Oid? ==> PickIdentity(w) == Ok(ById(w.header.id)))
    ensures w.header.Absent? && !w.queryId.Absent? ==>
      PickIdentity(w) == (if w.queryId.Oid? then Ok(ById(w.queryId.id)) else Err(ApiError(400, BadIdMessage)))
    ensures w.header.Absent? && w.queryId.Absent? && !w.bodyId.Absent? ==>
      PickIdentity(w) == (if w.bodyId.Oid? then Ok(ById(w.bodyId.id)) else Err(ApiError(400, BadIdMessage)))
    ensures PickIdentity(w).Ok? && PickIdentity(w).value.ByLogin? ==>
      && w.header.Absent? && w.queryId.Absent? && w.bodyId.Absent?
      && PickIdentity(w).value.login != ""
      && PickIdentity(w).value.login == Trim(Lower(if w.queryLogin != "" then w.queryLogin else w.bodyLogin))
    ensures PickIdentity(w) == Err(ApiError(400, NoIdentityMessage)) <==>
      && w.header.Absent? && w.queryId.Absent? && w.bodyId.Absent?
      && Lower(Trim(if w.queryLogin != "" then w.queryLogin else w.bodyLogin)) == ""
  {
    LowerTrimCommute(if w.queryLogin != "" then w.queryLogin else w.bodyLogin);
  }

  /** `toPublic(u)`: no password hash, and `isVerified` as a boolean. */
  datatype PublicUser = PublicUser(
    id: nat, firstName: Option<string>, lastName: Option<string>, login: string, isVerified: bool,
    createdAt: Option<int>, verifiedAt: Option<int>, updatedAt: Option<int>)

  function ToPublic(u: User): (p: PublicUser)
    ensures p.id == u.id && p.login == u.login && p.firstName == u.firstName && p.lastName == u.lastName
    ensures p.isVerified <==> FlagTruthy(u.isVerified)
    ensures p.createdAt == u.createdAt && p.verifiedAt == u.verifiedAt && p.updatedAt == u.updatedAt
  {
    PublicUser(u.id, u.firstName, u.lastName, u.login, FlagTruthy(u.isVerified), u.createdAt, u.verifiedAt, u.updatedAt)
  }

  /** The public view shows nothing of the password hash. */
  lemma PublicHidesHash(u: User, hash: Option<string>)
    ensures ToPublic(u.(passwordHash := hash)) == ToPublic(u)
  {
  }

  /** `GET /`. */
  function Get(users: seq<User>, w: Who): (r: Result<PublicUser>)
    ensures PickIdentity(w).Err? ==> r == Err(PickIdentity(w).error)
    ensures PickIdentity(w).Ok? && Find(users, PickIdentity(w).value).None? ==> r == Err(ApiError(404, NoUserMessage))
    ensures r.Ok? <==> PickIdentity(w).Ok? && Find(users, PickIdentity(w).value).Some?
    ensures r.Ok? ==> r.value == ToPublic(users[Find(users, PickIdentity(w).value).value])
  {
    var q := PickIdentity(w);
    if q.Err? then Err(q.error)
    else
      var i := Find(users, q.value);
      if i.None? then Err(ApiError(404, NoUserMessage)) else Ok(ToPublic(users[i.value]))
  }

  /** The body of a `PATCH`: each name as sent (`Some` when the key is
      present, "" for a null value), and the names of the body's other
      keys. */
  datatype PatchBody = PatchBody(firstName: Option<string>, lastName: Option<string>, others: set<string>)

  /** The keys `PATCH` refuses, in the order it tests them. */
  const Sensitive: seq<string> := ["password", "passwordHash", "isVerified", "login"]

  /** The first of `names` that is a key of the body. */
  function FirstPresent(names: seq<string>, keys: set<string>): (r: Option<string>)
    ensures r.Some? ==> r.value in names && r.value in keys
    ensures r.None? <==> forall i :: 0 <= i < |names| ==> names[i] !in keys
  {
    if |names| == 0 then None
    else if names[0] in keys then Some(names[0])
    else FirstPresent(names[1..], keys)
  }

  function SensitiveMessage(field: string): string {
    "Field '" + field + "' cannot be updated here"
  }

  /** `String(v || '').trim()` of a sent name. */
  function TrimmedName(v: Option<string>): Option<string> {
    if v.Some? then Some(Trim(v.value)) else None
  }

  /** The checks of `PATCH`, in order: the identity, a sent first name not
      blank, a sent last name not blank, no sensitive key, at least one
      name. The result is the filter and the `$set`. */
  function PatchCheck(w: Who, body: PatchBody, now: int): (r: Result<(Lookup, UserSet)>)
  {
    var q := PickIdentity(w);
    if q.Err? then Err(q.error)
    else if body.firstName.Some? && Trim(body.firstName.value) == "" then Err(ApiError(400, EmptyFirstMessage))
    else if body.lastName.Some? && Trim(body.lastName.value) == "" then Err(ApiError(400, EmptyLastMessage))
    else
      var bad := FirstPresent(Sensitive, body.others);
      if bad.Some? then Err(ApiError(400, SensitiveMessage(bad.value)))
      else if body.firstName.None? && body.lastName.None? then Err(ApiError(400, NothingMessage))
      else Ok((q.value, SetNames(TrimmedName(body.firstName), TrimmedName(body.lastName), now)))
  }

  /** A patch is accepted exactly when the identity is well formed, some
      name is sent, every sent name is non-blank and no sensitive key is
      present; it then sets the trimmed names and `updatedAt`. */
  lemma PatchCheckIff(w: Who, body: PatchBody, now: int)
    ensures PatchCheck(w, body, now).Ok? <==>
      && PickIdentity(w).Ok?
      && (body.firstName.Some? || body.lastName.Some?)
      && (body.firstName.Some? ==> Trim(body.firstName.value) != "")
      && (body.lastName.Some? ==> Trim(body.lastName.value) != "")
      && (forall i :: 0 <= i < |Sensitive| ==> Sensitive[i] !in body.others)
    ensures PatchCheck(w, body, now).Ok? ==>
      PatchCheck(w, body, now).value ==
        (PickIdentity(w).value, SetNames(TrimmedName(body.firstName), TrimmedName(body.lastName), now))
  {
  }

  /** Whatever a sensitive key is sent with, it is refused. */
  lemma SensitiveRefused(w: Who, body: PatchBody, now: int, field: string)
    requires field in Sensitive && field in body.others
    ensures PatchCheck(w, body, now).Err?
  {
    PatchCheckIff(w, body, now);
  }

  /** A body that carries a login has the key `login`, so a `PATCH` that
      identifies the user by the body's login (no header, no id, no query
      login) is always refused: only the query string's login can name the
      user of a patch. */
  lemma BodyLoginPatchRefused(w: Who, body: PatchBody, now: int)
    requires w.bodyLogin != "" ==> "login" in body.others
    requires PickIdentity(w).Ok? && PickIdentity(w).value.ByLogin? && w.queryLogin == ""
    ensures PatchCheck(w, body, now).Err?
  {
    assert Sensitive[3] == "login";
    SensitiveRefused(w, body, now, "login");
  }

  /** A patched record differs from the old one in its names and
      `updatedAt` at most; the names it stores are trimmed and not blank. */
  lemma PatchOnlyNames(u: User, w: Who, body: PatchBody, now: int)
    requires PatchCheck(w, body, now).Ok?
    ensures var v := ApplySet(u, PatchCheck(w, body, now).value.1);
      && v == u.(firstName := v.firstName, lastName := v.lastName, updatedAt := Some(now))
      && (body.firstName.Some? ==> v.firstName == Some(Trim(body.firstName.value)) && Trim(body.firstName.value) != "")
      && (body.firstName.None? ==> v.firstName == u.firstName)
      && (body.lastName.Some? ==> v.lastName == Some(Trim(body.lastName.value)) && Trim(body.lastName.value) != "")
      && (body.lastName.None? ==> v.lastName == u.lastName)
  {
  }

  /** `PATCH /`. */
  method Patch(db: AccountDb, w: Who, body: PatchBody, now: int) returns (r: Result<PublicUser>)
    requires db.Valid()
    modifies db
    ensures db.Valid()
    ensures db.verifications == old(db.verifications) && db.resets == old(db.resets) && db.nextId == old(db.nextId)
    ensures var c := PatchCheck(w, body, now);
      && (c.Err? ==> r == Err(c.error) && unchanged(db))
      && (c.Ok? && Find(old(db.users), c.value.0).None? ==> r == Err(ApiError(404, NoUserMessage)) && unchanged(db))
      && (c.Ok? && Find(old(db.users), c.value.0).Some? ==>
            var i := Find(old(db.users), c.value.0).value;
            && db.users == Update(old(db.users), c.value.0, c.value.1)
            && db.users[i] == ApplySet(old(db.users)[i], c.value.1)
            && r == Ok(ToPublic(db.users[i])))
  {
    var c := PatchCheck(w, body, now);
    if c.Err? {
      return Err(c.error);
    }
    var (q, s) := c.value;
    var i := Find(db.users, q);
    if i.None? {
      return Err(ApiError(404, NoUserMessage));
    }
    UpdateOwner(db.users, db.nextId, q, s);
    db.users := Update(db.users, q, s);
    var j := Find(db.users, q);
    r := Ok(ToPublic(db.users[j.value]));
  }
}

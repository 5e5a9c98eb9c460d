/** `server/src/routes/password.js`: validating a reset token, changing a
    password with the old one, requesting a reset token and resetting with
    it, plus the single `POST /` that dispatches among the last three.
    `bcrypt.compare` is `matches`, `bcrypt.hash` of the new password is
    `hash`; the random token and the clock are parameters. */
module Password {
  import opened Common
  import opened Accounts

  /** The `mode` of a successful answer. */
  datatype Mode = ValidateMode | ChangeMode | RequestMode | ResetMode

  /** `ok(res, { mode, message })`. */
  datatype Answer = Answer(mode: Mode, message: string)

  /** The body fields `login`, `oldPassword`, `newPassword` and `token`;
      an absent one is "". */
  datatype Body = Body(login: string, oldPassword: string, newPassword: string, token: string)

  const MissingTokenMessage := "Missing token"
  const InvalidTokenMessage := "Invalid or expired token"
  const TokenValidMessage := "Token is valid"
  const ChangeFieldsMessage := "oldPassword and newPassword required"
  const ShortMessage := "New password must be at least 8 characters"
  const BadHeaderMessage := "Invalid X-User-Id"
  const NoIdentityMessage := "Provide login or X-User-Id"
  const NoUserMessage := "User not found"
  const WrongPasswordMessage := "Current password is incorrect"
  const ChangedMessage := "Password updated successfully"
  const MissingLoginMessage := "Missing login"
  const RequestedMessage := "If this account exists, a reset link has been sent."
  const ResetFieldsMessage := "token and newPassword required"
  const ResetDoneMessage := "Password reset successfully"

  const MinLength := 8

  // ---------------------------------------------------------------------------
  // GET / : validate a reset token

  /** `GET /?token=`: the token is taken as given (not trimmed); nothing is
      written, so this is a function of the stored resets. */
  function CheckToken(resets: seq<Token>, token: string, now: int): (r: Result<Answer>)
    ensures token == "" ==> r == Err(ApiError(400, MissingTokenMessage))
    ensures r.Ok? <==> token != "" && FindLive(resets, token, now).Some?
    ensures r.Ok? ==> r.value == Answer(ValidateMode, TokenValidMessage)
    ensures r.Err? && token != "" ==> r == Err(ApiError(400, InvalidTokenMessage))
  {
    if token == "" then Err(ApiError(400, MissingTokenMessage))
    else if FindLive(resets, token, now).None? then Err(ApiError(400, InvalidTokenMessage))
    else Ok(Answer(ValidateMode, TokenValidMessage))
  }

  // ---------------------------------------------------------------------------
  // POST /change

  /** The `X-User-Id` header wins when sent; else the login, trimmed and
      lower-cased; else an error. */
  function ChangeQuery(header: IdArg, login: string): (r: Result<Lookup>)
    ensures header.Malformed? ==> r == Err(ApiError(400, BadHeaderMessage))
    ensures header.Oid? ==> r == Ok(ById(header.id))
    ensures header.Absent? && login != "" ==> r == Ok(ByLogin(Lower(Trim(login))))
    ensures header.Absent? && login == "" ==> r == Err(ApiError(400, NoIdentityMessage))
  {
    match header
    case Malformed => Err(ApiError(400, BadHeaderMessage))
    case Oid(id) => Ok(ById(id))
    case Absent => if login != "" then Ok(ByLogin(Lower(Trim(login)))) else Err(ApiError(400, NoIdentityMessage))
  }

  /** The checks of `/change`, in order: both passwords present, the new
      one long enough, an identity, a stored hash, the old password right.
      The result is the index of the user to update. */
  function ChangeCheck(users: seq<User>, body: Body, header: IdArg, matches: (string, string) -> bool): (r: Result<nat>)
    ensures r.Ok? ==> r.value < |users|
  {
    if body.oldPassword == "" || body.newPassword == "" then Err(ApiError(400, ChangeFieldsMessage))
    else if |body.newPassword| < MinLength then Err(ApiError(400, ShortMessage))
    else
      var q := ChangeQuery(header, body.login);
      if q.Err? then Err(q.error)
      else
        var i := Find(users, q.value);
        if i.None? || !Truthy(users[i.value].passwordHash) then Err(ApiError(404, NoUserMessage))
        else if !matches(body.oldPassword, users[i.value].passwordHash.value) then Err(ApiError(400, WrongPasswordMessage))
        else Ok(i.value)
  }

  /** The presence and length checks come before any lookup: their answers
      do not depend on the stored users. */
  lemma ChangeChecksFirst(users: seq<User>, users': seq<User>, body: Body, header: IdArg, matches: (string, string) -> bool)
    requires body.oldPassword == "" || body.newPassword == "" || |body.newPassword| < MinLength
    ensures ChangeCheck(users, body, header, matches) == ChangeCheck(users', body, header, matches)
    ensures ChangeCheck(users, body, header, matches).Err?
    ensures ChangeCheck(users, body, header, matches).error.status == 400
  {
  }

  /** A change is allowed exactly when both passwords were given, the new
      one has at least 8 characters, the identity names a user with a hash,
      and the old password matches that hash. */
  lemma ChangeCheckIff(users: seq<User>, body: Body, header: IdArg, matches: (string, string) -> bool)
    ensures var r := ChangeCheck(users, body, header, matches);
      r.Ok? <==>
        var q := ChangeQuery(header, body.login);
        && body.oldPassword != "" && |body.newPassword| >= MinLength && q.Ok?
        && var i := Find(users, q.value);
        && i.Some? && Truthy(users[i.value].passwordHash)
        && matches(body.oldPassword, users[i.value].passwordHash.value)
    ensures var r := ChangeCheck(users, body, header, matches);
      r.Ok? ==> r == Ok(Find(users, ChangeQuery(header, body.login).value).value)
  {
  }

  /** A sent `X-User-Id` decides the identity, whatever login the body
      names. */
  lemma HeaderWins(users: seq<User>, body: Body, login: string, header: IdArg, matches: (string, string) -> bool)
    requires !header.Absent?
    ensures ChangeCheck(users, body, header, matches) == ChangeCheck(users, body.(login := login), header, matches)
  {
  }

  /** `POST /change`. */
  method Change(db: AccountDb, body: Body, header: IdArg, matches: (string, string) -> bool, hash: string)
    returns (r: Result<Answer>)
    requires db.Valid()
    modifies db
    ensures db.Valid()
    ensures db.verifications == old(db.verifications) && db.resets == old(db.resets) && db.nextId == old(db.nextId)
    ensures var c := ChangeCheck(old(db.users), body, header, matches);
      && (c.Err? ==> r == Err(c.error) && unchanged(db))
      && (c.Ok? ==>
            && r == Ok(Answer(ChangeMode, ChangedMessage))
            && db.users == Update(old(db.users), ById(old(db.users)[c.value].id), SetHash(hash))
            && db.users[c.value] == old(db.users)[c.value].(passwordHash := Some(hash)))
  {
    var c := ChangeCheck(db.users, body, header, matches);
    if c.Err? {
      return Err(c.error);
    }
    var id := db.users[c.value].id;
    UpdateOwner(db.users, db.nextId, ById(id), SetHash(hash));
    db.users := Update(db.users, ById(id), SetHash(hash));
    r := Ok(Answer(ChangeMode, ChangedMessage));
  }

  // ---------------------------------------------------------------------------
  // POST /request

  /** `String(login || '').trim().toLowerCase()`. */
  function RequestKey(login: string): string {
    Lower(Trim(login))
  }

  /** `POST /request`. A reset token is stored only for an existing
      account, but the answer does not tell the two cases apart. */
  method Request(db: AccountDb, login: string, token: string, now: int) returns (r: Result<Answer>)
    requires db.Valid() && FreshToken(db.resets, token)
    modifies db
    ensures db.Valid() && db.users == old(db.users) && db.verifications == old(db.verifications)
    ensures RequestKey(login) == "" <==> r == Err(ApiError(400, MissingLoginMessage))
    ensures RequestKey(login) != "" <==> r == Ok(Answer(RequestMode, RequestedMessage))
    ensures var u := FindByLogin(old(db.users), RequestKey(login));
      RequestKey(login) != "" && u.Some? ==>
        && db.resets == old(db.resets) + [NewToken(old(db.nextId), old(db.users)[u.value].id, token, now)]
        && db.nextId == old(db.nextId) + 1
    ensures RequestKey(login) == "" || FindByLogin(old(db.users), RequestKey(login)).None? ==> unchanged(db)
  {
    var key := RequestKey(login);
    if key == "" {
      return Err(ApiError(400, MissingLoginMessage));
    }
    var u := FindByLogin(db.users, key);
    if u.Some? {
      var t := NewToken(db.nextId, db.users[u.value].id, token, now);
      IssueResetKeepsOk(db.users, db.verifications, db.resets, db.nextId, t, db.resets + [t], db.nextId + 1);
      db.resets := db.resets + [t];
      db.nextId := db.nextId + 1;
    }
    r := Ok(Answer(RequestMode, RequestedMessage));
  }

  lemma IssueResetKeepsOk(users: seq<User>, vs: seq<Token>, ts: seq<Token>, n: nat, t: Token, ts': seq<Token>, n': nat)
    requires UsersOk(users, n) && TokensOk(vs, n) && TokensOk(ts, n)
    requires t.id == n && FreshToken(ts, t.token)
    requires ts' == ts + [t] && n' == n + 1
    ensures UsersOk(users, n') && TokensOk(vs, n') && TokensOk(ts', n')
  {
    GrowUsersOk(users, n, n');
    GrowTokensOk(vs, n, n');
    AddTokenKeepsTokensOk(ts, n, t);
  }

  // ---------------------------------------------------------------------------
  // POST /reset

  /** The checks of `/reset`, in order: token and new password present,
      the new one long enough, a live token. The result is the index of the
      token record. */
  function ResetCheck(resets: seq<Token>, body: Body, now: int): (r: Result<nat>)
    ensures r.Ok? ==> r.value < |resets| && Live(resets[r.value], body.token, now)
  {
    if body.token == "" || body.newPassword == "" then Err(ApiError(400, ResetFieldsMessage))
    else if |body.newPassword| < MinLength then Err(ApiError(400, ShortMessage))
    else
      var k := FindLive(resets, body.token, now);
      if k.None? then Err(ApiError(400, InvalidTokenMessage)) else Ok(k.value)
  }

  /** The presence and length checks come before the token lookup, and a
      reset happens exactly for a long enough password and a live token. */
  lemma ResetCheckIff(resets: seq<Token>, resets': seq<Token>, body: Body, now: int)
    ensures body.token == "" || body.newPassword == "" || |body.newPassword| < MinLength ==>
      ResetCheck(resets, body, now).Err? && ResetCheck(resets, body, now) == ResetCheck(resets', body, now)
    ensures ResetCheck(resets, body, now).Ok? <==>
      body.token != "" && |body.newPassword| >= MinLength && FindLive(resets, body.token, now).Some?
  {
  }

  /** `POST /reset`. On success the owner's hash is replaced (if the owner
      still exists) and the token is consumed for good. */
  method Reset(db: AccountDb, body: Body, hash: string, now: int) returns (r: Result<Answer>)
    requires db.Valid()
    modifies db
    ensures db.Valid() && db.verifications == old(db.verifications) && db.nextId == old(db.nextId)
    ensures var c := ResetCheck(old(db.resets), body, now);
      && (c.Err? ==> r == Err(c.error) && unchanged(db))
      && (c.Ok? ==>
            && r == Ok(Answer(ResetMode, ResetDoneMessage))
            && db.users == Update(old(db.users), ById(old(db.resets)[c.value].userId), SetHash(hash))
            && db.resets == ConsumeAt(old(db.resets), c.value, now)
            && forall later :: FindLive(db.resets, body.token, later).None?)
  {
    var c := ResetCheck(db.resets, body, now);
    if c.Err? {
      return Err(c.error);
    }
    var tok := db.resets[c.value];
    var ts' := ConsumeAt(db.resets, c.value, now);
    UpdateOwner(db.users, db.nextId, ById(tok.userId), SetHash(hash));
    ConsumeOnce(db.resets, db.nextId, c.value, now, ts');
    db.users := Update(db.users, ById(tok.userId), SetHash(hash));
    db.resets := ts';
    r := Ok(Answer(ResetMode, ResetDoneMessage));
  }

  // ---------------------------------------------------------------------------
  // POST / : the back-compatible dispatcher

  /** A token means reset; else a login without an old password means
      request; everything else is a change. */
  function Route(body: Body): Mode {
    if body.token != "" then ResetMode
    else if body.login != "" && body.oldPassword == "" then RequestMode
    else ChangeMode
  }

  /** `POST /`: the body goes to the endpoint `Route` names. */
  method Post(db: AccountDb, body: Body, header: IdArg, matches: (string, string) -> bool,
              hash: string, token: string, now: int) returns (r: Result<Answer>)
    requires db.Valid() && FreshToken(db.resets, token)
    modifies db
    ensures db.Valid() && db.verifications == old(db.verifications)
    ensures r.Ok? ==> r.value.mode == Route(body)
    ensures Route(body) == ChangeMode ==>
      var c := ChangeCheck(old(db.users), body, header, matches);
      && db.resets == old(db.resets) && db.nextId == old(db.nextId)
      && (c.Err? ==> r == Err(c.error) && unchanged(db))
      && (c.Ok? ==>
            && r == Ok(Answer(ChangeMode, ChangedMessage))
            && db.users == Update(old(db.users), ById(old(db.users)[c.value].id), SetHash(hash)))
    ensures Route(body) == RequestMode ==>
      var u := FindByLogin(old(db.users), RequestKey(body.login));
      && db.users == old(db.users)
      && (RequestKey(body.login) == "" ==> r == Err(ApiError(400, MissingLoginMessage)) && unchanged(db))
      && (RequestKey(body.login) != "" ==> r == Ok(Answer(RequestMode, RequestedMessage)))
      && (RequestKey(body.login) != "" && u.Some? ==>
            && db.resets == old(db.resets) + [NewToken(old(db.nextId), old(db.users)[u.value].id, token, now)]
            && db.nextId == old(db.nextId) + 1)
      && (u.None? ==> unchanged(db))
    ensures Route(body) == ResetMode ==>
      var c := ResetCheck(old(db.resets), body, now);
      && db.nextId == old(db.nextId)
      && (c.Err? ==> r == Err(c.error) && unchanged(db))
      && (c.Ok? ==>
            && r == Ok(Answer(ResetMode, ResetDoneMessage))
            && db.users == Update(old(db.users), ById(old(db.resets)[c.value].userId), SetHash(hash))
            && db.resets == ConsumeAt(old(db.resets), c.value, now))
  {
    if body.token != "" {
      r := Reset(db, body, hash, now);
    } else if body.login != "" && body.oldPassword == "" {
      r := Request(db, body.login, token, now);
    } else {
      r := Change(db, body, header, matches, hash);
    }
  }

  /** A token sends the body to `/reset` even when it also carries a login
      or an old password; a login sends it to `/request` only without an
      old password. */
  lemma RouteOrder(body: Body)
    ensures body.token != "" ==> Route(body) == ResetMode
    ensures Route(body) == RequestMode <==> body.token == "" && body.login != "" && body.oldPassword == ""
    ensures Route(body) != ValidateMode
  {
  }
}

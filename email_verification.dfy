/** `server/src/routes/emailVerification.js`: `POST /` issues a new
    verification token for an unverified account, `GET /:token?` consumes
    one and marks its owner verified. The random token, the clock and the
    result of `sendMail` are parameters. */
module EmailVerification {
  import opened Common
  import opened Accounts

  const MissingLoginMessage := "Missing login"
  const NoUserMessage := "User not found"
  const MissingTokenMessage := "Missing token"
  const InvalidTokenMessage := "Invalid or expired token"
  const AlreadyVerifiedMessage := "Already verified"
  const QueuedMessage := "Verification email sent (or queued)."
  const VerifiedMessage := "Email verified successfully"

  /** The login resend looks up: `String(login || '').trim().toLowerCase()`
      (an absent login is ""). */
  function ResendKey(login: string): string {
    Lower(Trim(login))
  }

  /** Resend normalises the login as the rest of the account routes do,
      which lower-case first and trim second. */
  lemma ResendKeyAgrees(login: string)
    ensures ResendKey(login) == Trim(Lower(login))
  {
    LowerTrimCommute(login);
  }

  /** The token verify reads: the path parameter, else `?token=`, else
      `?Token=`, trimmed (each absent one is ""). */
  function VerifyKey(path: string, query: string, queryCap: string): (t: string)
    ensures path != "" ==> t == Trim(path)
    ensures path == "" && query != "" ==> t == Trim(query)
    ensures path == "" && query == "" ==> t == Trim(queryCap)
  {
    Trim(if path != "" then path else if query != "" then query else queryCap)
  }

  /** The successful answers of resend. */
  datatype Resent = AlreadyVerified | Queued(mail: MailStatus)

  function ResentMessage(r: Resent): string {
    if r.AlreadyVerified? then AlreadyVerifiedMessage else QueuedMessage
  }

  /** `POST /`. `token` is `crypto.randomBytes(32)` in hex, `now` the clock
      and `mail` what `sendMail` returned. */
  method Resend(db: AccountDb, login: string, token: string, now: int, mail: MailStatus) returns (r: Result<Resent>)
    requires db.Valid() && FreshToken(db.verifications, token)
    modifies db
    ensures db.Valid() && db.users == old(db.users) && db.resets == old(db.resets)
    ensures ResendKey(login) == "" ==> r == Err(ApiError(400, MissingLoginMessage))
    ensures var key := ResendKey(login); var u := FindByLogin(old(db.users), key);
      key != "" && u.None? ==> r == Err(ApiError(404, NoUserMessage))
    ensures var key := ResendKey(login); var u := FindByLogin(old(db.users), key);
      key != "" && u.Some? && IsTrue(old(db.users)[u.value].isVerified) ==> r == Ok(AlreadyVerified)
    ensures var key := ResendKey(login); var u := FindByLogin(old(db.users), key);
      r == Ok(Queued(mail)) <==> key != "" && u.Some? && !IsTrue(old(db.users)[u.value].isVerified)
    ensures var u := FindByLogin(old(db.users), ResendKey(login));
      r == Ok(Queued(mail)) ==>
        && db.verifications == old(db.verifications) + [NewToken(old(db.nextId), old(db.users)[u.value].id, token, now)]
        && db.nextId == old(db.nextId) + 1
    ensures r != Ok(Queued(mail)) ==> unchanged(db)
  {
    var key := ResendKey(login);
    if key == "" {
      return Err(ApiError(400, MissingLoginMessage));
    }
    var u := FindByLogin(db.users, key);
    if u.None? {
      return Err(ApiError(404, NoUserMessage));
    }
    if IsTrue(db.users[u.value].isVerified) {
      return Ok(AlreadyVerified);
    }
    var t := NewToken(db.nextId, db.users[u.value].id, token, now);
    IssueKeepsOk(db.users, db.verifications, db.resets, db.nextId, t, db.verifications + [t], db.nextId + 1);
    db.verifications := db.verifications + [t];
    db.nextId := db.nextId + 1;
    r := Ok(Queued(mail));
  }

  /** The store invariant survives issuing a token with a new value under
      the next id. */
  lemma IssueKeepsOk(users: seq<User>, ts: seq<Token>, resets: seq<Token>, n: nat, t: Token, ts': seq<Token>, n': nat)
    requires UsersOk(users, n) && TokensOk(ts, n) && TokensOk(resets, n)
    requires t.id == n && FreshToken(ts, t.token)
    requires ts' == ts + [t] && n' == n + 1
    ensures UsersOk(users, n') && TokensOk(ts', n') && TokensOk(resets, n')
  {
    GrowUsersOk(users, n, n');
    AddTokenKeepsTokensOk(ts, n, t);
    GrowTokensOk(resets, n, n');
  }

  /** `GET /:token?`. */
  method Verify(db: AccountDb, path: string, query: string, queryCap: string, now: int) returns (r: Result<string>)
    requires db.Valid()
    modifies db
    ensures db.Valid() && db.resets == old(db.resets) && db.nextId == old(db.nextId)
    ensures VerifyKey(path, query, queryCap) == "" ==> r == Err(ApiError(400, MissingTokenMessage))
    ensures var t := VerifyKey(path, query, queryCap);
      t != "" && FindLive(old(db.verifications), t, now).None? ==> r == Err(ApiError(400, InvalidTokenMessage))
    ensures var t := VerifyKey(path, query, queryCap);
      r.Ok? <==> t != "" && FindLive(old(db.verifications), t, now).Some?
    ensures var t := VerifyKey(path, query, queryCap);
      r.Ok? ==>
        var k := FindLive(old(db.verifications), t, now).value;
        && r.value == VerifiedMessage
        && db.verifications == ConsumeAt(old(db.verifications), k, now)
        && db.users == Update(old(db.users), ById(old(db.verifications)[k].userId), SetVerified(now))
    ensures r.Ok? ==> forall later :: FindLive(db.verifications, VerifyKey(path, query, queryCap), later).None?
    ensures r.Err? ==> unchanged(db)
  {
    var t := VerifyKey(path, query, queryCap);
    if t == "" {
      return Err(ApiError(400, MissingTokenMessage));
    }
    var k := FindLive(db.verifications, t, now);
    if k.None? {
      return Err(ApiError(400, InvalidTokenMessage));
    }
    var tok := db.verifications[k.value];
    var ts' := ConsumeAt(db.verifications, k.value, now);
    UpdateOwner(db.users, db.nextId, ById(tok.userId), SetVerified(now));
    ConsumeOnce(db.verifications, db.nextId, k.value, now, ts');
    db.users := Update(db.users, ById(tok.userId), SetVerified(now));
    db.verifications := ts';
    r := Ok(VerifiedMessage);
  }

  /** The lifecycle of a verification token: issued at `issued`, it is
      accepted at any `now` before `issued` plus one hour, and once accepted
      never again. */
  lemma TokenLifecycle(ts: seq<Token>, n: nat, userId: nat, value: string, issued: int, now: int)
    requires TokensOk(ts, n) && FreshToken(ts, value)
    requires issued <= now
    ensures var ts1 := ts + [NewToken(n, userId, value, issued)];
      && (FindLive(ts1, value, now).Some? <==> now < issued + TokenLifetime)
      && (now < issued + TokenLifetime ==>
            FindLive(ts1, value, now) == Some(|ts|) &&
            forall later :: FindLive(ConsumeAt(ts1, |ts|, now), value, later).None?)
  {
    var t := NewToken(n, userId, value, issued);
    var ts1 := ts + [t];
    AddTokenKeepsTokensOk(ts, n, t);
    assert forall j :: 0 <= j < |ts| ==> ts1[j] == ts[j] && !Live(ts1[j], value, now);
    NewTokenLiveIff(n, userId, value, issued, value, now);
    assert ts1[|ts|] == t;
    if now < issued + TokenLifetime {
      var f := FindLive(ts1, value, now);
      assert f.Some?;
      ConsumeOnce(ts1, n + 1, |ts|, now, ConsumeAt(ts1, |ts|, now));
    }
  }
}

/** `POST /api/register` of `server/src/routes/register.js`: field
    normalisation and validation, then the insertion of an unverified user
    and of a one-hour verification token. The bcrypt hash, the random token
    and the outcome of the mail delivery are parameters. */
module Register {
  import opened Common
  import opened Accounts

  datatype RegisterRequest = RegisterRequest(firstName: string, lastName: string, login: string, password: string)

  /** The normalised fields: names trimmed, login lower-cased and trimmed,
      password as given. */
  datatype Fields = Fields(first: string, last: string, email: string, pass: string)

  const MissingMessage := "Missing required field(s)."
  const EmailMessage := "Invalid email format."
  const LengthMessage := "Password must be at least 8 characters."
  const DuplicateMessage := "Login already exists."

  function Normalize(req: RegisterRequest): (f: Fields)
    ensures f.first == Trim(req.firstName) && f.last == Trim(req.lastName)
    ensures f.email == Trim(Lower(req.login)) && f.pass == req.password
  {
    Fields(Trim(req.firstName), Trim(req.lastName), Trim(Lower(req.login)), req.password)
  }

  predicate NoAt(s: string) {
    forall i :: 0 <= i < |s| ==> s[i] != '@'
  }

  /** `s` is `a@b.c` cut at the '@' at `i` and the '.' at `j`, with `a`,
      `b` and `c` non-empty and free of '@'. */
  predicate EmailSplit(s: string, i: int, j: int) {
    && 0 < i && i + 1 < j && j + 1 < |s| && s[i] == '@' && s[j] == '.'
    && NoAt(s[..i]) && NoAt(s[i + 1..j]) && NoAt(s[j + 1..])
  }

  /** `/^[^@]+@[^@]+\.[^@]+$/.test(s)`. */
  predicate EmailShaped(s: string) {
    exists i, j | 0 <= i < |s| && 0 <= j < |s| :: EmailSplit(s, i, j)
  }

  /** The only '@' of `s` is at `i`, with something before it. */
  predicate SingleAt(s: string, i: int) {
    0 < i < |s| && s[i] == '@' && NoAt(s[..i]) && NoAt(s[i + 1..])
  }

  /** A '.' at `j`, after the character that follows `i` and before the
      last character. */
  predicate DotInside(s: string, i: int, j: int) {
    0 <= i && i + 1 < j < |s| - 1 && s[j] == '.'
  }

  lemma SplitIsSingleAt(s: string, i: int, j: int)
    requires EmailSplit(s, i, j)
    ensures SingleAt(s, i) && DotInside(s, i, j)
  {
    assert NoAt(s[i + 1..]) by {
      forall k | i + 1 <= k < |s| ensures s[k] != '@' {
        if k < j { assert s[k] == s[i + 1..j][k - i - 1]; }
        else if k > j { assert s[k] == s[j + 1..][k - j - 1]; }
      }
    }
  }

  lemma SingleAtIsSplit(s: string, i: int, j: int)
    requires SingleAt(s, i) && DotInside(s, i, j)
    ensures EmailSplit(s, i, j)
  {
    var d := s[i + 1..];
    NoAtSlice(d, 0, j - i - 1);
    assert d[0..j - i - 1] == s[i + 1..j];
    NoAtSlice(d, j - i, |d|);
    assert d[j - i..|d|] == s[j + 1..];
  }

  /** The regular expression, read off: exactly one '@', something before
      it, and after it a '.' with something on either side. */
  lemma EmailShapedIff(s: string)
    ensures EmailShaped(s) <==> exists i, j :: SingleAt(s, i) && DotInside(s, i, j)
  {
    if EmailShaped(s) {
      var i, j :| EmailSplit(s, i, j);
      SplitIsSingleAt(s, i, j);
    }
    if exists i, j :: SingleAt(s, i) && DotInside(s, i, j) {
      var i, j :| SingleAt(s, i) && DotInside(s, i, j);
      SingleAtIsSplit(s, i, j);
    }
  }

  lemma NoAtSlice(s: string, a: nat, b: nat)
    requires NoAt(s) && a <= b <= |s|
    ensures NoAt(s[a..b])
  {
    assert forall k :: 0 <= k < b - a ==> s[a..b][k] == s[a + k];
  }

  /** The checks before any write, in the source's order: missing field,
      email shape, password length. */
  function Validate(req: RegisterRequest): (r: Result<Fields>)
    ensures r.Ok? ==> r.value == Normalize(req)
  {
    var f := Normalize(req);
    if f.first == "" || f.last == "" || f.email == "" || f.pass == "" then Err(ApiError(400, MissingMessage))
    else if !EmailShaped(f.email) then Err(ApiError(400, EmailMessage))
    else if |f.pass| < 8 then Err(ApiError(400, LengthMessage))
    else Ok(f)
  }

  /** Validation accepts exactly the requests whose normalised fields are
      all non-empty, whose login is email-shaped and whose password has at
      least 8 characters; each refusal names the first check that failed. */
  lemma ValidateIff(req: RegisterRequest)
    ensures var f := Normalize(req);
      Validate(req).Ok? <==>
        f.first != "" && f.last != "" && f.email != "" && EmailShaped(f.email) && |f.pass| >= 8
    ensures var f := Normalize(req);
      (f.first == "" || f.last == "" || f.email == "" || f.pass == "") ==>
        Validate(req) == Err(ApiError(400, MissingMessage))
    ensures var f := Normalize(req);
      (f.first != "" && f.last != "" && f.email != "" && f.pass != "" && !EmailShaped(f.email)) ==>
        Validate(req) == Err(ApiError(400, EmailMessage))
    ensures var f := Normalize(req);
      (f.first != "" && f.last != "" && f.email != "" && f.pass != "" && EmailShaped(f.email) && |f.pass| < 8) ==>
        Validate(req) == Err(ApiError(400, LengthMessage))
  {
  }

  /** What became of the verification mail: SendGrid not configured, the
      result `sendMail` returned, or the message of the error it threw. */
  datatype MailAttempt = NotConfigured | Sent(ok: bool, error: string) | Threw(message: string)

  const NotConfiguredMessage := "Email not sent (SendGrid not configured)"

  /** The `mail` field of the answer. */
  function MailOf(a: MailAttempt): MailStatus {
    match a
    case NotConfigured => MailStatus(false, NotConfiguredMessage)
    case Sent(ok, error) => MailStatus(ok, error)
    case Threw(message) => MailStatus(false, "sendgrid: " + message)
  }

  /** Only a delivery `sendMail` reported as ok is reported as ok; every
      other outcome is recorded with its reason. */
  lemma MailFailureRecorded(a: MailAttempt)
    ensures MailOf(a).ok <==> a.Sent? && a.ok
    ensures a.NotConfigured? ==> MailOf(a).error == NotConfiguredMessage
    ensures a.Threw? ==> MailOf(a).error[..10] == "sendgrid: " && MailOf(a).error[10..] == a.message
  {
  }

  /** The success payload; `mail` is reported outside production only. */
  datatype Registered = Registered(id: nat, firstName: string, lastName: string, mail: Option<MailStatus>)

  /** The user record a registration stores. */
  function NewUser(id: nat, f: Fields, hash: string, now: int): (u: User)
    ensures u.login == f.email && u.isVerified == Bool(false) && u.passwordHash == Some(hash)
    ensures u.firstName == Some(f.first) && u.lastName == Some(f.last) && u.createdAt == Some(now)
  {
    User(id, Some(f.first), Some(f.last), f.email, Some(hash), Bool(false), Some(now), None, None)
  }

  /** The route. `hash` is `bcrypt.hash(pass, 10)`, `createdAt` the clock
      when the user is stored, `token` the random verification token, `now`
      the clock when it is issued and `mail` the delivery outcome. A
      registration whose mail fails still succeeds. */
  method Register(db: AccountDb, req: RegisterRequest, hash: string, createdAt: int, token: string, now: int,
                  mail: MailAttempt, production: bool) returns (r: Result<Registered>)
    requires db.Valid() && FreshToken(db.verifications, token)
    modifies db
    ensures db.Valid() && db.resets == old(db.resets)
    ensures Validate(req).Err? ==> r == Err(Validate(req).error) && unchanged(db)
    ensures Validate(req).Ok? && FindByLogin(old(db.users), Validate(req).value.email).Some? ==>
      r == Err(ApiError(409, DuplicateMessage)) && unchanged(db)
    ensures Validate(req).Ok? && FindByLogin(old(db.users), Validate(req).value.email).None? ==> r.Ok?
    ensures r.Ok? ==>
      var f := Validate(req).value;
      && Validate(req).Ok? && FindByLogin(old(db.users), f.email).None?
      && r.value == Registered(old(db.nextId), f.first, f.last, if production then None else Some(MailOf(mail)))
      && db.users == old(db.users) + [NewUser(old(db.nextId), f, hash, createdAt)]
      && db.verifications == old(db.verifications) + [NewToken(old(db.nextId) + 1, old(db.nextId), token, now)]
      && db.nextId == old(db.nextId) + 2
    ensures r.Err? ==> unchanged(db)
  {
    var v := Validate(req);
    if v.Err? {
      return Err(v.error);
    }
    var f := v.value;
    if FindByLogin(db.users, f.email).Some? {
      return Err(ApiError(409, DuplicateMessage));
    }
    var id := db.nextId;
    Insert(db, NewUser(id, f, hash, createdAt), NewToken(id + 1, id, token, now));
    var m := MailStatus(false, NotConfiguredMessage);
    if !mail.NotConfigured? {
      if mail.Sent? {
        m := MailStatus(mail.ok, mail.error);
      } else {
        m := MailStatus(false, "sendgrid: " + mail.message);
      }
    }
    r := Ok(Registered(id, f.first, f.last, if production then None else Some(m)));
  }

  /** `insertOne` into `Users`, then into `EmailVerification`, under the
      next two ids. */
  method Insert(db: AccountDb, u: User, t: Token)
    requires db.Valid() && u.id == db.nextId && t.id == db.nextId + 1
    requires FindByLogin(db.users, u.login).None? && FreshToken(db.verifications, t.token)
    modifies db
    ensures db.Valid() && db.resets == old(db.resets)
    ensures db.users == old(db.users) + [u] && db.verifications == old(db.verifications) + [t]
    ensures db.nextId == old(db.nextId) + 2
  {
    InsertKeepsOk(db.users, db.verifications, db.resets, db.nextId, u, t,
                  db.users + [u], db.verifications + [t], db.nextId + 2);
    db.users := db.users + [u];
    db.verifications := db.verifications + [t];
    db.nextId := db.nextId + 2;
  }

  /** The store invariant survives adding a user with a new login and a
      token with a new value, under the next two ids. */
  lemma InsertKeepsOk(users: seq<User>, vs: seq<Token>, resets: seq<Token>, n: nat, u: User, t: Token,
                      users': seq<User>, vs': seq<Token>, n': nat)
    requires UsersOk(users, n) && TokensOk(vs, n) && TokensOk(resets, n)
    requires u.id == n && FindByLogin(users, u.login).None?
    requires t.id == n + 1 && FreshToken(vs, t.token)
    requires users' == users + [u] && vs' == vs + [t] && n' == n + 2
    ensures UsersOk(users', n') && TokensOk(vs', n') && TokensOk(resets, n')
  {
    AddUserKeepsUsersOk(users, n, u);
    GrowUsersOk(users', n + 1, n');
    GrowTokensOk(vs, n, n + 1);
    AddTokenKeepsTokensOk(vs, n + 1, t);
    GrowTokensOk(resets, n, n');
  }

  /** A successful registration leaves exactly one live verification token
      for the new user, valid for the next hour and not after. */
  lemma RegisteredTokenLive(ts: seq<Token>, id: nat, userId: nat, token: string, now: int, later: int)
    requires FreshToken(ts, token)
    requires now <= later < now + TokenLifetime
    ensures var ts' := ts + [NewToken(id, userId, token, now)];
      && FindLive(ts', token, later) == Some(|ts|)
      && FindLive(ts', token, now + TokenLifetime).None?
  {
    var t := NewToken(id, userId, token, now);
    var ts' := ts + [t];
    assert forall j :: 0 <= j < |ts| ==> ts'[j] == ts[j] && !Live(ts'[j], token, later);
    assert ts'[|ts|] == t && Live(t, token, later) && !Live(t, token, now + TokenLifetime);
    var r := FindLive(ts', token, later);
    assert r.Some?;
  }
}

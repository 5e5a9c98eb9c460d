/** `POST /api/login` of `server/src/routes/login.js`: a ladder of checks
    that answers with a payload and writes nothing. `bcrypt.compare` is the
    parameter `matches`. */
module Login {
  import opened Common
  import opened Accounts

  /** The `id` of a payload: the string "0" on every failure, else the
      user's id. */
  datatype PayloadId = Zero | UserId(id: nat)

  datatype LoginPayload = LoginPayload(
    id: PayloadId, firstName: string, lastName: string, error: string, needVerification: bool)

  const MissingMessage := "Missing login or password"
  const NoRecordsMessage := "No Records Found"
  const NotVerifiedMessage := "Email not verified"

  /** `errPayload(msg)`. */
  function ErrPayload(msg: string): (p: LoginPayload)
    ensures p.id == Zero && p.firstName == "" && p.lastName == "" && p.error == msg && !p.needVerification
  {
    LoginPayload(Zero, "", "", msg, false)
  }

  /** `String(v ?? "")`. */
  function NameOrEmpty(v: Option<string>): (r: string)
    ensures v.Some? ==> r == v.value
    ensures v.None? ==> r == ""
  {
    if v.Some? then v.value else ""
  }

  /** `okPayload(u)`. */
  function OkPayload(u: User): (p: LoginPayload)
    ensures p.id == UserId(u.id) && p.error == "" && !p.needVerification
    ensures p.firstName == NameOrEmpty(u.firstName) && p.lastName == NameOrEmpty(u.lastName)
  {
    LoginPayload(UserId(u.id), NameOrEmpty(u.firstName), NameOrEmpty(u.lastName), "", false)
  }

  /** The login the route looks up: `String(login).toLowerCase().trim()`. */
  function LoginKey(login: string): string {
    Trim(Lower(login))
  }

  /** The user record found for `email`, with a hash the password matches. */
  predicate Authenticates(users: seq<User>, email: string, pass: string, matches: (string, string) -> bool) {
    var u := FindByLogin(users, email);
    u.Some? && Truthy(users[u.value].passwordHash) && matches(pass, users[u.value].passwordHash.value)
  }

  /** The route's answer for body fields `login` and `password` (absent
      fields are ""). */
  function Login(users: seq<User>, login: string, password: string, matches: (string, string) -> bool): (p: LoginPayload)
  {
    var email := LoginKey(login);
    if email == "" || password == "" then ErrPayload(MissingMessage)
    else
      var u := FindByLogin(users, email);
      if u.None? || !Truthy(users[u.value].passwordHash) || !matches(password, users[u.value].passwordHash.value) then
        ErrPayload(NoRecordsMessage)
      else if !IsTrue(users[u.value].isVerified) then
        LoginPayload(Zero, "", "", NotVerifiedMessage, true)
      else OkPayload(users[u.value])
  }

  /** An empty login (after lower-casing and trimming) or an empty password
      is refused before any lookup. */
  lemma MissingFieldsRefused(users: seq<User>, login: string, password: string, matches: (string, string) -> bool)
    ensures (LoginKey(login) == "" || password == "") <==>
      Login(users, login, password, matches) == ErrPayload(MissingMessage)
  {
  }

  /** An unknown login, a user without a hash and a wrong password all get
      the same answer, whatever the account's verification status. */
  lemma FailuresLookAlike(users: seq<User>, login: string, password: string, matches: (string, string) -> bool)
    requires LoginKey(login) != "" && password != ""
    ensures !Authenticates(users, LoginKey(login), password, matches) <==>
      Login(users, login, password, matches) == ErrPayload(NoRecordsMessage)
  {
  }

  /** Verification is reported only to someone who gave the right password,
      and only when `isVerified` is not exactly `true`. */
  lemma NeedVerificationOnlyAfterPassword(users: seq<User>, login: string, password: string, matches: (string, string) -> bool)
    ensures var p := Login(users, login, password, matches);
      p.needVerification <==>
        && LoginKey(login) != "" && password != ""
        && Authenticates(users, LoginKey(login), password, matches)
        && !IsTrue(users[FindByLogin(users, LoginKey(login)).value].isVerified)
    ensures Login(users, login, password, matches).needVerification ==>
      Login(users, login, password, matches).error == NotVerifiedMessage &&
      Login(users, login, password, matches).id == Zero
  {
  }

  /** A login succeeds exactly when the password matches the stored hash of
      a user whose `isVerified` is `true`; it then returns that user's id and
      names. */
  lemma SuccessIff(users: seq<User>, login: string, password: string, matches: (string, string) -> bool)
    ensures var p := Login(users, login, password, matches);
      p.error == "" <==>
        && LoginKey(login) != "" && password != ""
        && Authenticates(users, LoginKey(login), password, matches)
        && IsTrue(users[FindByLogin(users, LoginKey(login)).value].isVerified)
    ensures var p := Login(users, login, password, matches);
      p.error == "" ==> p == OkPayload(users[FindByLogin(users, LoginKey(login)).value])
  {
  }

  /** A truthy `isVerified` that is not the boolean `true` (say the number
      1) still blocks the login, although the profile view shows the user
      as verified. */
  lemma TruthyIsNotTrue(u: User, password: string, matches: (string, string) -> bool)
    requires u.login == "a@b.c" && u.passwordHash == Some("h") && matches(password, "h") && password != ""
    requires u.isVerified == OtherValue(true)
    ensures FlagTruthy(u.isVerified)
    ensures Login([u], "a@b.c", password, matches).needVerification
  {
    assert Lower("a@b.c") == "a@b.c";
    assert Trim("a@b.c") == "a@b.c";
  }
}

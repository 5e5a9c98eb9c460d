/** The account collections shared by the authentication routes: `Users`,
    `EmailVerification` and `PasswordResets`. Ids of users and of token
    records come from one counter, standing for MongoDB's ObjectIds. */
module Accounts {
  import opened Common

  /** A stored `isVerified` value as JavaScript sees it: never set, a
      boolean, or some other value with its truthiness. The routes test
      `=== true` in some places and truthiness in others. */
  datatype Flag = Unset | Bool(b: bool) | OtherValue(truthy: bool)

  /** `isVerified === true`. */
  predicate IsTrue(f: Flag) {
    f == Bool(true)
  }

  /** `!!isVerified`. */
  predicate FlagTruthy(f: Flag) {
    f == Bool(true) || f == OtherValue(true)
  }

  /** A record of `Users`. */
  datatype User = User(
    id: nat,
    firstName: Option<string>,
    lastName: Option<string>,
    login: string,
    passwordHash: Option<string>,
    isVerified: Flag,
    createdAt: Option<int>,
    verifiedAt: Option<int>,
    updatedAt: Option<int>)

  /** A record of `EmailVerification` or `PasswordResets`. */
  datatype Token = Token(id: nat, userId: nat, token: string, expireAt: int, used: bool, createdAt: int, usedAt: Option<int>)

  /** Tokens are issued for one hour: `now.getTime() + 3600 * 1000`. */
  const TokenLifetime: int := 3600 * 1000

  /** The query `{ token, used: false, expireAt: { $gt: now } }`. */
  predicate Live(t: Token, value: string, now: int) {
    t.token == value && !t.used && t.expireAt > now
  }

  /** `findOne({ login })`: the first user with that login. */
  function FindByLogin(users: seq<User>, login: string): (r: Option<nat>)
    ensures r.Some? ==> r.value < |users| && users[r.value].login == login
    ensures r.Some? ==> forall j :: 0 <= j < r.value ==> users[j].login != login
    ensures r.None? <==> forall j :: 0 <= j < |users| ==> users[j].login != login
  {
    Find(users, ByLogin(login))
  }

  /** `findOne` of a live token with value `value`. */
  function FindLive(ts: seq<Token>, value: string, now: int): (r: Option<nat>)
    ensures r.Some? ==> r.value < |ts| && Live(ts[r.value], value, now)
    ensures r.Some? ==> forall j :: 0 <= j < r.value ==> !Live(ts[j], value, now)
    ensures r.None? <==> forall j :: 0 <= j < |ts| ==> !Live(ts[j], value, now)
  {
    if |ts| == 0 then None
    else if Live(ts[0], value, now) then Some(0)
    else
      var k := FindLive(ts[1..], value, now);
      if k.Some? then Some(k.value + 1) else None
  }

  /** A fresh, unused token record for user `userId`, issued at `now`. */
  function NewToken(id: nat, userId: nat, value: string, now: int): (t: Token)
    ensures !t.used && t.expireAt == now + TokenLifetime && t.userId == userId && t.token == value
    ensures Live(t, value, now) && !Live(t, value, now + TokenLifetime)
  {
    Token(id, userId, value, now + TokenLifetime, false, now, None)
  }

  /** The token record marked used at `now`. */
  function Consumed(t: Token, now: int): (r: Token)
    ensures r.used && r.usedAt == Some(now)
    ensures r.id == t.id && r.userId == t.userId && r.token == t.token && r.expireAt == t.expireAt
    ensures forall value, later :: !Live(r, value, later)
  {
    t.(used := true, usedAt := Some(now))
  }

  /** `updateOne({ _id }, { $set: { used: true, usedAt: now } })` on the
      record at `k`. */
  function ConsumeAt(ts: seq<Token>, k: nat, now: int): (r: seq<Token>)
    requires k < |ts|
    ensures |r| == |ts| && r[k] == Consumed(ts[k], now)
    ensures forall j :: 0 <= j < |ts| && j != k ==> r[j] == ts[j]
  {
    ts[k := Consumed(ts[k], now)]
  }

  // ---------------------------------------------------------------------------
  // Store invariants

  predicate UsersOk(users: seq<User>, nextId: nat) {
    && (forall i :: 0 <= i < |users| ==> users[i].id < nextId)
    && (forall i, j :: 0 <= i < j < |users| ==> users[i].id != users[j].id)
    && (forall i, j :: 0 <= i < j < |users| ==> users[i].login != users[j].login)
  }

  /** Token ids are distinct, and so are token values: a 32-byte random
      token is taken to collide with no earlier one. */
  predicate TokensOk(ts: seq<Token>, nextId: nat) {
    && (forall i :: 0 <= i < |ts| ==> ts[i].id < nextId)
    && (forall i, j :: 0 <= i < j < |ts| ==> ts[i].id != ts[j].id)
    && (forall i, j :: 0 <= i < j < |ts| ==> ts[i].token != ts[j].token)
  }

  /** A token value no record of `ts` carries. */
  predicate FreshToken(ts: seq<Token>, value: string) {
    forall i :: 0 <= i < |ts| ==> ts[i].token != value
  }

  lemma AddUserKeepsUsersOk(users: seq<User>, nextId: nat, u: User)
    requires UsersOk(users, nextId) && u.id == nextId
    requires FindByLogin(users, u.login).None?
    ensures UsersOk(users + [u], nextId + 1)
  {
    assert forall i :: 0 <= i < |users| ==> (users + [u])[i] == users[i];
  }

  lemma GrowUsersOk(users: seq<User>, nextId: nat, n: nat)
    requires UsersOk(users, nextId) && nextId <= n
    ensures UsersOk(users, n)
  {
  }

  lemma AddTokenKeepsTokensOk(ts: seq<Token>, nextId: nat, t: Token)
    requires TokensOk(ts, nextId) && t.id == nextId && FreshToken(ts, t.token)
    ensures TokensOk(ts + [t], nextId + 1)
  {
    assert forall i :: 0 <= i < |ts| ==> (ts + [t])[i] == ts[i];
  }

  lemma GrowTokensOk(ts: seq<Token>, nextId: nat, n: nat)
    requires TokensOk(ts, nextId) && nextId <= n
    ensures TokensOk(ts, n)
  {
  }

  /** Replacing a token record by one with the same id and value keeps the
      invariant. */
  lemma SetTokenKeepsTokensOk(ts: seq<Token>, nextId: nat, i: nat, t: Token)
    requires TokensOk(ts, nextId) && i < |ts| && t.id == ts[i].id && t.token == ts[i].token
    ensures TokensOk(ts[i := t], nextId)
  {
  }

  /** Replacing a user record by one with the same id and login keeps the
      invariant. */
  lemma SetUserKeepsUsersOk(users: seq<User>, nextId: nat, i: nat, u: User)
    requires UsersOk(users, nextId) && i < |users| && u.id == users[i].id && u.login == users[i].login
    ensures UsersOk(users[i := u], nextId)
  {
  }

  /** With distinct token values, a used record is the only one with its
      value, so that value is live nowhere. */
  lemma UsedValueIsDead(ts: seq<Token>, nextId: nat, i: nat, later: int)
    requires TokensOk(ts, nextId) && i < |ts| && ts[i].used
    ensures FindLive(ts, ts[i].token, later).None?
  {
    forall j | 0 <= j < |ts| ensures !Live(ts[j], ts[i].token, later) {
      if j != i {
        assert ts[j].token != ts[i].token by {
          if j < i { assert ts[j].token != ts[i].token; } else { assert ts[i].token != ts[j].token; }
        }
      }
    }
  }

  /** The `$set` documents the routes apply to a user record. */
  datatype UserSet =
    | SetVerified(at: int)
    | SetHash(hash: string)
    | SetNames(first: Option<string>, last: Option<string>, at: int)

  function ApplySet(u: User, s: UserSet): (r: User)
    ensures r.id == u.id && r.login == u.login
  {
    match s
    case SetVerified(at) => u.(isVerified := Bool(true), verifiedAt := Some(at))
    case SetHash(hash) => u.(passwordHash := Some(hash))
    case SetNames(first, last, at) =>
      u.(firstName := if first.Some? then first else u.firstName,
         lastName := if last.Some? then last else u.lastName,
         updatedAt := Some(at))
  }

  /** The filter of a `findOne` or `updateOne` on `Users`: `{ _id }` or
      `{ login }`. */
  datatype Lookup = ById(id: nat) | ByLogin(login: string)

  predicate Matches(u: User, q: Lookup) {
    match q
    case ById(id) => u.id == id
    case ByLogin(login) => u.login == login
  }

  /** `findOne(q)`: the first matching record. */
  function Find(users: seq<User>, q: Lookup): (r: Option<nat>)
    ensures r.Some? ==> r.value < |users| && Matches(users[r.value], q)
    ensures r.Some? ==> forall j :: 0 <= j < r.value ==> !Matches(users[j], q)
    ensures r.None? <==> forall j :: 0 <= j < |users| ==> !Matches(users[j], q)
  {
    if |users| == 0 then None
    else if Matches(users[0], q) then Some(0)
    else
      var k := Find(users[1..], q);
      if k.Some? then Some(k.value + 1) else None
  }

  /** `updateOne(q, { $set: s })`: the first matching record, if any. */
  function Update(users: seq<User>, q: Lookup, s: UserSet): seq<User> {
    var i := Find(users, q);
    if i.None? then users else users[i.value := ApplySet(users[i.value], s)]
  }

  /** With distinct ids and logins, an update rewrites the one record the
      filter matches and no other, keeps the invariant, and the same filter
      still finds the same record afterwards. */
  lemma UpdateOwner(users: seq<User>, n: nat, q: Lookup, s: UserSet)
    requires UsersOk(users, n)
    ensures var r := Update(users, q, s);
      && UsersOk(r, n) && |r| == |users|
      && (forall j :: 0 <= j < |users| && !Matches(users[j], q) ==> r[j] == users[j])
      && (forall j :: 0 <= j < |users| && Matches(users[j], q) ==> r[j] == ApplySet(users[j], s))
      && Find(r, q) == Find(users, q)
  {
    var i := Find(users, q);
    if i.Some? {
      var r := Update(users, q, s);
      SetUserKeepsUsersOk(users, n, i.value, ApplySet(users[i.value], s));
      assert forall j :: 0 <= j < |users| ==> (Matches(r[j], q) <==> Matches(users[j], q));
    }
  }

  /** An issued token is live, for its own value only, until it expires. */
  lemma NewTokenLiveIff(id: nat, userId: nat, value: string, issued: int, asked: string, later: int)
    ensures Live(NewToken(id, userId, value, issued), asked, later) <==>
      asked == value && later < issued + TokenLifetime
  {
  }

  /** Consuming the live record `k` keeps the invariant, kills its value
      for good and leaves the lookup of every other value as it was. */
  lemma ConsumeOnce(ts: seq<Token>, nextId: nat, k: nat, now: int, ts': seq<Token>)
    requires TokensOk(ts, nextId) && k < |ts|
    requires ts' == ConsumeAt(ts, k, now)
    ensures TokensOk(ts', nextId)
    ensures forall later :: FindLive(ts', ts[k].token, later).None?
    ensures forall value, later :: value != ts[k].token ==> FindLive(ts', value, later) == FindLive(ts, value, later)
  {
    SetTokenKeepsTokensOk(ts, nextId, k, Consumed(ts[k], now));
    forall later ensures FindLive(ts', ts[k].token, later).None? {
      UsedValueIsDead(ts', nextId, k, later);
    }
    forall value, later | value != ts[k].token
      ensures FindLive(ts', value, later) == FindLive(ts, value, later)
    {
      assert forall j :: 0 <= j < |ts| ==> (Live(ts'[j], value, later) <==> Live(ts[j], value, later));
    }
  }

  /** What `sendMail` returns: `{ ok, error }`. */
  datatype MailStatus = MailStatus(ok: bool, error: string)

  /** The three collections of account data, with one id counter. */
  class AccountDb {
    var users: seq<User>
    var verifications: seq<Token>
    var resets: seq<Token>
    var nextId: nat

    ghost predicate Valid()
      reads this
    {
      UsersOk(users, nextId) && TokensOk(verifications, nextId) && TokensOk(resets, nextId)
    }

    constructor ()
      ensures Valid() && users == [] && verifications == [] && resets == []
    {
      users, verifications, resets := [], [], [];
      nextId := 0;
    }
  }
}

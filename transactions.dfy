/** The transaction manager of `server/src/routes/transactions.js`: the
    amount, type and date parsers, resolution of a transaction's category
    against the user's budget for its period, and the owner-scoped
    Transactions collection with create, filtered paged listing and delete. */
module Transactions {
  import opened Common
  import opened Sorting
  import opened Budgets

  const UserMessage: string := "Missing or invalid userId"
  const AmountMessage: string := "Invalid amount (must be > 0)"
  const TypeMessage: string := "Invalid" + " type (use \"income\" or \"expense\")"
  const DateMessage: string := "Invalid date"
  const CategoryMessage: string := "Category" + " not in budget (and no \"Other\" category found)"

  /** The status the create route's `catch` gives a thrown message: 400 when
      it mentions, in any case, "invalid", "missing", "use", "budget" or
      "category", else 500. */
  function StatusFor(msg: string): int {
    var m := Lower(msg);
    if Contains(m, "invalid") || Contains(m, "missing") || Contains(m, "use") ||
       Contains(m, "budget") || Contains(m, "category")
    then 400 else 500
  }

  /** Every message the create route throws is classified as a client error. */
  lemma ThrownMessagesAreClientErrors()
    ensures StatusFor(UserMessage) == 400
    ensures StatusFor(AmountMessage) == 400
    ensures StatusFor(TypeMessage) == 400
    ensures StatusFor(DateMessage) == 400
    ensures StatusFor(CategoryMessage) == 400
  {
    StartsWithLowered(UserMessage, "missing");
    StartsWithLowered(AmountMessage, "invalid");
    StartsWithLowered(TypeMessage, "invalid");
    StartsWithLowered(DateMessage, "invalid");
    StartsWithLowered(CategoryMessage, "category");
  }

  lemma StartsWithLowered(msg: string, w: string)
    requires |w| <= |msg| && Lower(msg[..|w|]) == w
    ensures Contains(Lower(msg), w)
  {
    assert OccursAt(w, Lower(msg), 0);
  }

  /** `getUserId`: the first id sent (body, query, header) must be valid. */
  function GetUserId(c: Caller): (r: Result<nat>)
    ensures r.Ok? <==> FirstGiven(c.body, c.query, c.header).Oid?
    ensures r.Ok? ==> r.value == FirstGiven(c.body, c.query, c.header).id
    ensures r.Err? ==> r.error == ApiError(400, UserMessage)
  {
    var given := FirstGiven(c.body, c.query, c.header);
    if given.Oid? then Ok(given.id) else Err(ApiError(400, UserMessage))
  }

  /** `parseAmount`: only finite numbers above zero. */
  function ParseAmount(n: Num): (r: Result<real>)
    ensures r.Ok? <==> n.Finite? && n.v > 0.0
    ensures r.Ok? ==> r.value == n.v
    ensures r.Err? ==> r.error == ApiError(400, AmountMessage)
  {
    if n.Finite? && n.v > 0.0 then Ok(n.v) else Err(ApiError(400, AmountMessage))
  }

  predicate ValidKind(s: string) {
    s == "income" || s == "expense"
  }

  /** `parseType`: "income" or "expense" after lower-casing and trimming. */
  function ParseType(t: Option<string>): (r: Result<string>)
    ensures r.Ok? <==> ValidKind(Trim(Lower(OrDefault(t, ""))))
    ensures r.Ok? ==> r.value == Trim(Lower(OrDefault(t, "")))
    ensures r.Err? ==> r.error == ApiError(400, TypeMessage)
  {
    var s := Trim(Lower(OrDefault(t, "")));
    if ValidKind(s) then Ok(s) else Err(ApiError(400, TypeMessage))
  }

  /** A parsed type parses to itself. */
  lemma ParseTypeStable(t: Option<string>)
    requires ParseType(t).Ok?
    ensures ParseType(Some(ParseType(t).value)) == ParseType(t)
  {
    var v := ParseType(t).value;
    if v == "income" {
      KindIsNormal("income");
    } else {
      KindIsNormal("expense");
    }
  }

  lemma KindIsNormal(v: string)
    requires v == "income" || v == "expense"
    ensures Trim(Lower(v)) == v
  {
    assert Lower(v) == v by {
      assert forall i :: 0 <= i < |v| ==> 'a' <= v[i] <= 'z';
    }
    assert NoEdgeSpace(v);
  }

  /** `parseDate`: blank means now; an unparsable date is an error. */
  function ParseDate(d: DateIn, now: int): (r: Result<int>)
    ensures r.Ok? <==> !d.BadDate?
    ensures d.Blank? ==> r == Ok(now)
    ensures d.At? ==> r == Ok(d.ms)
    ensures r.Err? ==> r.error == ApiError(400, DateMessage)
  {
    match d
    case Blank => Ok(now)
    case BadDate(_) => Err(ApiError(400, DateMessage))
    case At(ms) => Ok(ms)
  }

  // ---------------------------------------------------------------------------
  // Category resolution

  /** `categories.find(c => c.name.toLowerCase() === key)`: the position of
      the first category whose lower-cased name is `key`. */
  function FindLowered(cats: seq<Category>, key: string): (r: Option<nat>)
    ensures r.Some? ==> r.value < |cats| && Lower(cats[r.value].name) == key
    ensures r.Some? ==> forall j :: 0 <= j < r.value ==> Lower(cats[j].name) != key
    ensures r.None? <==> forall j :: 0 <= j < |cats| ==> Lower(cats[j].name) != key
  {
    if |cats| == 0 then None
    else if Lower(cats[0].name) == key then Some(0)
    else
      var k := FindLowered(cats[1..], key);
      if k.Some? then Some(k.value + 1) else None
  }

  /** `matchCategoryName`: the stored name of the first category equal to
      the trimmed input up to case. */
  function MatchCategoryName(input: string, cats: seq<Category>): (r: Option<string>)
    ensures r.Some? <==> exists i :: 0 <= i < |cats| && Lower(cats[i].name) == Lower(Trim(input))
    ensures r.Some? ==>
      exists i :: 0 <= i < |cats| && cats[i].name == r.value && Lower(r.value) == Lower(Trim(input)) &&
        (forall j :: 0 <= j < i ==> Lower(cats[j].name) != Lower(Trim(input)))
  {
    var k := FindLowered(cats, Lower(Trim(input)));
    if k.Some? then Some(cats[k.value].name) else None
  }

  /** `pickExpenseCategory`: the matching stored name; failing that, the
      first category named "other" in any case; failing that, an error. */
  function PickExpenseCategory(requested: string, cats: seq<Category>): (r: Result<string>)
    ensures r.Ok? ==> exists i :: 0 <= i < |cats| && cats[i].name == r.value
    ensures var m := MatchCategoryName(requested, cats);
      m.Some? && m.value != "" ==> r == Ok(m.value)
    ensures var m := MatchCategoryName(requested, cats);
      (m.None? || m.value == "") && FindLowered(cats, "other").Some? ==>
        r == Ok(cats[FindLowered(cats, "other").value].name)
    ensures r.Err? <==>
      (MatchCategoryName(requested, cats).None? || MatchCategoryName(requested, cats).value == "") &&
      FindLowered(cats, "other").None?
    ensures r.Err? ==> r.error == ApiError(400, CategoryMessage)
  {
    var m := MatchCategoryName(requested, cats);
    if m.Some? && m.value != "" then Ok(m.value)
    else
      var o := FindLowered(cats, "other");
      if o.Some? then Ok(cats[o.value].name)
      else Err(ApiError(400, CategoryMessage))
  }

  /** With the names of a stored budget (never empty), an expense is
      rejected exactly when the requested name matches no category and the
      budget has no "other" category. */
  lemma ExpenseRejectedIff(requested: string, cats: seq<Category>)
    requires WellFormedCategories(cats)
    ensures PickExpenseCategory(requested, cats).Err? <==>
      (forall i :: 0 <= i < |cats| ==> Lower(cats[i].name) != Lower(Trim(requested)) && Lower(cats[i].name) != "other")
  {
    var m := MatchCategoryName(requested, cats);
    if m.Some? {
      var i :| 0 <= i < |cats| && cats[i].name == m.value;
      assert cats[i].name != "";
    }
  }

  /** An income keeps its trimmed category unless it matches a budget
      category, in which case it takes the stored spelling. */
  function IncomeCategory(category: string, cats: seq<Category>): (r: string)
    ensures category == "" ==> r == category
    ensures category != "" && MatchCategoryName(category, cats).Some? && MatchCategoryName(category, cats).value != "" ==>
      r == MatchCategoryName(category, cats).value
    ensures !(category != "" && MatchCategoryName(category, cats).Some? && MatchCategoryName(category, cats).value != "") ==>
      r == category
    ensures r == category || exists i :: 0 <= i < |cats| && cats[i].name == r
    ensures Lower(r) == Lower(Trim(category)) || r == category
  {
    if category == "" then category
    else
      var m := MatchCategoryName(category, cats);
      if m.Some? && m.value != "" then m.value else category
  }

  /** Over well-formed categories, a non-empty income category that names a
      budget category in any case is stored as the first such category's
      own spelling; one that names none is kept as sent. */
  lemma IncomeCategorySpelling(category: string, cats: seq<Category>)
    requires WellFormedCategories(cats)
    requires category != ""
    ensures (exists i :: 0 <= i < |cats| && Lower(cats[i].name) == Lower(Trim(category))) ==>
      exists i :: 0 <= i < |cats| && IncomeCategory(category, cats) == cats[i].name &&
        Lower(cats[i].name) == Lower(Trim(category)) &&
        (forall j :: 0 <= j < i ==> Lower(cats[j].name) != Lower(Trim(category)))
    ensures (forall i :: 0 <= i < |cats| ==> Lower(cats[i].name) != Lower(Trim(category))) ==>
      IncomeCategory(category, cats) == category
  {
    var m := MatchCategoryName(category, cats);
    if m.Some? {
      var i :| 0 <= i < |cats| && cats[i].name == m.value && Lower(m.value) == Lower(Trim(category)) &&
        (forall j :: 0 <= j < i ==> Lower(cats[j].name) != Lower(Trim(category)));
      assert CleanName(cats[i].name);
    }
  }

  // ---------------------------------------------------------------------------
  // The Transactions collection

  datatype Transaction = Transaction(
    id: nat, userId: nat, amount: real, kind: string, category: string,
    description: string, paymentMethod: string, period: string,
    date: int, createdAt: int, updatedAt: int)

  /** The body of a create request; absent string fields are `None`. */
  datatype TxRequest = TxRequest(
    kind: Option<string>, date: DateIn, amount: Num, period: Option<string>,
    category: Option<string>, description: Option<string>, paymentMethod: Option<string>)

  /** `loadBudgetForUser`: the first budget of `user` for `period`. */
  function FindBudget(bs: seq<Budget>, user: nat, period: string): (r: Option<nat>)
    ensures r.Some? ==> r.value < |bs| && bs[r.value].userId == user && bs[r.value].period == period
    ensures r.None? <==> !HasPeriod(bs, user, period)
  {
    if |bs| == 0 then None
    else if bs[0].userId == user && bs[0].period == period then Some(0)
    else
      var k := FindBudget(bs[1..], user, period);
      assert k.None? ==> forall j :: 1 <= j < |bs| ==> !(bs[j].userId == user && bs[j].period == period) by {
        if k.None? {
          forall j | 1 <= j < |bs| ensures !(bs[j].userId == user && bs[j].period == period) {
            assert bs[j] == bs[1..][j - 1];
          }
        }
      }
      if k.Some? then Some(k.value + 1) else None
  }

  function TxPeriod(req: TxRequest): string {
    NormPeriod(OrDefault(req.period, "monthly"))
  }

  /** The category stored for a transaction of kind `kind`. */
  function ResolveCategory(kind: string, category: string, cats: seq<Category>): Result<string> {
    if kind == "expense" then PickExpenseCategory(category, cats) else Ok(IncomeCategory(category, cats))
  }

  /** The record the create route inserts, or the error it stops at: the
      caller, type, date and amount are checked in that order, then the
      caller's budget for the period (default "monthly") must exist, then
      the category is resolved against that budget. An expense must resolve
      to a budget category; an income keeps its own category, spelled as
      the budget spells it when it matches. */
  function NewTransaction(caller: Caller, req: TxRequest, budgets: seq<Budget>, now: int, id: nat)
    : (r: Result<Transaction>)
    ensures GetUserId(caller).Err? ==> r == Err(GetUserId(caller).error)
    ensures GetUserId(caller).Ok? && ParseType(req.kind).Err? ==> r == Err(ParseType(req.kind).error)
    ensures (GetUserId(caller).Ok? && ParseType(req.kind).Ok? && ParseDate(req.date, now).Err?) ==>
      r == Err(ParseDate(req.date, now).error)
    ensures (GetUserId(caller).Ok? && ParseType(req.kind).Ok? && ParseDate(req.date, now).Ok? &&
      ParseAmount(req.amount).Err?) ==> r == Err(ParseAmount(req.amount).error)
    ensures (GetUserId(caller).Ok? && ParseType(req.kind).Ok? && ParseDate(req.date, now).Ok? &&
      ParseAmount(req.amount).Ok? && !HasPeriod(budgets, GetUserId(caller).value, TxPeriod(req))) ==>
      r == Err(ApiError(400, "No " + TxPeriod(req) + " budget found for this user"))
    ensures r.Err? ==> r.error.status == 400
    ensures r.Ok? ==> StoredTx(r.value)
    ensures r.Ok? ==>
      var t := r.value;
      var b := FindBudget(budgets, t.userId, t.period);
      && t.id == id
      && GetUserId(caller) == Ok(t.userId)
      && ParseType(req.kind) == Ok(t.kind)
      && ParseDate(req.date, now) == Ok(t.date)
      && ParseAmount(req.amount) == Ok(t.amount)
      && t.period == TxPeriod(req)
      && b.Some?
      && ResolveCategory(t.kind, Trim(OrDefault(req.category, "")), budgets[b.value].categories) == Ok(t.category)
      && t.description == OrDefault(req.description, "")
      && t.paymentMethod == OrDefault(req.paymentMethod, "")
      && t.createdAt == now && t.updatedAt == now
  {
    var user := GetUserId(caller);
    var kind := ParseType(req.kind);
    var date := ParseDate(req.date, now);
    var amount := ParseAmount(req.amount);
    if user.Err? then Err(user.error)
    else if kind.Err? then Err(kind.error)
    else if date.Err? then Err(date.error)
    else if amount.Err? then Err(amount.error)
    else
      var period := TxPeriod(req);
      var b := FindBudget(budgets, user.value, period);
      if b.None? then Err(ApiError(400, "No " + period + " budget found for this user"))
      else
        var category := ResolveCategory(kind.value, Trim(OrDefault(req.category, "")), budgets[b.value].categories);
        if category.Err? then Err(category.error)
        else
          Ok(Transaction(id, user.value, amount.value, kind.value, category.value,
                         OrDefault(req.description, ""), OrDefault(req.paymentMethod, ""), period,
                         date.value, now, now))
  }

  /** An expense is stored under a name of its budget's categories. */
  lemma ExpenseCategoryInBudget(caller: Caller, req: TxRequest, budgets: seq<Budget>, now: int, id: nat)
    requires NewTransaction(caller, req, budgets, now, id).Ok?
    requires NewTransaction(caller, req, budgets, now, id).value.kind == "expense"
    ensures var t := NewTransaction(caller, req, budgets, now, id).value;
      exists i, k :: 0 <= i < |budgets| && budgets[i].userId == t.userId && budgets[i].period == t.period &&
        0 <= k < |budgets[i].categories| && budgets[i].categories[k].name == t.category
  {
    var t := NewTransaction(caller, req, budgets, now, id).value;
    var b := FindBudget(budgets, t.userId, t.period).value;
    var k :| 0 <= k < |budgets[b].categories| && budgets[b].categories[k].name == t.category;
  }

  function ByDate(t: Transaction): Rank {
    Rank(t.date, t.id)
  }

  /** Listing filter: owner, and the optional type, category, period and the
      date range `[from, to)`. */
  datatype TxFilter = TxFilter(
    user: nat, kind: Option<string>, category: Option<string>, period: Option<string>,
    from: Option<int>, to: Option<int>)

  predicate Selected(t: Transaction, f: TxFilter) {
    && t.userId == f.user
    && (f.kind.Some? ==> t.kind == f.kind.value)
    && (f.category.Some? ==> t.category == f.category.value)
    && (f.period.Some? ==> t.period == f.period.value)
    && (f.from.Some? ==> t.date >= f.from.value)
    && (f.to.Some? ==> t.date < f.to.value)
  }

  function Select(ts: seq<Transaction>, f: TxFilter): (r: seq<Transaction>)
    ensures forall t :: t in r <==> t in ts && Selected(t, f)
    ensures |r| <= |ts|
  {
    if |ts| == 0 then []
    else
      var rest := Select(ts[1..], f);
      assert forall t :: t in ts <==> t == ts[0] || t in ts[1..];
      if Selected(ts[0], f) then [ts[0]] + rest else rest
  }

  /** The query string of a listing. */
  datatype TxQuery = TxQuery(
    kind: Option<string>, category: Option<string>, period: Option<string>,
    from: DateIn, to: DateIn, limit: Option<int>, offset: Option<int>)

  /** The filter a listing query builds, or the error it stops at. */
  function BuildFilter(user: nat, q: TxQuery): (r: Result<TxFilter>)
    ensures r.Ok? ==> r.value.user == user
    ensures r.Ok? ==> (r.value.kind.Some? <==> Truthy(q.kind)) && (r.value.kind.Some? ==> ValidKind(r.value.kind.value))
    ensures r.Ok? && r.value.kind.Some? ==> ParseType(q.kind).Ok? && r.value.kind.value == ParseType(q.kind).value
    ensures r.Ok? ==> r.value.category == (if Truthy(q.category) then Some(Trim(q.category.value)) else None)
    ensures r.Ok? ==> r.value.period == (if Truthy(q.period) then Some(NormPeriod(q.period.value)) else None)
    ensures r.Ok? ==> r.value.from == (if q.from.At? then Some(q.from.ms) else None)
    ensures r.Ok? ==> r.value.to == (if q.to.At? then Some(q.to.ms) else None)
    ensures r.Ok? <==> (Truthy(q.kind) ==> ParseType(q.kind).Ok?) && !q.from.BadDate? && !q.to.BadDate?
  {
    var kind := if Truthy(q.kind) then ParseType(q.kind) else Ok("");
    if kind.Err? then Err(ApiError(400, kind.error.message))
    else if q.from.BadDate? then Err(ApiError(400, "Invalid from date"))
    else if q.to.BadDate? then Err(ApiError(400, "Invalid to date"))
    else
      Ok(TxFilter(user,
        if Truthy(q.kind) then Some(kind.value) else None,
        if Truthy(q.category) then Some(Trim(q.category.value)) else None,
        if Truthy(q.period) then Some(NormPeriod(q.period.value)) else None,
        if q.from.At? then Some(q.from.ms) else None,
        if q.to.At? then Some(q.to.ms) else None))
  }

  datatype TxPage = TxPage(items: seq<Transaction>, limit: nat, offset: nat, nextOffset: Option<nat>)

  /** Every stored transaction has a positive amount and a recognised type. */
  predicate StoredTx(t: Transaction) {
    t.amount > 0.0 && ValidKind(t.kind)
  }

  predicate TxInvariant(ts: seq<Transaction>, nextId: nat) {
    && (forall i :: 0 <= i < |ts| ==> ts[i].id < nextId && StoredTx(ts[i]))
    && (forall i, j :: 0 <= i < j < |ts| ==> ts[i].id != ts[j].id)
  }

  lemma AppendTxPreserves(ts: seq<Transaction>, nextId: nat, t: Transaction)
    requires TxInvariant(ts, nextId) && t.id == nextId && StoredTx(t)
    ensures TxInvariant(ts + [t], nextId + 1)
  {
    assert forall i :: 0 <= i < |ts| ==> (ts + [t])[i] == ts[i];
  }

  function IndexOwnedTx(ts: seq<Transaction>, id: nat, user: nat): (r: Option<nat>)
    ensures r.Some? ==> r.value < |ts| && ts[r.value].id == id && ts[r.value].userId == user
    ensures r.None? <==> forall j :: 0 <= j < |ts| ==> !(ts[j].id == id && ts[j].userId == user)
  {
    if |ts| == 0 then None
    else if ts[0].id == id && ts[0].userId == user then Some(0)
    else
      var k := IndexOwnedTx(ts[1..], id, user);
      if k.Some? then Some(k.value + 1) else None
  }

  class TransactionStore {
    var txs: seq<Transaction>
    var nextId: nat

    ghost predicate Valid()
      reads this
    {
      TxInvariant(txs, nextId)
    }

    constructor ()
      ensures Valid() && txs == []
    {
      txs := [];
      nextId := 0;
    }

    /** POST: record the transaction `NewTransaction` builds, with the
        next free id. `budgets` is the Budgets collection. */
    method Create(caller: Caller, req: TxRequest, budgets: seq<Budget>, now: int) returns (r: Result<Transaction>)
      requires Valid()
      modifies this
      ensures Valid()
      ensures r == NewTransaction(caller, req, budgets, now, old(nextId))
      ensures r.Err? ==> txs == old(txs) && nextId == old(nextId)
      ensures r.Ok? ==> txs == old(txs) + [r.value] && nextId == old(nextId) + 1
    {
      r := NewTransaction(caller, req, budgets, now, nextId);
      if r.Ok? {
        AppendTxPreserves(txs, nextId, r.value);
        txs := txs + [r.value];
        nextId := nextId + 1;
      }
    }

    /** GET: the caller's transactions passing the query's filters, latest
        date first (ties broken by id, latest first), one page of 1 to 200
        (default 50) at a non-negative offset. */
    function List(caller: Caller, q: TxQuery): (r: Result<TxPage>)
      reads this
      ensures GetUserId(caller).Err? ==> r == Err(GetUserId(caller).error)
      ensures GetUserId(caller).Ok? ==> (r.Ok? <==> BuildFilter(GetUserId(caller).value, q).Ok?)
      ensures r.Ok? ==>
        var f := BuildFilter(GetUserId(caller).value, q).value;
        var all := SortDesc(Select(txs, f), ByDate);
        && 1 <= r.value.limit <= 200
        && r.value.limit == ClampLimit(q.limit, 50, 200) && r.value.offset == ClampOffset(q.offset)
        && r.value.items == Page(all, r.value.offset, r.value.limit)
        && (r.value.nextOffset.Some? <==> |r.value.items| == r.value.limit)
        && (r.value.nextOffset.Some? ==> r.value.nextOffset.value == r.value.offset + r.value.limit)
    {
      var user := GetUserId(caller);
      if user.Err? then Err(user.error)
      else
        var f := BuildFilter(user.value, q);
        if f.Err? then Err(f.error)
        else
          var limit := ClampLimit(q.limit, 50, 200);
          var offset := ClampOffset(q.offset);
          var items := Page(SortDesc(Select(txs, f.value), ByDate), offset, limit);
          Ok(TxPage(items, limit, offset, NextOffset(|items|, offset, limit)))
    }

    /** DELETE: remove the caller's transaction `id`; any other id leaves the
        collection unchanged. */
    method Delete(caller: Caller, pathId: IdArg) returns (r: Result<nat>)
      requires Valid()
      modifies this
      ensures Valid() && nextId == old(nextId)
      ensures r.Err? ==> txs == old(txs)
      ensures !pathId.Oid? ==> r == Err(ApiError(400, "Invalid id"))
      ensures pathId.Oid? && GetUserId(caller).Err? ==> r == Err(GetUserId(caller).error)
      ensures (pathId.Oid? && GetUserId(caller).Ok? &&
        IndexOwnedTx(old(txs), pathId.id, GetUserId(caller).value).None?) ==>
        r == Err(ApiError(404, "Transaction not found"))
      ensures (pathId.Oid? && GetUserId(caller).Ok? &&
        IndexOwnedTx(old(txs), pathId.id, GetUserId(caller).value).Some?) ==> r == Ok(pathId.id)
      ensures r.Ok? ==>
        pathId.Oid? && GetUserId(caller).Ok? && r.value == pathId.id &&
        var i := IndexOwnedTx(old(txs), pathId.id, GetUserId(caller).value);
        i.Some? && txs == old(txs)[..i.value] + old(txs)[i.value + 1..]
    {
      if !pathId.Oid? {
        return Err(ApiError(400, "Invalid id"));
      }
      var user := GetUserId(caller);
      if user.Err? {
        return Err(user.error);
      }
      var i := IndexOwnedTx(txs, pathId.id, user.value);
      if i.None? {
        return Err(ApiError(404, "Transaction not found"));
      }
      var rest := txs[..i.value] + txs[i.value + 1..];
      assert forall x :: 0 <= x < |rest| ==> rest[x] == (if x < i.value then txs[x] else txs[x + 1]);
      txs := rest;
      return Ok(pathId.id);
    }
  }

  /** The listing holds exactly the caller's transactions that pass the
      filter, and ids make its order total: any arrangement of them sorted
      by (date, id) descending is the listing itself. */
  lemma ListingDetermined(ts: seq<Transaction>, f: TxFilter, other: seq<Transaction>)
    requires forall i, j :: 0 <= i < j < |ts| ==> ts[i].id != ts[j].id
    requires SortedDesc(other, ByDate) && multiset(other) == multiset(Select(ts, f))
    ensures other == SortDesc(Select(ts, f), ByDate)
  {
    var s := Select(ts, f);
    var all := SortDesc(s, ByDate);
    SelectKeepsIdsDistinct(ts, f);
    forall i, j | 0 <= i < j < |all| ensures ByDate(all[i]) != ByDate(all[j]) {
      DistinctIdsInPermutation(s, all, i, j);
    }
    SortedUnique(all, other, ByDate);
  }

  /** Every listed transaction belongs to the caller and passes the filter. */
  lemma PageIsSelected(ts: seq<Transaction>, f: TxFilter, offset: nat, limit: nat)
    ensures forall t :: t in Page(SortDesc(Select(ts, f), ByDate), offset, limit) ==> t in ts && Selected(t, f)
  {
    var s := Select(ts, f);
    var all := SortDesc(s, ByDate);
    forall t | t in Page(all, offset, limit) ensures t in ts && Selected(t, f) {
      var k :| 0 <= k < |Page(all, offset, limit)| && Page(all, offset, limit)[k] == t;
      assert t in all;
      SortedMembers(s, ByDate, t);
    }
  }

  lemma {:induction false} SelectKeepsIdsDistinct(ts: seq<Transaction>, f: TxFilter)
    requires forall i, j :: 0 <= i < j < |ts| ==> ts[i].id != ts[j].id
    ensures forall i, j :: 0 <= i < j < |Select(ts, f)| ==> Select(ts, f)[i].id != Select(ts, f)[j].id
  {
    if |ts| > 0 {
      SelectKeepsIdsDistinct(ts[1..], f);
      var rest := Select(ts[1..], f);
      forall t | t in rest ensures t.id != ts[0].id {
        var k :| 0 <= k < |ts[1..]| && ts[1..][k] == t;
        assert ts[k + 1] == t;
      }
    }
  }

  lemma DistinctIdsInPermutation(s: seq<Transaction>, p: seq<Transaction>, i: nat, j: nat)
    requires forall x, y :: 0 <= x < y < |s| ==> s[x].id != s[y].id
    requires multiset(p) == multiset(s)
    requires i < j < |p|
    ensures p[i].id != p[j].id
  {
    assert p[i] in multiset(s) && p[j] in multiset(s);
    var x :| 0 <= x < |s| && s[x] == p[i];
    var y :| 0 <= y < |s| && s[y] == p[j];
    if x == y {
      MultisetCountsPair(p, i, j);
      CountOfDistinct(s, x);
      assert false;
    }
  }

  lemma MultisetCountsPair<T>(p: seq<T>, i: nat, j: nat)
    requires i < j < |p| && p[i] == p[j]
    ensures multiset(p)[p[i]] >= 2
  {
    assert p == p[..i] + [p[i]] + p[i + 1..j] + [p[j]] + p[j + 1..];
  }

  lemma CountOfDistinct(s: seq<Transaction>, x: nat)
    requires forall a, b :: 0 <= a < b < |s| ==> s[a].id != s[b].id
    requires x < |s|
    ensures multiset(s)[s[x]] == 1
  {
    assert s == s[..x] + [s[x]] + s[x + 1..];
    assert s[x] !in s[..x] by {
      forall a | 0 <= a < x ensures s[..x][a] != s[x] {
        assert s[..x][a] == s[a];
      }
    }
    assert s[x] !in s[x + 1..] by {
      var tail := s[x + 1..];
      forall a | 0 <= a < |tail| ensures tail[a] != s[x] {
        assert tail[a] == s[x + 1 + a];
      }
    }
  }
}

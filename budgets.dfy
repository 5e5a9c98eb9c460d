/** The budget store of `server/src/routes/budgets.js`: validation of category
    lists, the allocation-sum check, and create, update, delete, read and
    paged listing over the Budgets collection, which holds at most one budget
    per (user, period). */
module Budgets {
  import opened Common
  import opened Sorting

  predicate ValidPeriod(p: string) {
    p == "monthly" || p == "weekly" || p == "yearly" || p == "custom"
  }

  const PeriodMessage: string := "Invalid period; use monthly, weekly, yearly, or custom"
  const TotalMessage: string := "total/limit must be a non-negative number"
  const NotFoundMessage: string := "Budget not found"

  /** `String(v).toLowerCase().trim()`. */
  function NormPeriod(s: string): string {
    Trim(Lower(s))
  }

  function ConflictMessage(p: string): string {
    "A " + p + " budget already exists for this user"
  }

  datatype Category = Category(name: string, allocation: real)

  /** One element of a request's `categories` array after `String(c?.name || '')`
      and `Number(c?.allocation)`. */
  datatype RawCategory = RawCategory(name: string, allocation: Num)

  /** A request's `categories` value: something other than an array (or
      nothing), or an array. */
  datatype CategoriesIn = NotArray | Array(items: seq<RawCategory>)

  datatype Budget = Budget(
    id: nat, userId: nat, name: string, limit: real, period: string,
    categories: seq<Category>, startDate: Option<int>, endDate: Option<int>,
    createdAt: int, updatedAt: int)

  /** The public view: the one stored `limit` is reported under both `limit`
      and the legacy name `total`. */
  datatype PublicBudget = PublicBudget(
    id: nat, userId: nat, name: string, limit: real, total: real, period: string,
    startDate: Option<int>, endDate: Option<int>, categories: seq<Category>,
    createdAt: int, updatedAt: int)

  function ToPublic(b: Budget): (r: PublicBudget)
    ensures r.limit == b.limit && r.total == b.limit
    ensures r.id == b.id && r.userId == b.userId && r.period == b.period && r.categories == b.categories
  {
    PublicBudget(b.id, b.userId, b.name, b.limit, b.limit, b.period, b.startDate, b.endDate,
                 b.categories, b.createdAt, b.updatedAt)
  }

  function RequireUser(c: Caller): (r: Result<nat>)
    ensures r.Ok? <==> FirstGiven(c.body, c.query, c.header).Oid?
    ensures r.Ok? ==> r.value == FirstGiven(c.body, c.query, c.header).id
    ensures FirstGiven(c.body, c.query, c.header).Absent? ==> r == Err(ApiError(500, "userId is required"))
    ensures FirstGiven(c.body, c.query, c.header).Malformed? ==> r == Err(ApiError(500, "Invalid userId"))
  {
    match FirstGiven(c.body, c.query, c.header)
    case Absent => Err(ApiError(500, "userId is required"))
    case Malformed => Err(ApiError(500, "Invalid userId"))
    case Oid(id) => Ok(id)
  }

  /** `parseDateMaybe`: blank is `null`, an unparsable string is an error. */
  function ParseDateMaybe(d: DateIn): (r: Result<Option<int>>)
    ensures r.Ok? <==> !d.BadDate?
    ensures d.At? ==> r == Ok(Some(d.ms))
    ensures d.Blank? ==> r == Ok(None)
  {
    match d
    case Blank => Ok(None)
    case BadDate(t) => Err(ApiError(500, "Invalid date format: " + t))
    case At(ms) => Ok(Some(ms))
  }

  /** `'startDate' in inb ? parseDateMaybe(inb.startDate) : null`. */
  function OptionalDate(d: Option<DateIn>): (r: Result<Option<int>>)
    ensures d.None? ==> r == Ok(None)
    ensures d.Some? ==> r == ParseDateMaybe(d.value)
  {
    if d.Some? then ParseDateMaybe(d.value) else Ok(None)
  }

  // ---------------------------------------------------------------------------
  // Category lists

  predicate CategoryOk(c: RawCategory) {
    Trim(c.name) != "" && c.allocation.Finite? && c.allocation.v >= 0.0
  }

  /** The error `normalizeCategories` raises for the first bad element. */
  function CategoryError(c: RawCategory): ApiError {
    if Trim(c.name) == "" then ApiError(500, "Each category needs a non-empty name")
    else ApiError(500, "Invalid allocation for category '" + Trim(c.name) + "'")
  }

  const EmptyCategoriesMessage: string := "categories is required and must be a non-empty array"

  predicate CategoriesOk(raw: CategoriesIn) {
    raw.Array? && |raw.items| > 0 && forall i :: 0 <= i < |raw.items| ==> CategoryOk(raw.items[i])
  }

  /** `out` holds the elements of `raw`, in order, with trimmed names. */
  predicate NormalizedFrom(raw: seq<RawCategory>, out: seq<Category>) {
    |out| == |raw| &&
    forall i :: 0 <= i < |raw| ==>
      raw[i].allocation.Finite? && out[i] == Category(Trim(raw[i].name), raw[i].allocation.v)
  }

  /** The list `normalizeCategories` returns for a list that passes: every
      element, in order, with its name trimmed. */
  function TrimmedCategories(raw: seq<RawCategory>): (out: seq<Category>)
    ensures |out| == |raw|
    ensures forall i :: 0 <= i < |raw| ==> out[i].name == Trim(raw[i].name)
  {
    seq(|raw|, i requires 0 <= i < |raw| =>
      Category(Trim(raw[i].name), if raw[i].allocation.Finite? then raw[i].allocation.v else 0.0))
  }

  /** A normalised list is the trimmed list. */
  lemma NormalizedIsTrimmed(raw: seq<RawCategory>, out: seq<Category>)
    requires NormalizedFrom(raw, out)
    ensures out == TrimmedCategories(raw)
  {
  }

  /** The first element of `raw` that `normalizeCategories` rejects. */
  function FirstBad(raw: seq<RawCategory>): (r: Option<nat>)
    ensures r.Some? ==> r.value < |raw| && !CategoryOk(raw[r.value])
    ensures r.Some? ==> forall j :: 0 <= j < r.value ==> CategoryOk(raw[j])
    ensures r.None? <==> forall j :: 0 <= j < |raw| ==> CategoryOk(raw[j])
  {
    if |raw| == 0 then None
    else if !CategoryOk(raw[0]) then Some(0)
    else
      var k := FirstBad(raw[1..]);
      if k.Some? then Some(k.value + 1) else None
  }

  /** The error `normalizeCategories` throws for a list that does not pass. */
  function CategoriesError(raw: CategoriesIn): ApiError
    requires !CategoriesOk(raw)
  {
    if !raw.Array? || |raw.items| == 0 then ApiError(500, EmptyCategoriesMessage)
    else
      var k := FirstBad(raw.items);
      if k.Some? then CategoryError(raw.items[k.value]) else assert false; ApiError(500, EmptyCategoriesMessage)
  }

  /** Categories as the store keeps them: trimmed non-empty names and
      non-negative allocations. Names need not be distinct. */
  predicate WellFormedCategories(cats: seq<Category>) {
    forall i :: 0 <= i < |cats| ==> CleanName(cats[i].name) && cats[i].allocation >= 0.0
  }

  /** `normalizeCategories`: rejects a missing or empty list and stops at the
      first element whose trimmed name is empty or whose allocation is not a
      finite number at least 0; otherwise returns every element, in order,
      with its name trimmed. Duplicate names are not rejected. */
  method NormalizeCategories(raw: CategoriesIn) returns (r: Result<seq<Category>>)
    ensures !raw.Array? || |raw.items| == 0 ==> r == Err(ApiError(500, EmptyCategoriesMessage))
    ensures r.Ok? <==> CategoriesOk(raw)
    ensures r.Ok? ==> NormalizedFrom(raw.items, r.value)
    ensures r.Ok? ==> r.value == TrimmedCategories(raw.items)
    ensures r.Err? ==> r.error == CategoriesError(raw)
  {
    if !raw.Array? || |raw.items| == 0 {
      return Err(ApiError(500, EmptyCategoriesMessage));
    }
    var xs := raw.items;
    var out: seq<Category> := [];
    var i := 0;
    while i < |xs|
      invariant 0 <= i <= |xs|
      invariant forall j :: 0 <= j < i ==> CategoryOk(xs[j])
      invariant NormalizedFrom(xs[..i], out)
    {
      var name := Trim(xs[i].name);
      if name == "" {
        assert FirstBad(xs) == Some(i) by { FirstBadAt(xs, i); }
        return Err(ApiError(500, "Each category needs a non-empty name"));
      }
      var allocation := xs[i].allocation;
      if !allocation.Finite? || allocation.v < 0.0 {
        assert FirstBad(xs) == Some(i) by { FirstBadAt(xs, i); }
        return Err(ApiError(500, "Invalid allocation for category '" + name + "'"));
      }
      out := out + [Category(name, allocation.v)];
      i := i + 1;
    }
    assert xs[..i] == xs;
    NormalizedIsTrimmed(xs, out);
    return Ok(out);
  }

  /** The element at `i` is the first bad one when it is bad and all before
      it pass. */
  lemma FirstBadAt(raw: seq<RawCategory>, i: nat)
    requires i < |raw| && !CategoryOk(raw[i])
    requires forall j :: 0 <= j < i ==> CategoryOk(raw[j])
    ensures FirstBad(raw) == Some(i)
  {
    var k := FirstBad(raw);
    assert k.Some?;
    assert !(k.value < i) && !(i < k.value);
  }

  /** What normalisation produces is in the stored form. */
  lemma NormalizedWellFormed(raw: seq<RawCategory>, out: seq<Category>)
    requires forall i :: 0 <= i < |raw| ==> CategoryOk(raw[i])
    requires NormalizedFrom(raw, out)
    ensures WellFormedCategories(out)
  {
    forall i | 0 <= i < |out| ensures CleanName(out[i].name) {
      TrimIdempotent(raw[i].name);
    }
  }

  // ---------------------------------------------------------------------------
  // The allocation sum

  /** `categories.reduce((s, c) => s + c.allocation, 0)`. */
  function SumAllocations(cats: seq<Category>): real
  {
    if |cats| == 0 then 0.0 else SumAllocations(cats[..|cats| - 1]) + cats[|cats| - 1].allocation
  }

  const Tolerance: real := 0.005

  predicate WithinTolerance(sum: real, total: real) {
    -Tolerance <= sum - total <= Tolerance
  }

  function Abs(x: real): real {
    if x < 0.0 then -x else x
  }

  const AllocationMessage: string := "Category allocations must equal total"

  /** `assertAllocationsEqualTotal`: fails exactly when the allocations miss
      the total by more than 0.005. */
  function CheckAllocations(cats: seq<Category>, total: real): (r: Option<ApiError>)
    ensures r.None? <==> WithinTolerance(SumAllocations(cats), total)
    ensures r.Some? ==> r.value.status == 500
  {
    if Abs(SumAllocations(cats) - total) > Tolerance
    then Some(ApiError(500, AllocationMessage))
    else None
  }

  lemma {:induction false} SumAllocationsAppend(a: seq<Category>, b: seq<Category>)
    ensures SumAllocations(a + b) == SumAllocations(a) + SumAllocations(b)
  {
    if |b| > 0 {
      var front := b[..|b| - 1];
      assert (a + b)[..|a + b| - 1] == a + front;
      SumAllocationsAppend(a, front);
    } else {
      assert a + b == a;
    }
  }

  /** With non-negative allocations every single allocation is at most the
      sum, so in an accepted budget no category is allocated more than the
      budget's total plus the tolerance. */
  lemma {:induction false} AllocationBelowTotal(cats: seq<Category>, k: nat, total: real)
    requires k < |cats|
    requires forall i :: 0 <= i < |cats| ==> cats[i].allocation >= 0.0
    requires WithinTolerance(SumAllocations(cats), total)
    ensures cats[k].allocation <= total + Tolerance
  {
    AllocationBelowSum(cats, k);
  }

  lemma {:induction false} AllocationBelowSum(cats: seq<Category>, k: nat)
    requires k < |cats|
    requires forall i :: 0 <= i < |cats| ==> cats[i].allocation >= 0.0
    ensures 0.0 <= cats[k].allocation <= SumAllocations(cats)
  {
    var front := cats[..|cats| - 1];
    SumNonNegative(front);
    if k < |cats| - 1 {
      AllocationBelowSum(front, k);
    }
  }

  lemma {:induction false} SumNonNegative(cats: seq<Category>)
    requires forall i :: 0 <= i < |cats| ==> cats[i].allocation >= 0.0
    ensures SumAllocations(cats) >= 0.0
  {
    if |cats| > 0 {
      SumNonNegative(cats[..|cats| - 1]);
    }
  }

  // ---------------------------------------------------------------------------
  // Store invariant

  /** A stored budget: a recognised period, a non-negative limit and a
      well-formed, non-empty category list. */
  predicate StoredBudget(b: Budget) {
    ValidPeriod(b.period) && b.limit >= 0.0 && |b.categories| > 0 && WellFormedCategories(b.categories)
  }

  predicate OnePerPeriod(bs: seq<Budget>) {
    forall i, j :: 0 <= i < j < |bs| ==> bs[i].userId != bs[j].userId || bs[i].period != bs[j].period
  }

  predicate HasPeriod(bs: seq<Budget>, user: nat, p: string) {
    exists i :: 0 <= i < |bs| && bs[i].userId == user && bs[i].period == p
  }

  /** Another budget (id other than `id`) of `user` has period `p`. */
  predicate PeriodTaken(bs: seq<Budget>, id: nat, user: nat, p: string) {
    exists i :: 0 <= i < |bs| && bs[i].id != id && bs[i].userId == user && bs[i].period == p
  }

  predicate StoreInvariant(bs: seq<Budget>, nextId: nat) {
    && (forall i :: 0 <= i < |bs| ==> bs[i].id < nextId && StoredBudget(bs[i]))
    && (forall i, j :: 0 <= i < j < |bs| ==> bs[i].id != bs[j].id)
    && OnePerPeriod(bs)
  }

  /** `findOne({ _id, userId })`: the position of the budget with that id
      and owner. */
  function IndexOwned(bs: seq<Budget>, id: nat, user: nat): (r: Option<nat>)
    ensures r.Some? ==> r.value < |bs| && bs[r.value].id == id && bs[r.value].userId == user
    ensures r.Some? ==> forall j :: 0 <= j < r.value ==> !(bs[j].id == id && bs[j].userId == user)
    ensures r.None? <==> forall j :: 0 <= j < |bs| ==> !(bs[j].id == id && bs[j].userId == user)
  {
    if |bs| == 0 then None
    else if bs[0].id == id && bs[0].userId == user then Some(0)
    else
      var k := IndexOwned(bs[1..], id, user);
      if k.Some? then Some(k.value + 1) else None
  }

  /** With unique (user, period) pairs, the budget a user has for a period is
      unique: `findOne({ userId, period })` has one answer whatever the
      order of the collection. */
  lemma PeriodBudgetUnique(bs: seq<Budget>, i: nat, j: nat)
    requires OnePerPeriod(bs)
    requires i < |bs| && j < |bs|
    requires bs[i].userId == bs[j].userId && bs[i].period == bs[j].period
    ensures i == j
  {
  }

  // ---------------------------------------------------------------------------
  // Requests

  datatype CreateRequest = CreateRequest(
    name: Option<string>, period: Option<string>, total: Option<Num>, limit: Option<Num>,
    categories: CategoriesIn, startDate: Option<DateIn>, endDate: Option<DateIn>)

  /** `Number(inb.total !== undefined ? inb.total : inb.limit)`; with neither
      field the value is `Number(undefined)`, which is NaN. */
  function CreateTotal(req: CreateRequest): Num {
    if req.total.Some? then req.total.value else if req.limit.Some? then req.limit.value else NonFinite
  }

  function CreatePeriod(req: CreateRequest): string {
    NormPeriod(OrDefault(req.period, "monthly"))
  }

  predicate NonNegative(n: Num) {
    n.Finite? && n.v >= 0.0
  }

  /** Every check of a create up to the one for an existing budget passes:
      the user, the period, the total, the categories and their sum. */
  predicate CreateValid(caller: Caller, req: CreateRequest) {
    && RequireUser(caller).Ok? && ValidPeriod(CreatePeriod(req)) && NonNegative(CreateTotal(req))
    && CategoriesOk(req.categories)
    && WithinTolerance(SumAllocations(TrimmedCategories(req.categories.items)), CreateTotal(req).v)
  }

  /** An update request; `None` means the key is absent from the body. */
  datatype UpdateRequest = UpdateRequest(
    name: Option<string>, total: Option<Num>, limit: Option<Num>, period: Option<string>,
    startDate: Option<DateIn>, endDate: Option<DateIn>, categories: Option<CategoriesIn>)

  /** `'total' in inb ? inb.total : inb.limit`, when either key is present. */
  function UpdateLimit(req: UpdateRequest): Option<Num> {
    if req.total.Some? then req.total else req.limit
  }

  predicate NothingRequested(req: UpdateRequest) {
    req.name.None? && req.total.None? && req.limit.None? && req.period.None? &&
    req.startDate.None? && req.endDate.None? && req.categories.None?
  }

  predicate NameFails(req: UpdateRequest) {
    req.name.Some? && Trim(req.name.value) == ""
  }

  predicate LimitFails(req: UpdateRequest) {
    UpdateLimit(req).Some? && !NonNegative(UpdateLimit(req).value)
  }

  predicate PeriodInvalid(req: UpdateRequest) {
    req.period.Some? && !ValidPeriod(NormPeriod(req.period.value))
  }

  predicate PeriodConflict(bs: seq<Budget>, id: nat, user: nat, req: UpdateRequest) {
    req.period.Some? && PeriodTaken(bs, id, user, NormPeriod(req.period.value))
  }

  predicate DatesParse(req: UpdateRequest) {
    (req.startDate.Some? ==> ParseDateMaybe(req.startDate.value).Ok?) &&
    (req.endDate.Some? ==> ParseDateMaybe(req.endDate.value).Ok?)
  }

  /** Every check of an update before the one on `categories` passes. */
  predicate ScalarsPass(bs: seq<Budget>, id: nat, user: nat, req: UpdateRequest) {
    !NameFails(req) && !LimitFails(req) && !PeriodInvalid(req) && !PeriodConflict(bs, id, user, req) && DatesParse(req)
  }

  /** The limit sent categories are checked against: the one sent in the
      same request, else the stored one. */
  function CheckedLimit(bs: seq<Budget>, i: nat, req: UpdateRequest): real
    requires i < |bs|
  {
    if UpdateLimit(req).Some? && UpdateLimit(req).value.Finite? then UpdateLimit(req).value.v else bs[i].limit
  }

  /** Sent categories normalise, the budget is the caller's, and they sum to
      the checked limit. */
  predicate CategoriesFit(bs: seq<Budget>, id: nat, user: nat, req: UpdateRequest) {
    req.categories.Some? ==>
      && CategoriesOk(req.categories.value)
      && IndexOwned(bs, id, user).Some?
      && WithinTolerance(SumAllocations(TrimmedCategories(req.categories.value.items)),
           CheckedLimit(bs, IndexOwned(bs, id, user).value, req))
  }

  /** An update passes every check of `updateBudget`. */
  predicate UpdateAccepted(bs: seq<Budget>, id: nat, user: nat, req: UpdateRequest) {
    ScalarsPass(bs, id, user, req) && CategoriesFit(bs, id, user, req) && !NothingRequested(req)
  }

  /** The `$set` document an update builds; `None` means the field is not set. */
  datatype Patch = Patch(
    name: Option<string>, limit: Option<real>, period: Option<string>,
    startDate: Option<Option<int>>, endDate: Option<Option<int>>, categories: Option<seq<Category>>)

  predicate EmptyPatch(p: Patch) {
    p.name.None? && p.limit.None? && p.period.None? && p.startDate.None? && p.endDate.None? && p.categories.None?
  }

  /** `p` sets exactly the fields the request names, to their normalised
      values. */
  predicate PatchFits(req: UpdateRequest, p: Patch)
    requires !LimitFails(req) && DatesParse(req)
  {
    && p.name == (if req.name.Some? then Some(Trim(req.name.value)) else None)
    && p.limit == (if UpdateLimit(req).Some? then Some(UpdateLimit(req).value.v) else None)
    && p.period == (if req.period.Some? then Some(NormPeriod(req.period.value)) else None)
    && p.startDate == (if req.startDate.Some? then Some(ParseDateMaybe(req.startDate.value).value) else None)
    && p.endDate == (if req.endDate.Some? then Some(ParseDateMaybe(req.endDate.value).value) else None)
    && (p.categories.Some? <==> req.categories.Some?)
    && (p.categories.Some? ==> CategoriesOk(req.categories.value) && NormalizedFrom(req.categories.value.items, p.categories.value))
  }

  function ApplyPatch(b: Budget, p: Patch, now: int): (r: Budget)
    ensures r.id == b.id && r.userId == b.userId && r.createdAt == b.createdAt && r.updatedAt == now
  {
    b.(name := if p.name.Some? then p.name.value else b.name,
       limit := if p.limit.Some? then p.limit.value else b.limit,
       period := if p.period.Some? then p.period.value else b.period,
       startDate := if p.startDate.Some? then p.startDate.value else b.startDate,
       endDate := if p.endDate.Some? then p.endDate.value else b.endDate,
       categories := if p.categories.Some? then p.categories.value else b.categories,
       updatedAt := now)
  }

  /** The first failing check among `name`, `total`/`limit`, `period` and
      the dates, in the order `updateBudget` runs them. */
  function ScalarError(bs: seq<Budget>, id: nat, user: nat, req: UpdateRequest): (r: Option<ApiError>)
    ensures r.None? <==> ScalarsPass(bs, id, user, req)
  {
    if NameFails(req) then Some(ApiError(400, "name cannot be empty"))
    else if LimitFails(req) then Some(ApiError(400, TotalMessage))
    else if PeriodInvalid(req) then Some(ApiError(400, PeriodMessage))
    else if PeriodConflict(bs, id, user, req) then Some(ApiError(409, ConflictMessage(NormPeriod(req.period.value))))
    else if req.startDate.Some? && ParseDateMaybe(req.startDate.value).Err? then Some(ParseDateMaybe(req.startDate.value).error)
    else if req.endDate.Some? && ParseDateMaybe(req.endDate.value).Err? then Some(ParseDateMaybe(req.endDate.value).error)
    else None
  }

  /** The `$set` fields other than `categories`. */
  function ScalarPatch(req: UpdateRequest): (p: Patch)
    requires !LimitFails(req) && DatesParse(req)
    ensures PatchFits(req.(categories := None), p)
    ensures EmptyPatch(p) <==> NothingRequested(req.(categories := None))
  {
    Patch(
      if req.name.Some? then Some(Trim(req.name.value)) else None,
      if UpdateLimit(req).Some? then Some(UpdateLimit(req).value.v) else None,
      if req.period.Some? then Some(NormPeriod(req.period.value)) else None,
      if req.startDate.Some? then Some(ParseDateMaybe(req.startDate.value).value) else None,
      if req.endDate.Some? then Some(ParseDateMaybe(req.endDate.value).value) else None,
      None)
  }

  /** The body of `updateBudget` from the `name` check to the "No fields to
      update" check: builds the `$set` document field by field. The
      allocation sum is checked only when `categories` is sent, against the
      limit sent in the same request or else the stored one; a request that
      changes only the limit is not checked against the categories. */
  method BuildPatch(bs: seq<Budget>, id: nat, user: nat, req: UpdateRequest) returns (r: Result<Patch>)
    ensures NameFails(req) ==> r == Err(ApiError(400, "name cannot be empty"))
    ensures !NameFails(req) && LimitFails(req) ==> r == Err(ApiError(400, TotalMessage))
    ensures !NameFails(req) && !LimitFails(req) && PeriodInvalid(req) ==> r == Err(ApiError(400, PeriodMessage))
    ensures (!NameFails(req) && !LimitFails(req) && !PeriodInvalid(req) && PeriodConflict(bs, id, user, req)) ==>
      r == Err(ApiError(409, ConflictMessage(NormPeriod(req.period.value))))
    ensures ScalarError(bs, id, user, req).Some? ==> r == Err(ScalarError(bs, id, user, req).value)
    ensures r.Ok? ==> ScalarsPass(bs, id, user, req) && PatchFits(req, r.value) && !EmptyPatch(r.value)
    ensures r.Ok? && req.categories.Some? ==>
      IndexOwned(bs, id, user).Some? &&
      WithinTolerance(SumAllocations(r.value.categories.value),
        if UpdateLimit(req).Some? then UpdateLimit(req).value.v else bs[IndexOwned(bs, id, user).value].limit)
    ensures (ScalarsPass(bs, id, user, req) && req.categories.Some? && CategoriesOk(req.categories.value) &&
      IndexOwned(bs, id, user).None?) ==> r == Err(ApiError(404, NotFoundMessage))
    ensures (ScalarsPass(bs, id, user, req) && req.categories.Some? && !CategoriesOk(req.categories.value)) ==>
      r == Err(CategoriesError(req.categories.value))
    ensures (ScalarsPass(bs, id, user, req) && req.categories.Some? && CategoriesOk(req.categories.value) &&
      IndexOwned(bs, id, user).Some? && !CategoriesFit(bs, id, user, req)) ==> r == Err(ApiError(500, AllocationMessage))
    ensures ScalarsPass(bs, id, user, req) && req.categories.None? ==> (r.Ok? <==> !NothingRequested(req))
    ensures NothingRequested(req) ==> r == Err(ApiError(400, "No fields to update"))
    ensures r.Ok? <==> UpdateAccepted(bs, id, user, req)
    ensures r.Ok? && req.categories.Some? ==> r.value.categories == Some(TrimmedCategories(req.categories.value.items))
  {
    var e := ScalarError(bs, id, user, req);
    if e.Some? {
      return Err(e.value);
    }
    var p := ScalarPatch(req);
    if req.categories.Some? {
      var cats := NormalizeCategories(req.categories.value);
      if cats.Err? {
        return Err(cats.error);
      }
      var cur := IndexOwned(bs, id, user);
      if cur.None? {
        return Err(ApiError(404, NotFoundMessage));
      }
      var total := if p.limit.Some? then p.limit.value else bs[cur.value].limit;
      var check := CheckAllocations(cats.value, total);
      if check.Some? {
        return Err(check.value);
      }
      p := p.(categories := Some(cats.value));
    }
    if EmptyPatch(p) {
      return Err(ApiError(400, "No fields to update"));
    }
    return Ok(p);
  }

  /** An update that sends only a new limit is accepted and can leave the
      stored categories summing to something else than the limit: the
      allocation-sum rule is not an invariant of the store. */
  lemma LimitOnlyUpdateBreaksSum()
    ensures exists b: Budget, p: Patch, now: int ::
      WithinTolerance(SumAllocations(b.categories), b.limit) &&
      p == Patch(None, Some(100.0), None, None, None, None) &&
      !WithinTolerance(SumAllocations(ApplyPatch(b, p, now).categories), ApplyPatch(b, p, now).limit)
  {
    var cats := [Category("Food", 10.0)];
    assert SumAllocations(cats) == 10.0 by {
      assert cats[..0] == [];
    }
    var b := Budget(0, 0, "Main", 10.0, "monthly", cats, None, None, 0, 0);
    var p := Patch(None, Some(100.0), None, None, None, None);
    assert ApplyPatch(b, p, 0).categories == cats;
  }

  // ---------------------------------------------------------------------------
  // Listing

  /** The order of `sort({ updatedAt: -1 })`. */
  function ByUpdated(b: Budget): Rank {
    Rank(b.updatedAt, 0)
  }

  /** Case-insensitive "name contains q" (the `$regex` filter for a `q` with
      no regular-expression metacharacters). */
  predicate NameMatches(name: string, q: string) {
    Contains(Lower(name), Lower(q))
  }

  predicate ListedFor(b: Budget, user: nat, period: Option<string>, q: Option<string>) {
    b.userId == user &&
    (Truthy(period) ==> b.period == NormPeriod(period.value)) &&
    (Truthy(q) ==> NameMatches(b.name, q.value))
  }

  function Matching(bs: seq<Budget>, user: nat, period: Option<string>, q: Option<string>): (r: seq<Budget>)
    ensures forall b :: b in r <==> b in bs && ListedFor(b, user, period, q)
  {
    if |bs| == 0 then []
    else
      var rest := Matching(bs[1..], user, period, q);
      assert forall b :: b in bs <==> b == bs[0] || b in bs[1..];
      if ListedFor(bs[0], user, period, q) then [bs[0]] + rest else rest
  }

  datatype ListPage = ListPage(items: seq<PublicBudget>, limit: nat, offset: nat, nextOffset: Option<nat>)

  class BudgetStore {
    var budgets: seq<Budget>
    var nextId: nat

    ghost predicate Valid()
      reads this
    {
      StoreInvariant(budgets, nextId)
    }

    constructor ()
      ensures Valid() && budgets == []
    {
      budgets := [];
      nextId := 0;
    }

    /** POST: create a budget. The period is lower-cased and trimmed
        (default "monthly") and must be recognised; `total` (preferred) or
        `limit` must be a non-negative finite number; the categories must
        normalise and sum to it within 0.005; and the user must have no
        budget for that period yet. */
    method Create(caller: Caller, req: CreateRequest, now: int) returns (r: Result<PublicBudget>)
      requires Valid()
      modifies this
      ensures Valid()
      ensures r.Err? ==> budgets == old(budgets) && nextId == old(nextId)
      ensures RequireUser(caller).Err? ==> r == Err(RequireUser(caller).error)
      ensures RequireUser(caller).Ok? && !ValidPeriod(CreatePeriod(req)) ==> r == Err(ApiError(400, PeriodMessage))
      ensures RequireUser(caller).Ok? && ValidPeriod(CreatePeriod(req)) && !NonNegative(CreateTotal(req)) ==>
        r == Err(ApiError(400, TotalMessage))
      ensures (RequireUser(caller).Ok? && ValidPeriod(CreatePeriod(req)) && NonNegative(CreateTotal(req)) &&
        !CategoriesOk(req.categories)) ==> r == Err(CategoriesError(req.categories))
      ensures (RequireUser(caller).Ok? && ValidPeriod(CreatePeriod(req)) && NonNegative(CreateTotal(req)) &&
        CategoriesOk(req.categories) && !CreateValid(caller, req)) ==> r == Err(ApiError(500, AllocationMessage))
      ensures RequireUser(caller).Ok? && HasPeriod(old(budgets), RequireUser(caller).value, CreatePeriod(req)) ==> r.Err?
      ensures CreateValid(caller, req) && HasPeriod(old(budgets), RequireUser(caller).value, CreatePeriod(req)) ==>
        r == Err(ApiError(409, ConflictMessage(CreatePeriod(req))))
      ensures (CreateValid(caller, req) && !HasPeriod(old(budgets), RequireUser(caller).value, CreatePeriod(req)) &&
        OptionalDate(req.startDate).Err?) ==> r == Err(OptionalDate(req.startDate).error)
      ensures (CreateValid(caller, req) && !HasPeriod(old(budgets), RequireUser(caller).value, CreatePeriod(req)) &&
        OptionalDate(req.startDate).Ok? && OptionalDate(req.endDate).Err?) ==> r == Err(OptionalDate(req.endDate).error)
      ensures r.Ok? <==>
        && CreateValid(caller, req) && !HasPeriod(old(budgets), RequireUser(caller).value, CreatePeriod(req))
        && OptionalDate(req.startDate).Ok? && OptionalDate(req.endDate).Ok?
      ensures r.Ok? ==>
        |budgets| == |old(budgets)| + 1 && budgets[..|old(budgets)|] == old(budgets) &&
        var b := budgets[|old(budgets)|];
        && r.value == ToPublic(b)
        && RequireUser(caller) == Ok(b.userId) && b.id == old(nextId)
        && b.period == CreatePeriod(req) && CreateTotal(req) == Finite(b.limit)
        && b.name == Trim(OrDefault(req.name, "Main"))
        && CategoriesOk(req.categories) && NormalizedFrom(req.categories.items, b.categories)
        && b.categories == TrimmedCategories(req.categories.items)
        && WithinTolerance(SumAllocations(b.categories), b.limit)
        && b.startDate == OptionalDate(req.startDate).value && b.endDate == OptionalDate(req.endDate).value
        && b.createdAt == now && b.updatedAt == now
    {
      var user := RequireUser(caller);
      if user.Err? {
        return Err(user.error);
      }
      var name := Trim(OrDefault(req.name, "Main"));
      var period := CreatePeriod(req);
      if !ValidPeriod(period) {
        return Err(ApiError(400, PeriodMessage));
      }
      var total := CreateTotal(req);
      if !total.Finite? || total.v < 0.0 {
        return Err(ApiError(400, TotalMessage));
      }
      var cats := NormalizeCategories(req.categories);
      if cats.Err? {
        return Err(cats.error);
      }
      var check := CheckAllocations(cats.value, total.v);
      if check.Some? {
        return Err(check.value);
      }
      if HasPeriod(budgets, user.value, period) {
        return Err(ApiError(409, ConflictMessage(period)));
      }
      var startDate := OptionalDate(req.startDate);
      if startDate.Err? {
        return Err(startDate.error);
      }
      var endDate := OptionalDate(req.endDate);
      if endDate.Err? {
        return Err(endDate.error);
      }
      NormalizedWellFormed(req.categories.items, cats.value);
      var b := Budget(nextId, user.value, name, total.v, period, cats.value, startDate.value, endDate.value, now, now);
      AppendPreservesInvariant(budgets, nextId, b);
      budgets := budgets + [b];
      nextId := nextId + 1;
      return Ok(ToPublic(b));
    }

    /** PATCH/PUT: apply a partial update to the caller's budget `id`. A
        budget the caller does not own is reported as not found and nothing
        changes. */
    method Update(caller: Caller, pathId: IdArg, bodyId: IdArg, req: UpdateRequest, now: int)
      returns (r: Result<PublicBudget>)
      requires Valid()
      modifies this
      ensures Valid()
      ensures nextId == old(nextId) && |budgets| == |old(budgets)|
      ensures r.Err? ==> budgets == old(budgets)
      ensures FirstGiven(pathId, bodyId, Absent).Absent? ==> r == Err(ApiError(400, "id is required"))
      ensures FirstGiven(pathId, bodyId, Absent).Malformed? ==> r == Err(ApiError(400, "Invalid id"))
      ensures FirstGiven(pathId, bodyId, Absent).Oid? && RequireUser(caller).Err? ==> r == Err(RequireUser(caller).error)
      ensures FirstGiven(pathId, bodyId, Absent).Oid? && RequireUser(caller).Ok? ==>
        var id := FirstGiven(pathId, bodyId, Absent).id; var user := RequireUser(caller).value;
        && (ScalarError(old(budgets), id, user, req).Some? ==> r == Err(ScalarError(old(budgets), id, user, req).value))
        && ((ScalarsPass(old(budgets), id, user, req) && req.categories.Some? && !CategoriesOk(req.categories.value)) ==>
              r == Err(CategoriesError(req.categories.value)))
        && ((ScalarsPass(old(budgets), id, user, req) && req.categories.Some? && CategoriesOk(req.categories.value) &&
             IndexOwned(old(budgets), id, user).Some? && !CategoriesFit(old(budgets), id, user, req)) ==>
              r == Err(ApiError(500, AllocationMessage)))
        && (NothingRequested(req) ==> r == Err(ApiError(400, "No fields to update")))
        && (IndexOwned(old(budgets), id, user).None? ==> r.Err?)
        && ((IndexOwned(old(budgets), id, user).None? && ScalarsPass(old(budgets), id, user, req) &&
             !NothingRequested(req) && (req.categories.Some? ==> CategoriesOk(req.categories.value))) ==>
              r == Err(ApiError(404, NotFoundMessage)))
        && (IndexOwned(old(budgets), id, user).Some? ==> (r.Ok? <==> UpdateAccepted(old(budgets), id, user, req)))
      ensures r.Ok? ==>
        FirstGiven(pathId, bodyId, Absent).Oid? && RequireUser(caller).Ok? &&
        var i := IndexOwned(old(budgets), FirstGiven(pathId, bodyId, Absent).id, RequireUser(caller).value);
        && i.Some?
        && ScalarsPass(old(budgets), old(budgets)[i.value].id, old(budgets)[i.value].userId, req)
        && (exists p :: PatchFits(req, p) && !EmptyPatch(p) &&
              budgets == old(budgets)[i.value := ApplyPatch(old(budgets)[i.value], p, now)])
        && r.value == ToPublic(budgets[i.value])
    {
      var given := FirstGiven(pathId, bodyId, Absent);
      if given.Absent? {
        return Err(ApiError(400, "id is required"));
      }
      if given.Malformed? {
        return Err(ApiError(400, "Invalid id"));
      }
      var id := given.id;
      var user := RequireUser(caller);
      if user.Err? {
        return Err(user.error);
      }
      var p := BuildPatch(budgets, id, user.value, req);
      if p.Err? {
        return Err(p.error);
      }
      var i := IndexOwned(budgets, id, user.value);
      if i.None? {
        return Err(ApiError(404, NotFoundMessage));
      }
      var b := ApplyPatch(budgets[i.value], p.value, now);
      if p.value.categories.Some? {
        NormalizedWellFormed(req.categories.value.items, p.value.categories.value);
      }
      UpdatePreservesInvariant(budgets, nextId, i.value, b, user.value);
      budgets := budgets[i.value := b];
      return Ok(ToPublic(b));
    }

    /** DELETE: remove the caller's budget `id`; one the caller does not own
        is reported as not found and nothing changes. */
    method Delete(caller: Caller, pathId: IdArg, queryId: IdArg) returns (r: Result<nat>)
      requires Valid()
      modifies this
      ensures Valid() && nextId == old(nextId)
      ensures r.Err? ==> budgets == old(budgets)
      ensures FirstGiven(pathId, queryId, Absent).Absent? ==> r == Err(ApiError(400, "id is required"))
      ensures FirstGiven(pathId, queryId, Absent).Malformed? ==> r == Err(ApiError(400, "Invalid id"))
      ensures (FirstGiven(pathId, queryId, Absent).Oid? && RequireUser(caller).Ok? &&
        IndexOwned(old(budgets), FirstGiven(pathId, queryId, Absent).id, RequireUser(caller).value).None?) ==>
        r == Err(ApiError(404, NotFoundMessage))
      ensures (FirstGiven(pathId, queryId, Absent).Oid? && RequireUser(caller).Ok? &&
        IndexOwned(old(budgets), FirstGiven(pathId, queryId, Absent).id, RequireUser(caller).value).Some?) ==>
        r == Ok(FirstGiven(pathId, queryId, Absent).id)
      ensures r.Ok? ==>
        FirstGiven(pathId, queryId, Absent).Oid? && RequireUser(caller).Ok? &&
        r.value == FirstGiven(pathId, queryId, Absent).id &&
        var i := IndexOwned(old(budgets), r.value, RequireUser(caller).value);
        i.Some? && budgets == old(budgets)[..i.value] + old(budgets)[i.value + 1..]
      ensures FirstGiven(pathId, queryId, Absent).Oid? && RequireUser(caller).Err? ==> r == Err(RequireUser(caller).error)
    {
      var given := FirstGiven(pathId, queryId, Absent);
      if given.Absent? {
        return Err(ApiError(400, "id is required"));
      }
      if given.Malformed? {
        return Err(ApiError(400, "Invalid id"));
      }
      var user := RequireUser(caller);
      if user.Err? {
        return Err(user.error);
      }
      var i := IndexOwned(budgets, given.id, user.value);
      if i.None? {
        return Err(ApiError(404, NotFoundMessage));
      }
      RemovePreservesInvariant(budgets, nextId, i.value);
      budgets := budgets[..i.value] + budgets[i.value + 1..];
      return Ok(given.id);
    }

    /** GET /:id: the caller's budget with that id. */
    function Get(caller: Caller, pathId: IdArg, queryId: IdArg): (r: Result<PublicBudget>)
      reads this
      requires pathId.Oid? || queryId.Oid? || pathId.Malformed? || queryId.Malformed?
      ensures RequireUser(caller).Err? ==> r == Err(RequireUser(caller).error)
      ensures r.Ok? ==>
        RequireUser(caller).Ok? && FirstGiven(pathId, queryId, Absent).Oid? &&
        (exists i :: 0 <= i < |budgets| && r.value == ToPublic(budgets[i]) &&
           budgets[i].userId == RequireUser(caller).value && budgets[i].id == FirstGiven(pathId, queryId, Absent).id)
      ensures RequireUser(caller).Ok? && FirstGiven(pathId, queryId, Absent).Oid? ==>
        (r.Ok? <==> IndexOwned(budgets, FirstGiven(pathId, queryId, Absent).id, RequireUser(caller).value).Some?)
    {
      var user := RequireUser(caller);
      if user.Err? then Err(user.error)
      else
        var given := FirstGiven(pathId, queryId, Absent);
        if !given.Oid? then Err(ApiError(400, "Invalid id"))
        else
          var i := IndexOwned(budgets, given.id, user.value);
          if i.None? then Err(ApiError(404, NotFoundMessage)) else Ok(ToPublic(budgets[i.value]))
    }

    /** GET without an id: the caller's budgets, optionally restricted to a
        period and a name fragment, most recently updated first, one page of
        1 to 100 (default 20) at a non-negative offset. */
    function List(caller: Caller, period: Option<string>, q: Option<string>, limitQ: Option<int>, offsetQ: Option<int>)
      : (r: Result<ListPage>)
      reads this
      ensures RequireUser(caller).Err? ==> r == Err(RequireUser(caller).error)
      ensures r.Ok? ==> RequireUser(caller).Ok?
      ensures r.Ok? && RequireUser(caller).Ok? ==>
        var user := RequireUser(caller).value;
        var all := SortDesc(Matching(budgets, user, period, q), ByUpdated);
        && 1 <= r.value.limit <= 100
        && r.value.limit == ClampLimit(limitQ, 20, 100) && r.value.offset == ClampOffset(offsetQ)
        && r.value.items == PublicPage(Page(all, r.value.offset, r.value.limit))
        && |r.value.items| <= r.value.limit
        && (r.value.offset + r.value.limit <= |all| ==> |r.value.items| == r.value.limit)
        && (|r.value.items| < r.value.limit ==> r.value.offset + |r.value.items| >= |all|)
        && (forall k :: 0 <= k < |r.value.items| ==>
              r.value.offset + k < |all| && r.value.items[k] == ToPublic(all[r.value.offset + k]))
        && (r.value.nextOffset.Some? <==> |r.value.items| == r.value.limit)
        && (r.value.nextOffset.Some? ==> r.value.nextOffset.value == r.value.offset + r.value.limit)
    {
      var user := RequireUser(caller);
      if user.Err? then Err(user.error)
      else
        var limit := ClampLimit(limitQ, 20, 100);
        var offset := ClampOffset(offsetQ);
        var all := SortDesc(Matching(budgets, user.value, period, q), ByUpdated);
        var page := Page(all, offset, limit);
        var items := PublicPage(page);
        Ok(ListPage(items, limit, offset, NextOffset(|items|, offset, limit)))
    }
  }

  /** The public views of a page, in order. */
  function PublicPage(page: seq<Budget>): (r: seq<PublicBudget>)
    ensures |r| == |page| && forall k :: 0 <= k < |page| ==> r[k] == ToPublic(page[k])
  {
    seq(|page|, k requires 0 <= k < |page| => ToPublic(page[k]))
  }

  /** Every listed budget belongs to the caller and passes the filters, and
      the listing is ordered by `updatedAt`, latest first. */
  lemma ListingIsOwnedAndOrdered(bs: seq<Budget>, user: nat, period: Option<string>, q: Option<string>)
    ensures var all := SortDesc(Matching(bs, user, period, q), ByUpdated);
      (forall i, j :: 0 <= i < j < |all| ==> all[i].updatedAt >= all[j].updatedAt) &&
      (forall b :: b in all <==> b in bs && ListedFor(b, user, period, q))
  {
    var m := Matching(bs, user, period, q);
    var all := SortDesc(m, ByUpdated);
    forall b ensures b in all <==> b in m {
      SortedMembers(m, ByUpdated, b);
    }
  }

  lemma UpdatePreservesInvariant(bs: seq<Budget>, nextId: nat, i: nat, b: Budget, user: nat)
    requires StoreInvariant(bs, nextId)
    requires i < |bs| && b.id == bs[i].id && b.userId == bs[i].userId && b.userId == user
    requires StoredBudget(b)
    requires b.period != bs[i].period ==> !PeriodTaken(bs, b.id, user, b.period)
    ensures StoreInvariant(bs[i := b], nextId)
  {
    var bs' := bs[i := b];
    forall x, y | 0 <= x < y < |bs'| ensures bs'[x].userId != bs'[y].userId || bs'[x].period != bs'[y].period {
      if x == i || y == i {
        var o := if x == i then y else x;
        assert bs'[o] == bs[o] && bs[o].id != b.id;
      }
    }
  }

  lemma AppendPreservesInvariant(bs: seq<Budget>, nextId: nat, b: Budget)
    requires StoreInvariant(bs, nextId)
    requires b.id == nextId && StoredBudget(b) && !HasPeriod(bs, b.userId, b.period)
    ensures StoreInvariant(bs + [b], nextId + 1)
  {
    var bs' := bs + [b];
    assert forall x :: 0 <= x < |bs| ==> bs'[x] == bs[x];
  }

  lemma RemovePreservesInvariant(bs: seq<Budget>, nextId: nat, i: nat)
    requires StoreInvariant(bs, nextId) && i < |bs|
    ensures StoreInvariant(bs[..i] + bs[i + 1..], nextId)
  {
    var rs := bs[..i] + bs[i + 1..];
    assert forall x :: 0 <= x < |rs| ==> rs[x] == (if x < i then bs[x] else bs[x + 1]);
  }
}

/** The budget summary of `server/src/routes/summary.js`: picks the user's
    budget, fixes the reporting window, totals the window's income and
    expenses, books every expense on a per-category ledger seeded from the
    budget (with an implicit "Other" row), reports the expenses whose
    category the budget does not know, and derives the per-category lines and
    the budget totals. Amounts are exact; the two-decimal rounding of the
    response is not modelled, so the totals here are computed from the
    unrounded line values where the source sums the rounded ones. */
module Summary {
  import opened Common
  import opened Sums
  import opened Sorting
  import opened Calendar
  import opened Budgets
  import opened Transactions

  /** A ledger row: the category's stored name, its allocation, and what the
      window's expenses booked on it add up to. */
  datatype Row = Row(name: string, allocation: real, spent: real)

  /** One line of the response's `categories`. */
  datatype CategoryLine = CategoryLine(
    name: string, allocation: real, spent: real, remaining: real,
    pctUsed: Option<real>, overspent: bool)

  datatype Totals = Totals(
    start: Option<int>, end: Option<int>, budgeted: real, spent: real, remaining: real,
    overspent: bool, income: real, expense: real, net: real)

  /** Expenses booked on "Other" because the budget has no category with
      their key. */
  datatype Unknown = Unknown(mappedTo: string, count: nat, amount: real)

  datatype Report = Report(
    totals: Totals, budget: Option<Budget>, categories: seq<CategoryLine>,
    unknown: Unknown, transactions: seq<Transaction>)

  /** `String(s).trim().toLowerCase()`: the ledger key of a name. */
  function KeyOf(s: string): string {
    Lower(Trim(s))
  }

  /** `String(c.name).toLowerCase()`: the key the output loop looks rows up
      by (not trimmed). */
  function LineKey(c: Category): string {
    Lower(c.name)
  }

  /** The ledger keys of the categories, in budget order. */
  function CatKeys(cats: seq<Category>): (ks: seq<string>)
    ensures |ks| == |cats|
  {
    if |cats| == 0 then [] else CatKeys(cats[..|cats| - 1]) + [KeyOf(cats[|cats| - 1].name)]
  }

  /** The output loop's lookup keys of the categories, in budget order. */
  function NameKeys(cats: seq<Category>): (ks: seq<string>)
    ensures |ks| == |cats|
  {
    if |cats| == 0 then [] else NameKeys(cats[..|cats| - 1]) + [LineKey(cats[|cats| - 1])]
  }

  lemma {:induction false} CatKeysAt(cats: seq<Category>, i: int)
    requires 0 <= i < |cats|
    ensures CatKeys(cats)[i] == KeyOf(cats[i].name)
  {
    if i < |cats| - 1 {
      CatKeysAt(cats[..|cats| - 1], i);
    }
  }

  lemma {:induction false} NameKeysAt(cats: seq<Category>, i: int)
    requires 0 <= i < |cats|
    ensures NameKeys(cats)[i] == LineKey(cats[i])
  {
    if i < |cats| - 1 {
      NameKeysAt(cats[..|cats| - 1], i);
    }
  }

  /** A stored name is already trimmed, so both loops key a stored budget's
      categories alike, and no key is empty. */
  lemma {:induction false} CleanKeys(cats: seq<Category>)
    requires WellFormedCategories(cats)
    ensures NameKeys(cats) == CatKeys(cats)
    ensures forall i :: 0 <= i < |cats| ==> CatKeys(cats)[i] != ""
  {
    if |cats| > 0 {
      var front := cats[..|cats| - 1];
      var c := cats[|cats| - 1];
      assert WellFormedCategories(front) by {
        forall i | 0 <= i < |front| ensures CleanName(front[i].name) && front[i].allocation >= 0.0 {
          assert front[i] == cats[i];
        }
      }
      CleanKeys(front);
      assert CleanName(c.name);
      assert KeyOf(c.name) == LineKey(c);
      assert |LineKey(c)| == |c.name|;
    }
  }

  /** The case-insensitive test the summary applies to a transaction type. */
  predicate IsKind(t: Transaction, kind: string) {
    Lower(t.kind) == kind
  }

  /** The sum of the amounts of the transactions of one type. */
  function KindTotal(txs: seq<Transaction>, kind: string): real {
    if |txs| == 0 then 0.0
    else KindTotal(txs[..|txs| - 1], kind) + (if IsKind(txs[|txs| - 1], kind) then txs[|txs| - 1].amount else 0.0)
  }

  // ---------------------------------------------------------------------------
  // The ledger

  /** Every key of `ks` is a row of `m`. */
  predicate KeysIn(ks: seq<string>, m: map<string, Row>) {
    forall i :: 0 <= i < |ks| ==> ks[i] in m
  }

  /** The rows seeded from the categories `cats`, keyed `ks`: one per
      non-empty key, the last category with a key overwriting earlier ones. */
  function Seed(ks: seq<string>, cats: seq<Category>): (r: map<string, Row>)
    requires |ks| == |cats|
    ensures forall i :: 0 <= i < |ks| && ks[i] != "" ==> ks[i] in r
  {
    if |cats| == 0 then map[]
    else
      var m := Seed(ks[..|ks| - 1], cats[..|cats| - 1]);
      var k := ks[|ks| - 1];
      var c := cats[|cats| - 1];
      if k == "" then m else m[k := Row(c.name, c.allocation, 0.0)]
  }

  /** The seeded ledger with the implicit "Other" row when no category has
      the key "other". */
  function Seeded(ks: seq<string>, cats: seq<Category>): (r: map<string, Row>)
    requires |ks| == |cats|
    ensures "other" in r
    ensures forall i :: 0 <= i < |ks| && ks[i] != "" ==> ks[i] in r
  {
    var m := Seed(ks, cats);
    if "other" in m then m else m["other" := Row("Other", 0.0, 0.0)]
  }

  /** The row an expense is booked on: its own key when the ledger has it,
      else "other". */
  function Target(keys: set<string>, t: Transaction): string {
    if KeyOf(t.category) in keys then KeyOf(t.category) else "other"
  }

  /** Every expense, as an amount booked under its target row. */
  function ExpenseEntries(txs: seq<Transaction>, keys: set<string>): seq<Entry> {
    if |txs| == 0 then []
    else
      var t := txs[|txs| - 1];
      ExpenseEntries(txs[..|txs| - 1], keys) + (if IsKind(t, "expense") then [Entry(Target(keys, t), t.amount)] else [])
  }

  /** The ledger after the spending loop: each seeded row with the total of
      the expenses booked on it. */
  function Final(ks: seq<string>, cats: seq<Category>, txs: seq<Transaction>): (r: map<string, Row>)
    requires |ks| == |cats|
    ensures r.Keys == Seeded(ks, cats).Keys
    ensures "other" in r
    ensures forall i :: 0 <= i < |ks| && ks[i] != "" ==> ks[i] in r
  {
    var s := Seeded(ks, cats);
    map k | k in s :: s[k].(spent := TotalFor(ExpenseEntries(txs, s.Keys), k))
  }

  /** The number of expenses whose key the ledger does not have. */
  function UnknownCount(txs: seq<Transaction>, keys: set<string>): nat {
    if |txs| == 0 then 0
    else
      var t := txs[|txs| - 1];
      UnknownCount(txs[..|txs| - 1], keys) + (if IsKind(t, "expense") && KeyOf(t.category) !in keys then 1 else 0)
  }

  /** What the expenses whose key the ledger does not have add up to. */
  function UnknownAmount(txs: seq<Transaction>, keys: set<string>): real {
    if |txs| == 0 then 0.0
    else
      var t := txs[|txs| - 1];
      UnknownAmount(txs[..|txs| - 1], keys) + (if IsKind(t, "expense") && KeyOf(t.category) !in keys then t.amount else 0.0)
  }

  /** The seeded keys are exactly the non-empty keys of the categories. */
  lemma {:induction false} SeedKeys(ks: seq<string>, cats: seq<Category>, k: string)
    requires |ks| == |cats|
    ensures k in Seed(ks, cats) <==> k != "" && k in ks
  {
    if |cats| > 0 {
      var front := ks[..|ks| - 1];
      SeedKeys(front, cats[..|cats| - 1], k);
      assert ks == front + [ks[|ks| - 1]];
    }
  }

  /** A seeded row carries the name and allocation of the last category with
      its key, and nothing spent. */
  lemma {:induction false} SeedLastWins(ks: seq<string>, cats: seq<Category>, k: string)
    requires |ks| == |cats|
    requires k in Seed(ks, cats)
    ensures exists i ::
      && 0 <= i < |ks| && ks[i] == k
      && Seed(ks, cats)[k] == Row(cats[i].name, cats[i].allocation, 0.0)
      && (forall j :: i < j < |ks| ==> ks[j] != k)
  {
    var n := |ks| - 1;
    if ks[n] != k {
      var front, cf := ks[..n], cats[..n];
      SeedFront(ks, cats, k);
      SeedLastWins(front, cf, k);
      var i :| 0 <= i < |front| && front[i] == k &&
        Seed(front, cf)[k] == Row(cf[i].name, cf[i].allocation, 0.0) &&
        (forall j :: i < j < |front| ==> front[j] != k);
      LaterKeys(ks, front, i, k);
      assert cats[i] == cf[i];
      assert 0 <= i < |ks| && ks[i] == k
        && Seed(ks, cats)[k] == Row(cats[i].name, cats[i].allocation, 0.0)
        && (forall j :: i < j < |ks| ==> ks[j] != k);
    } else {
      SeedKeys(ks, cats, k);
      assert n < |ks| && ks[n] == k && Seed(ks, cats)[k] == Row(cats[n].name, cats[n].allocation, 0.0);
    }
  }

  /** A last category with another key leaves the row for `k` as the
      earlier categories seeded it. */
  lemma SeedFront(ks: seq<string>, cats: seq<Category>, k: string)
    requires |ks| == |cats| > 0 && ks[|ks| - 1] != k
    ensures k in Seed(ks, cats) <==> k in Seed(ks[..|ks| - 1], cats[..|cats| - 1])
    ensures k in Seed(ks, cats) ==> Seed(ks, cats)[k] == Seed(ks[..|ks| - 1], cats[..|cats| - 1])[k]
  {
  }

  lemma LaterKeys(ks: seq<string>, front: seq<string>, i: int, k: string)
    requires |ks| > 0 && front == ks[..|ks| - 1]
    requires 0 <= i < |front| && ks[|ks| - 1] != k
    requires forall j :: i < j < |front| ==> front[j] != k
    ensures forall j :: i < j < |ks| ==> ks[j] != k
  {
    forall j | i < j < |ks| ensures ks[j] != k {
      if j < |front| {
        assert ks[j] == front[j];
      }
    }
  }

  /** Every expense lands on a row of the ledger. */
  lemma {:induction false} EntriesOnLedger(txs: seq<Transaction>, keys: set<string>)
    requires "other" in keys
    ensures forall i :: 0 <= i < |ExpenseEntries(txs, keys)| ==> ExpenseEntries(txs, keys)[i].key in keys
  {
    if |txs| > 0 {
      EntriesOnLedger(txs[..|txs| - 1], keys);
    }
  }

  /** Booking changes only where the money goes, not how much there is: the
      booked amounts add up to the expense total. */
  lemma {:induction false} EntriesTotal(txs: seq<Transaction>, keys: set<string>)
    ensures Total(ExpenseEntries(txs, keys)) == KindTotal(txs, "expense")
  {
    if |txs| > 0 {
      var front := txs[..|txs| - 1];
      var t := txs[|txs| - 1];
      EntriesTotal(front, keys);
      if IsKind(t, "expense") {
        TotalSnoc(ExpenseEntries(front, keys), Entry(Target(keys, t), t.amount));
      } else {
        assert ExpenseEntries(txs, keys) == ExpenseEntries(front, keys);
      }
    }
  }

  /** The sum of the spent values of the rows listed in `ks`. */
  function SpentOver(ks: seq<string>, m: map<string, Row>): real
    requires KeysIn(ks, m)
  {
    if |ks| == 0 then 0.0 else SpentOver(ks[..|ks| - 1], m) + m[ks[|ks| - 1]].spent
  }

  lemma {:induction false} SpentOverIsTotal(ls: seq<string>, ks: seq<string>, cats: seq<Category>, txs: seq<Transaction>)
    requires |ks| == |cats|
    requires KeysIn(ls, Seeded(ks, cats))
    ensures KeysIn(ls, Final(ks, cats, txs))
    ensures SpentOver(ls, Final(ks, cats, txs)) == TotalOver(ls, ExpenseEntries(txs, Seeded(ks, cats).Keys))
  {
    if |ls| > 0 {
      SpentOverIsTotal(ls[..|ls| - 1], ks, cats, txs);
    }
  }

  /** The rows' spent values add up to the window's expense total: listed
      once each, in any order, the ledger's keys split the expenses. */
  lemma LedgerPartitionsExpense(ks: seq<string>, cats: seq<Category>, txs: seq<Transaction>, ls: seq<string>)
    requires |ks| == |cats|
    requires Distinct(ls)
    requires forall k :: k in Seeded(ks, cats) <==> k in ls
    ensures KeysIn(ls, Final(ks, cats, txs))
    ensures SpentOver(ls, Final(ks, cats, txs)) == KindTotal(txs, "expense")
  {
    var keys := Seeded(ks, cats).Keys;
    var es := ExpenseEntries(txs, keys);
    SpentOverIsTotal(ls, ks, cats, txs);
    EntriesOnLedger(txs, keys);
    Partition(ls, es);
    EntriesTotal(txs, keys);
  }

  /** The expenses whose own key is "other". */
  function OtherKeyed(txs: seq<Transaction>): real {
    if |txs| == 0 then 0.0
    else
      var t := txs[|txs| - 1];
      OtherKeyed(txs[..|txs| - 1]) + (if IsKind(t, "expense") && KeyOf(t.category) == "other" then t.amount else 0.0)
  }

  /** Unknown expenses go to "Other": its row holds the expenses keyed
      "other" plus exactly the unknown amount. */
  lemma {:induction false} OtherAbsorbsUnknown(txs: seq<Transaction>, keys: set<string>)
    requires "other" in keys
    ensures TotalFor(ExpenseEntries(txs, keys), "other") == OtherKeyed(txs) + UnknownAmount(txs, keys)
  {
    if |txs| > 0 {
      var front := txs[..|txs| - 1];
      var t := txs[|txs| - 1];
      OtherAbsorbsUnknown(front, keys);
      if IsKind(t, "expense") {
        TotalSnoc(ExpenseEntries(front, keys), Entry(Target(keys, t), t.amount));
      } else {
        assert ExpenseEntries(txs, keys) == ExpenseEntries(front, keys);
      }
    }
  }

  // ---------------------------------------------------------------------------
  // Output lines and totals

  function Line(r: Row): (l: CategoryLine)
    ensures l.remaining == r.allocation - r.spent
    ensures l.pctUsed.Some? <==> r.allocation > 0.0
    ensures l.pctUsed.Some? ==> l.pctUsed.value * r.allocation == 100.0 * r.spent
    ensures l.overspent <==> l.spent > l.allocation
  {
    CategoryLine(r.name, r.allocation, r.spent, r.allocation - r.spent,
                 if r.allocation > 0.0 then Some(100.0 * r.spent / r.allocation) else None,
                 r.spent > r.allocation)
  }

  /** One line per lookup key, in budget order. */
  function CatLines(ls: seq<string>, m: map<string, Row>): (r: seq<CategoryLine>)
    requires KeysIn(ls, m)
    ensures |r| == |ls|
    ensures forall i :: 0 <= i < |ls| ==> r[i] == Line(m[ls[i]])
  {
    if |ls| == 0 then []
    else CatLines(ls[..|ls| - 1], m) + [Line(m[ls[|ls| - 1]])]
  }

  /** The keys of the response's lines: the categories' lookup keys, then
      "other" unless a category is named other. */
  function LineKeys(ls: seq<string>): (r: seq<string>)
    ensures forall k :: k in r <==> k in ls || k == "other"
  {
    ls + (if "other" in ls then [] else ["other"])
  }

  /** The response's category lines: the budget's, then "Other" unless a
      budget category is named other. */
  function OutputLines(ls: seq<string>, m: map<string, Row>): seq<CategoryLine>
    requires KeysIn(ls, m) && "other" in m
  {
    CatLines(ls, m) + (if "other" in ls then [] else [Line(m["other"])])
  }

  /** `categories.reduce((s, c) => s + c.spent, 0)`. */
  function SumSpent(lines: seq<CategoryLine>): real {
    if |lines| == 0 then 0.0 else SumSpent(lines[..|lines| - 1]) + lines[|lines| - 1].spent
  }

  /** The fields of a report on budget `b` over the window's transactions
      `txs`, as the handler computes them. */
  predicate Describes(rep: Report, b: Budget, txs: seq<Transaction>, w: Window)
    requires WellFormedCategories(b.categories)
  {
    var ks := CatKeys(b.categories);
    var ls := NameKeys(b.categories);
    var f := Final(ks, b.categories, txs);
    var keys := Seeded(ks, b.categories).Keys;
    && KeysIn(ls, f)
    && rep.budget == Some(b)
    && rep.transactions == txs
    && rep.categories == OutputLines(ls, f)
    && rep.unknown == Unknown("Other", UnknownCount(txs, keys), UnknownAmount(txs, keys))
    && rep.totals.start == Some(w.start) && rep.totals.end == Some(w.end)
    && rep.totals.income == KindTotal(txs, "income")
    && rep.totals.expense == KindTotal(txs, "expense")
    && rep.totals.net == rep.totals.income - rep.totals.expense
    && rep.totals.budgeted == b.limit
    && rep.totals.spent == SumSpent(rep.categories)
    && rep.totals.remaining == b.limit - rep.totals.spent
    && (rep.totals.overspent <==> rep.totals.spent > b.limit)
  }

  /** The income and expense totals of the window (first loop). */
  method SumKinds(txs: seq<Transaction>) returns (income: real, expense: real)
    ensures income == KindTotal(txs, "income")
    ensures expense == KindTotal(txs, "expense")
  {
    income, expense := 0.0, 0.0;
    var i := 0;
    while i < |txs|
      invariant 0 <= i <= |txs|
      invariant income == KindTotal(txs[..i], "income")
      invariant expense == KindTotal(txs[..i], "expense")
    {
      var t := txs[i];
      if IsKind(t, "income") {
        income := income + t.amount;
      } else if IsKind(t, "expense") {
        expense := expense + t.amount;
      }
      assert txs[..i + 1][..i] == txs[..i];
      i := i + 1;
    }
    assert txs[..i] == txs;
  }

  /** The ledger seeded from the budget's categories, with "Other" added
      when missing (second loop). */
  method SeedLedger(cats: seq<Category>) returns (ledger: map<string, Row>)
    ensures ledger == Seeded(CatKeys(cats), cats)
  {
    ghost var ks := CatKeys(cats);
    ledger := map[];
    var j := 0;
    while j < |cats|
      invariant 0 <= j <= |cats|
      invariant ledger == Seed(ks[..j], cats[..j])
    {
      var key := Lower(Trim(cats[j].name));
      CatKeysAt(cats, j);
      if key != "" {
        ledger := ledger[key := Row(cats[j].name, cats[j].allocation, 0.0)];
      }
      assert cats[..j + 1][..j] == cats[..j];
      assert ks[..j + 1][..j] == ks[..j];
      j := j + 1;
    }
    assert cats[..j] == cats && ks[..j] == ks;
    if "other" !in ledger {
      ledger := ledger["other" := Row("Other", 0.0, 0.0)];
    }
  }

  /** `ledger` is `seeded` with the entries `es` added to its rows. */
  ghost predicate Booked(ledger: map<string, Row>, seeded: map<string, Row>, es: seq<Entry>) {
    && ledger.Keys == seeded.Keys
    && forall k :: k in ledger ==> ledger[k] == seeded[k].(spent := seeded[k].spent + TotalFor(es, k))
  }

  /** Adding one amount to one row books one more entry. */
  lemma BookOne(ledger: map<string, Row>, seeded: map<string, Row>, es: seq<Entry>, es': seq<Entry>,
                target: string, amount: real, ledger': map<string, Row>)
    requires Booked(ledger, seeded, es)
    requires target in ledger
    requires es' == es + [Entry(target, amount)]
    requires ledger' == ledger[target := ledger[target].(spent := ledger[target].spent + amount)]
    ensures Booked(ledger', seeded, es')
  {
    TotalSnoc(es, Entry(target, amount));
  }

  /** The state of the spending loop after the first `i` transactions. */
  ghost predicate Spent(ledger: map<string, Row>, count: nat, amt: real,
                        seeded: map<string, Row>, txs: seq<Transaction>, i: int)
    requires 0 <= i <= |txs|
  {
    && Booked(ledger, seeded, ExpenseEntries(txs[..i], seeded.Keys))
    && count == UnknownCount(txs[..i], seeded.Keys)
    && amt == UnknownAmount(txs[..i], seeded.Keys)
  }

  /** Every expense added to its target row, counting the ones whose key
      the ledger does not have (third loop). */
  method Spend(seeded: map<string, Row>, txs: seq<Transaction>)
    returns (ledger: map<string, Row>, unknownCount: nat, unknownAmt: real)
    requires "other" in seeded
    ensures ledger.Keys == seeded.Keys
    ensures forall k :: k in ledger ==>
      ledger[k] == seeded[k].(spent := seeded[k].spent + TotalFor(ExpenseEntries(txs, seeded.Keys), k))
    ensures unknownCount == UnknownCount(txs, seeded.Keys)
    ensures unknownAmt == UnknownAmount(txs, seeded.Keys)
  {
    ledger, unknownCount, unknownAmt := seeded, 0, 0.0;
    var i := 0;
    while i < |txs|
      invariant 0 <= i <= |txs|
      invariant Spent(ledger, unknownCount, unknownAmt, seeded, txs, i)
    {
      var t := txs[i];
      if IsKind(t, "expense") {
        var key := KeyOf(t.category);
        var known := key in ledger;
        var target := if known then key else "other";
        SpentKeys(ledger, unknownCount, unknownAmt, seeded, txs, i);
        ghost var before := ledger;
        ghost var count, amt := unknownCount, unknownAmt;
        ledger := ledger[target := ledger[target].(spent := ledger[target].spent + t.amount)];
        unknownCount := if known then unknownCount else unknownCount + 1;
        unknownAmt := if known then unknownAmt else unknownAmt + t.amount;
        ExpenseStep(before, count, amt, seeded, txs, i, known, target, ledger, unknownCount, unknownAmt);
      } else {
        SkipStep(ledger, unknownCount, unknownAmt, seeded, txs, i);
      }
      i := i + 1;
    }
    assert txs[..i] == txs;
  }

  /** An expense is booked on its target row, and counted as unknown when
      the ledger has no row for its key. */
  lemma ExpenseStep(ledger: map<string, Row>, count: nat, amt: real,
                    seeded: map<string, Row>, txs: seq<Transaction>, i: int,
                    known: bool, target: string,
                    ledger': map<string, Row>, count': nat, amt': real)
    requires 0 <= i < |txs| && "other" in seeded
    requires Spent(ledger, count, amt, seeded, txs, i)
    requires IsKind(txs[i], "expense")
    requires known == (KeyOf(txs[i].category) in ledger)
    requires target == if known then KeyOf(txs[i].category) else "other"
    requires target in ledger
    requires ledger' == ledger[target := ledger[target].(spent := ledger[target].spent + txs[i].amount)]
    requires count' == (if known then count else count + 1)
    requires amt' == (if known then amt else amt + txs[i].amount)
    ensures Spent(ledger', count', amt', seeded, txs, i + 1)
  {
    var t := txs[i];
    var keys := seeded.Keys;
    SpentKeys(ledger, count, amt, seeded, txs, i);
    assert target == Target(keys, t);
    ExpenseExtends(txs, i, keys);
    BookOne(ledger, seeded, ExpenseEntries(txs[..i], keys), ExpenseEntries(txs[..i + 1], keys), target, t.amount, ledger');
    assert count' == UnknownCount(txs[..i + 1], keys);
    assert amt' == UnknownAmount(txs[..i + 1], keys);
  }

  /** An expense extends the booked entries by one and the unknown counters
      by what it contributes. */
  lemma ExpenseExtends(txs: seq<Transaction>, i: int, keys: set<string>)
    requires 0 <= i < |txs| && IsKind(txs[i], "expense")
    ensures var t := txs[i];
      && ExpenseEntries(txs[..i + 1], keys) == ExpenseEntries(txs[..i], keys) + [Entry(Target(keys, t), t.amount)]
      && UnknownCount(txs[..i + 1], keys) == UnknownCount(txs[..i], keys) + (if KeyOf(t.category) in keys then 0 else 1)
      && UnknownAmount(txs[..i + 1], keys) == UnknownAmount(txs[..i], keys) + (if KeyOf(t.category) in keys then 0.0 else t.amount)
  {
    assert txs[..i + 1][..i] == txs[..i];
  }

  /** The loop keeps the seeded keys. */
  lemma SpentKeys(ledger: map<string, Row>, count: nat, amt: real,
                  seeded: map<string, Row>, txs: seq<Transaction>, i: int)
    requires 0 <= i <= |txs|
    requires Spent(ledger, count, amt, seeded, txs, i)
    ensures ledger.Keys == seeded.Keys
  {
  }

  /** A transaction that is not an expense changes nothing. */
  lemma SkipStep(ledger: map<string, Row>, count: nat, amt: real,
                 seeded: map<string, Row>, txs: seq<Transaction>, i: int)
    requires 0 <= i < |txs|
    requires Spent(ledger, count, amt, seeded, txs, i)
    requires !IsKind(txs[i], "expense")
    ensures Spent(ledger, count, amt, seeded, txs, i + 1)
  {
    var keys := seeded.Keys;
    assert txs[..i + 1][..i] == txs[..i];
    assert ExpenseEntries(txs[..i + 1], keys) == ExpenseEntries(txs[..i], keys) + [];
    assert ExpenseEntries(txs[..i], keys) + [] == ExpenseEntries(txs[..i], keys);
  }

  /** One line per budget category, looked up by its lower-cased name, and
      the set of keys looked up (fourth loop). */
  method ListLines(cats: seq<Category>, ledger: map<string, Row>)
    returns (lines: seq<CategoryLine>, seen: set<string>)
    requires KeysIn(NameKeys(cats), ledger)
    ensures lines == CatLines(NameKeys(cats), ledger)
    ensures forall k :: k in seen <==> k in NameKeys(cats)
  {
    ghost var ls := NameKeys(cats);
    lines, seen := [], {};
    var j := 0;
    while j < |cats|
      invariant 0 <= j <= |cats|
      invariant lines == CatLines(ls[..j], ledger)
      invariant forall k :: k in seen <==> k in ls[..j]
    {
      var key := Lower(cats[j].name);
      NameKeysAt(cats, j);
      var row := ledger[key];
      lines := lines + [Line(row)];
      seen := seen + {key};
      assert ls[..j + 1][..j] == ls[..j];
      assert ls[..j + 1] == ls[..j] + [key];
      j := j + 1;
    }
    assert ls[..j] == ls;
  }

  /** The handler's loops over the window's transactions `txs` and the
      budget's categories, and the totals derived from them. */
  method Summarize(b: Budget, txs: seq<Transaction>, w: Window) returns (rep: Report)
    requires WellFormedCategories(b.categories)
    ensures Describes(rep, b, txs, w)
  {
    var cats := b.categories;
    var income, expense := SumKinds(txs);
    var seeded := SeedLedger(cats);
    var ledger, unknownCount, unknownAmt := Spend(seeded, txs);
    SpentIsFinal(CatKeys(cats), cats, txs, ledger);
    CleanKeys(cats);
    var lines, seen := ListLines(cats, ledger);
    if "other" !in seen {
      lines := lines + [Line(ledger["other"])];
    }
    var spent := SumSpent(lines);
    var totals := Totals(Some(w.start), Some(w.end), b.limit, spent, b.limit - spent, spent > b.limit,
                         income, expense, income - expense);
    rep := Report(totals, Some(b), lines, Unknown("Other", unknownCount, unknownAmt), txs);
  }

  /** A ledger that adds each row's expense total to the freshly seeded,
      unspent row is the final ledger. */
  lemma SpentIsFinal(ks: seq<string>, cats: seq<Category>, txs: seq<Transaction>, ledger: map<string, Row>)
    requires |ks| == |cats|
    requires ledger.Keys == Seeded(ks, cats).Keys
    requires forall k :: k in ledger ==>
      ledger[k] == Seeded(ks, cats)[k].(spent := Seeded(ks, cats)[k].spent +
                                         TotalFor(ExpenseEntries(txs, Seeded(ks, cats).Keys), k))
    ensures ledger == Final(ks, cats, txs)
  {
    SeededUnspent(ks, cats);
  }

  /** Seeded rows have nothing spent yet. */
  lemma {:induction false} SeededUnspent(ks: seq<string>, cats: seq<Category>)
    requires |ks| == |cats|
    ensures forall k :: k in Seeded(ks, cats) ==> Seeded(ks, cats)[k].spent == 0.0
  {
    SeedUnspent(ks, cats);
  }

  lemma {:induction false} SeedUnspent(ks: seq<string>, cats: seq<Category>)
    requires |ks| == |cats|
    ensures forall k :: k in Seed(ks, cats) ==> Seed(ks, cats)[k].spent == 0.0
  {
    if |ks| > 0 {
      SeedUnspent(ks[..|ks| - 1], cats[..|cats| - 1]);
    }
  }

  // ---------------------------------------------------------------------------
  // Properties of the totals

  lemma {:induction false} SumSpentIsSpentOver(ls: seq<string>, m: map<string, Row>)
    requires KeysIn(ls, m)
    ensures SumSpent(CatLines(ls, m)) == SpentOver(ls, m)
  {
    if |ls| > 0 {
      var front := ls[..|ls| - 1];
      SumSpentIsSpentOver(front, m);
      assert CatLines(ls, m)[..|ls| - 1] == CatLines(front, m);
    }
  }

  lemma SumSpentAppend(a: seq<CategoryLine>, l: CategoryLine)
    ensures SumSpent(a + [l]) == SumSpent(a) + l.spent
  {
    assert (a + [l])[..|a|] == a;
  }

  lemma SpentOverAppend(ks: seq<string>, k: string, m: map<string, Row>)
    requires KeysIn(ks, m)
    requires k in m
    ensures KeysIn(ks + [k], m)
    ensures SpentOver(ks + [k], m) == SpentOver(ks, m) + m[k].spent
  {
    assert (ks + [k])[..|ks|] == ks;
  }

  /** The lines' reported `spent` add up to the spent values of the rows
      their keys name. */
  lemma OutputSpent(ls: seq<string>, m: map<string, Row>)
    requires KeysIn(ls, m) && "other" in m
    ensures KeysIn(LineKeys(ls), m)
    ensures SumSpent(OutputLines(ls, m)) == SpentOver(LineKeys(ls), m)
  {
    SumSpentIsSpentOver(ls, m);
    if "other" !in ls {
      assert OutputLines(ls, m) == CatLines(ls, m) + [Line(m["other"])];
      assert LineKeys(ls) == ls + ["other"];
      SumSpentAppend(CatLines(ls, m), Line(m["other"]));
      SpentOverAppend(ls, "other", m);
    } else {
      assert OutputLines(ls, m) == CatLines(ls, m);
      assert LineKeys(ls) == ls;
    }
  }

  /** When no two budget categories share a name up to case, the reported
      `spent` total equals the window's expense total. */
  lemma TotalSpentIsExpense(cats: seq<Category>, txs: seq<Transaction>)
    requires WellFormedCategories(cats)
    requires Distinct(NameKeys(cats))
    ensures KeysIn(NameKeys(cats), Final(CatKeys(cats), cats, txs))
    ensures SumSpent(OutputLines(NameKeys(cats), Final(CatKeys(cats), cats, txs))) == KindTotal(txs, "expense")
  {
    var ks := CatKeys(cats);
    CleanKeys(cats);
    var lk := LineKeys(ks);
    LineKeysDistinct(ks);
    SeededKeysAreLineKeys(cats);
    LedgerPartitionsExpense(ks, cats, txs, lk);
    OutputSpent(ks, Final(ks, cats, txs));
  }

  /** Distinct keys stay distinct with "other" added. */
  lemma LineKeysDistinct(ks: seq<string>)
    requires Distinct(ks)
    ensures Distinct(LineKeys(ks))
  {
    var lk := LineKeys(ks);
    if "other" !in ks {
      forall i, j | 0 <= i < j < |lk| ensures lk[i] != lk[j] {
        if j == |ks| {
          assert lk[i] == ks[i];
        }
      }
    }
  }

  /** The seeded rows of well-formed categories are exactly the line keys. */
  lemma SeededKeysAreLineKeys(cats: seq<Category>)
    requires WellFormedCategories(cats)
    ensures forall k :: k in Seeded(CatKeys(cats), cats) <==> k in LineKeys(CatKeys(cats))
  {
    var ks := CatKeys(cats);
    CleanKeys(cats);
    forall k ensures k in Seeded(ks, cats) <==> k in LineKeys(ks) {
      SeedKeys(ks, cats, k);
      if k in ks {
        var i :| 0 <= i < |ks| && ks[i] == k;
        assert k != "";
      }
    }
  }

  /** Two budget categories both named "Food", allocated 50 each. */
  const TwoFoods: seq<Category> := [Category("Food", 50.0), Category("Food", 50.0)]

  /** One expense of 10 in category "Food". */
  const OneLunch: seq<Transaction> := [Transaction(0, 0, 10.0, "expense", "Food", "", "", "monthly", 0, 0, 0)]

  /** The strings of the example, normalised. */
  lemma FoodStrings()
    ensures Trim("Food") == "Food" && Lower("Food") == "food" && KeyOf("Food") == "food"
    ensures Lower("expense") == "expense"
  {
    TrimmedIsFixpoint("Food");
  }

  lemma TwoFoodsKeys()
    ensures WellFormedCategories(TwoFoods)
    ensures CatKeys(TwoFoods) == ["food", "food"] && NameKeys(TwoFoods) == ["food", "food"]
  {
    FoodStrings();
    assert WellFormedCategories(TwoFoods);
    CleanKeys(TwoFoods);
    assert TwoFoods[..1] == [TwoFoods[0]] && TwoFoods[..1][..0] == [];
  }

  lemma TwoFoodsSeeded()
    ensures Seeded(["food", "food"], TwoFoods) == map["food" := Row("Food", 50.0, 0.0), "other" := Row("Other", 0.0, 0.0)]
  {
    var ks := ["food", "food"];
    assert TwoFoods[..1] == [TwoFoods[0]] && TwoFoods[..1][..0] == [];
    assert ks[..1][..0] == [] && ks[..1] == ["food"];
    assert Seed(ks[..1], TwoFoods[..1]) == map["food" := Row("Food", 50.0, 0.0)];
    assert Seed(ks, TwoFoods) == map["food" := Row("Food", 50.0, 0.0)];
  }

  lemma OneLunchEntries(keys: set<string>)
    requires "food" in keys
    ensures ExpenseEntries(OneLunch, keys) == [Entry("food", 10.0)]
  {
    FoodStrings();
    assert IsKind(OneLunch[0], "expense");
    assert Target(keys, OneLunch[0]) == "food";
    assert OneLunch[..0] == [];
    assert ExpenseEntries(OneLunch[..0], keys) == [];
  }

  lemma TwoFoodsLedger()
    ensures Final(["food", "food"], TwoFoods, OneLunch) == FoodRows
  {
    var ks := ["food", "food"];
    TwoFoodsSeeded();
    var keys := Seeded(ks, TwoFoods).Keys;
    assert keys == {"food", "other"};
    OneLunchEntries(keys);
    var es := [Entry("food", 10.0)];
    assert es[..0] == [];
    assert TotalFor(es, "food") == 10.0;
    assert TotalFor(es, "other") == 0.0;
    var f := Final(ks, TwoFoods, OneLunch);
    assert f.Keys == FoodRows.Keys;
    assert f["food"] == FoodRows["food"] && f["other"] == FoodRows["other"];
  }

  /** The ledger `TwoFoodsLedger` computes. */
  const FoodRows: map<string, Row> := map["food" := Row("Food", 50.0, 10.0), "other" := Row("Other", 0.0, 0.0)]

  lemma TwoFoodsLines()
    ensures KeysIn(["food", "food"], FoodRows) && "other" in FoodRows
    ensures SumSpent(OutputLines(["food", "food"], FoodRows)) == 20.0
  {
    var ls := ["food", "food"];
    var food := Line(FoodRows["food"]);
    var other := Line(FoodRows["other"]);
    assert food.spent == 10.0 && other.spent == 0.0;
    assert "other" !in ls;
    var cat := CatLines(ls, FoodRows);
    assert cat[0] == food && cat[1] == food;
    assert cat == [food, food];
    var lines := [food, food, other];
    assert OutputLines(ls, FoodRows) == lines;
    assert lines[..2] == [food, food] && [food, food][..1] == [food] && [food][..0] == [];
    assert SumSpent([food]) == 10.0;
    assert SumSpent([food, food]) == 20.0;
  }

  lemma OneLunchTotal()
    ensures KindTotal(OneLunch, "expense") == 10.0
  {
    FoodStrings();
    assert IsKind(OneLunch[0], "expense");
    assert OneLunch[..0] == [];
  }

  /** Two categories with the same name share one ledger row, which the
      output lists twice: the reported `spent` total counts their expenses
      twice. */
  lemma DuplicateNamesCountTwice()
    ensures WellFormedCategories(TwoFoods)
    ensures KeysIn(NameKeys(TwoFoods), Final(CatKeys(TwoFoods), TwoFoods, OneLunch))
    ensures KindTotal(OneLunch, "expense") == 10.0
    ensures SumSpent(OutputLines(NameKeys(TwoFoods), Final(CatKeys(TwoFoods), TwoFoods, OneLunch))) == 20.0
  {
    TwoFoodsKeys();
    TwoFoodsLedger();
    TwoFoodsLines();
    OneLunchTotal();
  }

  // ---------------------------------------------------------------------------
  // The handler

  datatype SummaryQuery = SummaryQuery(period: Option<string>, budgetId: IdArg, from: DateIn, to: DateIn)

  /** A `from`/`to` bound as `windowFor` sees it: only a date that parses
      bounds the window. */
  function Bound(d: DateIn): (r: Option<int>)
    ensures r.Some? <==> d.At?
    ensures d.At? ==> r.value == d.ms
  {
    if d.At? then Some(d.ms) else None
  }

  /** `requireUserId`: query string, then header, then body. */
  function SummaryUser(c: Caller): (r: Result<nat>)
    ensures r.Ok? <==> FirstGiven(c.query, c.header, c.body).Oid?
    ensures r.Ok? ==> r.value == FirstGiven(c.query, c.header, c.body).id
    ensures r.Err? ==> r.error == ApiError(400, "userId is required")
  {
    var given := FirstGiven(c.query, c.header, c.body);
    if given.Oid? then Ok(given.id) else Err(ApiError(400, "userId is required"))
  }

  /** `String(period || 'monthly').toLowerCase()`: lower-cased, not trimmed. */
  function SummaryPeriod(q: SummaryQuery): string {
    Lower(OrDefault(q.period, "monthly"))
  }

  /** `findOne({ userId, period }, { sort: { updatedAt: -1 } })`: a most
      recently updated budget of the user for that period (the first such in
      stored order). */
  function Latest(bs: seq<Budget>, user: nat, period: string): (r: Option<nat>)
    ensures r.None? <==> !HasPeriod(bs, user, period)
    ensures r.Some? ==> r.value < |bs| && bs[r.value].userId == user && bs[r.value].period == period
    ensures r.Some? ==> forall j :: 0 <= j < |bs| && bs[j].userId == user && bs[j].period == period ==>
      bs[j].updatedAt <= bs[r.value].updatedAt
  {
    if |bs| == 0 then None
    else
      var rest := Latest(bs[1..], user, period);
      assert forall j :: 1 <= j < |bs| ==> bs[j] == bs[1..][j - 1];
      var here := bs[0].userId == user && bs[0].period == period;
      if rest.None? then (if here then Some(0) else None)
      else if here && bs[0].updatedAt >= bs[rest.value + 1].updatedAt then Some(0)
      else Some(rest.value + 1)
  }

  /** The budget a summary reports on: by `budgetId` when one is sent (it
      must be the caller's), else the caller's latest for the period. */
  function PickBudget(bs: seq<Budget>, user: nat, q: SummaryQuery): (r: Result<Option<Budget>>)
    ensures q.budgetId.Malformed? ==> r == Err(ApiError(400, "Invalid budgetId"))
    ensures q.budgetId.Oid? ==>
      && r.Ok?
      && (r.value.Some? <==> IndexOwned(bs, q.budgetId.id, user).Some?)
      && (r.value.Some? ==> r.value.value.id == q.budgetId.id && r.value.value.userId == user)
    ensures q.budgetId.Absent? ==> r.Ok? && (r.value.Some? <==> HasPeriod(bs, user, SummaryPeriod(q)))
    ensures q.budgetId.Absent? && r.Ok? && r.value.Some? ==>
      && r.value.value.userId == user && r.value.value.period == SummaryPeriod(q)
      && (forall j :: 0 <= j < |bs| && bs[j].userId == user && bs[j].period == SummaryPeriod(q) ==>
            bs[j].updatedAt <= r.value.value.updatedAt)
    ensures r.Ok? && r.value.Some? ==> r.value.value in bs
  {
    match q.budgetId
    case Malformed => Err(ApiError(400, "Invalid budgetId"))
    case Oid(id) =>
      var i := IndexOwned(bs, id, user);
      Ok(if i.Some? then Some(bs[i.value]) else None)
    case Absent =>
      var i := Latest(bs, user, SummaryPeriod(q));
      Ok(if i.Some? then Some(bs[i.value]) else None)
  }

  /** The reporting window: a budget with both a start and an end date
      fixes it, overriding even an explicit `from`/`to`; otherwise
      `windowFor` of the query's period. */
  function ReportWindow(b: Budget, q: SummaryQuery, now: int): (w: Window)
    ensures b.startDate.Some? && b.endDate.Some? ==> w == Window(b.startDate.value, b.endDate.value)
    ensures !(b.startDate.Some? && b.endDate.Some?) ==> w == WindowFor(SummaryPeriod(q), Bound(q.from), Bound(q.to), now)
  {
    if b.startDate.Some? && b.endDate.Some? then Window(b.startDate.value, b.endDate.value)
    else WindowFor(SummaryPeriod(q), Bound(q.from), Bound(q.to), now)
  }

  /** A budget without both dates takes `from`/`to` when both are sent; if
      either of them is not a date, the window's bounds are invalid dates and
      formatting them fails with "Invalid time value". */
  predicate BadExplicitWindow(b: Budget, q: SummaryQuery) {
    && !(b.startDate.Some? && b.endDate.Some?)
    && !q.from.Blank? && !q.to.Blank?
    && (q.from.BadDate? || q.to.BadDate?)
  }

  const InvalidTimeMessage: string := "Invalid time value"

  /** The user's transactions dated in `[start, end)`, latest first. */
  function InWindow(txs: seq<Transaction>, user: nat, w: Window): seq<Transaction> {
    SortDesc(Select(txs, TxFilter(user, None, None, None, Some(w.start), Some(w.end))), ByDate)
  }

  /** The response when the user has no matching budget. */
  const EmptyReport: Report :=
    Report(Totals(None, None, 0.0, 0.0, 0.0, false, 0.0, 0.0, 0.0), None, [], Unknown("Other", 0, 0.0), [])

  /** GET /api/summary. `budgets` and `txs` are the two collections. */
  method Handle(caller: Caller, q: SummaryQuery, budgets: seq<Budget>, txs: seq<Transaction>, now: int)
    returns (r: Result<Report>)
    requires forall i :: 0 <= i < |budgets| ==> WellFormedCategories(budgets[i].categories)
    ensures SummaryUser(caller).Err? ==> r == Err(SummaryUser(caller).error)
    ensures SummaryUser(caller).Ok? && PickBudget(budgets, SummaryUser(caller).value, q).Err? ==>
      r == Err(PickBudget(budgets, SummaryUser(caller).value, q).error)
    ensures SummaryUser(caller).Ok? && PickBudget(budgets, SummaryUser(caller).value, q) == Ok(None) ==>
      r == Ok(EmptyReport)
    ensures (&& SummaryUser(caller).Ok?
             && PickBudget(budgets, SummaryUser(caller).value, q).Ok?
             && PickBudget(budgets, SummaryUser(caller).value, q).value.Some?) ==>
        var user := SummaryUser(caller).value;
        var b := PickBudget(budgets, user, q).value.value;
        var w := ReportWindow(b, q, now);
        && (BadExplicitWindow(b, q) ==> r == Err(ApiError(400, InvalidTimeMessage)))
        && (!BadExplicitWindow(b, q) ==>
              WellFormedCategories(b.categories) && r.Ok? && Describes(r.value, b, InWindow(txs, user, w), w))
  {
    var user := SummaryUser(caller);
    if user.Err? {
      return Err(user.error);
    }
    var pick := PickBudget(budgets, user.value, q);
    if pick.Err? {
      return Err(pick.error);
    }
    if pick.value.None? {
      return Ok(EmptyReport);
    }
    var b := pick.value.value;
    if BadExplicitWindow(b, q) {
      return Err(ApiError(400, InvalidTimeMessage));
    }
    var w := ReportWindow(b, q, now);
    var rep := Summarize(b, InWindow(txs, user.value, w), w);
    return Ok(rep);
  }

  /** A report covers exactly the user's transactions dated inside the
      window. */
  lemma ReportCoversWindowOnly(txs: seq<Transaction>, user: nat, w: Window)
    ensures forall t :: t in InWindow(txs, user, w) <==> t in txs && t.userId == user && w.start <= t.date < w.end
  {
    var f := TxFilter(user, None, None, None, Some(w.start), Some(w.end));
    forall t ensures t in InWindow(txs, user, w) <==> t in Select(txs, f) {
      SortedMembers(Select(txs, f), ByDate, t);
    }
  }
}

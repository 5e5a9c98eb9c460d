/** The simple ledger of `server/src/models/simpleTransaction.js`: a
    collection of signed amounts, each with a free-form name, with its
    balance and the expenses grouped by name. Positive amounts are money in,
    negative amounts money out. */
module SimpleLedger {
  import opened Common
  import opened Sums
  import opened Sorting

  /** A stored record of the `transactions_simple` collection. */
  datatype SimpleRecord = SimpleRecord(id: nat, userId: nat, name: string, amount: real, date: int)

  /** A record as the model functions return it: without the owner. */
  datatype Item = Item(id: nat, name: string, amount: real, date: int)

  /** The result of `getSimpleSummary`. */
  datatype SimpleSummary = SimpleSummary(balance: real, expensesByName: map<string, real>, items: seq<Item>)

  function ToItem(d: SimpleRecord): (r: Item)
    ensures r.id == d.id && r.name == d.name && r.amount == d.amount && r.date == d.date
  {
    Item(d.id, d.name, d.amount, d.date)
  }

  function ToItems(ds: seq<SimpleRecord>): (r: seq<Item>)
    ensures |r| == |ds|
    ensures forall i :: 0 <= i < |ds| ==> r[i] == ToItem(ds[i])
  {
    if |ds| == 0 then [] else ToItems(ds[..|ds| - 1]) + [ToItem(ds[|ds| - 1])]
  }

  function ByRecordDate(d: SimpleRecord): Rank {
    Rank(d.date, 0)
  }

  /** The records owned by `user`, in stored order. */
  function Owned(ds: seq<SimpleRecord>, user: nat): (r: seq<SimpleRecord>)
    ensures forall d :: d in r <==> d in ds && d.userId == user
  {
    if |ds| == 0 then []
    else Owned(ds[..|ds| - 1], user) + (if ds[|ds| - 1].userId == user then [ds[|ds| - 1]] else [])
  }

  // ---------------------------------------------------------------------------
  // The summary, as the loop of `getSimpleSummary` accumulates it

  /** `t.name || "unknown"`: the key an expense is grouped under. */
  function NameKey(name: string): (k: string)
    ensures k != ""
    ensures name != "" ==> k == name
  {
    if name == "" then "unknown" else name
  }

  /** The sum of all amounts. */
  function Balance(items: seq<Item>): real {
    if |items| == 0 then 0.0 else Balance(items[..|items| - 1]) + items[|items| - 1].amount
  }

  /** Every negative amount, as its absolute value booked under its name
      key; zero and positive amounts contribute no entry. */
  function Expenses(items: seq<Item>): seq<Entry> {
    if |items| == 0 then []
    else
      var t := items[|items| - 1];
      Expenses(items[..|items| - 1]) + (if t.amount < 0.0 then [Entry(NameKey(t.name), -t.amount)] else [])
  }

  /** The keys of `es`, each once, in order of first occurrence (the order
      in which the loop adds them to `expensesByName`). */
  function KeysOf(es: seq<Entry>): (ks: seq<string>)
    ensures forall k :: k in ks <==> exists i :: 0 <= i < |es| && es[i].key == k
  {
    if |es| == 0 then []
    else
      var front := KeysOf(es[..|es| - 1]);
      var k := es[|es| - 1].key;
      assert forall i :: 0 <= i < |es| - 1 ==> es[..|es| - 1][i] == es[i];
      if k in front then front else front + [k]
  }

  /** Money in: the sum of the positive amounts. */
  function Income(items: seq<Item>): real {
    if |items| == 0 then 0.0
    else Income(items[..|items| - 1]) + (if items[|items| - 1].amount > 0.0 then items[|items| - 1].amount else 0.0)
  }

  /** Money out: the sum of the absolute values of the negative amounts. */
  function Outgoings(items: seq<Item>): real {
    if |items| == 0 then 0.0
    else Outgoings(items[..|items| - 1]) + (if items[|items| - 1].amount < 0.0 then -items[|items| - 1].amount else 0.0)
  }

  /** `byName` holds, for each key of `es`, the sum of its amounts. */
  ghost predicate Grouped(byName: map<string, real>, es: seq<Entry>) {
    && (forall k :: k in byName <==> k in KeysOf(es))
    && (forall k :: k in byName ==> byName[k] == TotalFor(es, k))
  }

  /** The state of the summary loop after the first `i` items. */
  ghost predicate Summed(balance: real, byName: map<string, real>, items: seq<Item>, i: int)
    requires 0 <= i <= |items|
  {
    balance == Balance(items[..i]) && Grouped(byName, Expenses(items[..i]))
  }

  /** The loop of `getSimpleSummary`: the balance of all amounts, and for
      each name key the absolute values of its negative amounts added up. */
  method Summarize(items: seq<Item>) returns (balance: real, byName: map<string, real>)
    ensures balance == Balance(items)
    ensures forall k :: k in byName <==> k in KeysOf(Expenses(items))
    ensures forall k :: k in byName ==> byName[k] == TotalFor(Expenses(items), k)
  {
    balance, byName := 0.0, map[];
    var i := 0;
    while i < |items|
      invariant 0 <= i <= |items|
      invariant Summed(balance, byName, items, i)
    {
      var t := items[i];
      ghost var b, m := balance, byName;
      balance := balance + t.amount;
      if t.amount < 0.0 {
        var key := NameKey(t.name);
        byName := byName[key := (if key in byName then byName[key] else 0.0) + -t.amount];
        NegativeStep(b, m, items, i, key, balance, byName);
      } else {
        OtherStep(b, m, items, i, balance);
      }
      i := i + 1;
    }
    assert items[..i] == items;
  }

  /** A negative amount lowers the balance and is grouped under its name
      key. */
  lemma NegativeStep(balance: real, byName: map<string, real>, items: seq<Item>, i: int,
                     key: string, balance': real, byName': map<string, real>)
    requires 0 <= i < |items| && Summed(balance, byName, items, i)
    requires items[i].amount < 0.0 && key == NameKey(items[i].name)
    requires balance' == balance + items[i].amount
    requires byName' == byName[key := (if key in byName then byName[key] else 0.0) + -items[i].amount]
    ensures Summed(balance', byName', items, i + 1)
  {
    var t := items[i];
    assert items[..i + 1][..i] == items[..i];
    var e := Entry(key, -t.amount);
    assert Expenses(items[..i + 1]) == Expenses(items[..i]) + [e];
    GroupOne(byName, Expenses(items[..i]), e, Expenses(items[..i + 1]), byName');
  }

  /** A zero or positive amount changes only the balance. */
  lemma OtherStep(balance: real, byName: map<string, real>, items: seq<Item>, i: int, balance': real)
    requires 0 <= i < |items| && Summed(balance, byName, items, i)
    requires items[i].amount >= 0.0
    requires balance' == balance + items[i].amount
    ensures Summed(balance', byName, items, i + 1)
  {
    assert items[..i + 1][..i] == items[..i];
    assert Expenses(items[..i + 1]) == Expenses(items[..i]);
  }

  /** Adding an amount to its key's value (0 when the key is new) groups one
      more entry. */
  lemma GroupOne(byName: map<string, real>, es: seq<Entry>, e: Entry, es': seq<Entry>, byName': map<string, real>)
    requires Grouped(byName, es)
    requires es' == es + [e]
    requires byName' == byName[e.key := (if e.key in byName then byName[e.key] else 0.0) + e.amount]
    ensures Grouped(byName', es')
  {
    SnocKeys(es, e);
    forall k | k in byName' ensures byName'[k] == TotalFor(es', k) {
      TotalForSnoc(es, e, k);
      if k == e.key && e.key !in byName {
        TotalForUnbooked(es, k);
      }
    }
  }

  lemma TotalForSnoc(es: seq<Entry>, e: Entry, k: string)
    ensures TotalFor(es + [e], k) == TotalFor(es, k) + (if e.key == k then e.amount else 0.0)
  {
    assert (es + [e])[..|es|] == es;
  }

  lemma SnocKeys(es: seq<Entry>, e: Entry)
    ensures forall k :: k in KeysOf(es + [e]) <==> k in KeysOf(es) || k == e.key
  {
    assert (es + [e])[..|es|] == es;
  }

  /** `KeysOf` lists no key twice. */
  lemma {:induction false} KeysOfDistinct(es: seq<Entry>)
    ensures Distinct(KeysOf(es))
  {
    if |es| > 0 {
      KeysOfDistinct(es[..|es| - 1]);
    }
  }

  /** The grouped expenses add up to the money out: summing the values of
      `expensesByName` over its keys gives the absolute values of all
      negative amounts. */
  lemma ByNameAddsUp(items: seq<Item>)
    ensures TotalOver(KeysOf(Expenses(items)), Expenses(items)) == Outgoings(items)
  {
    var es := Expenses(items);
    KeysOfDistinct(es);
    Partition(KeysOf(es), es);
    ExpensesTotal(items);
  }

  lemma {:induction false} ExpensesTotal(items: seq<Item>)
    ensures Total(Expenses(items)) == Outgoings(items)
  {
    if |items| > 0 {
      var front := items[..|items| - 1];
      var t := items[|items| - 1];
      ExpensesTotal(front);
      if t.amount < 0.0 {
        TotalSnoc(Expenses(front), Entry(NameKey(t.name), -t.amount));
      } else {
        assert Expenses(items) == Expenses(front);
      }
    }
  }

  /** The balance is money in less money out. */
  lemma {:induction false} BalanceIsInMinusOut(items: seq<Item>)
    ensures Balance(items) == Income(items) - Outgoings(items)
  {
    if |items| > 0 {
      BalanceIsInMinusOut(items[..|items| - 1]);
    }
  }

  /** Only negative amounts are grouped, and a name with none of them does
      not appear. */
  lemma {:induction false} OnlyNegativesGrouped(items: seq<Item>, k: string)
    requires forall i :: 0 <= i < |items| && NameKey(items[i].name) == k ==> items[i].amount >= 0.0
    ensures k !in KeysOf(Expenses(items))
  {
    if |items| > 0 {
      var front := items[..|items| - 1];
      assert forall i :: 0 <= i < |front| ==> front[i] == items[i];
      OnlyNegativesGrouped(front, k);
    }
  }

  // ---------------------------------------------------------------------------
  // The collection

  predicate StoreInvariant(ds: seq<SimpleRecord>, nextId: nat) {
    && (forall i :: 0 <= i < |ds| ==> ds[i].id < nextId)
    && (forall i, j :: 0 <= i < j < |ds| ==> ds[i].id != ds[j].id)
  }

  /** Removing one record keeps the ids distinct and below `nextId`. */
  lemma RemoveKeepsInvariant(ds: seq<SimpleRecord>, n: nat, i: nat, rest: seq<SimpleRecord>)
    requires StoreInvariant(ds, n) && i < |ds| && rest == ds[..i] + ds[i + 1..]
    ensures StoreInvariant(rest, n)
  {
    assert forall x :: 0 <= x < |rest| ==> rest[x] == (if x < i then ds[x] else ds[x + 1]);
  }

  /** The position of the record with id `id` owned by `user`, if any. */
  function IndexOwned(ds: seq<SimpleRecord>, id: nat, user: nat): (r: Option<nat>)
    ensures r.Some? ==> r.value < |ds| && ds[r.value].id == id && ds[r.value].userId == user
    ensures r.None? <==> forall j :: 0 <= j < |ds| ==> !(ds[j].id == id && ds[j].userId == user)
  {
    if |ds| == 0 then None
    else if ds[0].id == id && ds[0].userId == user then Some(0)
    else
      var k := IndexOwned(ds[1..], id, user);
      if k.Some? then Some(k.value + 1) else None
  }

  class SimpleStore {
    var records: seq<SimpleRecord>
    var nextId: nat

    ghost predicate Valid()
      reads this
    {
      StoreInvariant(records, nextId)
    }

    constructor ()
      ensures Valid() && records == []
    {
      records := [];
      nextId := 0;
    }

    /** `createSimpleTransaction`: store the record with the clock reading
        `now` as its date and return it with its new id. */
    method Create(userId: nat, name: string, amount: real, now: int) returns (item: Item)
      requires Valid()
      modifies this
      ensures Valid()
      ensures item == Item(old(nextId), name, amount, now)
      ensures records == old(records) + [SimpleRecord(item.id, userId, name, amount, now)]
      ensures nextId == old(nextId) + 1
    {
      var d := SimpleRecord(nextId, userId, name, amount, now);
      assert forall i :: 0 <= i < |records| ==> (records + [d])[i] == records[i];
      records := records + [d];
      nextId := nextId + 1;
      item := ToItem(d);
    }

    /** `listSimpleTransactions`: the user's records, latest date first. */
    function List(userId: nat): (r: seq<Item>)
      reads this
      ensures |r| == |Owned(records, userId)|
      ensures forall x :: x in r ==> exists d :: d in records && d.userId == userId && x == ToItem(d)
      ensures forall d :: d in records && d.userId == userId ==> ToItem(d) in r
      ensures forall i, j :: 0 <= i < j < |r| ==> r[i].date >= r[j].date
    {
      var sorted := SortDesc(Owned(records, userId), ByRecordDate);
      ListedFromSorted(sorted, Owned(records, userId), userId);
      ToItems(sorted)
    }

    /** `getSimpleSummary`: the listing with its balance and grouped
        expenses. */
    method Summary(userId: nat) returns (s: SimpleSummary)
      ensures s.items == List(userId)
      ensures s.balance == Balance(s.items)
      ensures forall k :: k in s.expensesByName <==> k in KeysOf(Expenses(s.items))
      ensures forall k :: k in s.expensesByName ==> s.expensesByName[k] == TotalFor(Expenses(s.items), k)
    {
      var items := List(userId);
      var balance, byName := Summarize(items);
      s := SimpleSummary(balance, byName, items);
    }

    /** `deleteSimpleTransaction`: remove the record `id` if `userId` owns
        it; the answer is `{ ok: true }` either way. */
    method Delete(userId: nat, id: nat) returns (ok: bool)
      requires Valid()
      modifies this
      ensures Valid() && nextId == old(nextId) && ok
      ensures IndexOwned(old(records), id, userId).None? ==> records == old(records)
      ensures IndexOwned(old(records), id, userId).Some? ==>
        var i := IndexOwned(old(records), id, userId).value;
        records == old(records)[..i] + old(records)[i + 1..]
    {
      var i := IndexOwned(records, id, userId);
      if i.Some? {
        var rest := records[..i.value] + records[i.value + 1..];
        RemoveKeepsInvariant(records, nextId, i.value, rest);
        records := rest;
      }
      ok := true;
    }
  }

  lemma ListedFromSorted(sorted: seq<SimpleRecord>, owned: seq<SimpleRecord>, userId: nat)
    requires SortedDesc(sorted, ByRecordDate) && multiset(sorted) == multiset(owned)
    requires forall d :: d in owned ==> d.userId == userId
    ensures |sorted| == |owned|
    ensures forall i, j :: 0 <= i < j < |sorted| ==> sorted[i].date >= sorted[j].date
    ensures forall d :: d in sorted <==> d in owned
  {
    assert |sorted| == |multiset(sorted)| == |multiset(owned)| == |owned|;
    forall d ensures d in sorted <==> d in owned {
      assert d in sorted <==> d in multiset(sorted);
      assert d in owned <==> d in multiset(owned);
    }
  }
}

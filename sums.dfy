/** Sums of amounts booked under string keys: the shape shared by the summary
    ledger (expenses per category key) and the simple ledger (expenses per
    transaction name). */
module Sums {

  /** One amount booked under one key. */
  datatype Entry = Entry(key: string, amount: real)

  /** The sum of all amounts, accumulated front to back as `reduce` does. */
  function Total(es: seq<Entry>): real
  {
    if |es| == 0 then 0.0 else Total(es[..|es| - 1]) + es[|es| - 1].amount
  }

  /** The sum of the amounts booked under key `k`. */
  function TotalFor(es: seq<Entry>, k: string): real
  {
    if |es| == 0 then 0.0
    else TotalFor(es[..|es| - 1], k) + (if es[|es| - 1].key == k then es[|es| - 1].amount else 0.0)
  }

  /** The sum, over a list of keys, of the amounts booked under each of them. */
  function TotalOver(ks: seq<string>, es: seq<Entry>): real
  {
    if |ks| == 0 then 0.0 else TotalOver(ks[..|ks| - 1], es) + TotalFor(es, ks[|ks| - 1])
  }

  predicate Distinct(ks: seq<string>) {
    forall i, j :: 0 <= i < j < |ks| ==> ks[i] != ks[j]
  }

  /** Whether some entry is booked under `k`. */
  predicate Booked(es: seq<Entry>, k: string) {
    exists i :: 0 <= i < |es| && es[i].key == k
  }

  lemma {:induction false} TotalForUnbooked(es: seq<Entry>, k: string)
    requires !Booked(es, k)
    ensures TotalFor(es, k) == 0.0
  {
    if |es| > 0 {
      var front := es[..|es| - 1];
      assert !Booked(front, k) by {
        forall i | 0 <= i < |front| ensures front[i].key != k {
          assert front[i] == es[i];
        }
      }
      TotalForUnbooked(front, k);
    }
  }

  lemma {:induction false} TotalOverSnoc(ks: seq<string>, es: seq<Entry>, e: Entry)
    requires Distinct(ks)
    ensures TotalOver(ks, es + [e]) == TotalOver(ks, es) + (if e.key in ks then e.amount else 0.0)
  {
    if |ks| > 0 {
      var front := ks[..|ks| - 1];
      assert Distinct(front);
      TotalOverSnoc(front, es, e);
      assert (es + [e])[..|es + [e]| - 1] == es;
      assert e.key in ks <==> e.key in front || e.key == ks[|ks| - 1];
      assert e.key == ks[|ks| - 1] ==> e.key !in front;
    }
  }

  /** Booking every entry under one of several distinct keys splits the
      total: the per-key totals over those keys add up to the whole total. */
  lemma {:induction false} Partition(ks: seq<string>, es: seq<Entry>)
    requires Distinct(ks)
    requires forall i :: 0 <= i < |es| ==> es[i].key in ks
    ensures TotalOver(ks, es) == Total(es)
  {
    if |es| == 0 {
      TotalOverEmpty(ks);
    } else {
      var front := es[..|es| - 1];
      assert forall i :: 0 <= i < |front| ==> front[i].key in ks by {
        forall i | 0 <= i < |front| ensures front[i].key in ks {
          assert front[i] == es[i];
        }
      }
      Partition(ks, front);
      assert es == front + [es[|es| - 1]];
      TotalOverSnoc(ks, front, es[|es| - 1]);
    }
  }

  lemma {:induction false} TotalOverEmpty(ks: seq<string>)
    ensures TotalOver(ks, []) == 0.0
  {
    if |ks| > 0 {
      TotalOverEmpty(ks[..|ks| - 1]);
    }
  }

  lemma TotalSnoc(es: seq<Entry>, e: Entry)
    ensures Total(es + [e]) == Total(es) + e.amount
    ensures forall k :: TotalFor(es + [e], k) == TotalFor(es, k) + (if e.key == k then e.amount else 0.0)
  {
    assert (es + [e])[..|es + [e]| - 1] == es;
  }
}

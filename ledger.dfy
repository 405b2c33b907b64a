/** Sums over the transaction collection, as the `$group`/`$sum`
    aggregations of the admin statistics and the creator earnings compute
    them. */
module Ledger {
  import opened Common
  import opened Models

  /** The `$match` stages used with the sums. */
  datatype TxFilter = AnyTx | TipsOnly | NonTips | OnDay(day: int) | PaidTo(user: Id)

  predicate Matches(f: TxFilter, t: Transaction) {
    match f
    case AnyTx => true
    case TipsOnly => t.details.kind == Some("tip")
    case NonTips => t.details.kind != Some("tip")
    case OnDay(d) => t.day == d
    case PaidTo(u) => t.toUser == u
  }

  /** Every transaction id, in insertion order. */
  function AllTxIds(txs: map<Id, Transaction>): (ids: seq<Id>)
    ensures forall i :: 0 <= i < |ids| ==> ids[i] in txs
    ensures forall k :: k in txs ==> k in ids
    ensures NoDup(ids) && Increasing(ids)
    ensures |ids| == |txs.Keys|
  {
    var ids := SortedIds(txs.Keys);
    assert forall i, j :: 0 <= i < j < |ids| ==> ids[i] < ids[j];
    ids
  }

  /** `$sum: '$amount'` over the listed transactions that match. */
  function AmountOver(txs: map<Id, Transaction>, ids: seq<Id>, f: TxFilter): int
    requires forall i :: 0 <= i < |ids| ==> ids[i] in txs
  {
    if ids == [] then 0
    else
      var last := txs[ids[|ids| - 1]];
      AmountOver(txs, ids[..|ids| - 1], f) + (if Matches(f, last) then last.amount else 0)
  }

  /** How many of the listed transactions match. */
  function CountOver(txs: map<Id, Transaction>, ids: seq<Id>, f: TxFilter): (n: nat)
    requires forall i :: 0 <= i < |ids| ==> ids[i] in txs
    ensures n <= |ids|
  {
    if ids == [] then 0
    else CountOver(txs, ids[..|ids| - 1], f) + (if Matches(f, txs[ids[|ids| - 1]]) then 1 else 0)
  }

  /** The listed transactions that match, in list order: the documents a
      `find` with the same filter returns. Their number is the count. */
  function MatchingIds(txs: map<Id, Transaction>, ids: seq<Id>, f: TxFilter): (r: seq<Id>)
    requires forall i :: 0 <= i < |ids| ==> ids[i] in txs
    ensures forall k :: k in r <==> k in ids && Matches(f, txs[k])
    ensures |r| == CountOver(txs, ids, f)
  {
    if ids == [] then []
    else
      var init := ids[..|ids| - 1];
      var last := ids[|ids| - 1];
      var r := MatchingIds(txs, init, f);
      assert ids == init + [last];
      if Matches(f, txs[last]) then r + [last] else r
  }

  /** Filtering keeps the order: matches of an increasing list increase. */
  lemma {:induction false} MatchingIncreasing(txs: map<Id, Transaction>, ids: seq<Id>, f: TxFilter)
    requires forall i :: 0 <= i < |ids| ==> ids[i] in txs
    requires Increasing(ids)
    ensures Increasing(MatchingIds(txs, ids, f))
  {
    if ids != [] {
      var init := ids[..|ids| - 1];
      var last := ids[|ids| - 1];
      assert Increasing(init);
      MatchingIncreasing(txs, init, f);
      var r := MatchingIds(txs, init, f);
      if Matches(f, txs[last]) {
        forall x | x in r
          ensures x < last
        {
          var i :| 0 <= i < |init| && init[i] == x;
        }
        IncreasingSnoc(r, last);
        assert MatchingIds(txs, ids, f) == r + [last];
      }
    }
  }

  /** Every amount is either a tip or not: the total splits into the two. */
  lemma {:induction false} SplitRevenue(txs: map<Id, Transaction>, ids: seq<Id>)
    requires forall i :: 0 <= i < |ids| ==> ids[i] in txs
    ensures AmountOver(txs, ids, AnyTx) == AmountOver(txs, ids, TipsOnly) + AmountOver(txs, ids, NonTips)
  {
    if ids != [] {
      SplitRevenue(txs, ids[..|ids| - 1]);
    }
  }

  /** A filter nothing matches sums to 0. */
  lemma {:induction false} NoMatchSumsToZero(txs: map<Id, Transaction>, ids: seq<Id>, f: TxFilter)
    requires forall i :: 0 <= i < |ids| ==> ids[i] in txs
    requires forall i :: 0 <= i < |ids| ==> !Matches(f, txs[ids[i]])
    ensures AmountOver(txs, ids, f) == 0 && CountOver(txs, ids, f) == 0
  {
    if ids != [] {
      NoMatchSumsToZero(txs, ids[..|ids| - 1], f);
    }
  }

  /** Adding a transaction adds its amount to every sum it matches. */
  lemma {:induction false} AmountOverAdd(txs: map<Id, Transaction>, ids: seq<Id>, id: Id, t: Transaction, f: TxFilter)
    requires forall i :: 0 <= i < |ids| ==> ids[i] in txs
    requires id !in ids
    ensures forall i :: 0 <= i < |ids| ==> ids[i] in txs[id := t]
    ensures AmountOver(txs[id := t], ids + [id], f) == AmountOver(txs, ids, f) + (if Matches(f, t) then t.amount else 0)
  {
    var txs' := txs[id := t];
    assert (ids + [id])[..|ids|] == ids;
    AmountOverFrame(txs, txs', ids, f);
  }

  /** Sums only read the listed transactions. */
  lemma {:induction false} AmountOverFrame(txs: map<Id, Transaction>, txs': map<Id, Transaction>, ids: seq<Id>, f: TxFilter)
    requires forall i :: 0 <= i < |ids| ==> ids[i] in txs && ids[i] in txs' && txs[ids[i]] == txs'[ids[i]]
    ensures AmountOver(txs, ids, f) == AmountOver(txs', ids, f)
  {
    if ids != [] {
      AmountOverFrame(txs, txs', ids[..|ids| - 1], f);
    }
  }

  /** The days on which some transaction was made. */
  function Days(txs: map<Id, Transaction>): set<int> {
    set k | k in txs :: txs[k].day
  }

  /** The `dailyRevenue` aggregation: for every day from `from` on that has
      transactions, the sum of that day's amounts. */
  function DailyTotals(txs: map<Id, Transaction>, from: int): (m: map<int, int>)
    ensures forall d :: d in m <==> d in Days(txs) && d >= from
    ensures forall d :: d in m ==> m[d] == AmountOver(txs, AllTxIds(txs), OnDay(d))
  {
    map d | d in Days(txs) && d >= from :: AmountOver(txs, AllTxIds(txs), OnDay(d))
  }

  /** `dateMap.get(day) || 0` is that day's total, 0 on days without
      transactions. */
  lemma DailyTotalOrZero(txs: map<Id, Transaction>, from: int, d: int)
    requires d >= from
    ensures Get(DailyTotals(txs, from), d).Some? ==> Get(DailyTotals(txs, from), d).value == AmountOver(txs, AllTxIds(txs), OnDay(d))
    ensures Get(DailyTotals(txs, from), d).None? ==> AmountOver(txs, AllTxIds(txs), OnDay(d)) == 0
  {
    if d !in Days(txs) {
      var ids := AllTxIds(txs);
      forall i | 0 <= i < |ids|
        ensures !Matches(OnDay(d), txs[ids[i]])
      {
        assert txs[ids[i]].day in Days(txs);
      }
      NoMatchSumsToZero(txs, ids, OnDay(d));
    }
  }
}

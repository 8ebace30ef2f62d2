/** The activity feed of one owner: ordered insert (ledger.ts pushHistory) and the binary-search
    paging of postgres.ts historyOf. */
module History {
  import opened Field

  /** A bjj public key. */
  type Owner = (int, int)

  datatype Kind = Received | Sent | Withdraw | Deposit

  datatype Item = Item(kind: Kind, counterparty: Option<Owner>, amount: nat, txHash: nat, blockTimestamp: nat,
                       seqNo: nat)

  ghost predicate Ascending(arr: seq<Item>) {
    forall i, j :: 0 <= i < j < |arr| ==> arr[i].seqNo < arr[j].seqNo
  }

  // ---- pushHistory -------------------------------------------------------------------

  function InsertionIndex(arr: seq<Item>, seqNo: nat, i: nat): (r: nat)
    requires i <= |arr|
    ensures r <= i
    ensures forall k :: r <= k < i ==> arr[k].seqNo > seqNo
    ensures r > 0 ==> arr[r - 1].seqNo <= seqNo
  {
    if i > 0 && arr[i - 1].seqNo > seqNo then InsertionIndex(arr, seqNo, i - 1) else i
  }

  function PushHistory(arr: seq<Item>, item: Item): seq<Item> {
    if |arr| > 0 && item.seqNo <= arr[|arr| - 1].seqNo then
      var at := InsertionIndex(arr, item.seqNo, |arr|);
      arr[..at] + [item] + arr[at..]
    else arr + [item]
  }

  lemma InsertKeepsAscending(arr: seq<Item>, item: Item, at: nat)
    requires Ascending(arr) && at <= |arr|
    requires at > 0 ==> arr[at - 1].seqNo < item.seqNo
    requires at < |arr| ==> item.seqNo < arr[at].seqNo
    ensures Ascending(arr[..at] + [item] + arr[at..])
  {
  }

  lemma InsertKeepsItems(arr: seq<Item>, item: Item, at: nat)
    requires at <= |arr|
    ensures multiset(arr[..at] + [item] + arr[at..]) == multiset(arr) + multiset{item}
  {
    assert arr == arr[..at] + arr[at..];
  }

  /** A fresh seq lands so that the feed stays strictly ascending, and nothing is lost. */
  lemma PushKeepsAscending(arr: seq<Item>, item: Item)
    requires Ascending(arr) && forall i :: 0 <= i < |arr| ==> arr[i].seqNo != item.seqNo
    ensures Ascending(PushHistory(arr, item))
    ensures multiset(PushHistory(arr, item)) == multiset(arr) + multiset{item}
  {
    if |arr| > 0 && item.seqNo <= arr[|arr| - 1].seqNo {
      var at := InsertionIndex(arr, item.seqNo, |arr|);
      InsertKeepsAscending(arr, item, at);
      InsertKeepsItems(arr, item, at);
    }
  }

  function PushAll(arr: seq<Item>, items: seq<Item>): seq<Item> {
    if items == [] then arr else PushHistory(PushAll(arr, items[..|items| - 1]), items[|items| - 1])
  }

  ghost predicate DistinctSeqs(items: seq<Item>) {
    forall i, j :: 0 <= i < j < |items| ==> items[i].seqNo != items[j].seqNo
  }

  lemma LastIsFresh(items: seq<Item>, arr: seq<Item>)
    requires items != [] && DistinctSeqs(items)
    requires multiset(arr) == multiset(items[..|items| - 1])
    ensures forall i :: 0 <= i < |arr| ==> arr[i].seqNo != items[|items| - 1].seqNo
  {
    var init := items[..|items| - 1];
    forall i | 0 <= i < |arr|
      ensures arr[i].seqNo != items[|items| - 1].seqNo
    {
      assert arr[i] in multiset(init);
      var j :| 0 <= j < |init| && init[j] == arr[i];
    }
  }

  lemma {:induction false} PushAllSorts(items: seq<Item>)
    requires DistinctSeqs(items)
    ensures Ascending(PushAll([], items)) && multiset(PushAll([], items)) == multiset(items)
  {
    hide PushHistory;
    if items != [] {
      var init, last := items[..|items| - 1], items[|items| - 1];
      PushAllSorts(init);
      LastIsFresh(items, PushAll([], init));
      PushKeepsAscending(PushAll([], init), last);
      assert items == init + [last];
    }
  }

  lemma LastIsGreatest(a: seq<Item>, x: Item)
    requires Ascending(a) && x in multiset(a)
    ensures a != [] && x.seqNo <= a[|a| - 1].seqNo
    ensures x.seqNo == a[|a| - 1].seqNo ==> x == a[|a| - 1]
  {
    var k :| 0 <= k < |a| && a[k] == x;
  }

  lemma AscendingPrefix(a: seq<Item>)
    requires a != [] && Ascending(a)
    ensures Ascending(a[..|a| - 1])
  {
  }

  lemma DropLastItem(a: seq<Item>)
    requires a != []
    ensures multiset(a[..|a| - 1]) == multiset(a) - multiset{a[|a| - 1]}
  {
    assert a == a[..|a| - 1] + [a[|a| - 1]];
  }

  lemma {:induction false} AscendingIsUnique(a: seq<Item>, b: seq<Item>)
    requires Ascending(a) && Ascending(b) && multiset(a) == multiset(b)
    ensures a == b
  {
    hide Ascending;
    assert |a| == |multiset(a)| == |multiset(b)| == |b|;
    if a != [] {
      var la, lb := a[|a| - 1], b[|b| - 1];
      LastIsGreatest(a, lb);
      LastIsGreatest(b, la);
      DropLastItem(a);
      DropLastItem(b);
      AscendingPrefix(a);
      AscendingPrefix(b);
      AscendingIsUnique(a[..|a| - 1], b[..|b| - 1]);
      assert a == a[..|a| - 1] + [la] && b == b[..|b| - 1] + [lb];
    }
  }

  /** Whatever order distinct seqs arrive in, the feed is the same. */
  lemma PushOrderIsIrrelevant(items: seq<Item>, items': seq<Item>)
    requires DistinctSeqs(items) && DistinctSeqs(items') && multiset(items) == multiset(items')
    ensures PushAll([], items) == PushAll([], items')
  {
    PushAllSorts(items);
    PushAllSorts(items');
    AscendingIsUnique(PushAll([], items), PushAll([], items'));
  }

  // ---- paging ------------------------------------------------------------------------

  /** The binary search: `ans` is the last index known to be below, everything past hi is not. */
  function Search(arr: seq<Item>, before: int, lo: int, hi: int, ans: int): (r: int)
    requires 0 <= lo <= hi + 1 <= |arr| && ans == lo - 1
    requires Ascending(arr)
    requires forall i :: 0 <= i < lo ==> arr[i].seqNo < before
    requires forall i :: hi < i < |arr| ==> arr[i].seqNo >= before
    ensures -1 <= r < |arr|
    ensures forall i :: 0 <= i <= r ==> arr[i].seqNo < before
    ensures forall i :: r < i < |arr| ==> arr[i].seqNo >= before
    decreases hi + 1 - lo
  {
    if lo > hi then ans
    else
      var mid := (lo + hi) / 2;
      if arr[mid].seqNo < before then Search(arr, before, mid + 1, hi, mid)
      else Search(arr, before, lo, mid - 1, ans)
  }

  function LastIndexBelow(arr: seq<Item>, before: int): (r: int)
    requires Ascending(arr)
    ensures -1 <= r < |arr|
    ensures forall i :: 0 <= i < |arr| ==> (arr[i].seqNo < before <==> i <= r)
  {
    Search(arr, before, 0, |arr| - 1, -1)
  }

  /** `n` items from index `start` walking backwards. */
  function Backwards(arr: seq<Item>, start: int, n: nat): (page: seq<Item>)
    requires n <= start + 1 <= |arr|
    ensures |page| == n && forall j {:trigger page[j]} :: 0 <= j < n ==> page[j] == arr[start - j]
  {
    if n == 0 then [] else [arr[start]] + Backwards(arr, start - 1, n - 1)
  }

  /** Where a page starts: the newest item below `before`. */
  function StartBelow(arr: seq<Item>, before: Option<int>): (r: int)
    requires Ascending(arr)
    ensures -1 <= r < |arr|
  {
    if before.None? then |arr| - 1 else LastIndexBelow(arr, before.value)
  }

  /** historyOf: absent limit or before mean the whole feed. */
  function HistoryOf(arr: seq<Item>, limit: Option<int>, before: Option<int>): seq<Item>
    requires Ascending(arr)
  {
    var start := StartBelow(arr, before);
    var cap := if limit.None? then |arr| else limit.value;
    var least := if start + 1 < cap then start + 1 else cap;
    Backwards(arr, start, if least < 0 then 0 else least)
  }

  /** One page holds exactly the newest `limit` items below `before`. */
  lemma PageIsNewestBelow(arr: seq<Item>, limit: Option<int>, before: Option<int>)
    requires Ascending(arr)
    ensures var page := HistoryOf(arr, limit, before);
            && (forall j :: 0 <= j < |page| ==> page[j] in arr && (before.Some? ==> page[j].seqNo < before.value))
            && (forall i :: 0 <= i < |arr| && arr[i] !in page && (before.Some? ==> arr[i].seqNo < before.value) ==>
                  && limit.Some? && |page| == (if limit.value < 0 then 0 else limit.value)
                  && forall j :: 0 <= j < |page| ==> arr[i].seqNo < page[j].seqNo)
  {
    var page := HistoryOf(arr, limit, before);
    var start := StartBelow(arr, before);
    forall i | start - |page| < i <= start
      ensures arr[i] in page
    {
      assert page[start - i] == arr[i];
    }
  }

  /** The client's walk: ask for the next page below the last item seen, until one comes back empty. */
  function Pages(arr: seq<Item>, limit: int, before: Option<int>, fuel: nat): seq<Item>
    requires Ascending(arr)
    decreases fuel
  {
    var page := HistoryOf(arr, Some(limit), before);
    if page == [] || fuel == 0 then page
    else page + Pages(arr, limit, Some(page[|page| - 1].seqNo), fuel - 1)
  }

  lemma BackwardsSplits(arr: seq<Item>, start: int, n: nat, m: nat)
    requires n + m <= start + 1 <= |arr|
    ensures Backwards(arr, start, n) + Backwards(arr, start - n, m) == Backwards(arr, start, n + m)
  {
  }

  lemma BelowItem(arr: seq<Item>, k: nat)
    requires Ascending(arr) && k < |arr|
    ensures LastIndexBelow(arr, arr[k].seqNo) == k - 1 && StartBelow(arr, Some(arr[k].seqNo)) == k - 1
  {
    var r := LastIndexBelow(arr, arr[k].seqNo);
    if r >= 0 {
      assert arr[r].seqNo < arr[k].seqNo;
    }
    if k > 0 {
      assert arr[k - 1].seqNo < arr[k].seqNo;
    }
  }

  /** Chained pages list the whole feed newest-first, each item once. */
  lemma {:induction false} PagesCoverFeed(arr: seq<Item>, limit: int, before: Option<int>, fuel: nat)
    requires Ascending(arr) && limit >= 1 && fuel >= StartBelow(arr, before) + 1
    ensures Pages(arr, limit, before, fuel) == HistoryOf(arr, None, before)
    decreases fuel
  {
    hide Ascending, LastIndexBelow, HistoryOf, StartBelow, Backwards;
    var start := StartBelow(arr, before);
    var page := HistoryOf(arr, Some(limit), before);
    var n := |page|;
    PageShape(arr, limit, before);
    if n > 0 && fuel > 0 {
      BelowItem(arr, start - n + 1);
      PageShape(arr, limit, Some(page[n - 1].seqNo));
      PagesCoverFeed(arr, limit, Some(page[n - 1].seqNo), fuel - 1);
      BackwardsSplits(arr, start, n, start + 1 - n);
    }
  }

  lemma PageShape(arr: seq<Item>, limit: int, before: Option<int>)
    requires Ascending(arr) && limit >= 1
    ensures var start := StartBelow(arr, before); var page := HistoryOf(arr, Some(limit), before);
            && (page == [] <==> start == -1)
            && |page| <= start + 1 && page == Backwards(arr, start, |page|)
            && (page != [] ==> page[|page| - 1] == arr[start - |page| + 1])
            && HistoryOf(arr, None, before) == Backwards(arr, start, start + 1)
            && (start == -1 ==> HistoryOf(arr, None, before) == [])
  {
  }

  /** The whole feed newest-first is its reversal. */
  lemma WholeFeedIsReversed(arr: seq<Item>)
    requires Ascending(arr)
    ensures |HistoryOf(arr, None, None)| == |arr|
    ensures forall j {:trigger HistoryOf(arr, None, None)[j]} :: 0 <= j < |arr| ==>
              HistoryOf(arr, None, None)[j] == arr[|arr| - 1 - j]
  {
  }
}

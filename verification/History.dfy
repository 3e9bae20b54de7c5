/** Sequences of transactions: their sums, and their split into one client's own and the rest. */
module History {
  import opened Types

  function Total(txs: seq<Transaction>): int {
    if txs == [] then 0 else Total(txs[..|txs| - 1]) + txs[|txs| - 1].Delta()
  }

  function TopLamport(txs: seq<Transaction>): (m: nat)
    ensures forall j :: 0 <= j < |txs| ==> MaxLamport(txs[j].operations) <= m
  {
    if txs == [] then 0
    else Max(TopLamport(txs[..|txs| - 1]), MaxLamport(txs[|txs| - 1].operations))
  }

  function Own(txs: seq<Transaction>, i: Cuid): seq<Transaction> {
    if txs == [] then []
    else Own(txs[..|txs| - 1], i) + (if txs[|txs| - 1].cuid == i then [txs[|txs| - 1]] else [])
  }

  function Foreign(txs: seq<Transaction>, i: Cuid): seq<Transaction> {
    if txs == [] then []
    else Foreign(txs[..|txs| - 1], i) + (if txs[|txs| - 1].cuid != i then [txs[|txs| - 1]] else [])
  }

  lemma {:induction false} TotalAppend(a: seq<Transaction>, b: seq<Transaction>)
    ensures Total(a + b) == Total(a) + Total(b)
  {
    if b == [] {
      assert a + b == a;
    } else {
      TotalAppend(a, b[..|b| - 1]);
      assert (a + b)[..|a + b| - 1] == a + b[..|b| - 1];
    }
  }

  lemma {:induction false} TopAppend(a: seq<Transaction>, b: seq<Transaction>)
    ensures TopLamport(a + b) == Max(TopLamport(a), TopLamport(b))
  {
    if b == [] {
      assert a + b == a;
    } else {
      TopAppend(a, b[..|b| - 1]);
      assert (a + b)[..|a + b| - 1] == a + b[..|b| - 1];
    }
  }

  lemma SplitSnoc(txs: seq<Transaction>, tx: Transaction, i: Cuid)
    ensures Own(txs + [tx], i) == Own(txs, i) + (if tx.cuid == i then [tx] else [])
    ensures Foreign(txs + [tx], i) == Foreign(txs, i) + (if tx.cuid != i then [tx] else [])
  {
    assert (txs + [tx])[..|txs|] == txs;
  }

  lemma EmptySplit(i: Cuid)
    ensures Own([], i) == [] && Foreign([], i) == []
  {
  }

  lemma {:induction false} SplitAppend(a: seq<Transaction>, b: seq<Transaction>, i: Cuid)
    ensures Own(a + b, i) == Own(a, i) + Own(b, i)
    ensures Foreign(a + b, i) == Foreign(a, i) + Foreign(b, i)
  {
    hide Own, Foreign;
    if b == [] {
      EmptySplit(i);
      assert a + b == a;
    } else {
      var init, last := b[..|b| - 1], b[|b| - 1];
      SplitAppend(a, init, i);
      SplitSnoc(a + init, last, i);
      SplitSnoc(init, last, i);
      assert a + b == (a + init) + [last] && b == init + [last];
    }
  }

  /** Every transaction is either own or foreign, and the sums add up. */
  lemma {:induction false} SplitAddsUp(txs: seq<Transaction>, i: Cuid)
    ensures |txs| == |Own(txs, i)| + |Foreign(txs, i)|
    ensures Total(txs) == Total(Own(txs, i)) + Total(Foreign(txs, i))
  {
    if txs == [] {
    } else {
      var init, last := txs[..|txs| - 1], txs[|txs| - 1];
      SplitAddsUp(init, i);
      assert Total([last]) == last.Delta() by { assert [last][..0] == []; }
      TotalAppend(Own(init, i), [last]);
      TotalAppend(Foreign(init, i), [last]);
      assert Own(init, i) + [] == Own(init, i) && Foreign(init, i) + [] == Foreign(init, i);
    }
  }

  lemma {:induction false} AllOwn(txs: seq<Transaction>, i: Cuid)
    requires forall j :: 0 <= j < |txs| ==> txs[j].cuid == i
    ensures Own(txs, i) == txs && Foreign(txs, i) == []
  {
    if txs == [] {
    } else {
      AllOwn(txs[..|txs| - 1], i);
    }
  }

  lemma {:induction false} NoneOwn(txs: seq<Transaction>, i: Cuid)
    requires forall j :: 0 <= j < |txs| ==> txs[j].cuid != i
    ensures Own(txs, i) == [] && Foreign(txs, i) == txs
  {
    if txs == [] {
    } else {
      NoneOwn(txs[..|txs| - 1], i);
    }
  }

  lemma {:induction false} SameTotal(a: seq<Transaction>, b: seq<Transaction>)
    requires |a| == |b| && forall j :: 0 <= j < |a| ==> a[j].operations == b[j].operations
    ensures Total(a) == Total(b)
  {
    if a == [] {
    } else {
      SameTotal(a[..|a| - 1], b[..|b| - 1]);
    }
  }

  /** The own and foreign parts of a longer prefix extend those of a shorter one. */
  lemma SplitSlice(h: seq<Transaction>, s: nat, t: nat, i: Cuid)
    requires s <= t <= |h|
    ensures Own(h[..t], i) == Own(h[..s], i) + Own(h[s..t], i)
    ensures Foreign(h[..t], i) == Foreign(h[..s], i) + Foreign(h[s..t], i)
    ensures Total(h[..t]) == Total(h[..s]) + Total(h[s..t])
  {
    assert h[..t] == h[..s] + h[s..t];
    SplitAppend(h[..s], h[s..t], i);
    TotalAppend(h[..s], h[s..t]);
  }

  /** The transactions numbered above `cseq`. */
  function Above(txs: seq<Transaction>, cseq: nat): seq<Transaction> {
    if txs == [] then []
    else Above(txs[..|txs| - 1], cseq) + (if txs[|txs| - 1].cseq > cseq then [txs[|txs| - 1]] else [])
  }

  lemma {:induction false} AboveIsSuffix(txs: seq<Transaction>, cseq: nat)
    requires forall j :: 0 <= j < |txs| ==> txs[j].cseq == j + 1
    ensures Above(txs, cseq) == if cseq <= |txs| then txs[cseq..] else []
  {
    if txs != [] {
      hide Above;
      var init, last := txs[..|txs| - 1], txs[|txs| - 1];
      AboveIsSuffix(init, cseq);
      AboveLast(txs, cseq);
      if cseq < |txs| {
        assert txs[cseq..] == init[cseq..] + [last];
      }
    }
  }

  lemma AboveLast(txs: seq<Transaction>, cseq: nat)
    requires txs != []
    ensures var last := txs[|txs| - 1];
      Above(txs, cseq) == Above(txs[..|txs| - 1], cseq) + (if last.cseq > cseq then [last] else [])
  {
  }
}

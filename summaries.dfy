/**
 * The income/expense summary: filter the records by type and add up their
 * amounts. The client computes it over its local list
 * (fronted/src/pages/Home.jsx, calculateSummary), the store over the
 * caller's records (backend/controller/transactionController.js,
 * getSummary); both are the same filter and reduce.
 */
module Summaries {
  import opened TransactionSchema

  datatype Summary = Summary(income: int, expense: int) {
    function Plus(other: Summary): Summary {
      Summary(income + other.income, expense + other.expense)
    }
    function Minus(other: Summary): Summary {
      Summary(income - other.income, expense - other.expense)
    }
  }

  /** `txns.filter((t) => t.type === ty)`. */
  function OfType(s: seq<Txn>, ty: string): (r: seq<Txn>)
  {
    if s == [] then []
    else (if s[0].txnType == ty then [s[0]] else []) + OfType(s[1..], ty)
  }

  /** `.reduce((acc, t) => acc + t.amount, 0)`: a left fold. */
  function Total(s: seq<Txn>): int {
    if s == [] then 0 else Total(s[..|s| - 1]) + s[|s| - 1].amount
  }

  /** The summary of a list of records. */
  function CalculateSummary(s: seq<Txn>): (r: Summary)
    ensures s == [] ==> r == Summary(0, 0)
  {
    Summary(Total(OfType(s, Income)), Total(OfType(s, Expense)))
  }

  /** Reference definition: the amounts of type `ty`, added front to back. */
  function AmountOfType(s: seq<Txn>, ty: string): int {
    if s == [] then 0
    else (if s[0].txnType == ty then s[0].amount else 0) + AmountOfType(s[1..], ty)
  }

  /** What one record adds to the summary: its amount in the bucket of its
      type, nothing if its type is outside the enumeration. */
  function Contribution(t: Txn): (r: Summary)
    ensures t.txnType == Income ==> r == Summary(t.amount, 0)
    ensures t.txnType == Expense ==> r == Summary(0, t.amount)
    ensures !IsTxnType(t.txnType) ==> r == Summary(0, 0)
  {
    if t.txnType == Income then Summary(t.amount, 0)
    else if t.txnType == Expense then Summary(0, t.amount)
    else Summary(0, 0)
  }

  lemma {:induction false} TotalPrepend(t: Txn, s: seq<Txn>)
    ensures Total([t] + s) == t.amount + Total(s)
    decreases |s|
  {
    if s == [] {
      assert ([t] + s)[..0] == [];
    } else {
      var u := [t] + s;
      assert u[..|u| - 1] == [t] + s[..|s| - 1];
      TotalPrepend(t, s[..|s| - 1]);
    }
  }

  lemma {:induction false} TotalOfType(s: seq<Txn>, ty: string)
    ensures Total(OfType(s, ty)) == AmountOfType(s, ty)
  {
    if s != [] {
      TotalOfType(s[1..], ty);
      if s[0].txnType == ty {
        TotalPrepend(s[0], OfType(s[1..], ty));
      } else {
        assert OfType(s, ty) == OfType(s[1..], ty);
      }
    }
  }

  /** The summary's two fields are the per-type sums of the amounts. */
  lemma {:induction false} CalculateSummaryMeaning(s: seq<Txn>)
    ensures CalculateSummary(s) == Summary(AmountOfType(s, Income), AmountOfType(s, Expense))
  {
    TotalOfType(s, Income);
    TotalOfType(s, Expense);
  }

  lemma {:induction false} AmountOfTypeConcat(a: seq<Txn>, b: seq<Txn>, ty: string)
    ensures AmountOfType(a + b, ty) == AmountOfType(a, ty) + AmountOfType(b, ty)
  {
    if a == [] {
      assert a + b == b;
    } else {
      assert (a + b)[1..] == a[1..] + b;
      AmountOfTypeConcat(a[1..], b, ty);
    }
  }

  /** The summary of a concatenation is the sum of the two summaries. */
  lemma {:induction false} CalculateSummaryConcat(a: seq<Txn>, b: seq<Txn>)
    ensures CalculateSummary(a + b) == CalculateSummary(a).Plus(CalculateSummary(b))
  {
    calc {
      CalculateSummary(a + b);
      { CalculateSummaryMeaning(a + b); }
      Summary(AmountOfType(a + b, Income), AmountOfType(a + b, Expense));
      { AmountOfTypeConcat(a, b, Income); AmountOfTypeConcat(a, b, Expense); }
      Summary(AmountOfType(a, Income), AmountOfType(a, Expense))
        .Plus(Summary(AmountOfType(b, Income), AmountOfType(b, Expense)));
      { CalculateSummaryMeaning(a); CalculateSummaryMeaning(b); }
      CalculateSummary(a).Plus(CalculateSummary(b));
    }
  }

  /** The summary of one record is its contribution. */
  lemma {:induction false} CalculateSummarySingle(t: Txn)
    ensures CalculateSummary([t]) == Contribution(t)
  {
    CalculateSummaryMeaning([t]);
    assert [t][1..] == [];
  }

  /** Prepending a record adds its contribution. */
  lemma {:induction false} CalculateSummaryPrepend(t: Txn, s: seq<Txn>)
    ensures CalculateSummary([t] + s) == Contribution(t).Plus(CalculateSummary(s))
  {
    CalculateSummaryConcat([t], s);
    CalculateSummarySingle(t);
  }

  /** Adding a summary in the middle of a sum is adding it at the end, and
      taking it away again cancels it. */
  lemma SummaryRearrange(x: Summary, c: Summary, y: Summary)
    ensures x.Plus(c.Plus(y)) == x.Plus(y).Plus(c)
    ensures x.Plus(c.Plus(y)).Minus(c) == x.Plus(y)
  {
  }

  /** Taking one record out of the middle of a list takes away its
      contribution; putting another in its place adds that one's. */
  lemma {:induction false} CalculateSummarySwap(pre: seq<Txn>, t: Txn, u: Txn, post: seq<Txn>)
    ensures CalculateSummary(pre + ([u] + post))
            == CalculateSummary(pre + ([t] + post)).Minus(Contribution(t)).Plus(Contribution(u))
    ensures CalculateSummary(pre + post) == CalculateSummary(pre + ([t] + post)).Minus(Contribution(t))
  {
    calc {
      CalculateSummary(pre + ([t] + post)).Minus(Contribution(t));
      { CalculateSummaryConcat(pre, [t] + post); CalculateSummaryPrepend(t, post); }
      CalculateSummary(pre).Plus(Contribution(t).Plus(CalculateSummary(post))).Minus(Contribution(t));
      { SummaryRearrange(CalculateSummary(pre), Contribution(t), CalculateSummary(post)); }
      CalculateSummary(pre).Plus(CalculateSummary(post));
      { CalculateSummaryConcat(pre, post); }
      CalculateSummary(pre + post);
    }
    calc {
      CalculateSummary(pre + ([u] + post));
      { CalculateSummaryConcat(pre, [u] + post); CalculateSummaryPrepend(u, post); }
      CalculateSummary(pre).Plus(Contribution(u).Plus(CalculateSummary(post)));
      { SummaryRearrange(CalculateSummary(pre), Contribution(u), CalculateSummary(post)); }
      CalculateSummary(pre).Plus(CalculateSummary(post)).Plus(Contribution(u));
      { CalculateSummaryConcat(pre, post); }
      CalculateSummary(pre + post).Plus(Contribution(u));
    }
  }

  /** Removing the record at `k` takes away its contribution. */
  lemma {:induction false} CalculateSummaryRemove(s: seq<Txn>, k: nat)
    requires k < |s|
    ensures CalculateSummary(s[..k] + s[k + 1..]) == CalculateSummary(s).Minus(Contribution(s[k]))
  {
    assert s == s[..k] + ([s[k]] + s[k + 1..]);
    CalculateSummarySwap(s[..k], s[k], s[k], s[k + 1..]);
  }

  /** Replacing the record at `k` by `u` swaps their contributions. */
  lemma {:induction false} CalculateSummaryReplace(s: seq<Txn>, k: nat, u: Txn)
    requires k < |s|
    ensures CalculateSummary(s[k := u])
            == CalculateSummary(s).Minus(Contribution(s[k])).Plus(Contribution(u))
  {
    assert s == s[..k] + ([s[k]] + s[k + 1..]);
    assert s[k := u] == s[..k] + ([u] + s[k + 1..]);
    CalculateSummarySwap(s[..k], s[k], u, s[k + 1..]);
  }

  /** A list's multiset is that of the list without position `k`, plus the
      element at `k`. */
  lemma MultisetSplitAt<T>(b: seq<T>, k: nat)
    requires k < |b|
    ensures multiset(b) == multiset(b[..k] + b[k + 1..]) + multiset{b[k]}
  {
    assert b == b[..k] + [b[k]] + b[k + 1..];
  }

  /** Taking the matching element out of two lists with the same multiset
      leaves two lists with the same multiset. */
  lemma MultisetRemoveMatching<T>(a: seq<T>, b: seq<T>, k: nat)
    requires multiset(a) == multiset(b) && a != [] && k < |b| && b[k] == a[0]
    ensures multiset(a[1..]) == multiset(b[..k] + b[k + 1..])
  {
    MultisetSplitAt(a, 0);
    assert a[..0] + a[1..] == a[1..];
    MultisetSplitAt(b, k);
    MultisetCancel(multiset(a[1..]), multiset(b[..k] + b[k + 1..]), a[0]);
  }

  /** If adding the same element to two multisets gives equal multisets,
      they were equal. */
  lemma MultisetCancel<T>(x: multiset<T>, y: multiset<T>, e: T)
    requires x + multiset{e} == y + multiset{e}
    ensures x == y
  {
    assert x == x + multiset{e} - multiset{e};
    assert y == y + multiset{e} - multiset{e};
  }

  /** The amount of type `ty` in a list is that of the record at `k` plus
      that of the rest. */
  lemma AmountOfTypeRemoveAt(b: seq<Txn>, k: nat, ty: string)
    requires k < |b|
    ensures AmountOfType(b, ty)
            == (if b[k].txnType == ty then b[k].amount else 0) + AmountOfType(b[..k] + b[k + 1..], ty)
  {
    assert b == b[..k] + ([b[k]] + b[k + 1..]);
    assert ([b[k]] + b[k + 1..])[1..] == b[k + 1..];
    AmountOfTypeConcat(b[..k], [b[k]] + b[k + 1..], ty);
    AmountOfTypeConcat(b[..k], b[k + 1..], ty);
  }

  lemma {:induction false} AmountOfTypePermutation(a: seq<Txn>, b: seq<Txn>, ty: string)
    requires multiset(a) == multiset(b)
    ensures AmountOfType(a, ty) == AmountOfType(b, ty)
    decreases |a|
  {
    if a == [] {
      assert |b| == |multiset(b)| == 0;
    } else {
      assert a[0] in multiset(b);
      var k :| 0 <= k < |b| && b[k] == a[0];
      MultisetRemoveMatching(a, b, k);
      AmountOfTypePermutation(a[1..], b[..k] + b[k + 1..], ty);
      AmountOfTypeRemoveAt(b, k, ty);
    }
  }

  /** The summary does not depend on the order of the records. */
  lemma {:induction false} CalculateSummaryPermutation(a: seq<Txn>, b: seq<Txn>)
    requires multiset(a) == multiset(b)
    ensures CalculateSummary(a) == CalculateSummary(b)
  {
    CalculateSummaryMeaning(a);
    CalculateSummaryMeaning(b);
    AmountOfTypePermutation(a, b, Income);
    AmountOfTypePermutation(a, b, Expense);
  }

  /** Changing a record's type from income to expense moves its amount
      from one bucket to the other; changing only its amount moves the
      bucket by the difference. */
  lemma {:induction false} UpdateMovesAmount(s: seq<Txn>, k: nat, u: Txn)
    requires k < |s| && s[k].txnType == Income
    ensures u == s[k].(txnType := Expense) ==>
              CalculateSummary(s[k := u])
              == Summary(CalculateSummary(s).income - s[k].amount, CalculateSummary(s).expense + s[k].amount)
    ensures u.txnType == Income ==>
              CalculateSummary(s[k := u])
              == CalculateSummary(s).(income := CalculateSummary(s).income + (u.amount - s[k].amount))
  {
    CalculateSummaryReplace(s, k, u);
    ShiftByContributions(CalculateSummary(s), CalculateSummary(s[k := u]), s[k], u);
  }

  /** The arithmetic of `UpdateMovesAmount` on two summaries related by
      one swapped contribution. */
  lemma ShiftByContributions(before: Summary, after: Summary, t: Txn, u: Txn)
    requires t.txnType == Income
    requires after == before.Minus(Contribution(t)).Plus(Contribution(u))
    ensures u == t.(txnType := Expense) ==> after == Summary(before.income - t.amount, before.expense + t.amount)
    ensures u.txnType == Income ==> after == before.(income := before.income + (u.amount - t.amount))
  {
  }
}

/**
 * The page controller of fronted/src/pages/Home.jsx: the client-held list
 * of transactions, the summary shown by the dashboard and the record being
 * edited. Each handler is one atomic step; its network request is a
 * parameter holding the server's answer, `None` when the request threw.
 * The request always comes before any state change.
 */
module HomePage {
  import opened Wrappers
  import opened TransactionSchema
  import opened Summaries

  /** `transactions.find((txn) => txn._id === id)`. */
  function FindById(s: seq<Txn>, id: Id): (r: Option<Txn>)
    ensures r.Some? ==> r.value in s && r.value.id == id
    ensures r.None? <==> forall i :: 0 <= i < |s| ==> s[i].id != id
  {
    if s == [] then None
    else if s[0].id == id then Some(s[0])
    else FindById(s[1..], id)
  }

  /** `prev.filter((txn) => txn._id !== id)`. */
  function RemoveId(s: seq<Txn>, id: Id): (r: seq<Txn>)
    ensures forall t :: t in r <==> t in s && t.id != id
  {
    if s == [] then []
    else (if s[0].id == id then [] else [s[0]]) + RemoveId(s[1..], id)
  }

  /** The filter works record by record, so it keeps the order and the
      multiplicity of what it keeps. */
  lemma {:induction false} RemoveIdConcat(a: seq<Txn>, b: seq<Txn>, id: Id)
    ensures RemoveId(a + b, id) == RemoveId(a, id) + RemoveId(b, id)
  {
    if a == [] {
      assert a + b == b;
    } else {
      assert (a + b)[0] == a[0] && (a + b)[1..] == a[1..] + b;
      RemoveIdConcat(a[1..], b, id);
    }
  }

  /** `prev.map((txn) => txn._id === id ? u : txn)`. */
  function ReplaceId(s: seq<Txn>, id: Id, u: Txn): seq<Txn> {
    if s == [] then []
    else [if s[0].id == id then u else s[0]] + ReplaceId(s[1..], id, u)
  }

  /** Every record of the list is in the income or the expense bucket. */
  predicate AllTyped(s: seq<Txn>) {
    forall i :: 0 <= i < |s| ==> IsTxnType(s[i].txnType)
  }

  /** With unique ids, `find` returns the one record with that id. */
  lemma {:induction false} FindByIdAt(s: seq<Txn>, k: nat)
    requires UniqueIds(s) && k < |s|
    ensures FindById(s, s[k].id) == Some(s[k])
  {
    if k > 0 {
      assert s[1..][k - 1] == s[k];
      FindByIdAt(s[1..], k - 1);
    }
  }

  /** `find` returns the record at the first position carrying the id. */
  lemma {:induction false} FindByIdFirst(s: seq<Txn>, id: Id) returns (k: nat)
    requires FindById(s, id).Some?
    ensures k < |s| && FindById(s, id) == Some(s[k])
    ensures s[k].id == id && forall j :: 0 <= j < k ==> s[j].id != id
  {
    if s[0].id == id {
      k := 0;
    } else {
      var k' := FindByIdFirst(s[1..], id);
      k := k' + 1;
      assert s[k] == s[1..][k'];
      assert forall j :: 1 <= j < k ==> s[j] == s[1..][j - 1];
    }
  }

  /** Filtering out an id nobody carries changes nothing. */
  lemma {:induction false} RemoveIdAbsent(s: seq<Txn>, id: Id)
    requires forall i :: 0 <= i < |s| ==> s[i].id != id
    ensures RemoveId(s, id) == s
  {
    if s != [] {
      RemoveIdAbsent(s[1..], id);
      assert s == [s[0]] + s[1..];
    }
  }

  /** With unique ids, the filter removes exactly the one record carrying
      the id and keeps the others in order. */
  lemma {:induction false} RemoveIdAt(s: seq<Txn>, k: nat)
    requires UniqueIds(s) && k < |s|
    ensures RemoveId(s, s[k].id) == s[..k] + s[k + 1..]
  {
    UniqueIdsApart(s, k);
    assert s == s[..k] + ([s[k]] + s[k + 1..]);
    RemoveIdSplit(s[..k], s[k], s[k + 1..]);
  }

  /** With unique ids, no record before or after `k` shares its id. */
  lemma UniqueIdsApart(s: seq<Txn>, k: nat)
    requires UniqueIds(s) && k < |s|
    ensures forall i :: 0 <= i < k ==> s[i].id != s[k].id
    ensures forall i :: k < i < |s| ==> s[i].id != s[k].id
  {
  }

  /** Filtering out the id of a record no other record shares drops just
      that record. */
  lemma RemoveIdSplit(pre: seq<Txn>, x: Txn, post: seq<Txn>)
    requires forall i :: 0 <= i < |pre| ==> pre[i].id != x.id
    requires forall i :: 0 <= i < |post| ==> post[i].id != x.id
    ensures RemoveId(pre + ([x] + post), x.id) == pre + post
  {
    var id := x.id;
    RemoveIdAbsent(pre, id);
    RemoveIdAbsent(post, id);
    assert RemoveId([x] + post, id) == RemoveId(post, id) by {
      assert ([x] + post)[1..] == post;
    }
    RemoveIdConcat(pre, [x] + post, id);
  }

  /** The map replaces every record carrying the id and leaves the others. */
  lemma {:induction false} ReplaceIdPointwise(s: seq<Txn>, id: Id, u: Txn)
    ensures |ReplaceId(s, id, u)| == |s|
    ensures forall i :: 0 <= i < |s| ==> ReplaceId(s, id, u)[i] == if s[i].id == id then u else s[i]
  {
    if s != [] {
      ReplaceIdPointwise(s[1..], id, u);
    }
  }

  /** With unique ids, the map replaces exactly the record at `k`. */
  lemma ReplaceIdAt(s: seq<Txn>, k: nat, u: Txn)
    requires UniqueIds(s) && k < |s|
    ensures ReplaceId(s, s[k].id, u) == s[k := u]
  {
    ReplaceIdPointwise(s, s[k].id, u);
  }

  /** Removing one record keeps every remaining type in the enumeration
      and keeps the ids unique. */
  lemma WellFormedRemove(s: seq<Txn>, k: nat)
    requires UniqueIds(s) && AllTyped(s) && k < |s|
    ensures UniqueIds(s[..k] + s[k + 1..]) && AllTyped(s[..k] + s[k + 1..])
  {
    var r := s[..k] + s[k + 1..];
    assert forall j :: 0 <= j < k ==> r[j] == s[j];
    assert forall j :: k <= j < |r| ==> r[j] == s[j + 1];
  }

  /** What `handleAddTransaction` does to the summary is what prepending
      the record does to the computed summary, for a record of either type. */
  lemma AddKeepsSummary(s: seq<Txn>, t: Txn)
    requires IsTxnType(t.txnType)
    ensures CalculateSummary([t] + s)
            == if t.txnType == Income then CalculateSummary(s).(income := CalculateSummary(s).income + t.amount)
               else CalculateSummary(s).(expense := CalculateSummary(s).expense + t.amount)
  {
    CalculateSummaryPrepend(t, s);
  }

  /** What `handleDeleteTransaction` does to the summary is what the
      filter does to the computed summary, when ids are unique and types in
      the enumeration. */
  lemma DeleteKeepsSummary(s: seq<Txn>, id: Id)
    requires UniqueIds(s) && AllTyped(s) && FindById(s, id).Some?
    ensures var d := FindById(s, id).value;
            CalculateSummary(RemoveId(s, id))
            == if d.txnType == Income then CalculateSummary(s).(income := CalculateSummary(s).income - d.amount)
               else CalculateSummary(s).(expense := CalculateSummary(s).expense - d.amount)
    ensures UniqueIds(RemoveId(s, id)) && AllTyped(RemoveId(s, id))
  {
    var k := FindByIdFirst(s, id);
    RemoveIdAt(s, k);
    CalculateSummaryRemove(s, k);
    WellFormedRemove(s, k);
  }

  /** The update handler's bucket arithmetic: the old amount leaves the
      bucket of the old type and the new amount joins the bucket of the new
      type, income for "income" and expense for anything else. */
  function MoveBuckets(before: Summary, prev: Txn, u: Txn): Summary {
    Summary(before.income - (if prev.txnType == Income then prev.amount else 0)
                          + (if u.txnType == Income then u.amount else 0),
            before.expense - (if prev.txnType != Income then prev.amount else 0)
                           + (if u.txnType != Income then u.amount else 0))
  }

  /** What `handleUpdateTransaction` does to the summary is what the map
      does to the computed summary, when ids are unique, types in the
      enumeration and the server's record keeps the id. */
  lemma UpdateKeepsSummary(s: seq<Txn>, id: Id, u: Txn)
    requires UniqueIds(s) && AllTyped(s) && FindById(s, id).Some?
    requires u.id == id && IsTxnType(u.txnType)
    ensures CalculateSummary(ReplaceId(s, id, u)) == MoveBuckets(CalculateSummary(s), FindById(s, id).value, u)
    ensures UniqueIds(ReplaceId(s, id, u)) && AllTyped(ReplaceId(s, id, u))
  {
    var k := FindByIdFirst(s, id);
    ReplaceIdAt(s, k, u);
    CalculateSummaryReplace(s, k, u);
    TypedContributionShift(CalculateSummary(s), CalculateSummary(s[k := u]), s[k], u);
    WellFormedReplace(s, k, u);
  }

  /** The handler's bucket arithmetic, for two summaries related by one
      swapped contribution of records of either type. */
  lemma TypedContributionShift(before: Summary, after: Summary, prev: Txn, u: Txn)
    requires IsTxnType(prev.txnType) && IsTxnType(u.txnType)
    requires after == before.Minus(Contribution(prev)).Plus(Contribution(u))
    ensures after == MoveBuckets(before, prev, u)
  {
  }

  /** Replacing a record by one with the same id and a type in the
      enumeration keeps the list well formed. */
  lemma WellFormedReplace(s: seq<Txn>, k: nat, u: Txn)
    requires UniqueIds(s) && AllTyped(s) && k < |s|
    requires u.id == s[k].id && IsTxnType(u.txnType)
    ensures UniqueIds(s[k := u]) && AllTyped(s[k := u])
  {
  }

  /** The outcome of an update handler. `RenderFault`: the list holds no
      record with the id, so the state updater dereferences an undefined
      record while React renders, outside the handler's try. */
  datatype UpdateOutcome = Applied | RequestFailed | RenderFault

  class Home {
    var transactions: seq<Txn>
    var summary: Summary
    var editTxn: Option<Txn>

    /** The summary mirrors the list. */
    ghost predicate Consistent()
      reads this
    {
      summary == CalculateSummary(transactions)
    }

    /** Ids are unique and every type is in the enumeration. */
    ghost predicate WellFormed()
      reads this
    {
      UniqueIds(transactions) && AllTyped(transactions)
    }

    constructor ()
      ensures transactions == [] && summary == Summary(0, 0) && editTxn == None
      ensures Consistent() && WellFormed()
    {
      transactions := [];
      summary := Summary(0, 0);
      editTxn := None;
    }

    /** `fetchTransactions`: the list becomes the response and the summary
        is computed from it. */
    method FetchTransactions(response: Option<seq<Txn>>)
      modifies this
      ensures response.None? ==> unchanged(this)
      ensures response.Some? ==> && transactions == response.value
                                 && summary == CalculateSummary(response.value)
                                 && editTxn == old(editTxn)
      ensures response.Some? ==> Consistent()
    {
      if response.None? {
        return;
      }
      transactions := response.value;
      summary := CalculateSummary(response.value);
    }

    /** `handleAddTransaction`: the created record goes in front and its
        amount into the income bucket if its type is "income", otherwise
        into the expense bucket. */
    method HandleAddTransaction(response: Option<Txn>)
      modifies this
      ensures response.None? ==> unchanged(this)
      ensures response.Some? ==> && transactions == [response.value] + old(transactions)
                                 && editTxn == old(editTxn)
      ensures response.Some? && response.value.txnType == Income ==>
                summary == old(summary).(income := old(summary).income + response.value.amount)
      ensures response.Some? && response.value.txnType != Income ==>
                summary == old(summary).(expense := old(summary).expense + response.value.amount)
      ensures response.Some? && IsTxnType(response.value.txnType) && old(Consistent()) ==> Consistent()
      ensures response.Some? && IsTxnType(response.value.txnType) && old(WellFormed())
              && (forall t :: t in old(transactions) ==> t.id != response.value.id)
              ==> WellFormed()
    {
      if response.None? {
        return;
      }
      var created := response.value;
      if IsTxnType(created.txnType) {
        AddKeepsSummary(transactions, created);
      }
      transactions := [created] + transactions;
      var amt := created.amount;
      if created.txnType == Income {
        summary := summary.(income := summary.income + amt);
      } else {
        summary := summary.(expense := summary.expense + amt);
      }
    }

    /** `handleDeleteTransaction`: the record with the id is looked up
        before the request; on success every record with the id leaves the
        list and the looked-up amount leaves its bucket. With no such record
        the dereference throws inside the try and the summary stays. */
    method HandleDeleteTransaction(id: Id, requestSucceeded: bool)
      modifies this
      ensures !requestSucceeded ==> unchanged(this)
      ensures requestSucceeded ==> transactions == RemoveId(old(transactions), id) && editTxn == old(editTxn)
      ensures requestSucceeded ==>
                match FindById(old(transactions), id)
                case None => summary == old(summary)
                case Some(d) =>
                  if d.txnType == Income then summary == old(summary).(income := old(summary).income - d.amount)
                  else summary == old(summary).(expense := old(summary).expense - d.amount)
      ensures requestSucceeded && old(Consistent()) && old(WellFormed()) ==> Consistent() && WellFormed()
    {
      var deleted := FindById(transactions, id);
      if !requestSucceeded {
        return;
      }
      ghost var before := transactions;
      transactions := RemoveId(transactions, id);
      if deleted.None? {
        RemoveIdAbsent(before, id);
        return;
      }
      var amt := deleted.value.amount;
      if deleted.value.txnType == Income {
        summary := summary.(income := summary.income - amt);
      } else {
        summary := summary.(expense := summary.expense - amt);
      }
      if old(Consistent()) && old(WellFormed()) {
        DeleteKeepsSummary(before, id);
      }
    }

    /** `handleEditTransaction`: the record becomes the one being edited. */
    method HandleEditTransaction(txn: Txn)
      modifies this
      ensures editTxn == Some(txn)
      ensures transactions == old(transactions) && summary == old(summary)
    {
      editTxn := Some(txn);
    }

    /** `handleUpdateTransaction`: on success the record with the id is
        replaced by the server's record, the old amount leaves the old
        type's bucket, the new amount joins the new type's bucket ("income",
        otherwise expense), and editing ends. */
    method HandleUpdateTransaction(updatedId: Id, response: Option<Txn>) returns (outcome: UpdateOutcome)
      modifies this
      ensures response.None? ==> outcome == RequestFailed && unchanged(this)
      ensures response.Some? && FindById(old(transactions), updatedId).None? ==>
                outcome == RenderFault && unchanged(this)
      ensures response.Some? && FindById(old(transactions), updatedId).Some? ==>
                var prev, u := FindById(old(transactions), updatedId).value, response.value;
                && outcome == Applied
                && transactions == ReplaceId(old(transactions), updatedId, u)
                && summary == MoveBuckets(old(summary), prev, u)
                && editTxn == None
      ensures outcome == Applied && old(Consistent()) && old(WellFormed())
              && response.value.id == updatedId && IsTxnType(response.value.txnType) ==>
                Consistent() && WellFormed()
    {
      if response.None? {
        return RequestFailed;
      }
      var updatedData := response.value;
      var found := FindById(transactions, updatedId);
      if found.None? {
        return RenderFault;
      }
      var prevTxn := found.value;
      var oldAmt := prevTxn.amount;
      var newAmt := updatedData.amount;
      var newIncome := summary.income;
      var newExpense := summary.expense;
      if prevTxn.txnType == Income {
        newIncome := newIncome - oldAmt;
      } else {
        newExpense := newExpense - oldAmt;
      }
      if updatedData.txnType == Income {
        newIncome := newIncome + newAmt;
      } else {
        newExpense := newExpense + newAmt;
      }
      ghost var before := transactions;
      var moved := Summary(newIncome, newExpense);
      assert moved == MoveBuckets(summary, prevTxn, updatedData);
      if old(Consistent()) && old(WellFormed()) && updatedData.id == updatedId && IsTxnType(updatedData.txnType) {
        UpdateKeepsSummary(before, updatedId, updatedData);
      }
      summary := moved;
      transactions := ReplaceId(transactions, updatedId, updatedData);
      editTxn := None;
      outcome := Applied;
    }
  }
}

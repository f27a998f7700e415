/**
 * The owner-scoped transaction store behind the REST handlers of
 * backend/controller/transactionController.js. The document store is a
 * sequence of records in insertion order; the caller's identity is what
 * the authentication layer resolved from the bearer credential.
 */
module TransactionController {
  import opened Wrappers
  import opened TransactionSchema
  import opened Summaries

  /** The error responses of the handlers. */
  datatype Failure = NotFound | ServerError

  datatype Result<T> = Ok(value: T) | Err(failure: Failure)

  /** The HTTP status each failure is reported with. */
  function StatusCode(f: Failure): int
  {
    match f
    case NotFound => 404
    case ServerError => 500
  }

  /** The JSON request body of a create or an update: the paths the
      handlers can see. An absent path is `None`. */
  datatype Body = Body(
    userId: Option<UserId>,
    txnType: Option<string>,
    amount: Option<Amount>,
    description: Option<string>,
    category: Option<string>,
    paymentMode: Option<string>)

  /** The record a create stores: five paths destructured from the body,
      the owner taken from the caller, validated by the schema. */
  function Create(caller: UserId, body: Body, id: Id, now: Time): (r: Option<Txn>)
    ensures r.Some? <==> && body.txnType.Some? && IsTxnType(body.txnType.value)
                         && body.amount.Some? && body.amount.value.Num?
    ensures r.Some? ==> r.value.userId == caller && r.value.id == id
    ensures r.Some? ==> && r.value.txnType == body.txnType.value
                        && Num(r.value.amount) == body.amount.value
                        && r.value.description == body.description
                        && r.value.category == body.category
                        && r.value.paymentMode == body.paymentMode
    ensures r.Some? ==> r.value.createdAt == now && r.value.updatedAt == now
  {
    Save(Doc(Some(caller), body.txnType, body.amount, body.description, body.category, body.paymentMode), id, now)
  }

  /** The result of `findOneAndUpdate` on one record: every path present in
      the body overwrites the record's (owner included, no schema check),
      `updatedAt` advances; a NaN amount fails the cast and nothing is
      written. */
  function ApplyBody(t: Txn, body: Body, now: Time): (r: Option<Txn>)
    ensures r.None? <==> body.amount == Some(NaN)
    ensures r.Some? ==> && r.value.id == t.id
                        && r.value.createdAt == t.createdAt
                        && r.value.updatedAt == now
    ensures r.Some? ==> && r.value.userId == body.userId.GetOr(t.userId)
                        && r.value.txnType == body.txnType.GetOr(t.txnType)
                        && Num(r.value.amount) == body.amount.GetOr(Num(t.amount))
                        && r.value.description == (if body.description.Some? then body.description else t.description)
                        && r.value.category == (if body.category.Some? then body.category else t.category)
                        && r.value.paymentMode == (if body.paymentMode.Some? then body.paymentMode else t.paymentMode)
  {
    if body.amount == Some(NaN) then None
    else
      Some(t.(userId := body.userId.GetOr(t.userId),
              txnType := body.txnType.GetOr(t.txnType),
              amount := if body.amount.Some? then body.amount.value.n else t.amount,
              description := if body.description.Some? then body.description else t.description,
              category := if body.category.Some? then body.category else t.category,
              paymentMode := if body.paymentMode.Some? then body.paymentMode else t.paymentMode,
              updatedAt := now))
  }

  /** The filter `{ _id: id, userId: caller }`. */
  predicate Matches(t: Txn, id: Id, caller: UserId) {
    t.id == id && t.userId == caller
  }

  /** The position of the first record matching the filter. */
  function FindOwned(s: seq<Txn>, id: Id, caller: UserId): (r: Option<nat>)
    ensures r.Some? ==> r.value < |s| && Matches(s[r.value], id, caller)
    ensures r.Some? ==> forall j :: 0 <= j < r.value ==> !Matches(s[j], id, caller)
    ensures r.None? <==> forall j :: 0 <= j < |s| ==> !Matches(s[j], id, caller)
  {
    if s == [] then None
    else if Matches(s[0], id, caller) then Some(0)
    else match FindOwned(s[1..], id, caller)
      case None => None
      case Some(k) => Some(k + 1)
  }

  /** The filter `{ userId: caller }`, in store order. */
  function Owned(s: seq<Txn>, caller: UserId): (r: seq<Txn>)
    ensures forall t :: t in r <==> t in s && t.userId == caller
    ensures |r| <= |s|
  {
    if s == [] then []
    else (if s[0].userId == caller then [s[0]] else []) + Owned(s[1..], caller)
  }

  /** Ordered by `createdAt` descending. */
  predicate NewestFirst(s: seq<Txn>) {
    forall i, j :: 0 <= i < j < |s| ==> s[i].createdAt >= s[j].createdAt
  }

  function InsertNewestFirst(t: Txn, s: seq<Txn>): (r: seq<Txn>)
    requires NewestFirst(s)
    ensures NewestFirst(r)
    ensures multiset(r) == multiset(s) + multiset{t}
  {
    if s == [] || t.createdAt >= s[0].createdAt then [t] + s
    else
      var rest := InsertNewestFirst(t, s[1..]);
      InsertBehindHead(t, s, rest);
      [s[0]] + rest
  }

  /** The step of an insertion that goes behind the head of the list. */
  lemma InsertBehindHead(t: Txn, s: seq<Txn>, rest: seq<Txn>)
    requires NewestFirst(s) && s != [] && t.createdAt < s[0].createdAt
    requires NewestFirst(rest) && multiset(rest) == multiset(s[1..]) + multiset{t}
    ensures NewestFirst([s[0]] + rest)
    ensures multiset([s[0]] + rest) == multiset(s) + multiset{t}
  {
    assert s == [s[0]] + s[1..];
    forall x | x in rest
      ensures s[0].createdAt >= x.createdAt
    {
      assert x in multiset(rest);
      if x != t {
        var j :| 1 <= j < |s| && s[j] == x;
      }
    }
    ConsNewestFirst(s[0], rest);
  }

  lemma ConsNewestFirst(x: Txn, s: seq<Txn>)
    requires NewestFirst(s)
    requires forall y :: y in s ==> x.createdAt >= y.createdAt
    ensures NewestFirst([x] + s)
  {
    var r := [x] + s;
    forall i, j | 0 <= i < j < |r|
      ensures r[i].createdAt >= r[j].createdAt
    {
      assert r[j] == s[j - 1];
      if i > 0 {
        assert r[i] == s[i - 1];
      }
    }
  }

  /** `.sort({ createdAt: -1 })`; records with equal timestamps keep their
      store order. */
  function SortNewestFirst(s: seq<Txn>): (r: seq<Txn>)
    ensures NewestFirst(r)
    ensures multiset(r) == multiset(s)
  {
    if s == [] then []
    else
      assert s == [s[0]] + s[1..];
      InsertNewestFirst(s[0], SortNewestFirst(s[1..]))
  }

  class Store {
    /** The persisted records, in insertion order. */
    var records: seq<Txn>
    /** The next record id the store hands out. */
    var nextId: Id

    /** Ids are unique and below the next id to hand out. */
    ghost predicate Valid()
      reads this
    {
      && UniqueIds(records)
      && forall i :: 0 <= i < |records| ==> records[i].id < nextId
    }

    constructor ()
      ensures Valid() && records == [] && nextId == 0
    {
      records := [];
      nextId := 0;
    }

    /** POST /transactions: 201 with the stored record, or 500 when the
        schema rejects the document. */
    method AddTransaction(caller: UserId, body: Body, now: Time) returns (r: Result<Txn>)
      requires Valid()
      modifies this
      ensures Valid()
      ensures r.Ok? <==> Create(caller, body, old(nextId), now).Some?
      ensures r.Ok? ==> && Create(caller, body, old(nextId), now) == Some(r.value)
                        && r.value.userId == caller
                        && (forall t :: t in old(records) ==> t.id != r.value.id)
                        && records == old(records) + [r.value]
                        && nextId == old(nextId) + 1
      ensures r.Err? ==> r.failure == ServerError && records == old(records) && nextId == old(nextId)
      ensures r.Err? ==> StatusCode(r.failure) == 500
    {
      var created := Create(caller, body, nextId, now);
      if created.None? {
        return Err(ServerError);
      }
      r := Ok(created.value);
      records := records + [created.value];
      nextId := nextId + 1;
    }

    /** GET /transactions: the caller's records, newest first. */
    function GetTransactions(caller: UserId): (r: seq<Txn>)
      reads this
      ensures NewestFirst(r)
      ensures multiset(r) == multiset(Owned(records, caller))
      ensures forall t :: t in r <==> t in records && t.userId == caller
    {
      var r := SortNewestFirst(Owned(records, caller));
      assert forall t :: t in r <==> t in multiset(Owned(records, caller));
      r
    }

    /** DELETE /transactions/:id: removes the record matching both the id
        and the caller, or answers 404 and changes nothing. */
    method DeleteTransaction(caller: UserId, id: Id) returns (r: Result<()>)
      requires Valid()
      modifies this
      ensures Valid() && nextId == old(nextId)
      ensures match FindOwned(old(records), id, caller)
              case None => r == Err(NotFound) && records == old(records)
              case Some(k) => r == Ok(()) && records == old(records)[..k] + old(records)[k + 1..]
      ensures r.Err? ==> StatusCode(r.failure) == 404
      ensures r.Ok? ==> FindOwned(records, id, caller).None?
      ensures forall v :: v != caller ==> Owned(records, v) == Owned(old(records), v)
    {
      var found := FindOwned(records, id, caller);
      match found {
        case None =>
          r := Err(NotFound);
        case Some(k) =>
          RemovedIdGone(records, k, caller);
          forall v | v != caller
            ensures Owned(records[..k] + records[k + 1..], v) == Owned(records, v)
          {
            OwnedRemove(records, k, v);
          }
          records := records[..k] + records[k + 1..];
          r := Ok(());
      }
    }

    /** PUT /transactions/:id: the body is cast before the query runs, so an
        amount that does not cast answers 500 whether or not a record
        matches. Otherwise the body is applied to the record matching both
        the id and the caller and the updated record is the answer; 404 and
        no change when nothing matches. */
    method UpdateTransaction(caller: UserId, id: Id, body: Body, now: Time) returns (r: Result<Txn>)
      requires Valid()
      modifies this
      ensures Valid() && nextId == old(nextId)
      ensures body.amount == Some(NaN) ==> r == Err(ServerError) && records == old(records)
      ensures body.amount != Some(NaN) ==>
                match FindOwned(old(records), id, caller)
                case None => r == Err(NotFound) && records == old(records)
                case Some(k) =>
                  && ApplyBody(old(records)[k], body, now).Some?
                  && r == Ok(ApplyBody(old(records)[k], body, now).value)
                  && records == old(records)[k := r.value]
      ensures r.Err? ==> StatusCode(r.failure) == (if body.amount == Some(NaN) then 500 else 404)
      ensures body.userId.None? ==> forall v :: v != caller ==> Owned(records, v) == Owned(old(records), v)
    {
      if body.amount == Some(NaN) {
        return Err(ServerError);
      }
      var found := FindOwned(records, id, caller);
      if found.None? {
        return Err(NotFound);
      }
      var k := found.value;
      var u := ApplyBody(records[k], body, now).value;
      if body.userId.None? {
        forall v | v != caller
          ensures Owned(records[k := u], v) == Owned(records, v)
        {
          OwnedReplace(records, k, u, v);
        }
      }
      records := records[k := u];
      r := Ok(u);
    }

    /** GET /transactions/summary: per-type sums over the caller's records. */
    function GetSummary(caller: UserId): (r: Summary)
      reads this
      ensures r == Summary(AmountOfType(Owned(records, caller), Income),
                           AmountOfType(Owned(records, caller), Expense))
      ensures r == CalculateSummary(GetTransactions(caller))
      ensures (forall t :: t in records ==> t.userId != caller) ==> r == Summary(0, 0)
    {
      CalculateSummaryMeaning(Owned(records, caller));
      CalculateSummaryPermutation(Owned(records, caller), GetTransactions(caller));
      CalculateSummary(Owned(records, caller))
    }
  }

  lemma {:induction false} OwnedConcat(a: seq<Txn>, b: seq<Txn>, v: UserId)
    ensures Owned(a + b, v) == Owned(a, v) + Owned(b, v)
  {
    if a == [] {
      assert a + b == b;
    } else {
      assert (a + b)[1..] == a[1..] + b;
      OwnedConcat(a[1..], b, v);
    }
  }

  /** Removing a record other owners do not own leaves their view unchanged. */
  lemma OwnedRemove(s: seq<Txn>, k: nat, v: UserId)
    requires k < |s| && s[k].userId != v
    ensures Owned(s[..k] + s[k + 1..], v) == Owned(s, v)
  {
    assert s == s[..k] + ([s[k]] + s[k + 1..]);
    OwnedSkip(s[..k], s[k], s[k + 1..], v);
  }

  /** A record `v` does not own is invisible to `v` wherever it sits. */
  lemma OwnedSkip(pre: seq<Txn>, x: Txn, post: seq<Txn>, v: UserId)
    requires x.userId != v
    ensures Owned(pre + ([x] + post), v) == Owned(pre + post, v)
  {
    OwnedConcat(pre, [x] + post, v);
    assert Owned([x] + post, v) == Owned(post, v) by {
      assert ([x] + post)[1..] == post;
    }
    OwnedConcat(pre, post, v);
  }

  /** Replacing a record by one of the same owner leaves every other
      owner's view unchanged. */
  lemma OwnedReplace(s: seq<Txn>, k: nat, u: Txn, v: UserId)
    requires k < |s| && s[k].userId != v && u.userId != v
    ensures Owned(s[k := u], v) == Owned(s, v)
  {
    assert s == s[..k] + ([s[k]] + s[k + 1..]);
    assert s[k := u] == s[..k] + ([u] + s[k + 1..]);
    OwnedSkip(s[..k], s[k], s[k + 1..], v);
    OwnedSkip(s[..k], u, s[k + 1..], v);
  }

  /** With unique ids, once the record at `k` is removed no record carries
      its id: a repeated delete of it answers 404, and so does a repeated
      update whose amount casts (one that does not cast answers 500 first). */
  lemma RemovedIdGone(s: seq<Txn>, k: nat, caller: UserId)
    requires UniqueIds(s) && k < |s|
    ensures UniqueIds(s[..k] + s[k + 1..])
    ensures FindOwned(s[..k] + s[k + 1..], s[k].id, caller).None?
  {
    var rest := s[..k] + s[k + 1..];
    forall j | 0 <= j < |rest|
      ensures rest[j] == s[if j < k then j else j + 1]
    {
    }
  }

  /** A user cannot reach another user's record: with unique ids, a filter
      on the id and a different owner matches nothing. */
  lemma OtherOwnerNotFound(s: seq<Txn>, k: nat, caller: UserId)
    requires UniqueIds(s) && k < |s| && s[k].userId != caller
    ensures FindOwned(s, s[k].id, caller).None?
  {
  }

  /** The body's `userId` is honoured by an update, so a record can be
      handed to another owner: the owner is not immutable. */
  lemma UpdateCanChangeOwner(t: Txn, other: UserId, now: Time)
    requires other != t.userId
    ensures ApplyBody(t, Body(Some(other), None, None, None, None, None), now).value.userId == other
  {
  }

  /** An update does not check the type enumeration. */
  lemma UpdateSkipsTypeCheck(t: Txn, now: Time)
    ensures ApplyBody(t, Body(None, Some("refund"), None, None, None, None), now).value.txnType == "refund"
    ensures !SchemaValid(AsDoc(ApplyBody(t, Body(None, Some("refund"), None, None, None, None), now).value))
  {
  }

  /** Creating a first record for a user and then listing gives exactly
      that record. */
  lemma FirstCreateListed(s: seq<Txn>, t: Txn)
    requires forall x :: x in s ==> x.userId != t.userId
    ensures SortNewestFirst(Owned(s + [t], t.userId)) == [t]
  {
    var none := Owned(s, t.userId);
    OwnedEmpty(s, t.userId);
    assert [t][1..] == [];
    calc {
      SortNewestFirst(Owned(s + [t], t.userId));
      { OwnedConcat(s, [t], t.userId); }
      SortNewestFirst(none + Owned([t], t.userId));
      { assert none + Owned([t], t.userId) == [t]; }
      SortNewestFirst([t]);
      InsertNewestFirst(t, SortNewestFirst([]));
      [t];
    }
  }

  /** A user with no records sees an empty list. */
  lemma {:induction false} OwnedEmpty(s: seq<Txn>, caller: UserId)
    requires forall x :: x in s ==> x.userId != caller
    ensures Owned(s, caller) == []
  {
    if s != [] {
      assert s[0] in s;
      OwnedEmpty(s[1..], caller);
    }
  }

  /** A create of {income, 500, "salary", "cash", "May pay"} by a user with
      no records, then a list by that user, yields exactly the stored record
      with those fields, and the summary counts 500 as income. */
  lemma CreateThenList(s: seq<Txn>, caller: UserId, id: Id, now: Time)
    requires forall x :: x in s ==> x.userId != caller
    ensures var body := Body(None, Some(Income), Some(Num(500)), Some("May pay"), Some("salary"), Some("cash"));
            var t := Create(caller, body, id, now);
            && t == Some(Txn(id, caller, Income, 500, Some("May pay"), Some("salary"), Some("cash"), now, now))
            && SortNewestFirst(Owned(s + [t.value], caller)) == [t.value]
            && CalculateSummary(SortNewestFirst(Owned(s + [t.value], caller))) == Summary(500, 0)
  {
    var body := Body(None, Some(Income), Some(Num(500)), Some("May pay"), Some("salary"), Some("cash"));
    var t := Create(caller, body, id, now).value;
    FirstCreateListed(s, t);
    CalculateSummarySingle(t);
  }
}


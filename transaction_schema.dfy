/**
 * The transaction schema (backend/models/Transaction.js): the shape of a
 * stored record and the validity predicate the store applies when a new
 * record is saved.
 */
module TransactionSchema {
  import opened Wrappers

  /** Record identifiers and user identifiers stand in for ObjectIds. */
  type Id = nat
  type UserId = nat
  /** A store timestamp; the clock is a parameter of every write. */
  type Time = int

  /** A JavaScript number as the store receives it: an amount in the
      smallest currency unit, or NaN. */
  datatype Amount = Num(n: int) | NaN

  const Income: string := "income"
  const Expense: string := "expense"

  /** The enumeration of the `type` path. */
  predicate IsTxnType(s: string) {
    s == Income || s == Expense
  }

  /** A document before validation: every path may be absent. */
  datatype Doc = Doc(
    userId: Option<UserId>,
    txnType: Option<string>,
    amount: Option<Amount>,
    description: Option<string>,
    category: Option<string>,
    paymentMode: Option<string>)

  /** The schema: `userId`, `type` and `amount` are required, `type` is one
      of the enumeration; `description`, `category` and `paymentMode` carry
      no constraint. An amount that does not cast to a number (NaN) is
      rejected as well. */
  predicate SchemaValid(d: Doc) {
    && d.userId.Some?
    && d.txnType.Some? && IsTxnType(d.txnType.value)
    && d.amount.Some? && d.amount.value.Num?
  }

  /** A stored record, with the id and the two timestamps the store adds. */
  datatype Txn = Txn(
    id: Id,
    userId: UserId,
    txnType: string,
    amount: int,
    description: Option<string>,
    category: Option<string>,
    paymentMode: Option<string>,
    createdAt: Time,
    updatedAt: Time)

  /** The schema paths of a stored record. */
  function AsDoc(t: Txn): Doc {
    Doc(Some(t.userId), Some(t.txnType), Some(Num(t.amount)), t.description, t.category, t.paymentMode)
  }

  /** `save()` of a new document: validation first, then the record with
      the given id and both timestamps set to `now`. */
  function Save(d: Doc, id: Id, now: Time): (r: Option<Txn>)
    ensures r.Some? <==> SchemaValid(d)
    ensures r.Some? ==> AsDoc(r.value) == d && r.value.id == id
    ensures r.Some? ==> r.value.createdAt == now && r.value.updatedAt == now
  {
    if SchemaValid(d) then
      Some(Txn(id, d.userId.value, d.txnType.value, d.amount.value.n,
               d.description, d.category, d.paymentMode, now, now))
    else
      None
  }

  /** A stored record satisfies the schema exactly when its type is one of
      the enumeration (the other required paths are always present). */
  lemma StoredRecordValid(t: Txn)
    ensures SchemaValid(AsDoc(t)) <==> IsTxnType(t.txnType)
  {
  }

  /** The three optional paths never decide validity. */
  lemma OptionalPathsFree(d: Doc, description: Option<string>, category: Option<string>, paymentMode: Option<string>)
    ensures SchemaValid(d.(description := description, category := category, paymentMode := paymentMode))
            == SchemaValid(d)
  {
  }

  /** No two records of `s` share an id. */
  predicate UniqueIds(s: seq<Txn>) {
    forall i, j :: 0 <= i < j < |s| ==> s[i].id != s[j].id
  }
}

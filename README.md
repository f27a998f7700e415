# Expense tracker: transaction bookkeeping and the income/expense summary

A Dafny model of the bookkeeping core of a personal expense tracker.
Signed-in users record income and expense transactions and see a summary of
total income, total expense and balance.

The model covers five parts:

- **Schema** (`TransactionSchema`): a stored record and the validity
  predicate applied when a record is created. `userId`, `type` and `amount`
  are required, and `type` must be "income" or "expense". The store adds an
  id and `createdAt`/`updatedAt` timestamps.
- **Owner-scoped store** (`TransactionController`): a `Store` class holding
  the persisted records in insertion order and the next id to hand out. It
  has the five REST handlers:
  - create: the owner is the caller, never the body;
  - list: the caller's records, newest first;
  - delete and update: they match on id AND owner. A delete that matches
    nothing answers 404, and so does an update whose amount casts; an update
    whose amount does not cast answers 500 first, match or no match;
  - summary: one sum per type.
- **Summary** (`Summaries`): the filter and reduce that both the client and
  the store use. Lemmas show how the summary behaves under concatenation,
  prepend, removal, replacement and reordering.
- **Page controller** (`HomePage`): a `Home` class holding `transactions`,
  `summary` and `editTxn`. Its handlers patch the list and adjust the summary
  by deltas instead of recomputing it. Each handler is proved to keep
  `summary == CalculateSummary(transactions)`, provided ids are unique and
  every type is "income" or "expense", and that the server's record
  has an enumerated type and a fresh id (on add) or the edited id (on update).
- **Entry form and dashboard** (`TransactionFormModel`, `DashboardView`):
  - the form is a `Form` class with create and edit modes, a change handler
    that updates one field, and a submit that emits a payload and resets;
  - the category options depend on the type;
  - the dashboard shows the balance, styled by its sign.

Amounts are integers in the smallest currency unit, so every sum is exact.
The source adds IEEE doubles. The `Amount` constructor `NaN` has two
readings. In the form, it is what `Number(text)` gives for text that is not
a number. In a request body, it is an amount path the store cannot cast to a
number, such as a non-numeric string. A create refuses that write and an
update fails its cast; both answer 500.

Parameters stand in for I/O. The caller's identity is a `UserId` argument,
standing for what the authentication middleware resolves. The clock is a
`now` argument. Each client handler's network request is an argument that
holds the server's answer (for delete, only whether the request succeeded),
with `None` or `false` meaning a thrown request; the edit handler makes no
request. The source makes the request before any state change.

Four behaviours of the code matter here; the model follows the code:

- An update applies the request body as given, `userId` and an unvalidated
  `type` included. So a record's owner is not immutable, and the type
  enumeration is not rechecked (`UpdateCanChangeOwner`,
  `UpdateSkipsTypeCheck`).
- A create that fails the schema answers 500, not a distinct validation
  error.
- The form checks nothing beyond the browser's `required` attributes. It has
  no amount range and no description length check.
- The client patches the summary by deltas, not by recomputing it. The
  model proves that the patched summary equals the recomputed one under the
  conditions above.

## Model

| member | source | states |
|---|---|---|
| TransactionSchema.Save | backend/models/Transaction.js:3-30 | saving a document succeeds exactly when the schema holds: userId, type and amount present, type "income" or "expense", amount a number. The record carries the document's paths, the given id and createdAt = updatedAt = now |
| TransactionSchema.StoredRecordValid | backend/models/Transaction.js:10-14 | a stored record satisfies the schema iff its type is "income" or "expense" |
| TransactionSchema.OptionalPathsFree | backend/models/Transaction.js:19-27 | description, category and paymentMode never affect validity |
| Summaries.CalculateSummary | fronted/src/pages/Home.jsx:13-22 | the empty list summarises to {0, 0} |
| Summaries.CalculateSummaryMeaning | fronted/src/pages/Home.jsx:13-22 | income is the sum of the amounts of type "income" and expense the sum of those of type "expense". Proved against an independent front-to-back reference sum, although the source's reduce is a left fold |
| Summaries.Contribution | fronted/src/pages/Home.jsx:13-22 | one record adds its amount to its own type's bucket, and nothing when its type is outside the enumeration |
| Summaries.CalculateSummaryConcat | fronted/src/pages/Home.jsx:13-22 | summarising two lists joined together adds their summaries |
| Summaries.CalculateSummarySingle | fronted/src/pages/Home.jsx:13-22 | a one-record list summarises to that record's contribution |
| Summaries.CalculateSummaryPrepend | fronted/src/pages/Home.jsx:51-59 | putting a record in front adds its contribution |
| Summaries.CalculateSummarySwap | fronted/src/pages/Home.jsx:109-137 | taking a record out of the middle of a list subtracts its contribution; putting another in its place adds that one's |
| Summaries.CalculateSummaryRemove | fronted/src/pages/Home.jsx:75-83 | removing the record at position k subtracts its contribution |
| Summaries.CalculateSummaryReplace | fronted/src/pages/Home.jsx:135-137 | replacing the record at position k subtracts the old contribution and adds the new one |
| Summaries.CalculateSummaryPermutation | backend/controller/transactionController.js:79-86 | the summary does not depend on the order of the records |
| Summaries.UpdateMovesAmount | fronted/src/pages/Home.jsx:118-130 | changing a record from income to expense moves its amount from income to expense. Changing only the amount of an income record shifts income by the difference and leaves expense unchanged |
| TransactionController.Create | backend/controller/transactionController.js:5-16 | the new record's owner is the caller whatever the body says. Its type, amount, description, category and paymentMode are the body's. It exists iff the type is "income" or "expense" and the amount is a number |
| TransactionController.ApplyBody | backend/controller/transactionController.js:60-64 | each path present in the body overwrites the record's, with no enum check. The id and createdAt stay and updatedAt becomes now. An amount that does not cast writes nothing |
| TransactionController.FindOwned | backend/controller/transactionController.js:43-46 | the result is the first position whose record matches both the id and the caller. None means no record matches both |
| TransactionController.Owned | backend/controller/transactionController.js:31 | the records kept are exactly the caller's |
| TransactionController.InsertNewestFirst | backend/controller/transactionController.js:31-33 | inserting into a newest-first list keeps it newest-first and adds exactly the new record |
| TransactionController.SortNewestFirst | backend/controller/transactionController.js:31-33 | the result is ordered by createdAt descending and is a permutation of the input |
| TransactionController.Store.constructor | backend/models/Transaction.js:32 | the transaction collection starts with no records and hands out id 0 first, which satisfies its invariant: unique ids, all below the next id |
| TransactionController.Store.AddTransaction | backend/controller/transactionController.js:3-24 | with a schema-valid body, the created record (owner = caller, fresh id) is appended and answered. Otherwise the answer is status 500 and nothing changes. Unique ids are preserved |
| TransactionController.Store.GetTransactions | backend/controller/transactionController.js:27-39 | the answer is exactly the caller's records, as a permutation of them, newest first |
| TransactionController.Store.DeleteTransaction | backend/controller/transactionController.js:41-56 | only the first record matching both id and caller is removed; with none, status 404 and no change. Afterwards no such record remains, so a repeat answers 404. Other owners' records are untouched |
| TransactionController.Store.UpdateTransaction | backend/controller/transactionController.js:58-74 | an amount that does not cast gives status 500 and no change, whether or not a record matches. Otherwise only the first record matching both id and caller is replaced, by the body applied to it, and the new record is answered; no match gives status 404 and no change. Without a userId in the body, other owners' records are untouched |
| TransactionController.Store.GetSummary | backend/controller/transactionController.js:76-91 | the answer is the per-type sums over exactly the caller's records and equals the client's summary of the listed records. A caller with no records gets {0, 0} |
| TransactionController.OwnedConcat | backend/controller/transactionController.js:31 | filtering by owner distributes over joining two lists |
| TransactionController.OwnedRemove | backend/controller/transactionController.js:43-46 | removing a record owned by someone else leaves a user's view unchanged |
| TransactionController.OwnedReplace | backend/controller/transactionController.js:60-61 | replacing another owner's record by one of the same owner leaves a user's view unchanged |
| TransactionController.RemovedIdGone | backend/controller/transactionController.js:43-50 | after a delete, ids stay unique and no record carries the deleted id, so a second delete finds nothing |
| TransactionController.OtherOwnerNotFound | backend/controller/transactionController.js:60-61 | with unique ids, a request naming another owner's record matches nothing, so delete answers 404, and so does an update whose amount casts; an amount that does not cast answers 500 first |
| TransactionController.UpdateCanChangeOwner | backend/controller/transactionController.js:60-64 | a body with a userId hands the record to that user |
| TransactionController.UpdateSkipsTypeCheck | backend/controller/transactionController.js:60-64 | an update can store a type outside the enumeration, so the stored record no longer satisfies the schema |
| TransactionController.OwnedEmpty | backend/controller/transactionController.js:31 | a user who owns no record gets the empty list |
| TransactionController.FirstCreateListed | backend/controller/transactionController.js:9-33 | a user's first created record is the whole of their list |
| TransactionController.CreateThenList | backend/controller/transactionController.js:5-33 | creating {income, 500, salary, cash, "May pay"} for a user with no records, then listing, yields exactly that record. The summary is {500, 0} |
| HomePage.FindById | fronted/src/pages/Home.jsx:69 | the result carries the id and is in the list. None means no record has the id |
| HomePage.RemoveId | fronted/src/pages/Home.jsx:75 | the records kept are exactly those whose id differs |
| HomePage.RemoveIdConcat | fronted/src/pages/Home.jsx:75 | the filter of a joined list is the join of the two filters, so it keeps the kept records in their order and with their multiplicity |
| HomePage.FindByIdAt | fronted/src/pages/Home.jsx:110 | with unique ids, find returns the one record carrying the id |
| HomePage.FindByIdFirst | fronted/src/pages/Home.jsx:69 | a found record is the one at the first position carrying the id: every record before it has another id |
| HomePage.RemoveIdAbsent | fronted/src/pages/Home.jsx:75 | filtering out an id that no record carries changes nothing |
| HomePage.RemoveIdAt | fronted/src/pages/Home.jsx:75 | with unique ids, the filter removes exactly the record at the id's position and keeps the rest in order |
| HomePage.ReplaceIdPointwise | fronted/src/pages/Home.jsx:135-137 | the map keeps the length, puts the server record at every position carrying the id and keeps the rest |
| HomePage.ReplaceIdAt | fronted/src/pages/Home.jsx:135-137 | with unique ids, the map replaces exactly the record at the id's position |
| HomePage.WellFormedRemove | fronted/src/pages/Home.jsx:75 | removing one record keeps ids unique and types in the enumeration |
| HomePage.AddKeepsSummary | fronted/src/pages/Home.jsx:51-59 | for a record of type "income" or "expense", the add handler's bucket update (income if "income", else expense) equals the summary of the list with the record prepended |
| HomePage.DeleteKeepsSummary | fronted/src/pages/Home.jsx:69-83 | with unique ids and typed records, subtracting the found record's amount from its bucket equals the summary of the filtered list |
| HomePage.UpdateKeepsSummary | fronted/src/pages/Home.jsx:110-137 | with unique ids and typed records, and a server record that keeps the id and has an enumerated type, moving the old amount out of the old bucket and the new amount into the new one (`MoveBuckets`) equals the summary of the mapped list. Ids stay unique and types typed |
| HomePage.Home.constructor | fronted/src/pages/Home.jsx:8-10 | the state starts as the empty list, {0, 0} and no record being edited, which satisfies the summary invariant |
| HomePage.Home.FetchTransactions | fronted/src/pages/Home.jsx:25-36 | on success the list is the response and the summary is computed from it. On a thrown request nothing changes |
| HomePage.Home.HandleAddTransaction | fronted/src/pages/Home.jsx:43-63 | the server record is prepended with the rest unchanged, and exactly one bucket grows by its amount. For a record of type "income" or "expense", the summary invariant is preserved. If, in addition, the list's ids are unique, every type in it is "income" or "expense" and the record's id is fresh, the new list keeps unique ids and enumerated types. A thrown request changes nothing |
| HomePage.Home.HandleDeleteTransaction | fronted/src/pages/Home.jsx:66-87 | every record with the id leaves the list, in order, and the amount found before the request leaves its bucket. When no record is found the summary stays. When the list's ids are unique and every type in it is "income" or "expense", the summary invariant, the unique ids and the enumerated types are preserved. A thrown request changes nothing |
| HomePage.Home.HandleEditTransaction | fronted/src/pages/Home.jsx:90-92 | the record becomes editTxn; list and summary unchanged |
| HomePage.Home.HandleUpdateTransaction | fronted/src/pages/Home.jsx:95-144 | the record with the id is replaced by the server's. The old amount leaves the old bucket and the new amount joins the new one. editTxn is cleared. When the list's ids are unique, every type in it is "income" or "expense", and the server's record keeps the id and has an enumerated type, the summary invariant, the unique ids and the enumerated types are preserved. A missing record is a render fault with no change. A thrown request changes nothing |
| TransactionFormModel.WithField | fronted/src/components/TransactionForm.jsx:50-53 | the named field holds the entered value; every other field is unchanged |
| TransactionFormModel.Form.constructor | fronted/src/components/TransactionForm.jsx:5-11 | the form starts as {type "income", amount "", description "", category "", paymentMode "cash"} |
| TransactionFormModel.Form.Prefill | fronted/src/components/TransactionForm.jsx:38-48 | with a record being edited, the five fields are copied from it; without one the form is unchanged |
| TransactionFormModel.Form.HandleChange | fronted/src/components/TransactionForm.jsx:50-53 | exactly the named field changes |
| TransactionFormModel.Emit | fronted/src/components/TransactionForm.jsx:60-64 | edit mode emits an update whose payload has the edited record's id. Create mode emits an add with no id. Both carry the form fields and the numeric amount |
| TransactionFormModel.Form.HandleSubmit | fronted/src/components/TransactionForm.jsx:55-77 | the submit emits the payload of the form as it was, and afterwards the form is always the default |
| TransactionFormModel.UnchangedEditRoundTrip | fronted/src/components/TransactionForm.jsx:38-64 | submitting a prefilled form untouched sends the record's own values under its own id |
| TransactionFormModel.DigitsValueOfDecimal | fronted/src/components/TransactionForm.jsx:61 | the decimal digits of a whole number read back as that number |
| TransactionFormModel.DecimalRoundTrip | fronted/src/components/TransactionForm.jsx:61-63 | typing a whole amount as its digits (or "-" and its digits) submits that amount |
| TransactionFormModel.CategoryOptions | fronted/src/components/TransactionForm.jsx:210-215 | the options are the empty placeholder followed by the lower-cased entries of the type's list; a type with no list offers only the placeholder |
| TransactionFormModel.IncomeOptionValues | fronted/src/components/TransactionForm.jsx:14-15 | the income options are "", salary, business, investment, freelance, gift, other |
| TransactionFormModel.ExpenseOptionValues | fronted/src/components/TransactionForm.jsx:16-25 | the expense options are "", food, transport, shopping, bills, entertainment, health, education, other |
| TransactionFormModel.OtherTypeOptions | fronted/src/components/TransactionForm.jsx:211 | a type outside the enumeration offers only the placeholder |
| DashboardView.ToneOf | fronted/src/components/Dashboard.jsx:71-73 | the positive style iff balance >= 0 |
| DashboardView.Render | fronted/src/components/Dashboard.jsx:3-109 | the displayed income and expense are the summary's fields and the displayed balance is income - expense. Its style is positive iff income >= expense and negative iff income < expense |
| DashboardView.NetIsDifference | fronted/src/components/Dashboard.jsx:4 | the net amount of a list (income up, expense down) is the income sum minus the expense sum |
| DashboardView.BalanceOfList | fronted/src/components/Dashboard.jsx:4 | the balance displayed for a list's summary is that list's net amount |

## Left out

- HTTP, Express routing, CORS, the axios instance and its token interceptor, `localStorage`, and the MongoDB connection. They are I/O plumbing. The authenticated user is a parameter, and each request's answer is a parameter of the client handler.
- The authentication middleware and user accounts are not part of this model; the caller's identity is given.
- MongoDB internals: the query engine, ObjectId generation (a counter here), and casting beyond "a number or not". The store is a sequence of records.
- A malformed `:id` parameter, which fails the ObjectId cast and answers 500. Ids here are naturals.
- Database failures in any of the five handlers, which answer 500. The store is always reachable here, so a schema-valid create and a castable update of a matching record always succeed.
- A `NaN` amount from the form, which is serialised as JSON `null`. A create rejects it as a missing required path, which is what `Create` does for an absent amount. An update stores `null` and answers 200, because `findOneAndUpdate` runs no schema validators. The model's update bodies have no `null`, so they cannot express that write.
- The ordering among records with equal `createdAt` is the database's choice. The model keeps store order among them.
- An `_id` or a timestamp inside an update body is not modelled. The form only sends the matched id, and the body carries only the six schema paths.
- A body path set to `null` is not distinguished from an absent path.
- IEEE floating-point summation and the decimal, exponent and whitespace forms of `Number(text)`. Amounts are whole numbers in the smallest currency unit.
- TransactionFormModel.ParseNumber: covers the empty text, an optional sign and decimal digits, which is what a number input holds for whole amounts. Other inputs an HTML number input would accept are not modelled.
- TransactionFormModel.Lower: lower-cases ASCII letters only, which is all the category lists contain.
- TransactionFormModel.Categories: returns no list for every key other than "income" and "expense", including the inherited property names a JavaScript object lookup would find.
- The browser's `required` check on the amount, description and category inputs. The model's submit is the handler the browser calls when that check passes.
- Asynchronous interleavings, including the `summary` value the update handler captures from an earlier render. Each handler is one atomic step on the current state.
- HomePage.Home.HandleUpdateTransaction: when no record carries the id, the state updater throws while React renders, outside the handler's try, and React unmounts the page. The model reports `RenderFault` and leaves the state unchanged instead of modelling the unmount.
- The list view (`TransactionList.jsx`) only renders rows and forwards a row or its id to the edit and delete handlers. There is no logic in it beyond that forwarding.
- JSX markup, styling beyond the balance sign test, the payment-mode option table and console logging.

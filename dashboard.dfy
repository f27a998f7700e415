/**
 * The summary cards of fronted/src/components/Dashboard.jsx: income,
 * expense, and the balance with a style chosen by its sign.
 */
module DashboardView {
  import opened TransactionSchema
  import opened Summaries

  /** The blue style for a balance that is not negative, the orange one
      for a negative balance. */
  datatype Tone = Positive | Negative

  /** The three values the cards display and the balance card's style. */
  datatype Cards = Cards(income: int, expense: int, balance: int, tone: Tone)

  function Balance(s: Summary): int {
    s.income - s.expense
  }

  /** `balance >= 0 ? ... : ...`. */
  function ToneOf(balance: int): (t: Tone)
    ensures t == Positive <==> balance >= 0
  {
    if balance >= 0 then Positive else Negative
  }

  /** The dashboard for a summary. */
  function Render(s: Summary): (c: Cards)
    ensures c.income == s.income && c.expense == s.expense
    ensures c.balance == s.income - s.expense
    ensures c.tone == Positive <==> s.income >= s.expense
    ensures c.tone == Negative <==> s.income < s.expense
  {
    var balance := Balance(s);
    Cards(s.income, s.expense, balance, ToneOf(balance))
  }

  /** Reference definition: every income amount counts up, every expense
      amount down, anything else not at all. */
  function Net(s: seq<Txn>): int {
    if s == [] then 0
    else (if s[0].txnType == Income then s[0].amount
          else if s[0].txnType == Expense then -s[0].amount
          else 0) + Net(s[1..])
  }

  lemma {:induction false} NetIsDifference(s: seq<Txn>)
    ensures Net(s) == AmountOfType(s, Income) - AmountOfType(s, Expense)
  {
    if s != [] {
      NetIsDifference(s[1..]);
    }
  }

  /** The balance displayed for the summary of a list is the list's net
      amount. */
  lemma BalanceOfList(s: seq<Txn>)
    ensures Render(CalculateSummary(s)).balance == Net(s)
  {
    CalculateSummaryMeaning(s);
    NetIsDifference(s);
  }
}

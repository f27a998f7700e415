/**
 * The entry form of fronted/src/components/TransactionForm.jsx: five
 * fields, a create mode and an edit mode (the record handed down as
 * `editTxn`), a field-by-field change handler and a submit that emits a
 * payload and resets the form.
 */
module TransactionFormModel {
  import opened Wrappers
  import opened TransactionSchema

  /** The `amount` field holds the text of the number input, or the number
      copied in from the record being edited. */
  datatype AmountInput = Text(text: string) | Number(value: int)

  /** The form state. The optional record paths copy in as they are, so an
      absent description stays absent. */
  datatype Fields = Fields(
    txnType: string,
    amount: AmountInput,
    description: Option<string>,
    category: Option<string>,
    paymentMode: Option<string>)

  /** The `name` attribute of the input that fired the change. */
  datatype FieldName = TypeField | AmountField | DescriptionField | CategoryField | PaymentModeField

  /** The value held by one field. */
  datatype FieldValue = TypeValue(s: string) | AmountValue(a: AmountInput) | TextValue(o: Option<string>)

  /** The initial form, and the form after every submit. */
  const DefaultFields: Fields := Fields(Income, Text(""), Some(""), Some(""), Some("cash"))

  function Read(f: Fields, name: FieldName): FieldValue {
    match name
    case TypeField => TypeValue(f.txnType)
    case AmountField => AmountValue(f.amount)
    case DescriptionField => TextValue(f.description)
    case CategoryField => TextValue(f.category)
    case PaymentModeField => TextValue(f.paymentMode)
  }

  /** What an input event with `value` leaves in the field `name`: the
      event always carries text. */
  function Entered(name: FieldName, value: string): FieldValue {
    match name
    case TypeField => TypeValue(value)
    case AmountField => AmountValue(Text(value))
    case _ => TextValue(Some(value))
  }

  /** `{ ...prev, [name]: value }`. */
  function WithField(f: Fields, name: FieldName, value: string): (r: Fields)
    ensures Read(r, name) == Entered(name, value)
    ensures forall n :: n != name ==> Read(r, n) == Read(f, n)
  {
    match name
    case TypeField => f.(txnType := value)
    case AmountField => f.(amount := Text(value))
    case DescriptionField => f.(description := Some(value))
    case CategoryField => f.(category := Some(value))
    case PaymentModeField => f.(paymentMode := Some(value))
  }

  /** The five fields the prefill copies from the record being edited. */
  function FieldsOf(t: Txn): Fields {
    Fields(t.txnType, Number(t.amount), t.description, t.category, t.paymentMode)
  }

  predicate IsDigit(c: char) {
    '0' <= c <= '9'
  }

  predicate AllDigits(s: string) {
    forall i :: 0 <= i < |s| ==> IsDigit(s[i])
  }

  /** The value of a string of decimal digits, read left to right. */
  function DigitsValue(s: string): nat
    requires AllDigits(s)
  {
    if s == [] then 0 else DigitsValue(s[..|s| - 1]) * 10 + (s[|s| - 1] as int - '0' as int)
  }

  /** `Number(text)` on the texts a number input holds for whole amounts:
      the empty text is 0, an optional sign and decimal digits are their
      value, anything else is NaN. */
  function ParseNumber(s: string): Amount {
    if s == "" then Num(0)
    else if AllDigits(s) then Num(DigitsValue(s))
    else if |s| > 1 && s[0] == '-' && AllDigits(s[1..]) then Num(-(DigitsValue(s[1..]) as int))
    else if |s| > 1 && s[0] == '+' && AllDigits(s[1..]) then Num(DigitsValue(s[1..]))
    else NaN
  }

  /** `Number(form.amount)`: a number stays itself, text is parsed. */
  function ToNumber(a: AmountInput): Amount {
    match a
    case Number(n) => Num(n)
    case Text(s) => ParseNumber(s)
  }

  /** The decimal digits of a whole number, as a number input shows it. */
  function Decimal(n: nat): (r: string)
    ensures AllDigits(r) && |r| >= 1
  {
    if n < 10 then [('0' as int + n) as char]
    else Decimal(n / 10) + [('0' as int + n % 10) as char]
  }

  lemma {:induction false} DigitsValueOfDecimal(n: nat)
    ensures DigitsValue(Decimal(n)) == n
  {
    if n >= 10 {
      var d := Decimal(n);
      assert d[..|d| - 1] == Decimal(n / 10);
      DigitsValueOfDecimal(n / 10);
    }
  }

  /** Typing a whole amount as its digits submits that amount. */
  lemma DecimalRoundTrip(n: nat)
    ensures ParseNumber(Decimal(n)) == Num(n)
    ensures n > 0 ==> ParseNumber("-" + Decimal(n)) == Num(-(n as int))
  {
    DigitsValueOfDecimal(n);
    var neg := "-" + Decimal(n);
    assert neg[1..] == Decimal(n);
    assert !IsDigit(neg[0]);
  }

  /** The request body `handleSubmit` hands to the page: the five fields,
      a numeric amount and, in edit mode, the `_id` of the edited record. */
  datatype Payload = Payload(
    id: Option<Id>,
    txnType: string,
    amount: Amount,
    description: Option<string>,
    category: Option<string>,
    paymentMode: Option<string>)

  /** `onAdd(payload)` in create mode, `onUpdate(payload)` in edit mode. */
  datatype Submission = AddRequest(payload: Payload) | UpdateRequest(payload: Payload)

  /** What a submit of the form `f` emits. */
  function Emit(f: Fields, editTxn: Option<Txn>): (s: Submission)
    ensures s.UpdateRequest? <==> editTxn.Some?
    ensures s.payload.id == if editTxn.Some? then Some(editTxn.value.id) else None
    ensures && s.payload.txnType == f.txnType
            && s.payload.amount == ToNumber(f.amount)
            && s.payload.description == f.description
            && s.payload.category == f.category
            && s.payload.paymentMode == f.paymentMode
  {
    match editTxn
    case Some(t) =>
      UpdateRequest(Payload(Some(t.id), f.txnType, ToNumber(f.amount), f.description, f.category, f.paymentMode))
    case None =>
      AddRequest(Payload(None, f.txnType, ToNumber(f.amount), f.description, f.category, f.paymentMode))
  }

  /** Submitting a prefilled form untouched sends the record's own values
      back under its own id. */
  lemma UnchangedEditRoundTrip(t: Txn)
    ensures Emit(FieldsOf(t), Some(t))
            == UpdateRequest(Payload(Some(t.id), t.txnType, Num(t.amount), t.description, t.category, t.paymentMode))
  {
  }

  /** The category lists, keyed by type; no list for any other key. */
  function Categories(ty: string): Option<seq<string>> {
    if ty == Income then Some(["Salary", "Business", "Investment", "Freelance", "Gift", "Other"])
    else if ty == Expense then Some(["Food", "Transport", "Shopping", "Bills", "Entertainment", "Health", "Education", "Other"])
    else None
  }

  function LowerChar(c: char): char {
    if 'A' <= c <= 'Z' then (c as int - 'A' as int + 'a' as int) as char else c
  }

  /** `toLowerCase()` on the ASCII letters the lists use. */
  function Lower(s: string): string {
    seq(|s|, i requires 0 <= i < |s| => LowerChar(s[i]))
  }

  /** The `value`s of the category select: the empty placeholder, then the
      lower-cased entries of the list for the form's type. */
  function CategoryOptions(ty: string): (r: seq<string>)
    ensures |r| >= 1 && r[0] == ""
    ensures Categories(ty).None? ==> r == [""]
    ensures Categories(ty).Some? ==>
              && |r| == |Categories(ty).value| + 1
              && forall i :: 0 <= i < |Categories(ty).value| ==> r[i + 1] == Lower(Categories(ty).value[i])
  {
    match Categories(ty)
    case None => [""]
    case Some(names) => [""] + seq(|names|, i requires 0 <= i < |names| => Lower(names[i]))
  }

  /** The option values offered for an income. */
  lemma IncomeOptionValues()
    ensures CategoryOptions(Income) == ["", "salary", "business", "investment", "freelance", "gift", "other"]
  {
    assert Lower("Salary") == "salary" && Lower("Business") == "business";
    assert Lower("Investment") == "investment" && Lower("Freelance") == "freelance";
    assert Lower("Gift") == "gift" && Lower("Other") == "other";
  }

  /** The option values offered for an expense. */
  lemma ExpenseOptionValues()
    ensures CategoryOptions(Expense)
            == ["", "food", "transport", "shopping", "bills", "entertainment", "health", "education", "other"]
  {
    assert Lower("Food") == "food" && Lower("Transport") == "transport";
    assert Lower("Shopping") == "shopping" && Lower("Bills") == "bills";
    assert Lower("Entertainment") == "entertainment" && Lower("Health") == "health";
    assert Lower("Education") == "education" && Lower("Other") == "other";
  }

  /** A type outside the table offers only the placeholder. */
  lemma OtherTypeOptions(ty: string)
    requires !IsTxnType(ty)
    ensures CategoryOptions(ty) == [""]
  {
  }

  class Form {
    var fields: Fields

    constructor ()
      ensures fields == DefaultFields
    {
      fields := DefaultFields;
    }

    /** The `useEffect` on `editTxn`: a record being edited overwrites all
        five fields; without one the form stays as it is. */
    method Prefill(editTxn: Option<Txn>)
      modifies this
      ensures editTxn.Some? ==> fields == FieldsOf(editTxn.value)
      ensures editTxn.None? ==> fields == old(fields)
    {
      if editTxn.Some? {
        var t := editTxn.value;
        fields := Fields(t.txnType, Number(t.amount), t.description, t.category, t.paymentMode);
      }
    }

    /** `handleChange`: the named field takes the event's value, every other
        field keeps its own. */
    method HandleChange(name: FieldName, value: string)
      modifies this
      ensures Read(fields, name) == Entered(name, value)
      ensures forall n :: n != name ==> Read(fields, n) == Read(old(fields), n)
    {
      fields := WithField(fields, name, value);
    }

    /** `handleSubmit`: emits the form's payload in the current mode, then
        resets the form to its defaults. */
    method HandleSubmit(editTxn: Option<Txn>) returns (s: Submission)
      modifies this
      ensures s == Emit(old(fields), editTxn)
      ensures fields == DefaultFields
    {
      s := Emit(fields, editTxn);
      fields := DefaultFields;
    }
  }
}

/**
 * The add-transaction form: its field state, the ordered checks of a
 * submission, the create request it sends, and how the form is reset or
 * keeps its fields afterwards.
 *
 * The signed-in user, the outcome of the create request and today's date
 * (the UTC calendar date of the clock, as "yyyy-mm-dd") are inputs.
 */
module TransactionForm {
  import opened Common
  import opened NumberText

  const LoginRequired: string := "You must be logged in"
  const FieldsRequired: string := "Amount and category are required"
  const AmountNotPositive: string := "Amount must be a positive number"
  const CreateFailed: string := "Failed to add transaction. Please try again."

  /** The outcome of the checks: the first failing check's message, or the parsed amount. */
  datatype Check = Rejected(message: string) | Accepted(amount: real)

  /**
   * The checks in order: a signed-in user, a non-empty amount and category,
   * and an amount that parseFloat reads as a number above zero.
   */
  function CheckInput(signedIn: bool, amount: string, category: string): (r: Check)
    ensures r == Rejected(LoginRequired) <==> !signedIn
    ensures r == Rejected(FieldsRequired) <==> signedIn && (amount == "" || category == "")
    ensures r == Rejected(AmountNotPositive) <==>
      signedIn && amount != "" && category != "" && (ParseFloat(amount).None? || ParseFloat(amount).value <= 0.0)
    ensures r.Accepted? <==>
      signedIn && amount != "" && category != "" && ParseFloat(amount).Some? && ParseFloat(amount).value > 0.0
    ensures r.Accepted? ==> r.amount > 0.0 && Some(r.amount) == ParseFloat(amount)
  {
    if !signedIn then Rejected(LoginRequired)
    else if amount == "" || category == "" then Rejected(FieldsRequired)
    else
      match ParseFloat(amount)
      case None => Rejected(AmountNotPositive)
      case Some(x) => if x <= 0.0 then Rejected(AmountNotPositive) else Accepted(x)
  }

  /** The create request: parsed amount, type, category, date, and the note only when it is not empty. */
  datatype CreateData = CreateData(amount: real, kind: string, category: string, note: Option<string>, date: string)

  /** parseFloat is lenient: "12abc" is accepted as 12. */
  lemma TrailingTextAccepted()
    ensures CheckInput(true, "12abc", "food") == Accepted(12.0)
  {
    ParseFloatStops();
  }

  /** Text that does not begin with a number is refused as not positive. */
  lemma NonNumberRefused()
    ensures CheckInput(true, "abc", "food") == Rejected(AmountNotPositive)
  {
    ParseFloatNaN();
  }

  /** Zero is refused as not positive. */
  lemma ZeroRefused()
    ensures CheckInput(true, "0", "food") == Rejected(AmountNotPositive)
  {
    ParseNat(0);
    assert NatText(0) == "0";
  }

  /** An amount shown with two decimals and above half a cent passes the amount check as its rounded value. */
  lemma FixedAmountAccepted(x: real, category: string)
    requires x >= 0.005 && category != ""
    ensures CheckInput(true, ToFixed2(x), category) == Accepted(Rounded2(x))
  {
    ParseFixed(x);
    RoundedClose(x);
    FixedShape(x);
  }

  class FormState {
    var amount: string
    var kind: string
    var category: string
    var note: string
    var date: string
    var isSubmitting: bool
    var error: string

    /** The fields as they were when the form was reset: empty, an expense, dated today. */
    predicate IsReset(today: string)
      reads this
    {
      amount == "" && kind == "expense" && category == "" && note == "" && date == today
    }

    /** A fresh form: empty fields, an expense, dated today, no error. */
    constructor (today: string)
      ensures IsReset(today) && !isSubmitting && error == ""
    {
      amount := "";
      kind := "expense";
      category := "";
      note := "";
      date := today;
      isSubmitting := false;
      error := "";
    }

    /**
     * handleSubmit. A failing check sets its message and changes nothing
     * else. Otherwise the create request is sent; on success the form is
     * reset, on failure the fields are kept and the failure message is
     * shown; submitting ends false either way, and a form just reset
     * refuses an immediate resubmission for missing fields. `sent` is the
     * request, if one was made.
     */
    method HandleSubmit(signedIn: bool, createSucceeds: bool, today: string) returns (sent: Option<CreateData>)
      modifies this
      ensures var c := CheckInput(signedIn, old(amount), old(category));
        sent == (if c.Accepted?
                 then Some(CreateData(c.amount, old(kind), old(category), if old(note) == "" then None else Some(old(note)), old(date)))
                 else None)
      ensures CheckInput(signedIn, old(amount), old(category)).Rejected? ==>
        error == CheckInput(signedIn, old(amount), old(category)).message &&
        amount == old(amount) && kind == old(kind) && category == old(category) &&
        note == old(note) && date == old(date) && isSubmitting == old(isSubmitting)
      ensures sent.Some? && createSucceeds ==> IsReset(today) && error == "" && !isSubmitting
      ensures sent.Some? && createSucceeds ==> CheckInput(signedIn, amount, category) == Rejected(FieldsRequired)
      ensures sent.Some? && !createSucceeds ==>
        error == CreateFailed && !isSubmitting &&
        amount == old(amount) && kind == old(kind) && category == old(category) &&
        note == old(note) && date == old(date)
    {
      sent := Submit(CheckInput(signedIn, amount, category), createSucceeds, today);
    }

    /** What handleSubmit does once its checks have given `check`. */
    method Submit(check: Check, createSucceeds: bool, today: string) returns (sent: Option<CreateData>)
      modifies this
      ensures sent == (if check.Accepted?
                       then Some(CreateData(check.amount, old(kind), old(category), if old(note) == "" then None else Some(old(note)), old(date)))
                       else None)
      ensures check.Rejected? ==>
        error == check.message &&
        amount == old(amount) && kind == old(kind) && category == old(category) &&
        note == old(note) && date == old(date) && isSubmitting == old(isSubmitting)
      ensures sent.Some? && createSucceeds ==> IsReset(today) && error == "" && !isSubmitting
      ensures sent.Some? && !createSucceeds ==>
        error == CreateFailed && !isSubmitting &&
        amount == old(amount) && kind == old(kind) && category == old(category) &&
        note == old(note) && date == old(date)
    {
      match check
      case Rejected(message) =>
        error := message;
        return None;
      case Accepted(numAmount) =>
        isSubmitting := true;
        error := "";
        sent := Some(CreateData(numAmount, kind, category, if note == "" then None else Some(note), date));
        if createSucceeds {
          amount := "";
          kind := "expense";
          category := "";
          note := "";
          date := today;
        } else {
          error := CreateFailed;
        }
        isSubmitting := false;
    }
  }
}

/** The restock dialog: one numeric field, `quantityToAdd`, with a preview of
    the stock after the restock, four quick-add buttons and a reset to the
    default of 10 whenever the dialog closes. */
module RestockDialog {
  import opened Types
  import opened Strings
  import opened FormInput

  const DefaultQuantityToAdd: int := 10

  /** The amounts offered by the quick-add buttons. */
  const QuickAddAmounts: seq<int> := [10, 25, 50, 100]

  /** `restockSchema`: the field coerces to an integer of at least 1. */
  predicate RestockValid(v: FieldValue): (ok: bool)
    ensures ok ==> ToNumber(v).Some? && NumberOrZero(v) >= 1
    ensures ToNumber(v).None? || v == Text("") || v == Num(0) ==> !ok
    ensures v == Num(DefaultQuantityToAdd) ==> ok
  {
    AtLeast(v, 1)
  }

  /** The "New Total" preview: the current stock plus the entry, an entry
      that is not a number counting as 0. */
  function NewTotal(stock: int, v: FieldValue): (r: int)
    ensures RestockValid(v) ==> r > stock
    ensures ToNumber(v).None? ==> r == stock
  {
    stock + NumberOrZero(v)
  }

  /** Quick-add as the button's handler computes it: `(quantityToAdd || 0) +
      amount`. A number, or the falsy empty text, is added to; any other
      text is a string, and `+` concatenates the amount's digits onto it. */
  function QuickAddAsWritten(v: FieldValue, amount: int): (r: FieldValue)
    ensures v.Num? || v == Text("") ==> r == QuickAdded(v, amount)
    ensures v.Text? && v.s != "" ==> r.Text? && StartsWith(r.s, v.s) && |r.s| > |v.s|
  {
    match v
    case Num(n) => Num(n + amount)
    case Text(s) => if s == "" then Num(amount) else Text(s + IntToString(amount))
  }

  /** With the typed text "25", the +10 button leaves "2510" in the field,
      and the preview jumps by 2510 instead of 10. */
  lemma QuickAddAsWrittenConcatenates()
    ensures QuickAddAsWritten(Text("25"), 10) == Text("2510")
    ensures ToNumber(QuickAddAsWritten(Text("25"), 10)) == Some(2510)
    ensures NewTotal(5, QuickAddAsWritten(Text("25"), 10)) == 2515 != NewTotal(5, Text("25")) + 10
  {
    assert IntToString(10) == "10" by {
      assert NatToString(1) == "1";
    }
    assert "25" + "10" == "2510";
    var s := "2510";
    assert s[..3] == "251" && s[..3][..2] == "25" && s[..3][..2][..1] == "2" && s[..3][..2][..1][..0] == "";
    assert DigitsValue("2") == 2;
    assert DigitsValue("25") == 25;
    assert DigitsValue("251") == 251;
    assert DigitsValue(s) == 2510;
  }

  /** Quick-add as intended: the entry read as a number (0 when it is not
      one) plus the amount, stored as a number. */
  function QuickAdded(v: FieldValue, amount: int): (r: FieldValue)
    ensures ToNumber(r) == Some(NumberOrZero(v) + amount)
  {
    Num(NumberOrZero(v) + amount)
  }

  /** After a quick-add the preview grows by exactly the amount, and a
      positive amount always leaves a valid entry when the entry was valid
      or not a number. */
  lemma QuickAddMovesPreviewByAmount(stock: int, v: FieldValue, amount: int)
    requires amount in QuickAddAmounts
    ensures NewTotal(stock, QuickAdded(v, amount)) == NewTotal(stock, v) + amount
    ensures NumberOrZero(v) >= 0 ==> RestockValid(QuickAdded(v, amount))
  {
  }

  /** The dialog's form state. */
  class RestockForm {
    var quantityToAdd: FieldValue

    /** A fresh form holds the default 10, which is valid. */
    constructor ()
      ensures quantityToAdd == Num(DefaultQuantityToAdd) && RestockValid(quantityToAdd)
    {
      quantityToAdd := Num(DefaultQuantityToAdd);
    }

    /** The user types into the field. */
    method Type(text: string)
      modifies this
      ensures quantityToAdd == Text(text)
    {
      quantityToAdd := Text(text);
    }

    /** A quick-add button: the field becomes its number plus the amount. */
    method QuickAdd(amount: int)
      requires amount in QuickAddAmounts
      modifies this
      ensures quantityToAdd == QuickAdded(old(quantityToAdd), amount)
      ensures ToNumber(quantityToAdd) == Some(NumberOrZero(old(quantityToAdd)) + amount)
    {
      quantityToAdd := QuickAdded(quantityToAdd, amount);
    }

    /** Closing the dialog resets the field to its default. */
    method Close()
      modifies this
      ensures quantityToAdd == Num(DefaultQuantityToAdd)
    {
      quantityToAdd := Num(DefaultQuantityToAdd);
    }

    /** Submitting hands the coerced quantity to the caller exactly when it
      passes the schema; otherwise nothing is submitted. */
    method Submit() returns (submitted: Option<int>)
      ensures submitted.Some? <==> RestockValid(quantityToAdd)
      ensures submitted.Some? ==> submitted.value >= 1 && ToNumber(quantityToAdd) == submitted
    {
      if RestockValid(quantityToAdd) {
        submitted := ToNumber(quantityToAdd);
      } else {
        submitted := None;
      }
    }
  }
}

/**
 * The price dialog (SetPriceDialog): a price in cents, accepted only when the
 * entered text parses as an integer between 0 and 999.
 *
 * The text field's parse (QString::toInt) is an input: Some(value) when the
 * text is an integer, None otherwise.
 */
module PriceDialog {
  import opened LinkTypes

  /** The largest price the dialog accepts, in cents. */
  const MaxPrice := 999

  predicate IsValidPrice(price: int)
  {
    0 <= price <= MaxPrice
  }

  /** The price the OK button accepts for a parse result, or None when it warns instead. */
  function Validate(parsed: Option<int>): Option<int>
  {
    if parsed.Some? && IsValidPrice(parsed.value) then parsed else None
  }

  /** How the modal dialog ended, if it has. */
  datatype DialogResult = Pending | Accepted | Rejected

  class SetPriceDialog {
    var price: int
    var result: DialogResult
    /** How many "Invalid Input" warnings were shown. */
    var warnings: nat

    /** The stored price is always a valid one. */
    predicate Valid()
      reads this
    {
      IsValidPrice(price)
    }

    constructor ()
      ensures Valid()
      ensures price == 0 && result == Pending && warnings == 0
    {
      price := 0;
      result := Pending;
      warnings := 0;
    }

    /** The stored price, which on a valid dialog is one the OK button accepted (or the initial 0). */
    function GetPrice(): (p: int)
      reads this
      ensures Valid() ==> 0 <= p <= MaxPrice
    {
      price
    }

    /**
     * Accepts and stores a parsed price in 0..999; anything else shows a
     * warning and leaves the price and the dialog's state as they were.
     */
    method OnOkClicked(parsed: Option<int>)
      modifies this`price, this`result, this`warnings
      ensures Validate(parsed).Some? ==> price == parsed.value && result == Accepted && warnings == old(warnings)
      ensures Validate(parsed).None? ==> price == old(price) && result == old(result) && warnings == old(warnings) + 1
      ensures old(Valid()) ==> Valid()
    {
      if parsed.Some? && parsed.value >= 0 && parsed.value <= 999 {
        price := parsed.value;
        result := Accepted;
      } else {
        warnings := warnings + 1;
      }
    }

    /** Cancel rejects the dialog; the price is untouched. */
    method OnCancelClicked()
      modifies this`result
      ensures result == Rejected
    {
      result := Rejected;
    }
  }

  /**
   * A fresh dialog closed by OK: accepted exactly when the input is a price in
   * 0..999, and the price then read back is that input; otherwise it stays 0.
   */
  method OkOnFreshDialog(parsed: Option<int>) returns (accepted: bool, price: int)
    ensures accepted <==> parsed.Some? && IsValidPrice(parsed.value)
    ensures accepted ==> price == parsed.value
    ensures !accepted ==> price == 0
    ensures IsValidPrice(price)
  {
    var dialog := new SetPriceDialog();
    dialog.OnOkClicked(parsed);
    accepted := dialog.result == Accepted;
    price := dialog.GetPrice();
  }
}

/** Two pieces of the listings page script: the label of the price filter
    button, computed from the minimum and maximum inputs, and the "show
    taxes" switches, kept in step with each other and with the stored choice. */
module PriceLabel {
  import opened Wrappers
  import opened Text

  /** The button label and whether a price filter is set. */
  datatype Label = Label(has: bool, text: string)

  const Rupee: string := "\U{20B9}"
  const Infinity: string := "\U{221E}"

  /** `formatLabel(minVal, maxVal)`: "Price" when both trimmed inputs are
      empty, else the range with "0" and "∞" standing for a missing end. */
  function FormatLabel(minVal: Option<string>, maxVal: Option<string>): (r: Label)
    ensures r.has <==> Trim(minVal.GetOr("")) != "" || Trim(maxVal.GetOr("")) != ""
    ensures !r.has ==> r.text == "Price"
    ensures r.has ==>
      (r.text == Rupee + (if Trim(minVal.GetOr("")) != "" then Trim(minVal.GetOr("")) else "0") +
                 " - " + Rupee + (if Trim(maxVal.GetOr("")) != "" then Trim(maxVal.GetOr("")) else Infinity))
  {
    var min := Trim(minVal.GetOr(""));
    var max := Trim(maxVal.GetOr(""));
    var has := min != "" || max != "";
    if !has then Label(false, "Price")
    else
      var left := if min != "" then min else "0";
      var right := if max != "" then max else Infinity;
      Label(true, Rupee + left + " - " + Rupee + right)
  }

  /** A set filter's label reads like one whose missing minimum was typed
      in as "0". */
  lemma MissingMinShowsZero(maxVal: Option<string>)
    requires Trim(maxVal.GetOr("")) != ""
    ensures FormatLabel(None, maxVal) == FormatLabel(Some("0"), maxVal)
  {
    var zero := Trim("0");
    assert zero == "0" by { TrimmedFixed("0"); }
    var missing, typed := FormatLabel(None, maxVal), FormatLabel(Some("0"), maxVal);
    assert missing.has && typed.has;
    assert missing.text == typed.text;
  }

  /** A set filter's label reads like one whose missing maximum was typed
      in as "∞". */
  lemma MissingMaxShowsInfinity(minVal: Option<string>)
    requires Trim(minVal.GetOr("")) != ""
    ensures FormatLabel(minVal, None) == FormatLabel(minVal, Some(Infinity))
  {
    var inf := Trim(Infinity);
    assert inf == Infinity by { TrimmedFixed(Infinity); }
    var missing, typed := FormatLabel(minVal, None), FormatLabel(minVal, Some(Infinity));
    assert missing.has && typed.has;
    assert missing.text == typed.text;
  }

  /** Blank inputs, however padded, leave the button unset. */
  lemma BlankInputsUnset(minVal: string, maxVal: string)
    requires AllSpace(minVal) && AllSpace(maxVal)
    ensures FormatLabel(Some(minVal), Some(maxVal)) == Label(false, "Price")
  {
  }

  /** The value stored for a choice. */
  function Stored(on: bool): (s: string)
    ensures s == "1" || s == "0"
  {
    if on then "1" else "0"
  }

  /** The state the switches start in: on exactly when "1" was stored. */
  function Initial(saved: Option<string>): (on: bool)
    ensures on <==> saved == Some("1")
  {
    if saved == Some("1") then true else if saved == Some("0") then false else false
  }

  /** A stored choice comes back as it was made on the next page load. */
  lemma StoredChoiceRestored(on: bool)
    ensures Initial(Some(Stored(on))) == on
  {
  }

  /** The switches (`checked`), the tax notes (`true` = shown inline) and
      the stored choice. */
  class TaxToggles {
    const toggles: array<bool>
    const taxInfo: array<bool>
    var stored: Option<string>

    ghost predicate Valid()
      reads this
    {
      toggles != taxInfo
    }

    /** Every switch and every note shows `on`. */
    ghost predicate Shows(on: bool)
      reads this, toggles, taxInfo
    {
      (forall i :: 0 <= i < toggles.Length ==> toggles[i] == on) &&
      (forall i :: 0 <= i < taxInfo.Length ==> taxInfo[i] == on)
    }

    /** Page load with `toggleCount` switches and `infoCount` notes and the
        stored value `saved`. Without switches the script does nothing. */
    constructor (toggleCount: nat, infoCount: nat, saved: Option<string>)
      ensures Valid() && fresh(toggles) && fresh(taxInfo)
      ensures toggles.Length == toggleCount && taxInfo.Length == infoCount
      ensures stored == saved
      ensures toggleCount > 0 ==> Shows(Initial(saved))
    {
      toggles := new bool[toggleCount](_ => false);
      taxInfo := new bool[infoCount](_ => false);
      stored := saved;
      new;
      if toggleCount > 0 {
        Apply(Initial(saved));
      }
    }

    /** `apply(on)`: every note shown or hidden, every switch set. */
    method Apply(on: bool)
      requires Valid()
      modifies toggles, taxInfo
      ensures Shows(on)
    {
      for i := 0 to taxInfo.Length
        invariant forall k :: 0 <= k < i ==> taxInfo[k] == on
      {
        taxInfo[i] := on;
      }
      for i := 0 to toggles.Length
        invariant forall k :: 0 <= k < i ==> toggles[k] == on
        invariant forall k :: 0 <= k < taxInfo.Length ==> taxInfo[k] == on
      {
        if toggles[i] != on {
          toggles[i] := on;
        }
      }
    }

    /** The user flips switch `t` to `on`: the choice is stored and every
        switch and note follows it. */
    method Change(t: nat, on: bool)
      requires Valid() && t < toggles.Length
      modifies toggles, taxInfo, this`stored
      ensures stored == Some(Stored(on))
      ensures Shows(on)
      ensures Initial(stored) == on
    {
      toggles[t] := on;
      stored := Some(if toggles[t] then "1" else "0");
      Apply(toggles[t]);
      StoredChoiceRestored(on);
    }
  }
}

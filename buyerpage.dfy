/** The buyer form: seven text fields, the `loading`, `error` and `success`
    flags, `handleChange`, which formats the two price fields as they are
    typed, and `handleSubmit`, which saves the request with the commas
    removed from the four numeric fields. The outcome of the store's `addDoc`
    is a parameter. */
module BuyerPage {
  import opened JsText
  import opened NumberFormat
  import opened Records

  /** The `name` of an input of the form. */
  datatype Field = Brand | Model | MinYear | MaxYear | MinPrice | MaxPrice | Contact

  datatype FormData = FormData(
    brand: string,
    model: string,
    minYear: string,
    maxYear: string,
    minPrice: string,
    maxPrice: string,
    contact: string)

  const EmptyForm := FormData("", "", "", "", "", "", "")

  const SaveError := "Error al guardar la información. Por favor intenta de nuevo."

  function Get(d: FormData, f: Field): string {
    match f
    case Brand => d.brand
    case Model => d.model
    case MinYear => d.minYear
    case MaxYear => d.maxYear
    case MinPrice => d.minPrice
    case MaxPrice => d.maxPrice
    case Contact => d.contact
  }

  /** `{ ...prev, [name]: value }`: the named field takes the value and no
      other field changes. */
  function Put(d: FormData, f: Field, v: string): (e: FormData)
    ensures Get(e, f) == v
    ensures forall g :: g != f ==> Get(e, g) == Get(d, g)
  {
    match f
    case Brand => d.(brand := v)
    case Model => d.(model := v)
    case MinYear => d.(minYear := v)
    case MaxYear => d.(maxYear := v)
    case MinPrice => d.(minPrice := v)
    case MaxPrice => d.(maxPrice := v)
    case Contact => d.(contact := v)
  }

  predicate IsPriceField(f: Field) {
    f == MinPrice || f == MaxPrice
  }

  /** What `handleChange` stores for a typed value: `formatNumber(value)` in
      the two price fields, the value as typed anywhere else. */
  function Entered(f: Field, v: string): (stored: string)
    ensures IsPriceField(f) ==> ThousandsGrouped(stored) && StripCommas(stored) == Digits(v)
    ensures !IsPriceField(f) ==> stored == v
  {
    FormatNumberShape(v);
    if IsPriceField(f) then FormatNumber(v) else v
  }

  /** `dataToSave`: the form with every comma removed from the four numeric
      fields; brand, model and contact as they are. */
  function ToSave(d: FormData): (p: BuyerRequest)
    ensures p.brand == d.brand && p.model == d.model && p.contact == d.contact
    ensures ',' !in p.minYear && ',' !in p.maxYear && ',' !in p.minPrice && ',' !in p.maxPrice
    ensures ',' !in d.minYear ==> p.minYear == d.minYear
    ensures ',' !in d.maxYear ==> p.maxYear == d.maxYear
    ensures ',' !in d.minPrice ==> p.minPrice == d.minPrice
    ensures ',' !in d.maxPrice ==> p.maxPrice == d.maxPrice
  {
    StripCommasNoComma(d.minYear);
    StripCommasNoComma(d.maxYear);
    StripCommasNoComma(d.minPrice);
    StripCommasNoComma(d.maxPrice);
    BuyerRequest(d.brand, d.model, StripCommas(d.minYear), StripCommas(d.maxYear),
                 StripCommas(d.minPrice), StripCommas(d.maxPrice), d.contact)
  }

  /** A price typed through `handleChange` is saved as exactly its digits,
      and the notifier's `parseInt` reads it as the number they spell. */
  lemma PriceSavedAsDigits(d: FormData, f: Field, v: string)
    requires IsPriceField(f)
    ensures var saved := ToSave(Put(d, f, Entered(f, v)));
      var field := if f == MinPrice then saved.minPrice else saved.maxPrice;
      && field == Digits(v)
      && (Digits(v) != [] ==> ParseInt(field) == Some(DecimalValue(Digits(v))))
  {
    FormattedValueParses(v);
  }

  class BuyerForm {
    var formData: FormData
    var loading: bool
    var error: string
    var success: bool

    /** Between events the two price fields always hold formatted text. */
    ghost predicate Valid()
      reads this
    {
      Formatted(formData.minPrice) && Formatted(formData.maxPrice)
    }

    constructor ()
      ensures Valid()
      ensures formData == EmptyForm && !loading && error == "" && !success
    {
      formData := EmptyForm;
      loading, error, success := false, "", false;
      assert Digits("") == "";
    }

    /** `handleChange`: store the typed value in the named field only,
        formatted for the price fields. */
    method HandleChange(name: Field, value: string)
      requires Valid()
      modifies this
      ensures Valid()
      ensures formData == Put(old(formData), name, Entered(name, value))
      ensures loading == old(loading) && error == old(error) && success == old(success)
    {
      if name == MinPrice || name == MaxPrice {
        formData := Put(formData, name, FormatNumber(value));
        FormatNumberIdempotent(value);
      } else {
        formData := Put(formData, name, value);
      }
    }

    /** The steps of `handleSubmit` before `await addDoc`: `loading` on,
        `error` cleared, the payload built from the current fields. Because
        the price fields are formatted, the saved prices are plain digit
        strings, which is what the notifier's `parseInt` reads. */
    method StartSubmit() returns (payload: BuyerRequest)
      requires Valid()
      modifies this
      ensures Valid()
      ensures loading && error == ""
      ensures formData == old(formData) && success == old(success)
      ensures payload == ToSave(old(formData))
      ensures AllDigits(payload.minPrice) && AllDigits(payload.maxPrice)
    {
      loading := true;
      error := "";
      payload := ToSave(formData);
      FormattedFieldSavesDigits(formData.minPrice);
      FormattedFieldSavesDigits(formData.maxPrice);
    }

    /** The steps of `handleSubmit` after `await addDoc`, given whether it
        succeeded. While the save is pending only the submit button is
        disabled, so `HandleChange` may run between `StartSubmit` and this
        method: the state it acts on is the form as it is now, not as it was
        saved. On success the form is emptied and `success` set, `error`
        staying as `StartSubmit` cleared it; on failure
        `error` is set, the fields are kept and `success` is not cleared.
        `loading` ends false either way. */
    method FinishSubmit(saved: bool)
      requires Valid()
      modifies this
      ensures Valid()
      ensures !loading
      ensures saved ==> success && error == old(error) && formData == EmptyForm
      ensures !saved ==> error == SaveError && formData == old(formData) && success == old(success)
    {
      if saved {
        success := true;
        formData := EmptyForm;
        assert Digits("") == "";
      } else {
        error := SaveError;
      }
      loading := false;
    }

    /** `handleSubmit` with no input event while the save is pending. */
    method HandleSubmit(saved: bool) returns (payload: BuyerRequest)
      requires Valid()
      modifies this
      ensures Valid()
      ensures payload == ToSave(old(formData))
      ensures AllDigits(payload.minPrice) && AllDigits(payload.maxPrice)
      ensures !loading
      ensures saved ==> success && error == "" && formData == EmptyForm
      ensures !saved ==> error == SaveError && formData == old(formData) && success == old(success)
    {
      payload := StartSubmit();
      FinishSubmit(saved);
    }

    /** `handleSubmit` with one keystroke typed while the save is pending:
        the edit is not part of what is saved; a successful save discards
        it with the rest of the form, and a failed one keeps it. */
    method SubmitWithEdit(saved: bool, name: Field, value: string) returns (payload: BuyerRequest)
      requires Valid()
      modifies this
      ensures Valid()
      ensures payload == ToSave(old(formData))
      ensures !loading
      ensures saved ==> formData == EmptyForm
      ensures !saved ==> formData == Put(old(formData), name, Entered(name, value)) && error == SaveError
    {
      payload := StartSubmit();
      HandleChange(name, value);
      FinishSubmit(saved);
    }
  }
}

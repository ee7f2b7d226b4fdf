/** The seller form: six text fields (the image only as its file name), the
    `loading`, `error` and `success` flags and the image preview;
    `handleChange`, which formats the price as it is typed, and
    `handleSubmit`, which saves the listing with the commas removed from year
    and price, posts the same record to the notifier and treats a non-ok
    answer as an error. The outcomes of `addDoc` and of the call to the
    notifier are parameters. */
module SellerPage {
  import opened JsText
  import opened NumberFormat
  import opened Records

  /** The `name` of a text input of the form. The image name is not one:
      the file input sets it through `handleImageChange` (`ImageLoaded`). */
  datatype Field = Brand | Model | Year | Price | Contact

  datatype FormData = FormData(
    brand: string,
    model: string,
    year: string,
    price: string,
    contact: string,
    imageUrl: string)

  const EmptyForm := FormData("", "", "", "", "", "")

  const SaveError := "Error al guardar la información. Por favor intenta de nuevo."

  function Get(d: FormData, f: Field): string {
    match f
    case Brand => d.brand
    case Model => d.model
    case Year => d.year
    case Price => d.price
    case Contact => d.contact
  }

  /** `{ ...prev, [name]: value }`: the named field takes the value and no
      other field changes. */
  function Put(d: FormData, f: Field, v: string): (e: FormData)
    ensures Get(e, f) == v
    ensures forall g :: g != f ==> Get(e, g) == Get(d, g)
    ensures e.imageUrl == d.imageUrl
  {
    match f
    case Brand => d.(brand := v)
    case Model => d.(model := v)
    case Year => d.(year := v)
    case Price => d.(price := v)
    case Contact => d.(contact := v)
  }

  /** What `handleChange` stores for a typed value: `formatNumber(value)` in
      the price field, the value as typed anywhere else (the year included). */
  function Entered(f: Field, v: string): (stored: string)
    ensures f == Price ==> ThousandsGrouped(stored) && StripCommas(stored) == Digits(v)
    ensures f != Price ==> stored == v
  {
    FormatNumberShape(v);
    if f == Price then FormatNumber(v) else v
  }

  /** `dataToSave`: the form with every comma removed from year and price;
      brand, model, contact and image name as they are. */
  function ToSave(d: FormData): (p: Listing)
    ensures p.brand == d.brand && p.model == d.model && p.contact == d.contact && p.imageUrl == d.imageUrl
    ensures ',' !in p.year && ',' !in p.price
    ensures ',' !in d.year ==> p.year == d.year
    ensures ',' !in d.price ==> p.price == d.price
  {
    StripCommasNoComma(d.year);
    StripCommasNoComma(d.price);
    Listing(d.brand, d.model, StripCommas(d.year), StripCommas(d.price), d.contact, d.imageUrl)
  }

  /** A price typed through `handleChange` is saved and posted as exactly
      its digits, which the notifier's `parseInt` reads as the number they
      spell. */
  lemma PricePostedAsDigits(d: FormData, v: string)
    ensures ToSave(Put(d, Price, Entered(Price, v))).price == Digits(v)
    ensures Digits(v) != [] ==> ParseInt(ToSave(Put(d, Price, Entered(Price, v))).price) == Some(DecimalValue(Digits(v)))
  {
    FormattedValueParses(v);
  }

  class SellerForm {
    var formData: FormData
    var loading: bool
    var error: string
    var success: bool
    var imagePreview: Option<string>

    /** Between events the price field always holds formatted text. */
    ghost predicate Valid()
      reads this
    {
      Formatted(formData.price)
    }

    constructor ()
      ensures Valid()
      ensures formData == EmptyForm && !loading && error == "" && !success && imagePreview == None
    {
      formData := EmptyForm;
      loading, error, success := false, "", false;
      imagePreview := None;
      assert Digits("") == "";
    }

    /** `handleChange`: store the typed value in the named field only,
        formatted for the price. */
    method HandleChange(name: Field, value: string)
      requires Valid()
      modifies this
      ensures Valid()
      ensures formData == Put(old(formData), name, Entered(name, value))
      ensures loading == old(loading) && error == old(error) && success == old(success)
      ensures imagePreview == old(imagePreview)
    {
      if name == Price {
        formData := Put(formData, name, FormatNumber(value));
        FormatNumberIdempotent(value);
      } else {
        formData := Put(formData, name, value);
      }
    }

    /** The `onloadend` callback of `handleImageChange` once the chosen
        file has been read: the preview takes the data URL and the image
        name field the file's name; nothing else changes. */
    method ImageLoaded(fileName: string, dataUrl: string)
      requires Valid()
      modifies this
      ensures Valid()
      ensures imagePreview == Some(dataUrl)
      ensures formData == old(formData).(imageUrl := fileName)
      ensures loading == old(loading) && error == old(error) && success == old(success)
    {
      imagePreview := Some(dataUrl);
      formData := formData.(imageUrl := fileName);
    }

    /** The steps of `handleSubmit` before `await addDoc`: `loading` on,
        `error` cleared, `dataToSave` built from the current fields. Because
        the price field is formatted, the saved and posted price is a plain
        digit string, which is what the notifier's `parseInt` reads. */
    method StartSubmit() returns (payload: Listing)
      requires Valid()
      modifies this
      ensures Valid()
      ensures loading && error == ""
      ensures formData == old(formData) && success == old(success) && imagePreview == old(imagePreview)
      ensures payload == ToSave(old(formData))
      ensures AllDigits(payload.price)
    {
      loading := true;
      error := "";
      payload := ToSave(formData);
      FormattedFieldSavesDigits(formData.price);
    }

    /** The steps of `handleSubmit` after `await addDoc` and the call to the
        notifier, given whether each succeeded. The notifier is called only
        after a successful save, with `dataToSave` as built before the first
        await. While these are pending only the submit button is disabled,
        so `HandleChange` and `ImageLoaded` may run between `StartSubmit` and
        this method: the state it acts on is the form as it is now. Only
        when both succeed is the form emptied (image name and preview
        included) and `success` set; otherwise `error` is set and the fields,
        the preview and `success` are kept. `loading` ends false. */
    method FinishSubmit(payload: Listing, saved: bool, notified: bool) returns (posted: Option<Listing>)
      requires Valid()
      modifies this
      ensures Valid()
      ensures posted == if saved then Some(payload) else None
      ensures !loading
      ensures saved && notified ==>
        success && error == old(error) && formData == EmptyForm && imagePreview == None
      ensures !(saved && notified) ==>
        && error == SaveError && formData == old(formData)
        && success == old(success) && imagePreview == old(imagePreview)
    {
      posted := None;
      if saved {
        posted := Some(payload);
        if notified {
          success := true;
          formData := EmptyForm;
          imagePreview := None;
          assert Digits("") == "";
        } else {
          error := SaveError;
        }
      } else {
        error := SaveError;
      }
      loading := false;
    }

    /** `handleSubmit` with no input event while it is pending. */
    method HandleSubmit(saved: bool, notified: bool) returns (payload: Listing, posted: Option<Listing>)
      requires Valid()
      modifies this
      ensures Valid()
      ensures payload == ToSave(old(formData))
      ensures AllDigits(payload.price)
      ensures posted == if saved then Some(payload) else None
      ensures !loading
      ensures saved && notified ==>
        success && error == "" && formData == EmptyForm && imagePreview == None
      ensures !(saved && notified) ==>
        && error == SaveError && formData == old(formData)
        && success == old(success) && imagePreview == old(imagePreview)
    {
      payload := StartSubmit();
      posted := FinishSubmit(payload, saved, notified);
    }
  }
}

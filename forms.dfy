/**
 * The product-creation form: each submitted field is checked against its
 * declared constraints; the form is accepted with the cleaned values, or
 * refused with the errors of each failing field.
 */
module Forms {
  import opened Wrappers
  import opened Digits
  import Models
  import Text

  const NameMaxLength: nat := 100
  const DescriptionMaxLength: nat := 500
  const PriceMinValue: real := 1.0
  const PriceMaxDigits: nat := 10
  const PriceDecimalPlaces: nat := 2
  /** Digits allowed before the point: max_digits minus decimal_places. */
  const PriceMaxWholeDigits: nat := PriceMaxDigits - PriceDecimalPlaces

  /**
   * A decimal as written: unscaled * 10^-scale, where scale counts the
   * digits written after the point (trailing zeros included).
   */
  datatype Decimal = Decimal(unscaled: int, scale: nat)

  /**
   * An uploaded file: its name, its size in bytes, whether it decodes as an
   * image, and whether its name's extension, lower-cased, is one the image
   * library registers.
   */
  datatype Upload = Upload(fileName: string, size: nat, isImage: bool, hasImageExtension: bool)

  /** The submitted fields, as read from the request. */
  datatype Payload = Payload(
    name: Option<string>,
    category: Arg<int>,
    price: Arg<Decimal>,
    created: Arg<int>,
    available: Option<string>,
    image: Option<Upload>,
    description: Option<string>)

  datatype Field = NameField | CategoryField | PriceField | CreatedField | AvailableField | ImageField | DescriptionField

  const AllFields: set<Field> :=
    {NameField, CategoryField, PriceField, CreatedField, AvailableField, ImageField, DescriptionField}

  datatype FieldError =
    | Required
    | MaxLength(limit: nat)
    | InvalidChoice
    | InvalidNumber
    | MinValue(bound: real)
    | MaxDigits(limit: nat)
    | MaxDecimalPlaces(limit: nat)
    | MaxWholeDigits(limit: nat)
    | InvalidDateTime
    | InvalidFile
    | EmptyFile
    | InvalidImage
    | InvalidExtension

  /** The values of an accepted form. */
  datatype Cleaned = Cleaned(
    name: string,
    category: int,
    price: Decimal,
    created: int,
    available: bool,
    image: Upload,
    description: string)

  function Value(d: Decimal): real
  {
    d.unscaled as real / Pow10(d.scale) as real
  }

  /** Digits the decimal is written with, leading zeros after the point included. */
  function DigitCount(d: Decimal): nat
  {
    var n := NumDigits(Abs(d.unscaled));
    if n < d.scale then d.scale else n
  }

  /** The decimal-places check: at most one of its three errors is reported. */
  function DecimalErrors(d: Decimal): (r: seq<FieldError>)
    ensures |r| <= 1
  {
    if DigitCount(d) > PriceMaxDigits then [MaxDigits(PriceMaxDigits)]
    else if d.scale > PriceDecimalPlaces then [MaxDecimalPlaces(PriceDecimalPlaces)]
    else if DigitCount(d) - d.scale > PriceMaxWholeDigits then [MaxWholeDigits(PriceMaxWholeDigits)]
    else []
  }

  /** The price field's constraint in terms of the number: at least 1, two places at most, below 10^8. */
  predicate PriceAcceptable(d: Decimal)
  {
    && Value(d) >= PriceMinValue
    && d.scale <= PriceDecimalPlaces
    && Abs(d.unscaled) < Pow10(PriceMaxWholeDigits + d.scale)
  }

  /** The digit checks pass exactly for two places at most and fewer than 8 whole digits. */
  lemma DecimalErrorsIff(d: Decimal)
    ensures DecimalErrors(d) == [] <==>
            d.scale <= PriceDecimalPlaces && Abs(d.unscaled) < Pow10(PriceMaxWholeDigits + d.scale)
  {
    NumDigitsBound(Abs(d.unscaled), PriceMaxWholeDigits + d.scale);
  }

  /**
   * A checkbox's submitted text read as a boolean: absent, empty and "false"
   * in any case are false; any other text, "0" included, is true.
   */
  function CheckboxValue(raw: Option<string>): bool
  {
    raw.Some? && raw.value != "" && Text.LowerAll(raw.value) != "false"
  }

  function NameErrors(name: Option<string>): seq<FieldError>
  {
    if name.None? || name.value == "" then [Required]
    else if |name.value| > NameMaxLength then [MaxLength(NameMaxLength)]
    else []
  }

  function CategoryErrors(category: Arg<int>, categories: seq<Models.Category>): seq<FieldError>
  {
    match category
    case Missing => [Required]
    case Blank => [Required]
    case Malformed => [InvalidChoice]
    case Given(id) => if Models.HasCategory(categories, id) then [] else [InvalidChoice]
  }

  /** The minimum-value check and the decimal-places check both run and both report. */
  function PriceErrors(price: Arg<Decimal>): seq<FieldError>
  {
    match price
    case Missing => [Required]
    case Blank => [Required]
    case Malformed => [InvalidNumber]
    case Given(d) => (if Value(d) < PriceMinValue then [MinValue(PriceMinValue)] else []) + DecimalErrors(d)
  }

  function CreatedErrors(created: Arg<int>): seq<FieldError>
  {
    match created
    case Missing => [Required]
    case Blank => [Required]
    case Malformed => [InvalidDateTime]
    case Given(_) => []
  }

  /** A required boolean field refuses false, so only a ticked box passes. */
  function AvailableErrors(available: Option<string>): seq<FieldError>
  {
    if CheckboxValue(available) then [] else [Required]
  }

  /** The upload checks run first; the extension validator only runs on a decoded image. */
  function ImageErrors(image: Option<Upload>): seq<FieldError>
  {
    match image
    case None => [Required]
    case Some(u) =>
      if u.fileName == "" then [InvalidFile]
      else if u.size == 0 then [EmptyFile]
      else if !u.isImage then [InvalidImage]
      else if !u.hasImageExtension then [InvalidExtension]
      else []
  }

  function DescriptionErrors(description: Option<string>): seq<FieldError>
  {
    if description.Some? && |description.value| > DescriptionMaxLength then [MaxLength(DescriptionMaxLength)]
    else []
  }

  function FieldErrors(p: Payload, categories: seq<Models.Category>, f: Field): seq<FieldError>
  {
    match f
    case NameField => NameErrors(p.name)
    case CategoryField => CategoryErrors(p.category, categories)
    case PriceField => PriceErrors(p.price)
    case CreatedField => CreatedErrors(p.created)
    case AvailableField => AvailableErrors(p.available)
    case ImageField => ImageErrors(p.image)
    case DescriptionField => DescriptionErrors(p.description)
  }

  /** Each field's constraint, stated positively. */
  predicate FieldAcceptable(p: Payload, categories: seq<Models.Category>, f: Field)
  {
    match f
    case NameField => p.name.Some? && 1 <= |p.name.value| <= NameMaxLength
    case CategoryField => p.category.Given? && Models.HasCategory(categories, p.category.value)
    case PriceField => p.price.Given? && PriceAcceptable(p.price.value)
    case CreatedField => p.created.Given?
    case AvailableField => CheckboxValue(p.available)
    case ImageField =>
      && p.image.Some? && p.image.value.fileName != "" && p.image.value.size > 0
      && p.image.value.isImage && p.image.value.hasImageExtension
    case DescriptionField => p.description.None? || |p.description.value| <= DescriptionMaxLength
  }

  lemma AllFieldsListed()
    ensures forall f :: f in AllFields
  {
    forall f: Field ensures f in AllFields {
      match f
      case NameField =>
      case CategoryField =>
      case PriceField =>
      case CreatedField =>
      case AvailableField =>
      case ImageField =>
      case DescriptionField =>
    }
  }

  /** A field reports no error exactly when its constraint holds. */
  lemma FieldErrorsIff(p: Payload, categories: seq<Models.Category>)
    ensures forall f :: FieldErrors(p, categories, f) == [] <==> FieldAcceptable(p, categories, f)
  {
    if p.price.Given? {
      DecimalErrorsIff(p.price.value);
    }
  }

  /**
   * Validate a creation payload against the existing categories: accepted
   * exactly when every field's constraint holds, with the submitted values;
   * otherwise refused with the errors of exactly the failing fields.
   */
  function Validate(p: Payload, categories: seq<Models.Category>): (r: Result<Cleaned, map<Field, seq<FieldError>>>)
    ensures r.Success? <==> forall f :: FieldAcceptable(p, categories, f)
    ensures r.Failure? ==> forall f :: f in r.error <==> !FieldAcceptable(p, categories, f)
    ensures r.Failure? ==> forall f :: f in r.error ==> r.error[f] == FieldErrors(p, categories, f) != []
    ensures r.Success? ==>
      && Some(r.value.name) == p.name
      && Given(r.value.category) == p.category
      && Given(r.value.price) == p.price
      && Given(r.value.created) == p.created
      && r.value.available
      && Some(r.value.image) == p.image
      && r.value.description == p.description.GetOr("")
  {
    FieldErrorsIff(p, categories);
    var errors := map f | f in AllFields && FieldErrors(p, categories, f) != [] :: FieldErrors(p, categories, f);
    AllFieldsListed();
    if errors == map[] then
      assert forall f :: FieldErrors(p, categories, f) == [] by {
        forall f ensures FieldErrors(p, categories, f) == [] {
          assert f !in errors;
        }
      }
      assert FieldAcceptable(p, categories, NameField) && FieldAcceptable(p, categories, CategoryField);
      assert FieldAcceptable(p, categories, PriceField) && FieldAcceptable(p, categories, CreatedField);
      assert FieldAcceptable(p, categories, ImageField) && FieldAcceptable(p, categories, AvailableField);
      Success(Cleaned(p.name.value, p.category.value, p.price.value, p.created.value,
                      CheckboxValue(p.available), p.image.value, p.description.GetOr("")))
    else
      Failure(errors)
  }

  /** The accepted price in cents, as the two-place decimal column stores it. */
  function Cents(d: Decimal): int
    requires d.scale <= PriceDecimalPlaces
  {
    d.unscaled * Pow10(PriceDecimalPlaces - d.scale)
  }

  /** An accepted price is representable in the product's price column, and at least 1.00. */
  lemma AcceptedPriceFitsModel(d: Decimal)
    requires PriceAcceptable(d)
    ensures Models.ValidPrice(Cents(d))
    ensures Cents(d) >= 100
    ensures Cents(d) as real / 100.0 == Value(d)
  {

  }

  /** The product row an accepted form creates: the cleaned values plus the model's rating defaults. */
  function ToProduct(c: Cleaned, id: int): (r: Models.Product)
    requires c.price.scale <= PriceDecimalPlaces
    ensures r.id == id && r.category == c.category && r.name == c.name && r.created == c.created
    ensures r.priceCents as real / 100.0 == Value(c.price)
    ensures r.available == c.available && r.description == c.description
    ensures r.image == Some(c.image.fileName)
    ensures r.averageRating == Models.DefaultAverageRating && r.ratingVotes == Models.DefaultRatingVotes
  {
    Models.NewProduct(id, c.category, c.name, Cents(c.price), c.created, c.description, Some(c.image.fileName))
      .(available := c.available)
  }

  /**
   * What the form accepts is a valid product row, and a stricter one than
   * the model demands: available is true and an image is present.
   */
  lemma AcceptedPayloadMakesValidProduct(p: Payload, categories: seq<Models.Category>, id: int)
    requires Validate(p, categories).Success?
    ensures var c := Validate(p, categories).value;
            && c.price.scale <= PriceDecimalPlaces
            && Models.ValidProduct(ToProduct(c, id), categories)
            && ToProduct(c, id).priceCents >= 100
            && ToProduct(c, id).available
            && ToProduct(c, id).image.Some?
            && ToProduct(c, id).ratingVotes == 0
  {
    var c := Validate(p, categories).value;
    assert FieldAcceptable(p, categories, NameField);
    assert FieldAcceptable(p, categories, CategoryField);
    assert FieldAcceptable(p, categories, PriceField);
    AcceptedPriceFitsModel(c.price);
  }

  /** Examples of the price field: 1.005 has too many places, 0.50 is below the minimum, 10^8 has 9 whole digits. */
  lemma PriceErrorExamples()
    ensures PriceErrors(Given(Decimal(1005, 3))) == [MaxDecimalPlaces(2)]
    ensures PriceErrors(Given(Decimal(50, 2))) == [MinValue(1.0)]
    ensures PriceErrors(Given(Decimal(100000000, 0))) == [MaxWholeDigits(8)]
    ensures PriceErrors(Given(Decimal(199, 2))) == []
  {
    assert NumDigits(1005) == 4;
    assert NumDigits(50) == 2;
    assert NumDigits(100000000) == 9;
    assert NumDigits(199) == 3;
  }

  /** An unticked box, an empty text or "False" in any case make the available field fail; "on" and "0" pass. */
  lemma AvailableExamples()
    ensures AvailableErrors(None) == [Required]
    ensures AvailableErrors(Some("")) == [Required]
    ensures AvailableErrors(Some("False")) == [Required]
    ensures AvailableErrors(Some("FALSE")) == [Required]
    ensures AvailableErrors(Some("on")) == []
    ensures AvailableErrors(Some("0")) == []
  {
    assert Text.LowerAll("False") == "false";
    assert Text.LowerAll("FALSE") == "false";
    assert Text.LowerAll("on") == "on";
    assert Text.LowerAll("0") == "0";
  }
}

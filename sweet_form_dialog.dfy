/** The create/edit dialog for a sweet: the values the form holds, the
    values it is reset to when it opens, and `sweetSchema`, which either
    turns the values into a `CreateSweetDto` or names the fields that fail. */
module SweetFormDialog {
  import opened Types
  import opened Strings
  import opened FormInput
  import Seqs

  datatype FormValues = FormValues(
    name: string,
    category: string,
    price: FieldValue,
    quantity: FieldValue,
    description: Option<string>,
    imageUrl: Option<string>)

  datatype FieldName = NameField | CategoryField | PriceField | QuantityField | DescriptionField | ImageUrlField

  datatype FormOutcome = Accepted(dto: CreateSweetDto) | Rejected(errors: seq<FieldName>)

  /** The values of a blank form. */
  const DefaultValues: FormValues := FormValues("", "", Num(1), Num(0), None, None)

  // The six field rules of `sweetSchema`. `urlParses` stands for the URL
  // check of the schema library. Lengths are counted as the schema library
  // counts them, in UTF-16 code units.

  predicate NameOk(v: FormValues) { Utf16Length(v.name) >= 3 }

  predicate CategoryOk(v: FormValues) { |v.category| >= 1 }

  predicate PriceOk(v: FormValues) { AtLeast(v.price, 1) }

  predicate QuantityOk(v: FormValues) { AtLeast(v.quantity, 0) }

  predicate DescriptionOk(v: FormValues)
  {
    v.description.None? || Utf16Length(v.description.value) >= 10
  }

  predicate ImageUrlOk(v: FormValues, urlParses: string -> bool)
  {
    v.imageUrl.None? || urlParses(v.imageUrl.value) || StartsWith(v.imageUrl.value, "blob:")
  }

  /** Whether one field passes its rule. */
  predicate FieldOk(v: FormValues, f: FieldName, urlParses: string -> bool)
  {
    match f
    case NameField => NameOk(v)
    case CategoryField => CategoryOk(v)
    case PriceField => PriceOk(v)
    case QuantityField => QuantityOk(v)
    case DescriptionField => DescriptionOk(v)
    case ImageUrlField => ImageUrlOk(v, urlParses)
  }

  /** The six fields in form order. */
  const AllFields: seq<FieldName> :=
    [NameField, CategoryField, PriceField, QuantityField, DescriptionField, ImageUrlField]

  lemma EveryFieldListed()
    ensures forall f :: f in AllFields
  {
    forall f ensures f in AllFields {
      match f
      case NameField => assert AllFields[0] == f;
      case CategoryField => assert AllFields[1] == f;
      case PriceField => assert AllFields[2] == f;
      case QuantityField => assert AllFields[3] == f;
      case DescriptionField => assert AllFields[4] == f;
      case ImageUrlField => assert AllFields[5] == f;
    }
  }

  /** The filter that keeps the fields failing their rule. */
  function Failing(v: FormValues, urlParses: string -> bool): FieldName -> bool
  {
    (f: FieldName) => !FieldOk(v, f, urlParses)
  }

  /** The fields whose rule fails, in form order. */
  function Errors(v: FormValues, urlParses: string -> bool): (r: seq<FieldName>)
    ensures forall f :: f in r <==> !FieldOk(v, f, urlParses)
    ensures Seqs.IsSubsequence(r, AllFields)
  {
    EveryFieldListed();
    Seqs.Filter(AllFields, Failing(v, urlParses))
  }

  /** `sweetSchema` applied on submit: the dto of the coerced values when
      every rule passes, otherwise the failing fields. */
  function Validate(v: FormValues, urlParses: string -> bool): (r: FormOutcome)
    ensures r.Accepted? <==> forall f :: FieldOk(v, f, urlParses)
    ensures r.Accepted? ==>
      && Utf16Length(r.dto.name) >= 3 && r.dto.category != ""
      && r.dto.price >= 1 && r.dto.quantity >= 0
      && Some(r.dto.price) == ToNumber(v.price) && Some(r.dto.quantity) == ToNumber(v.quantity)
      && r.dto.name == v.name && r.dto.category == v.category
      && r.dto.description == v.description && r.dto.imageUrl == v.imageUrl
      && (r.dto.description.Some? ==> Utf16Length(r.dto.description.value) >= 10)
    ensures r.Rejected? ==> |r.errors| >= 1 && forall f :: f in r.errors <==> !FieldOk(v, f, urlParses)
  {
    var errors := Errors(v, urlParses);
    if errors == [] then
      Accepted(CreateSweetDto(v.name, v.category, ToNumber(v.price).value, ToNumber(v.quantity).value,
                              v.description, v.imageUrl))
    else
      assert errors[0] in errors;
      Rejected(errors)
  }

  /** The form values showing a sweet. */
  function ValuesOf(s: Sweet): FormValues
  {
    FormValues(s.name, s.category, Num(s.price), Num(s.quantity), s.description, s.imageUrl)
  }

  /** The values the form is reset to when the dialog opens: the sweet being
      edited, or the blank defaults when a new one is created. */
  function OpenValues(sweet: Option<Sweet>): (r: FormValues)
    ensures sweet.None? ==> r == DefaultValues
    ensures sweet.Some? ==> r == ValuesOf(sweet.value)
  {
    match sweet
    case None => DefaultValues
    case Some(s) => ValuesOf(s)
  }

  /** A blank form cannot be submitted: the name and category are empty. */
  lemma BlankFormRejected(urlParses: string -> bool)
    ensures Validate(OpenValues(None), urlParses).Rejected?
    ensures forall f :: f in Validate(OpenValues(None), urlParses).errors <==> f == NameField || f == CategoryField
  {
    var v := OpenValues(None);
    assert v == DefaultValues;
    forall f ensures !FieldOk(v, f, urlParses) <==> f == NameField || f == CategoryField {
      match f
      case NameField =>
      case CategoryField =>
      case PriceField => assert ToNumber(v.price) == Some(1);
      case QuantityField => assert ToNumber(v.quantity) == Some(0);
      case DescriptionField =>
      case ImageUrlField =>
    }
    assert !FieldOk(v, NameField, urlParses);
  }

  /** Opening the dialog on a sweet that meets the rules and saving without
      changes gives back that sweet's own fields. */
  lemma EditUnchangedRoundTrip(s: Sweet, urlParses: string -> bool)
    requires Utf16Length(s.name) >= 3 && s.category != "" && s.price >= 1 && s.quantity >= 0
    requires s.description.None? || Utf16Length(s.description.value) >= 10
    requires s.imageUrl.None? || urlParses(s.imageUrl.value) || StartsWith(s.imageUrl.value, "blob:")
    ensures Validate(OpenValues(Some(s)), urlParses)
      == Accepted(CreateSweetDto(s.name, s.category, s.price, s.quantity, s.description, s.imageUrl))
  {
    var v := OpenValues(Some(s));
    assert forall f :: FieldOk(v, f, urlParses);
  }

  /** Two cake and chocolate emoji are two characters but four UTF-16 code
      units, so they make a name long enough; a two-letter name does not. */
  lemma AstralCharactersCountTwice(v: FormValues)
    ensures NameOk(v.(name := "\U{1F370}\U{1F36B}"))
    ensures !NameOk(v.(name := "ab"))
  {
    var e := "\U{1F370}\U{1F36B}";
    assert e[..1][..0] == [] && e[..1] == ['\U{1F370}'];
    assert Utf16Length(e[..1]) == 2;
  }

  /** The remove-image button. */
  function WithoutImage(v: FormValues): (r: FormValues)
    ensures r.imageUrl.None?
  {
    v.(imageUrl := None)
  }

  /** An uploaded file is shown through an object URL, which starts with "blob:". */
  function WithUploadedImage(v: FormValues, objectUrl: string): (r: FormValues)
    requires StartsWith(objectUrl, "blob:")
    ensures r.imageUrl == Some(objectUrl)
  {
    v.(imageUrl := Some(objectUrl))
  }

  /** Removing or uploading an image always satisfies the image rule and
      leaves every other field's verdict as it was. */
  lemma ImageChangesOnlyAffectImageRule(v: FormValues, objectUrl: string, urlParses: string -> bool)
    requires StartsWith(objectUrl, "blob:")
    ensures forall f :: f in Errors(WithoutImage(v), urlParses) <==> f in Errors(v, urlParses) && f != ImageUrlField
    ensures forall f ::
      f in Errors(WithUploadedImage(v, objectUrl), urlParses) <==> f in Errors(v, urlParses) && f != ImageUrlField
  {
    forall f ensures FieldOk(WithoutImage(v), f, urlParses) <==> FieldOk(v, f, urlParses) || f == ImageUrlField {
    }
    forall f
      ensures FieldOk(WithUploadedImage(v, objectUrl), f, urlParses) <==> FieldOk(v, f, urlParses) || f == ImageUrlField
    {
    }
  }

  /** Clearing the quantity box reads as 0 and is accepted; clearing the
      price box reads as 0 and is refused. */
  lemma ClearedNumberBoxes(v: FormValues, urlParses: string -> bool)
    ensures QuantityOk(v.(quantity := Text("")))
    ensures !PriceOk(v.(price := Text("")))
  {
  }
}

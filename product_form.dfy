/**
 * The product creation form: four text fields, one selected image file and
 * a loading flag, updated in place by the form's handlers.  Submitting asks
 * the local image helper for a path, builds the product record and hands it
 * to the product store, whose answer is a parameter.
 */
module ProductForm {
  import opened Wrappers
  import opened Browser
  import opened JsText
  import opened ImageUpload

  /** The four text fields, as typed. */
  datatype FormData = FormData(category: string, name: string, price: string, cost: string)

  const EmptyForm := FormData("", "", "", "")

  /** The `name` attribute of each text input. */
  datatype Field = CategoryField | NameField | PriceField | CostField

  function Get(form: FormData, field: Field): string {
    match field
    case CategoryField => form.category
    case NameField => form.name
    case PriceField => form.price
    case CostField => form.cost
  }

  /** `{...formData, [name]: value}`: only the named field changes. */
  function SetField(form: FormData, field: Field, value: string): (r: FormData)
    ensures Get(r, field) == value
    ensures forall other: Field :: other != field ==> Get(r, other) == Get(form, other)
  {
    match field
    case CategoryField => form.(category := value)
    case NameField => form.(name := value)
    case PriceField => form.(price := value)
    case CostField => form.(cost := value)
  }

  /** What `parseFloat` gives: a number (in cents) or NaN. The parser itself is a parameter. */
  datatype ParsedNumber = Number(cents: int) | NotANumber

  /** The record handed to the product store. */
  datatype ProductRecord = ProductRecord(
    category: string, subCategory: string, name: string,
    price: ParsedNumber, cost: ParsedNumber, img: string)

  /** The record built from the form and the image helper's answer. */
  function BuildRecord(form: FormData, image: ImageInfo, parse: string -> ParsedNumber): (r: ProductRecord)
    ensures r.category == form.category && r.subCategory == form.category && r.name == form.name
    ensures r.price == parse(form.price) && r.cost == parse(form.cost)
    ensures r.img == image.path
  {
    ProductRecord(form.category, form.category, form.name, parse(form.price), parse(form.cost), image.path)
  }

  const SuccessHeading := "Producto creado exitosamente!\n\n"
  const FailureAlert := "Error al crear el producto."

  /**
   * Everything one completed submission decides: `cleared` says whether the
   * form is reset, and `form` and `file` are what the form then holds when
   * nothing was typed or selected while the submission was pending.
   */
  datatype SubmitResult = SubmitResult(
    request: Option<ProductRecord>,  // the record sent to the store, if one was sent
    cleared: bool, form: FormData, file: Option<File>,
    notified: bool, alert: string)

  /** A submission of `form` with `file` selected, the clock at `timestamp` and the store answering `create`. */
  function Submit(form: FormData, file: Option<File>, hasCallback: bool, timestamp: nat,
                  parse: string -> ParsedNumber, create: Outcome): (r: SubmitResult)
    ensures r.request.Some? <==> file.Some?
    ensures r.cleared <==> file.Some? && create.Succeeded?
    ensures r.request.Some? ==> r.request.value == BuildRecord(form, UploadImage(file, timestamp).value, parse)
    ensures file.Some? && create.Succeeded? ==>
      r == SubmitResult(r.request, true, EmptyForm, None, hasCallback,
                        SuccessHeading + UploadImage(file, timestamp).value.message)
    ensures file.None? || create.Failed? ==> r == SubmitResult(r.request, false, form, file, false, FailureAlert)
  {
    match UploadImage(file, timestamp)
    case Err(_) => SubmitResult(None, false, form, file, false, FailureAlert)
    case Ok(image) =>
      var record := BuildRecord(form, image, parse);
      if create.Succeeded? then SubmitResult(Some(record), true, EmptyForm, None, hasCallback, SuccessHeading + image.message)
      else SubmitResult(Some(record), false, form, file, false, FailureAlert)
  }

  /** The record that reaches the store points at the image's public path, built from the clock and the cleaned file name. */
  lemma RecordPointsAtImage(form: FormData, file: File, hasCallback: bool, timestamp: nat,
                            parse: string -> ParsedNumber, create: Outcome)
    ensures var r := Submit(form, Some(file), hasCallback, timestamp, parse, create).request;
      && r.Some?
      && r.value.subCategory == r.value.category == form.category
      && r.value.img == ImagesDir + FileName(timestamp, file.name)
      && r.value.img[|ImagesDir|..] == FileName(timestamp, file.name)
      && NoWhitespace(r.value.img[|ImagesDir|..])
  {
    var fileName := FileName(timestamp, file.name);
    assert (ImagesDir + fileName)[|ImagesDir|..] == fileName;
    FileNameHasNoWhitespace(timestamp, file.name);
  }

  /** Without a selected file nothing is sent to the store and the form keeps what was typed. */
  lemma NoFileNothingSent(form: FormData, hasCallback: bool, timestamp: nat,
                          parse: string -> ParsedNumber, create: Outcome)
    ensures Submit(form, None, hasCallback, timestamp, parse, create) == SubmitResult(None, false, form, None, false, FailureAlert)
  {
  }

  /**
   * After a successful submission the selected file is cleared, so submitting
   * again without choosing a new file fails and sends nothing, even once the
   * text fields are filled in again.
   */
  lemma ResubmitNeedsNewFile(form: FormData, file: File, hasCallback: bool, t1: nat, t2: nat,
                             parse: string -> ParsedNumber, again: FormData, create: Outcome)
    ensures var first := Submit(form, Some(file), hasCallback, t1, parse, Succeeded);
      var second := Submit(again, first.file, hasCallback, t2, parse, create);
      && first.request.Some? && first.form == EmptyForm
      && second.request.None? && second.alert == FailureAlert && second.form == again
  {
  }

  /**
   * The form component's state: `formData`, `imageFile` and `loading`, and
   * the values of the first two that the running submission's handler
   * captured when the form was submitted.
   */
  class Form {
    var formData: FormData
    var imageFile: Option<File>
    var loading: bool
    var pendingForm: FormData
    var pendingFile: Option<File>
    /** Whether the parent passed `onProductCreated`. */
    const hasCallback: bool

    constructor(hasCallback: bool)
      ensures formData == EmptyForm && imageFile == None && !loading && SubmitEnabled()
      ensures pendingForm == EmptyForm && pendingFile == None
      ensures this.hasCallback == hasCallback
    {
      formData := EmptyForm;
      imageFile := None;
      loading := false;
      pendingForm := EmptyForm;
      pendingFile := None;
      this.hasCallback := hasCallback;
    }

    /** The submit button is enabled only while no submission is running. */
    predicate SubmitEnabled()
      reads this
    {
      !loading
    }

    /** `handleChange`: one text input changed. */
    method HandleChange(field: Field, value: string)
      modifies this`formData
      ensures formData == SetField(old(formData), field, value)
    {
      formData := SetField(formData, field, value);
    }

    /** `handleImageChange`: a new selection replaces the file; an empty selection keeps the old one. */
    method HandleImageChange(selected: Option<File>)
      modifies this`imageFile
      ensures selected.Some? ==> imageFile == selected
      ensures selected.None? ==> imageFile == old(imageFile)
    {
      if selected.Some? {
        imageFile := selected;
      }
    }

    /**
     * The first half of `handleSubmit`: the flag goes up, the button is
     * disabled, and the handler holds the form and the file as they are now.
     */
    method StartSubmit()
      modifies this`loading, this`pendingForm, this`pendingFile
      ensures loading && !SubmitEnabled()
      ensures pendingForm == formData && pendingFile == imageFile
    {
      loading := true;
      pendingForm := formData;
      pendingFile := imageFile;
    }

    /**
     * The rest of `handleSubmit`, after the image helper and the store have
     * answered: the record, the alert and the notification are those of
     * `Submit` on the values captured when the form was submitted; a success
     * resets the form, a failure leaves whatever it holds now (including
     * anything typed or selected meanwhile), and the flag comes down on
     * every path.
     */
    method FinishSubmit(timestamp: nat, parse: string -> ParsedNumber, create: Outcome)
      returns (request: Option<ProductRecord>, notified: bool, alert: string)
      modifies this`formData, this`imageFile, this`loading
      ensures var r := Submit(old(pendingForm), old(pendingFile), hasCallback, timestamp, parse, create);
        && request == r.request && notified == r.notified && alert == r.alert
        && (r.cleared ==> formData == EmptyForm && imageFile == None)
        && (!r.cleared ==> formData == old(formData) && imageFile == old(imageFile))
      ensures !loading && SubmitEnabled()
    {
      request, notified, alert := None, false, FailureAlert;
      var upload := UploadImage(pendingFile, timestamp);
      if upload.Ok? {
        var record := BuildRecord(pendingForm, upload.value, parse);
        request := Some(record);
        if create.Succeeded? {
          alert := SuccessHeading + upload.value.message;
          formData := EmptyForm;
          imageFile := None;
          notified := hasCallback;
        }
      }
      loading := false;
    }
  }
}

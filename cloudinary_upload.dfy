/**
 * The Cloudinary upload service: a chain of client-side guards in front of
 * one unsigned upload request, and the mapping of the host's answer into
 * the image record the application keeps.  The host is not modelled: the
 * answer it would give is a parameter, and the model records whether the
 * request was sent at all.
 */
module CloudinaryUpload {
  import opened Wrappers
  import opened Browser

  /** The three build-time settings; `None` is an unset variable. */
  datatype Settings = Settings(cloudName: Option<string>, uploadPreset: Option<string>, baseUrl: Option<string>)

  /** The request that would be posted: its address and its form fields. */
  datatype UploadRequest = UploadRequest(url: string, file: File, uploadPreset: string, folder: string)

  /** The JSON body of a successful answer, with the fields the service reads. */
  datatype UploadedData = UploadedData(secureUrl: string, publicId: string, width: int, height: int, format: string)

  /** The host's answer: its `ok` flag, its text body and, when ok, its parsed body. */
  datatype Response = Response(ok: bool, text: string, data: UploadedData)

  /** What the service returns to its caller. */
  datatype UploadedImage = UploadedImage(url: string, publicId: string, width: int, height: int, format: string)

  /** One call of the service: the request it sent, if any, and its result. */
  datatype Attempt = Attempt(sent: Option<UploadRequest>, result: Result<UploadedImage>)

  const MaxBytes: nat := 2 * 1024 * 1024
  const DefaultBaseUrl := "https://api.cloudinary.com/v1_1"
  const Folder := "products"
  const ImageMimePrefix := "image/"

  /** JavaScript truthiness of an optional string: set and not empty. */
  predicate Truthy(v: Option<string>) {
    v.Some? && v.value != ""
  }

  /** `VITE_CLOUDINARY_BASE_URL || default`. */
  function BaseUrl(settings: Settings): (r: string)
    ensures Truthy(settings.baseUrl) ==> r == settings.baseUrl.value
    ensures !Truthy(settings.baseUrl) ==> r == DefaultBaseUrl
  {
    if Truthy(settings.baseUrl) then settings.baseUrl.value else DefaultBaseUrl
  }

  /** `/^image\//.test(type)`: the MIME type starts with "image/". */
  predicate IsImageType(mimeType: string) {
    ImageMimePrefix <= mimeType
  }

  /** The guard chain, in the order the service runs it, ending in the request it would post. */
  function Validate(file: Option<File>, settings: Settings): (r: Result<UploadRequest>)
    ensures r.Ok? <==>
      && file.Some?
      && Truthy(settings.cloudName) && Truthy(settings.uploadPreset)
      && file.value.size <= MaxBytes
      && IsImageType(file.value.mimeType)
    ensures r.Ok? ==> r.value == UploadRequest(
      BaseUrl(settings) + "/" + settings.cloudName.value + "/image/upload",
      file.value, settings.uploadPreset.value, Folder)
  {
    if file.None? then Err("No file provided")
    else if !Truthy(settings.cloudName) || !Truthy(settings.uploadPreset) then Err("Missing Cloudinary configuration")
    else if file.value.size > MaxBytes then Err("File too large (max 2MB)")
    else if !IsImageType(file.value.mimeType) then Err("Invalid file type")
    else
      var url := BaseUrl(settings) + "/" + settings.cloudName.value + "/image/upload";
      Ok(UploadRequest(url, file.value, settings.uploadPreset.value, Folder))
  }

  /** The returned record renames the host's fields and copies the rest. */
  function ToImage(data: UploadedData): (r: UploadedImage)
    ensures r.url == data.secureUrl && r.publicId == data.publicId
    ensures r.width == data.width && r.height == data.height && r.format == data.format
  {
    UploadedImage(data.secureUrl, data.publicId, data.width, data.height, data.format)
  }

  /** `uploadProductImage`, with the host's answer given. */
  function UploadProductImage(file: Option<File>, settings: Settings, response: Response): (r: Attempt)
    ensures r.sent.Some? <==> Validate(file, settings).Ok?
    ensures r.sent.None? ==> r.result == Err(Validate(file, settings).message)
    ensures r.sent.Some? ==> r.sent.value == Validate(file, settings).value
    ensures r.sent.Some? && !response.ok ==> r.result == Err("Cloudinary upload failed: " + response.text)
    ensures r.sent.Some? && response.ok ==> r.result == Ok(ToImage(response.data))
  {
    match Validate(file, settings)
    case Err(message) => Attempt(None, Err(message))
    case Ok(request) =>
      if !response.ok then Attempt(Some(request), Err("Cloudinary upload failed: " + response.text))
      else Attempt(Some(request), Ok(ToImage(response.data)))
  }

  /** A missing file is refused before anything else is looked at. */
  lemma MissingFileFirst(settings: Settings, response: Response)
    ensures UploadProductImage(None, settings, response) == Attempt(None, Err("No file provided"))
  {
  }

  /** Missing settings are refused whatever the file's size and type. */
  lemma MissingSettingsBeforeFileChecks(file: File, settings: Settings, response: Response)
    requires !Truthy(settings.cloudName) || !Truthy(settings.uploadPreset)
    ensures UploadProductImage(Some(file), settings, response) == Attempt(None, Err("Missing Cloudinary configuration"))
  {
  }

  /** An oversized file is refused as too large even when its type is also wrong. */
  lemma SizeCheckedBeforeType(file: File, settings: Settings, response: Response)
    requires Truthy(settings.cloudName) && Truthy(settings.uploadPreset)
    requires file.size > MaxBytes
    ensures UploadProductImage(Some(file), settings, response) == Attempt(None, Err("File too large (max 2MB)"))
  {
  }

  /** A file of exactly 2 MiB passes the size check; one byte more does not. */
  lemma SizeLimitIsInclusive(name: string, mimeType: string, settings: Settings)
    requires Truthy(settings.cloudName) && Truthy(settings.uploadPreset)
    requires IsImageType(mimeType)
    ensures Validate(Some(File(name, 2097152, mimeType)), settings).Ok?
    ensures Validate(Some(File(name, 2097153, mimeType)), settings) == Err("File too large (max 2MB)")
  {
  }

  /** A file of acceptable size but another type is refused, and nothing is sent. */
  lemma NonImageRefused(file: File, settings: Settings, response: Response)
    requires Truthy(settings.cloudName) && Truthy(settings.uploadPreset)
    requires file.size <= MaxBytes && !IsImageType(file.mimeType)
    ensures UploadProductImage(Some(file), settings, response) == Attempt(None, Err("Invalid file type"))
  {
  }

  /** Whatever the host would answer, a call that fails a guard has the same outcome and sends nothing. */
  lemma GuardFailureIgnoresHost(file: Option<File>, settings: Settings, r1: Response, r2: Response)
    requires Validate(file, settings).Err?
    ensures UploadProductImage(file, settings, r1) == UploadProductImage(file, settings, r2)
    ensures UploadProductImage(file, settings, r1).sent.None?
  {
  }

  /** An unset or empty base address falls back to the public API, and the cloud name is the path's first segment. */
  lemma DefaultAddress(file: File, cloud: string, preset: string)
    requires cloud != "" && preset != ""
    requires file.size <= MaxBytes && IsImageType(file.mimeType)
    ensures var a := Validate(Some(file), Settings(Some(cloud), Some(preset), Some("")));
      && a.Ok?
      && a.value.url == "https://api.cloudinary.com/v1_1/" + cloud + "/image/upload"
      && a.value.folder == "products"
  {
    var a := Validate(Some(file), Settings(Some(cloud), Some(preset), Some("")));
    assert a.value.url == DefaultBaseUrl + "/" + cloud + "/image/upload";
    assert DefaultBaseUrl + "/" == "https://api.cloudinary.com/v1_1/";
  }
}

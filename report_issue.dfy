/**
 * The Report Issue page (src/pages/ReportIssue.jsx): the form's state, the
 * optional photo and its preview, the located or typed location, and the
 * report that submitting appends to the reports collection.
 *
 * The browser's geolocation callback and the FileReader's load event are
 * asynchronous; each is folded into the handler that starts it, with its
 * outcome as a parameter.
 */
module ReportIssue {
  import opened Values
  import opened Logs
  import Store

  /** A picked photo, known here by the data URL FileReader makes of it. */
  datatype ImageFile = ImageFile(dataUrl: string)

  /** The three text inputs and the form key each one sets. */
  datatype Input = NameInput | LocationInput | DescriptionInput
  {
    function Key(): string {
      match this
      case NameInput => "name"
      case LocationInput => "location"
      case DescriptionInput => "description"
    }
  }

  /** What `navigator.geolocation` gives: a position, an error, or no geolocation at all. */
  datatype Geolocation = Located(latitude: real, longitude: real) | Failed | Unsupported

  const LocationUnavailable: string := "Location unavailable"

  /** `${latitude.toFixed(4)}, ${longitude.toFixed(4)}`, with numberText the number-to-text conversion. */
  function CoordinatesText(latitude: real, longitude: real, numberText: real -> string): string {
    numberText(ToFixed(latitude, 10000)) + ", " + numberText(ToFixed(longitude, 10000))
  }

  /** The preview FileReader makes of the picked photo, none without one. */
  function PreviewOf(image: Option<ImageFile>): Option<string> {
    if image.Some? then Some(image.value.dataUrl) else None
  }

  /** JSON of the form's image: a File serialises as `{}`, no file as null. */
  function ImageField(image: Option<ImageFile>): Field {
    if image.Some? then FObj(map[]) else FNull
  }

  /** A string, or null for none. */
  function TextOrNull(s: Option<string>): Field {
    if s.Some? then FStr(s.value) else FNull
  }

  /** `reportData`: the form's fields, a pending status, no upvotes or confirmations, the user and the preview. */
  function ReportData(name: string, location: string, description: string, image: Option<ImageFile>,
                      imagePreview: Option<string>, currentUser: Option<Record>): (r: Record)
    ensures r.Keys == {"name", "location", "description", "image", "status", "upvotes", "confirmations", "userId", "imageUrl"}
    ensures r["name"] == FStr(name) && r["location"] == FStr(location) && r["description"] == FStr(description)
    ensures r["image"] == (if image.Some? then FObj(map[]) else FNull)
    ensures r["status"] == FStr("pending") && r["upvotes"] == FNum(0.0) && r["confirmations"] == FNum(0.0)
    ensures Prop(r, "userId") == Some(ActorId(currentUser))
    ensures imagePreview.Some? <==> r["imageUrl"].FStr?
    ensures imagePreview.Some? ==> r["imageUrl"] == FStr(imagePreview.value)
  {
    map["name" := FStr(name), "location" := FStr(location), "description" := FStr(description),
        "image" := ImageField(image), "status" := FStr("pending"), "upvotes" := FNum(0.0),
        "confirmations" := FNum(0.0), "userId" := ActorId(currentUser), "imageUrl" := TextOrNull(imagePreview)]
  }

  /**
   * A report submitted from a valid form carries the photo's own data URL as
   * imageUrl, and none without a photo; once added to its collection it keeps
   * that imageUrl and the pending status.
   */
  lemma StoredReport(name: string, location: string, description: string, image: Option<ImageFile>,
                     currentUser: Option<Record>, freshId: string, stamp: string)
    ensures
      var data := ReportData(name, location, description, image, PreviewOf(image), currentUser);
      var doc := Store.NewDoc(data, freshId, stamp);
      doc["imageUrl"] == (if image.Some? then FStr(image.value.dataUrl) else FNull) &&
      doc["status"] == FStr("pending")
  {
    var data := ReportData(name, location, description, image, PreviewOf(image), currentUser);
    assert "imageUrl" in data && "status" in data;
  }

  class ReportIssuePage {
    var name: string
    var location: string
    var description: string
    var image: Option<ImageFile>
    var useAutoLocation: bool
    var loading: bool
    var submitted: bool
    var imagePreview: Option<string>

    /** The preview always shows the photo in the form, and a shown confirmation is never still loading. */
    predicate Valid()
      reads this
    {
      imagePreview == PreviewOf(image) && (submitted ==> !loading)
    }

    /**
     * Whether the browser submits the form: it is shown (not the
     * confirmation), the submit button is enabled, and the required fields
     * are filled. A disabled location input is not validated.
     */
    predicate CanSubmit()
      reads this
    {
      !submitted && !loading && name != "" && description != "" && (useAutoLocation || location != "")
    }

    /** The auto-location button is disabled while loading and once a location was found. */
    predicate AutoLocationEnabled()
      reads this
    {
      !loading && !useAutoLocation
    }

    /** The form as it starts and as the reset leaves it. */
    predicate Blank()
      reads this
    {
      name == "" && location == "" && description == "" && image.None? && imagePreview.None? && !useAutoLocation
    }

    constructor ()
      ensures Valid() && Blank() && !loading && !submitted
      ensures !CanSubmit()
    {
      name, location, description, image := "", "", "", None;
      useAutoLocation, loading, submitted, imagePreview := false, false, false, None;
    }

    /** `handleInputChange`: sets the input's own field and nothing else. */
    method HandleInputChange(input: Input, value: string)
      requires Valid()
      modifies this
      ensures Valid()
      ensures input == NameInput ==> name == value
      ensures input != NameInput ==> name == old(name)
      ensures input == LocationInput ==> location == value
      ensures input != LocationInput ==> location == old(location)
      ensures input == DescriptionInput ==> description == value
      ensures input != DescriptionInput ==> description == old(description)
      ensures image == old(image) && imagePreview == old(imagePreview)
      ensures useAutoLocation == old(useAutoLocation) && loading == old(loading) && submitted == old(submitted)
    {
      match input
      case NameInput => name := value;
      case LocationInput => location := value;
      case DescriptionInput => description := value;
    }

    /** `handleImageUpload`: a picked file becomes the form's image and, once read, its preview; no file changes nothing. */
    method HandleImageUpload(file: Option<ImageFile>)
      requires Valid()
      modifies this
      ensures Valid()
      ensures file.Some? ==> image == file && imagePreview == Some(file.value.dataUrl)
      ensures file.None? ==> image == old(image) && imagePreview == old(imagePreview)
      ensures name == old(name) && location == old(location) && description == old(description)
      ensures useAutoLocation == old(useAutoLocation) && loading == old(loading) && submitted == old(submitted)
    {
      if file.Some? {
        image := file;
        imagePreview := Some(file.value.dataUrl);
      }
    }

    /** `removeImage`: no image and no preview. */
    method RemoveImage()
      requires Valid()
      modifies this
      ensures Valid()
      ensures image.None? && imagePreview.None?
      ensures name == old(name) && location == old(location) && description == old(description)
      ensures useAutoLocation == old(useAutoLocation) && loading == old(loading) && submitted == old(submitted)
    {
      image := None;
      imagePreview := None;
    }

    /**
     * `getAutoLocation` from the enabled button: a found position fills in
     * and locks the location, an error writes 'Location unavailable', and a
     * browser without geolocation only alerts. Each ends with loading off.
     * The disabled button does nothing.
     */
    method GetAutoLocation(outcome: Geolocation, numberText: real -> string)
      requires Valid()
      modifies this
      ensures Valid()
      ensures !old(AutoLocationEnabled()) ==>
        location == old(location) && useAutoLocation == old(useAutoLocation) && loading == old(loading)
      ensures old(AutoLocationEnabled()) ==> !loading
      ensures old(AutoLocationEnabled()) && outcome.Located? ==>
        location == CoordinatesText(outcome.latitude, outcome.longitude, numberText) && useAutoLocation
      ensures old(AutoLocationEnabled()) && outcome.Failed? ==> location == LocationUnavailable && !useAutoLocation
      ensures old(AutoLocationEnabled()) && outcome.Unsupported? ==> location == old(location) && !useAutoLocation
      ensures name == old(name) && description == old(description) && image == old(image)
      ensures imagePreview == old(imagePreview) && submitted == old(submitted)
    {
      if !AutoLocationEnabled() {
        return;
      }
      loading := true;
      match outcome
      case Located(latitude, longitude) =>
        location := CoordinatesText(latitude, longitude, numberText);
        useAutoLocation := true;
        loading := false;
      case Failed =>
        location := LocationUnavailable;
        loading := false;
      case Unsupported =>
        loading := false;
    }

    /** After the report is stored: loading off and the confirmation shown. */
    method ReportStored()
      requires imagePreview == PreviewOf(image)
      modifies this
      ensures Valid()
      ensures !loading && submitted
      ensures name == old(name) && location == old(location) && description == old(description)
      ensures image == old(image) && imagePreview == old(imagePreview) && useAutoLocation == old(useAutoLocation)
    {
      loading := false;
      submitted := true;
    }

    /**
     * `handleSubmit`, when the browser submits (None when it does not):
     * loading on, the report appended to reports, then loading off and the
     * confirmation shown. When the collection is not an array the call
     * rejects and loading stays on.
     */
    method HandleSubmit(store: Store.LocalStorageService, currentUser: Option<Record>, freshId: string, stamp: string)
      returns (r: Option<Store.Result<Record>>, ghost written: bool)
      requires Valid()
      modifies this, store
      ensures Valid()
      ensures name == old(name) && location == old(location) && description == old(description)
      ensures image == old(image) && imagePreview == old(imagePreview) && useAutoLocation == old(useAutoLocation)
      ensures !old(CanSubmit()) ==>
        r.None? && store.storage == old(store.storage) && loading == old(loading) && submitted == old(submitted)
      ensures old(CanSubmit()) && old(store.Docs("reports")).None? ==>
        r == Some(Store.Err(Store.TypeError)) && store.storage == old(store.storage) && loading && !submitted
      ensures old(CanSubmit()) && old(store.Docs("reports")).Some? ==>
        var doc := Store.NewDoc(ReportData(name, location, description, image, imagePreview, currentUser), freshId, stamp);
        r == Some(Store.Ok(doc)) && !loading && submitted &&
        store.storage == Store.Written(old(store.storage), Store.Prefix + "reports",
                                       Store.Encode(old(store.Docs("reports")).value + [doc]), written)
    {
      written := false;
      if !CanSubmit() {
        return None, written;
      }
      loading := true;
      var data := ReportData(name, location, description, image, imagePreview, currentUser);
      var res;
      res, written := store.AddDoc("reports", data, freshId, stamp);
      r := Some(res);
      if res.Ok? {
        ReportStored();
      }
    }

    /** The timeout three seconds after a submit: the confirmation hidden and the form blank again. */
    method ResetAfterSubmit()
      requires Valid()
      modifies this
      ensures Valid() && Blank() && !submitted && loading == old(loading)
    {
      submitted := false;
      name, location, description, image := "", "", "", None;
      imagePreview := None;
      useAutoLocation := false;
    }
  }
}

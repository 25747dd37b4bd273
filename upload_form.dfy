/**
 * The report form (src/components/UploadForm.tsx): the selected file, its
 * preview, the `isSubmitting` flag, the two checks made before anything is
 * sent, the two-field multipart payload and the one POST it goes out in.
 * Toasts and requests are recorded in the order they happen; the server's
 * answer arrives as an argument of `SettleSubmit`.
 */
module UploadForm {
  import opened Js
  import Location

  /** A picked file; its bytes are never inspected by the form. */
  datatype File = File(name: string, mimeType: string, size: nat)

  /** One `formData.append(key, value)`. */
  datatype FormField = FileField(key: string, file: File) | TextField(key: string, value: string)

  /** One `axiosApi.post(path, formData)`. */
  datatype Post = Post(path: string, body: seq<FormField>)

  /** How `handleSubmit` gets past its two checks. */
  datatype Gate = MissingImage | MissingLocation | Ready(payload: seq<FormField>)

  /** How the awaited POST ends. The response body is only logged, so it is not kept. */
  datatype PostOutcome = Responded | RequestFailed

  const MissingImageMessage := "Please select an image to upload"
  const MissingLocationMessage := "Unable to determine your location"
  const UploadFailedMessage := "Failed to upload report"
  const UploadPath := "/images/upload"

  /** The checks of `handleSubmit`, the file first and then the city, and the payload built when both pass. */
  function SubmitGate(file: Option<File>, city: Option<string>): (g: Gate)
    ensures g == MissingImage <==> file.None?
    ensures g == MissingLocation <==> file.Some? && !Truthy(city)
    ensures g.Ready? <==> file.Some? && Truthy(city)
    ensures g.Ready? ==> g.payload == [FileField("image", file.value), TextField("city", city.value)]
  {
    if file.None? then MissingImage
    else if !Truthy(city) then MissingLocation
    else Ready([FileField("image", file.value), TextField("city", city.value)])
  }

  /** The toast a failed check shows; a check that passes shows none. */
  function GateMessage(g: Gate): (m: Option<string>)
    ensures m.None? <==> g.Ready?
    ensures g == MissingImage ==> m == Some(MissingImageMessage)
    ensures g == MissingLocation ==> m == Some(MissingLocationMessage)
  {
    match g
    case MissingImage => Some(MissingImageMessage)
    case MissingLocation => Some(MissingLocationMessage)
    case Ready(_) => None
  }

  /** With neither a file nor a city, only the missing-image message is shown. */
  lemma FileCheckedFirst(city: Option<string>)
    ensures GateMessage(SubmitGate(None, city)) == Some(MissingImageMessage)
  {
  }

  /** `disabled={isSubmitting || !city}` on the submit button. */
  function SubmitDisabled(isSubmitting: bool, city: Option<string>): (disabled: bool)
    ensures !disabled <==> !isSubmitting && Truthy(city)
  {
    isSubmitting || !Truthy(city)
  }

  /** A click on an enabled button never stops at the location check. */
  lemma EnabledButtonPassesLocationCheck(isSubmitting: bool, file: Option<File>, city: Option<string>)
    requires !SubmitDisabled(isSubmitting, city)
    ensures SubmitGate(file, city) != MissingLocation
  {
  }

  /** Once the location hook has settled on a city, the city passes the form's check and enables the button. */
  lemma ResolvedCityPassesCheck(data: Location.GeocodeData, isSubmitting: bool, file: File)
    ensures Truthy(Some(Location.CityFromGeocode(data)))
    ensures SubmitGate(Some(file), Some(Location.CityFromGeocode(data))).Ready?
    ensures SubmitDisabled(isSubmitting, Some(Location.CityFromGeocode(data))) == isSubmitting
  {
  }

  class UploadFormState {
    var file: Option<File>
    var preview: Option<string>
    var isSubmitting: bool
    /** Toast error messages, oldest first. */
    var toasts: seq<string>
    /** Requests sent, oldest first. */
    var posts: seq<Post>
    /** Submissions whose POST has not yet come back. */
    var pending: nat

    ghost predicate Valid()
      reads this
    {
      && (isSubmitting ==> pending > 0)
      && pending <= |posts|
    }

    constructor ()
      ensures Valid()
      ensures file.None? && preview.None? && !isSubmitting
      ensures toasts == [] && posts == [] && pending == 0
    {
      file := None;
      preview := None;
      isSubmitting := false;
      toasts := [];
      posts := [];
      pending := 0;
    }

    /** `handleFileChange`, synchronous part: the first selected file becomes current; an empty selection is ignored. */
    method HandleFileChange(files: seq<File>)
      requires Valid()
      modifies this
      ensures Valid()
      ensures file == if files == [] then old(file) else Some(files[0])
      ensures preview == old(preview) && isSubmitting == old(isSubmitting)
      ensures toasts == old(toasts) && posts == old(posts) && pending == old(pending)
    {
      if |files| > 0 {
        file := Some(files[0]);
      }
    }

    /** The `FileReader`'s `onload`: installs the data URL of the file read. */
    method PreviewLoaded(dataUrl: string)
      requires Valid()
      modifies this
      ensures Valid()
      ensures preview == Some(dataUrl)
      ensures file == old(file) && isSubmitting == old(isSubmitting)
      ensures toasts == old(toasts) && posts == old(posts) && pending == old(pending)
    {
      preview := Some(dataUrl);
    }

    /**
     * `handleSubmit` up to the `await`: a failed check shows its message and
     * stops; otherwise the flag is raised and exactly one POST goes out.
     */
    method HandleSubmit(city: Option<string>) returns (g: Gate)
      requires Valid()
      modifies this
      ensures Valid()
      ensures g == SubmitGate(old(file), city)
      ensures file == old(file) && preview == old(preview)
      ensures g.Ready? ==>
        && isSubmitting
        && toasts == old(toasts)
        && posts == old(posts) + [Post(UploadPath, g.payload)]
        && pending == old(pending) + 1
      ensures !g.Ready? ==>
        && isSubmitting == old(isSubmitting)
        && toasts == old(toasts) + [GateMessage(g).value]
        && posts == old(posts)
        && pending == old(pending)
    {
      if file.None? {
        toasts := toasts + [MissingImageMessage];
        return MissingImage;
      }
      if !Truthy(city) {
        toasts := toasts + [MissingLocationMessage];
        return MissingLocation;
      }
      isSubmitting := true;
      var formData: seq<FormField> := [];
      formData := formData + [FileField("image", file.value)];
      formData := formData + [TextField("city", city.value)];
      posts := posts + [Post(UploadPath, formData)];
      pending := pending + 1;
      g := Ready(formData);
    }

    /**
     * `handleSubmit` after the `await`: a failed request shows the one
     * upload-failure message, and `finally` lowers the flag either way.
     */
    method SettleSubmit(outcome: PostOutcome)
      requires Valid() && pending > 0
      modifies this
      ensures Valid()
      ensures !isSubmitting && pending == old(pending) - 1
      ensures toasts == if outcome.RequestFailed? then old(toasts) + [UploadFailedMessage] else old(toasts)
      ensures file == old(file) && preview == old(preview) && posts == old(posts)
    {
      if outcome.RequestFailed? {
        toasts := toasts + [UploadFailedMessage];
      }
      isSubmitting := false;
      pending := pending - 1;
    }
  }

  /**
   * One click of the submit button carried through to its end on a fresh
   * form holding `file`: returns the requests sent, the toasts shown and the
   * flag afterwards.
   */
  method SubmitOnce(file: Option<File>, city: Option<string>, outcome: PostOutcome)
    returns (posts: seq<Post>, toasts: seq<string>, isSubmitting: bool)
    ensures !isSubmitting
    ensures SubmitGate(file, city).Ready? <==> |posts| == 1
    ensures SubmitGate(file, city).Ready? ==>
      && posts == [Post(UploadPath, [FileField("image", file.value), TextField("city", city.value)])]
      && toasts == (if outcome.RequestFailed? then [UploadFailedMessage] else [])
    ensures !SubmitGate(file, city).Ready? ==> posts == [] && toasts == [GateMessage(SubmitGate(file, city)).value]
  {
    var form := new UploadFormState();
    if file.Some? {
      form.HandleFileChange([file.value]);
    }
    var g := form.HandleSubmit(city);
    if g.Ready? {
      form.SettleSubmit(outcome);
    }
    posts, toasts, isSubmitting := form.posts, form.toasts, form.isSubmitting;
  }
}

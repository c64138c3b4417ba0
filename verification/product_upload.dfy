/** The upload screen: whether the user may upload at all, the pictures left
    in the plan, the checks on the chosen file and the request that uploads
    it. */
module ProductUpload {
  import opened Base
  import M = MongoBackend

  /** The `subscription` key of the signed-in user as the screen receives
      it: not there at all, `null`, or the server's subscription view. */
  datatype SubscriptionField = Absent | Null | Present(view: M.SubscriptionView)

  /** `user`: not known yet (`null`), or a user with its subscription key. */
  datatype Viewer = NoUser | Member(subscription: SubscriptionField)

  /** `user?.subscription !== null`: only a subscription that is exactly
      `null` counts as none; a missing user or a missing key counts as a
      subscription. */
  function HasSubscription(u: Viewer): (b: bool)
    ensures !b <==> u.Member? && u.subscription.Null?
  {
    match u
    case NoUser => true
    case Member(s) => !s.Null?
  }

  /** `imagesRemaining`, or `None` where evaluating it fails because the
      screen believes in a subscription it cannot read. */
  function ImagesRemaining(u: Viewer): (r: Option<int>)
    ensures !HasSubscription(u) ==> r == Some(0)
    ensures u.Member? && u.subscription.Present? ==>
      r == Some(u.subscription.view.tierDetails.imagesPerMonth - u.subscription.view.usage.imagesGenerated)
    ensures r.None? <==> HasSubscription(u) && !(u.Member? && u.subscription.Present?)
  {
    match u
    case NoUser => None
    case Member(Null) => Some(0)
    case Member(Absent) => None
    case Member(Present(v)) => Some(v.tierDetails.imagesPerMonth - v.usage.imagesGenerated)
  }

  /** A file as the browser describes it. */
  datatype File = File(name: string, mimeType: string, size: nat)

  const AcceptedTypes: seq<string> := ["image/jpeg", "image/png", "image/webp"]

  /** 10 MB. */
  const MaxBytes := 10 * 1024 * 1024

  /** The checks of `handleFileSelect`, the type first and the size second. */
  function FileRefusal(f: File): (e: Option<string>)
    ensures e.None? <==> f.mimeType in AcceptedTypes && f.size <= MaxBytes
    ensures f.mimeType !in AcceptedTypes ==> e == Some("Please select a valid image file (JPEG, PNG, WEBP)")
    ensures f.mimeType in AcceptedTypes && f.size > MaxBytes ==> e == Some("File size should be less than 10MB")
  {
    if f.mimeType !in AcceptedTypes then Some("Please select a valid image file (JPEG, PNG, WEBP)")
    else if f.size > MaxBytes then Some("File size should be less than 10MB")
    else None
  }

  /** How `POST /upload` ended. */
  datatype Answer = Uploaded(imageId: string) | Refused(error: Option<string>) | NoResponse

  function FailureMessage(a: Answer): (m: string)
    requires !a.Uploaded?
    ensures a.Refused? && Truthy(a.error) ==> m == a.error.value
    ensures a.Refused? && !Truthy(a.error) ==> m == "Upload failed. Please try again."
    ensures a.NoResponse? ==> m == "Network error. Please check your connection."
  {
    if a.NoResponse? then "Network error. Please check your connection."
    else if Truthy(a.error) then a.error.value
    else "Upload failed. Please try again."
  }

  class UploadPage {
    var selectedFile: Option<File>
    var uploading: bool
    var error: Option<string>
    var success: bool
    var nextScreen: Option<string>

    /** A file is selected only once it passed the checks. */
    ghost predicate Valid()
      reads this
    {
      selectedFile.Some? ==> FileRefusal(selectedFile.value).None?
    }

    constructor()
      ensures Valid() && selectedFile.None? && !uploading && error.None? && !success && nextScreen.None?
    {
      selectedFile := None;
      uploading := false;
      error := None;
      success := false;
      nextScreen := None;
    }

    /** `handleFileSelect`: with no file chosen nothing changes; otherwise
        the messages are reset and a file that fails a check is reported
        and not selected, leaving any earlier choice in place. */
    method FileSelect(file: Option<File>)
      requires Valid()
      modifies this
      ensures Valid() && uploading == old(uploading) && nextScreen == old(nextScreen)
      ensures file.None? ==> selectedFile == old(selectedFile) && error == old(error) && success == old(success)
      ensures file.Some? ==> !success
      ensures file.Some? && FileRefusal(file.value).Some? ==>
        error == FileRefusal(file.value) && selectedFile == old(selectedFile)
      ensures file.Some? && FileRefusal(file.value).None? ==> error.None? && selectedFile == file
    {
      if file.None? {
        return;
      }
      error := None;
      success := false;
      var refusal := FileRefusal(file.value);
      if refusal.Some? {
        error := refusal;
        return;
      }
      selectedFile := file;
    }

    /** `handleUpload`: nothing without a selected file; otherwise the
        selected file is sent. */
    method Upload() returns (sent: Option<M.FileUpload>)
      requires Valid()
      modifies this
      ensures Valid() && selectedFile == old(selectedFile) && success == old(success)
      ensures sent.Some? <==> selectedFile.Some?
      ensures sent.Some? ==> sent == Some(M.FileUpload(selectedFile.value.name)) && uploading && error.None?
      ensures sent.None? ==> uploading == old(uploading) && error == old(error)
    {
      if selectedFile.None? {
        return None;
      }
      uploading := true;
      error := None;
      sent := Some(M.FileUpload(selectedFile.value.name));
    }

    /** The end of `handleUpload`: an accepted upload moves on to the scene
        choice for the new image; a failure is reported. */
    method UploadAnswered(a: Answer)
      requires Valid()
      modifies this
      ensures Valid() && !uploading && selectedFile == old(selectedFile)
      ensures a.Uploaded? ==> success && nextScreen == Some("/scenes/" + a.imageId) && error == old(error)
      ensures !a.Uploaded? ==> error == Some(FailureMessage(a)) && success == old(success) && nextScreen == old(nextScreen)
    {
      uploading := false;
      if a.Uploaded? {
        success := true;
        nextScreen := Some("/scenes/" + a.imageId);
      } else {
        error := Some(FailureMessage(a));
      }
    }
  }
}

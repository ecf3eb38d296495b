/**
 * The image uploader panel: the validation of a chosen or dropped file, the
 * upload's status messages, adding the uploaded image to the selected zone,
 * and editing the transform of an image of that zone.
 *
 * The upload endpoint is an oracle from the file to its reply, the device
 * test (the user agent names a mobile browser) is a constant of the panel,
 * and the fresh id of an added image is a parameter.
 */
module Uploader {
  import opened Wrappers
  import opened Customization

  /** The zones an image can be uploaded to. */
  const AvailableZones: seq<string> := ["OutterPalm", "OutterThumb", "Strap"]

  datatype StatusKind = Success | Error | Loading

  /** The status line shown above the upload area. */
  datatype Status = Status(message: string, kind: StatusKind)

  /** A file picked or dropped: its size in bytes and its MIME type. */
  datatype File = File(size: nat, mimeType: string)

  /** The size limit in megabytes: 2 on a mobile browser, 5 otherwise. */
  function MaxSizeMB(isMobile: bool): nat {
    if isMobile then 2 else 5
  }

  function MaxSizeBytes(isMobile: bool): nat {
    MaxSizeMB(isMobile) * 1024 * 1024
  }

  /** A file is too large only when strictly above the limit. */
  predicate SizeAccepted(f: File, isMobile: bool) {
    !(f.size > MaxSizeBytes(isMobile))
  }

  /** The error shown for a file above the limit, naming the limit in megabytes. */
  function TooLarge(isMobile: bool): Status {
    Status("Image exceeds " + (if isMobile then "2" else "5") + "MB limit", Error)
  }

  const Uploading := Status("Uploading...", Loading)
  const Uploaded := Status("Upload successful!", Success)
  const UploadFailed := Status("Upload failed", Error)
  const NotAnImage := Status("Only image files are allowed", Error)

  /** The MIME test of a dropped file: its type starts with "image/". */
  predicate IsImageType(mimeType: string) {
    "image/" <= mimeType
  }

  /** A drop is processed only when it carries a file of an image type. */
  predicate DropAccepted(f: Option<File>) {
    f.Some? && IsImageType(f.value.mimeType)
  }

  /**
   * What the upload resolves to: the secure URL of the stored image, or
   * `None` (the request failed, or the reply has no URL); `Rejected` when
   * reading the reply body fails, which escapes the upload's own error
   * handling because the body promise is returned without being awaited.
   */
  datatype UploadReply = Resolved(url: Option<string>) | Rejected

  type Upload = File -> UploadReply

  /** A file sent to the upload endpoint, and the status on screen at that moment. */
  datatype Sent = Sent(file: File, shown: Option<Status>)

  /** A URL JavaScript treats as true: present and non-empty. */
  predicate Truthy(url: Option<string>) {
    url.Some? && url.value != ""
  }

  /** The status messages `processFile` shows, in order. */
  function ProcessStatuses(f: File, isMobile: bool, reply: UploadReply): seq<Status> {
    if !SizeAccepted(f, isMobile) then [TooLarge(isMobile)]
    else match reply
      case Rejected => [Uploading]
      case Resolved(url) => [Uploading] + (if Truthy(url) then [Uploaded] else [UploadFailed])
  }

  /** The URL `processFile` adds to the selected zone, if any. */
  function ProcessAdds(f: File, isMobile: bool, reply: UploadReply): Option<string> {
    if SizeAccepted(f, isMobile) && reply.Resolved? && Truthy(reply.url) then reply.url else None
  }

  /** The status messages a drop shows. */
  function DropStatuses(f: Option<File>, isMobile: bool, upload: Upload): seq<Status> {
    if !DropAccepted(f) then [NotAnImage] else ProcessStatuses(f.value, isMobile, upload(f.value))
  }

  /** `Math.min(Math.max(v, 0.1), 1.5)`. */
  function ClampScale(v: real): (r: real)
    ensures 0.1 <= r <= 1.5
    ensures 0.1 <= v <= 1.5 ==> r == v
    ensures v < 0.1 ==> r == 0.1
    ensures v > 1.5 ==> r == 1.5
  {
    var atLeast := if v > 0.1 then v else 0.1;
    if atLeast < 1.5 then atLeast else 1.5
  }

  /** The transform property an editor slider changes. */
  datatype Property = X | Y | Rotation | ScaleProp

  /** The transform after setting `property` to `value`, a scale clamped into [0.1, 1.5]. */
  function EditedTransform(t: Transform, property: Property, value: real): Transform {
    match property
    case X => t.(x := value)
    case Y => t.(y := value)
    case Rotation => t.(rotation := value)
    case ScaleProp => t.(scale := ClampScale(value))
  }

  /** `Array.prototype.find` by id: the index of the first image with that id. */
  function FindImage(images: seq<CustomImage>, id: string): (r: Option<nat>)
    ensures r.None? <==> forall i :: 0 <= i < |images| ==> images[i].id != id
    ensures r.Some? ==> r.value < |images| && images[r.value].id == id
    ensures r.Some? ==> forall i :: 0 <= i < r.value ==> images[i].id != id
  {
    if images == [] then None
    else if images[0].id == id then Some(0)
    else match FindImage(images[1..], id)
      case None => None
      case Some(k) => Some(k + 1)
  }

  // ---------------------------------------------------------------------
  // Validation and status
  // ---------------------------------------------------------------------

  /** The limits are 2 MiB on a mobile browser and 5 MiB otherwise, and the limit itself is allowed. */
  lemma SizeLimits(f: File, isMobile: bool)
    ensures MaxSizeBytes(true) == 2097152 && MaxSizeBytes(false) == 5242880
    ensures SizeAccepted(f, isMobile) <==> f.size <= MaxSizeBytes(isMobile)
    ensures f.size == MaxSizeBytes(isMobile) ==> ProcessStatuses(f, isMobile, Rejected) == [Uploading]
    ensures f.size == MaxSizeBytes(isMobile) + 1 ==>
            ProcessStatuses(f, isMobile, Rejected) == [TooLarge(isMobile)]
  {
  }

  /** A 3 MB image is refused on a mobile browser and goes to the upload elsewhere. */
  lemma ThreeMegabytes(reply: UploadReply)
    ensures ProcessStatuses(File(3 * 1024 * 1024, "image/png"), true, reply) ==
            [Status("Image exceeds 2MB limit", Error)]
    ensures ProcessAdds(File(3 * 1024 * 1024, "image/png"), true, reply).None?
    ensures ProcessStatuses(File(3 * 1024 * 1024, "image/png"), false, reply)[0] == Uploading
  {
    assert MaxSizeBytes(true) == 2097152 < 3 * 1024 * 1024 <= 5242880 == MaxSizeBytes(false);
    assert "Image exceeds " + "2" + "MB limit" == "Image exceeds 2MB limit";
  }

  /**
   * `processFile`'s outcomes: a refused file shows one error and adds
   * nothing; an accepted one shows loading first, and then success exactly
   * when the URL is truthy (the URL is then what is added), the failure
   * message when it resolves to a falsy one, and nothing further when the
   * reply is rejected, so the status stays at loading.
   */
  lemma ProcessOutcomes(f: File, isMobile: bool, reply: UploadReply)
    ensures var ss, add := ProcessStatuses(f, isMobile, reply), ProcessAdds(f, isMobile, reply);
      && ss != []
      && (add.Some? <==> SizeAccepted(f, isMobile) && reply.Resolved? && Truthy(reply.url))
      && (add.Some? ==> Truthy(add) && add == reply.url)
      && (!SizeAccepted(f, isMobile) ==> ss == [TooLarge(isMobile)] && ss[0].kind == Error)
      && (SizeAccepted(f, isMobile) ==> ss[0] == Uploading)
      && (ss[|ss| - 1].kind == Success <==> add.Some?)
      && (ss[|ss| - 1].kind == Loading <==> SizeAccepted(f, isMobile) && reply.Rejected?)
      && (ss[|ss| - 1] == UploadFailed <==> SizeAccepted(f, isMobile) && reply.Resolved? && !Truthy(reply.url))
  {
  }

  /** A missing item, or one whose type does not start with "image/", is refused with one error. */
  lemma DropRefusals(upload: Upload)
    ensures DropStatuses(None, false, upload) == [NotAnImage]
    ensures DropStatuses(Some(File(10, "text/plain")), false, upload) == [NotAnImage]
    ensures DropStatuses(Some(File(10, "IMAGE/PNG")), false, upload) == [NotAnImage]
    ensures DropAccepted(Some(File(10, "image/png")))
  {
    assert !("image/" <= "text/plain") by { assert "text/plain"[0] != "image/"[0]; }
    assert !("image/" <= "IMAGE/PNG") by { assert "IMAGE/PNG"[0] != "image/"[0]; }
  }

  // ---------------------------------------------------------------------
  // Transform edits
  // ---------------------------------------------------------------------

  /**
   * Only the named property changes and every other field is copied; a
   * scale always lands in [0.1, 1.5] and is kept as given inside it, while
   * x, y and rotation are stored as given.
   */
  lemma EditChangesOneField(t: Transform, property: Property, value: real)
    ensures var r := EditedTransform(t, property, value);
      && (property != X ==> r.x == t.x)
      && (property != Y ==> r.y == t.y)
      && (property != Rotation ==> r.rotation == t.rotation)
      && (property != ScaleProp ==> r.scale == t.scale)
      && (property == X ==> r.x == value)
      && (property == Y ==> r.y == value)
      && (property == Rotation ==> r.rotation == value)
      && (property == ScaleProp ==> 0.1 <= r.scale <= 1.5 && (0.1 <= value <= 1.5 ==> r.scale == value))
  {
  }

  /** Repeating an edit changes nothing more. */
  lemma EditIdempotent(t: Transform, property: Property, value: real)
    ensures EditedTransform(EditedTransform(t, property, value), property, value) == EditedTransform(t, property, value)
  {
  }

  /** The customization store's image lists, which the panel updates through the store's two mutations. */
  class Store {
    var customImages: CustomImages

    constructor (images: CustomImages)
      ensures customImages == images
    {
      customImages := images;
    }

    /** `addCustomImage`. */
    method AddCustomImage(zone: string, id: string, url: string)
      modifies this
      ensures customImages == AddImage(old(customImages), zone, id, url)
    {
      customImages := AddImage(customImages, zone, id, url);
    }

    /** `updateImageTransform`. */
    method UpdateImageTransform(zone: string, id: string, t: Transform)
      requires zone in customImages
      modifies this
      ensures customImages == UpdateTransform(old(customImages), zone, id, t)
    {
      customImages := UpdateTransform(customImages, zone, id, t);
    }
  }

  class ImageUploader {
    const store: Store
    /** Whether the user agent names a mobile browser. */
    const isMobile: bool
    var selectedZone: string
    var uploadStatus: Option<Status>
    /** Every status set so far, in order. */
    ghost var statusLog: seq<Status>
    /** Every file sent to the upload endpoint, in order, with the status shown when it was sent. */
    ghost var uploads: seq<Sent>

    ghost predicate Valid()
      reads this
    {
      && selectedZone in AvailableZones
      && (statusLog == [] ==> uploadStatus.None?)
      && (statusLog != [] ==> uploadStatus == Some(statusLog[|statusLog| - 1]))
    }

    constructor (store: Store, isMobile: bool)
      ensures Valid() && fresh(this)
      ensures this.store == store && this.isMobile == isMobile
      ensures selectedZone == "OutterPalm" && uploadStatus.None?
      ensures statusLog == [] && uploads == []
    {
      this.store := store;
      this.isMobile := isMobile;
      selectedZone := "OutterPalm";
      uploadStatus := None;
      statusLog := [];
      uploads := [];
    }

    /** The zone selector; its options are the available zones. */
    method SelectZone(zone: string)
      requires Valid() && zone in AvailableZones
      modifies this
      ensures Valid() && selectedZone == zone
      ensures uploadStatus == old(uploadStatus) && statusLog == old(statusLog) && uploads == old(uploads)
    {
      selectedZone := zone;
    }

    method SetUploadStatus(s: Status)
      requires Valid()
      modifies this
      ensures Valid() && uploadStatus == Some(s) && statusLog == old(statusLog) + [s]
      ensures selectedZone == old(selectedZone) && uploads == old(uploads)
    {
      uploadStatus := Some(s);
      statusLog := statusLog + [s];
    }

    /**
     * `processFile`: a file above the size limit is refused before any
     * upload; otherwise the status turns to loading, the file is uploaded,
     * and a truthy URL is added to the selected zone.
     */
    method ProcessFile(file: File, upload: Upload, id: string)
      requires Valid()
      modifies this, store
      ensures Valid() && selectedZone == old(selectedZone)
      ensures statusLog == old(statusLog) + ProcessStatuses(file, isMobile, upload(file))
      ensures uploads == old(uploads) + (if SizeAccepted(file, isMobile) then [Sent(file, Some(Uploading))] else [])
      ensures store.customImages ==
        match ProcessAdds(file, isMobile, upload(file))
        case None => old(store.customImages)
        case Some(url) => AddImage(old(store.customImages), selectedZone, id, url)
    {
      var maxSizeMB := MaxSizeMB(isMobile);
      var maxSizeBytes := maxSizeMB * 1024 * 1024;
      if file.size > maxSizeBytes {
        SetUploadStatus(TooLarge(isMobile));
        return;
      }
      SetUploadStatus(Uploading);
      var reply := upload(file);
      uploads := uploads + [Sent(file, uploadStatus)];
      if reply.Rejected? {
        return;
      }
      var url := reply.url;
      if url.Some? && url.value != "" {
        store.AddCustomImage(selectedZone, id, url.value);
        SetUploadStatus(Uploaded);
      } else {
        SetUploadStatus(UploadFailed);
      }
    }

    /** `handleDrop`: only a file of an image type reaches `processFile`. */
    method HandleDrop(file: Option<File>, upload: Upload, id: string)
      requires Valid()
      modifies this, store
      ensures Valid() && selectedZone == old(selectedZone)
      ensures statusLog == old(statusLog) + DropStatuses(file, isMobile, upload)
      ensures !DropAccepted(file) ==> uploads == old(uploads) && store.customImages == old(store.customImages)
      ensures DropAccepted(file) ==>
        && uploads == old(uploads) + (if SizeAccepted(file.value, isMobile) then [Sent(file.value, Some(Uploading))] else [])
        && store.customImages ==
             match ProcessAdds(file.value, isMobile, upload(file.value))
             case None => old(store.customImages)
             case Some(url) => AddImage(old(store.customImages), selectedZone, id, url)
    {
      if !(file.Some? && "image/" <= file.value.mimeType) {
        SetUploadStatus(NotAnImage);
        return;
      }
      ProcessFile(file.value, upload, id);
    }

    /** `handleFileChange`: the picked file goes to `processFile` with no type test; no file does nothing. */
    method HandleFileChange(file: Option<File>, upload: Upload, id: string)
      requires Valid()
      modifies this, store
      ensures Valid() && selectedZone == old(selectedZone)
      ensures file.None? ==> statusLog == old(statusLog) && uploads == old(uploads)
                             && store.customImages == old(store.customImages)
      ensures file.Some? ==>
        && statusLog == old(statusLog) + ProcessStatuses(file.value, isMobile, upload(file.value))
        && uploads == old(uploads) + (if SizeAccepted(file.value, isMobile) then [Sent(file.value, Some(Uploading))] else [])
        && store.customImages ==
             match ProcessAdds(file.value, isMobile, upload(file.value))
             case None => old(store.customImages)
             case Some(url) => AddImage(old(store.customImages), selectedZone, id, url)
    {
      if file.None? {
        return;
      }
      ProcessFile(file.value, upload, id);
    }

    /**
     * `handleTransformChange`: finds the image by id in the selected zone;
     * if it is there, copies its transform, sets the one property and
     * stores the result; otherwise does nothing.
     */
    method HandleTransformChange(imageId: string, property: Property, value: real)
      requires Valid()
      modifies store
      ensures var images := old(store.customImages);
        if selectedZone in images && FindImage(images[selectedZone], imageId).Some? then
          var image := images[selectedZone][FindImage(images[selectedZone], imageId).value];
          store.customImages == UpdateTransform(images, selectedZone, imageId, EditedTransform(image.transform, property, value))
        else store.customImages == images
    {
      if selectedZone !in store.customImages {
        return;
      }
      var found := FindImage(store.customImages[selectedZone], imageId);
      if found.None? {
        return;
      }
      var image := store.customImages[selectedZone][found.value];
      var newTransform := image.transform;
      match property {
        case X => newTransform := newTransform.(x := value);
        case Y => newTransform := newTransform.(y := value);
        case Rotation => newTransform := newTransform.(rotation := value);
        case ScaleProp => newTransform := newTransform.(scale := value);
      }
      if property == ScaleProp {
        newTransform := newTransform.(scale := ClampScale(value));
      }
      store.UpdateImageTransform(selectedZone, imageId, newTransform);
    }
  }
}

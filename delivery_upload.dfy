/**
 * The delivery-proof upload hook: picking and validating an image, and the
 * upload session over `selectedImage`, `uploadProgress`, `uploading` and
 * `uploadComplete`.
 *
 * The permission prompt, the picker, the upload request and its progress events
 * are inputs: their results are parameters, and the asynchronous upload is split
 * into its start, its progress events and its end, so that a cancellation is a
 * sequential event between them. The offline flag is a parameter.
 */
module DeliveryUpload {
  import opened Wrappers
  import OrderStatus

  /** `MAX_FILE_SIZE`: 5 MiB. */
  const MaxFileSize: nat := 5 * 1024 * 1024

  const ImagePrefix: string := "image/"

  /** What the picker returns for one image. */
  datatype Asset = Asset(uri: Option<string>, mimeType: Option<string>, fileSize: Option<nat>, fileName: Option<string>)

  /** The picker's response: whether the user cancelled, and the picked assets. */
  datatype PickerResponse = PickerResponse(didCancel: bool, assets: Option<seq<Asset>>)

  datatype Verdict = Acceptable | NotAnImage | TooLarge

  datatype Source = Camera | Gallery

  datatype SelectOutcome =
    | PermissionDenied(message: string)
    | NothingPicked
    | Rejected(verdict: Verdict)
    | Selected(asset: Asset)

  datatype StartOutcome =
    | OfflineBlocked
    | ProofRequired
    | AlreadyUploading
    | InvalidState
    | Started

  /** How the upload request ended: it resolved, or it rejected with an error whose
      `name` may be absent. */
  datatype UploadResult = Succeeded | Failed(errorName: Option<string>)

  const UploadCanceled: string := "Upload canceled."
  const ProofUploaded: string := "Proof uploaded successfully."

  predicate StartsWith(s: string, prefix: string) {
    |prefix| <= |s| && s[..|prefix|] == prefix
  }

  /** `validateAsset`: an image type first, then the size cap; a missing size
      counts as zero. */
  function ValidateAsset(asset: Asset): (v: Verdict)
    ensures v == Acceptable <==>
      asset.mimeType.Some? && StartsWith(asset.mimeType.value, ImagePrefix) && asset.fileSize.GetOr(0) <= MaxFileSize
    ensures v == NotAnImage <==> !(asset.mimeType.Some? && StartsWith(asset.mimeType.value, ImagePrefix))
  {
    if !(asset.mimeType.Some? && StartsWith(asset.mimeType.value, ImagePrefix)) then NotAnImage
    else if asset.fileSize.GetOr(0) > MaxFileSize then TooLarge
    else Acceptable
  }

  /** The cap is inclusive, and an image without a size is accepted. */
  lemma SizeCapBoundary(uri: Option<string>, name: Option<string>)
    ensures ValidateAsset(Asset(uri, Some("image/jpeg"), Some(5242880), name)) == Acceptable
    ensures ValidateAsset(Asset(uri, Some("image/jpeg"), Some(5242881), name)) == TooLarge
    ensures ValidateAsset(Asset(uri, Some("image/png"), None, name)) == Acceptable
    ensures ValidateAsset(Asset(uri, None, Some(1), name)) == NotAnImage
  {
    assert StartsWith("image/jpeg", ImagePrefix);
    assert StartsWith("image/png", ImagePrefix);
  }

  /** `res?.assets?.[0]`. */
  function FirstAsset(res: PickerResponse): (a: Option<Asset>)
    ensures a.Some? <==> res.assets.Some? && |res.assets.value| > 0
    ensures a.Some? ==> a.value == res.assets.value[0]
  {
    if res.assets.Some? && |res.assets.value| > 0 then Some(res.assets.value[0]) else None
  }

  /** The outcome of one pick: denial, cancellation or no asset, a rejected asset,
      or a selection. */
  function SelectionOutcome(source: Source, granted: bool, res: PickerResponse): (o: SelectOutcome)
    ensures o.Selected? <==>
      granted && !res.didCancel && FirstAsset(res).Some? && ValidateAsset(FirstAsset(res).value) == Acceptable
    ensures o.Selected? ==> o.asset == FirstAsset(res).value
    ensures !granted ==> o.PermissionDenied?
  {
    if !granted then
      PermissionDenied(if source == Camera then "Camera permission is required."
                       else "Media library permission is required.")
    else if res.didCancel || FirstAsset(res).None? then NothingPicked
    else if ValidateAsset(FirstAsset(res).value) != Acceptable then Rejected(ValidateAsset(FirstAsset(res).value))
    else Selected(FirstAsset(res).value)
  }

  /** `Math.round(loaded / total * 100)` in integer arithmetic: the nearest whole
      percentage, halves rounded up. */
  function ProgressPercent(loaded: nat, total: nat): (p: nat)
    requires total > 0
    ensures 2 * total * p <= 200 * loaded + total < 2 * total * (p + 1)
  {
    (200 * loaded + total) / (2 * total)
  }

  /** A progress event never reports more than 100 when no more than the total has
      been sent, and reports 100 when all of it has. */
  lemma ProgressBounds(loaded: nat, total: nat)
    requires total > 0
    ensures loaded <= total ==> ProgressPercent(loaded, total) <= 100
    ensures ProgressPercent(total, total) == 100
  {
    var p := ProgressPercent(loaded, total);
    if loaded <= total {
      assert 200 * loaded + total <= 201 * total;
      MulCancel(2 * total, p, 101);
    }
    var q := ProgressPercent(total, total);
    MulCancel(2 * total, q, 101);
    MulCancel(2 * total, 100, q + 1);
  }

  /** Helper: a positive factor can be cancelled from a strict inequality. */
  lemma MulCancel(a: int, x: int, y: int)
    requires a > 0 && a * x < a * y
    ensures x < y
  {
    if x >= y {
      MulNonNegative(a, x - y);
      assert false;
    }
  }

  lemma MulNonNegative(a: int, b: int)
    requires a >= 0 && b >= 0
    ensures a * b >= 0
  {
  }

  /** A cancel error keeps `uploadComplete` as it was and raises no alert. */
  predicate IsCancellation(name: Option<string>) {
    name == Some("CanceledError") || name == Some("AbortError")
  }

  /** The state guard of `startUpload`: the normalised status must be able to move
      to DELIVERED, which holds exactly for PICKED_UP in any spelling. */
  predicate ReadyForDelivery(orderStatus: Option<string>) {
    OrderStatus.Normalize(Some(OrderStatus.Normalize(orderStatus))) == "PICKED_UP"
  }

  /** Normalising twice is harmless here: the guard passes exactly when the
      status normalises to PICKED_UP. */
  lemma ReadyIffPickedUp(orderStatus: Option<string>)
    ensures ReadyForDelivery(orderStatus) <==> OrderStatus.Normalize(orderStatus) == "PICKED_UP"
  {
    if OrderStatus.Normalize(orderStatus) != "" {
      OrderStatus.NormalizeIdempotent(orderStatus);
    }
  }

  /** An order that passes the guard is PICKED_UP and may move to DELIVERED; a
      CANCELLED order never passes it. */
  lemma ReadyMeansDeliverable(orderStatus: Option<string>)
    ensures ReadyForDelivery(orderStatus) ==>
      OrderStatus.Normalize(orderStatus) == "PICKED_UP" && OrderStatus.CanTransition(orderStatus, Some("DELIVERED"))
    ensures orderStatus == Some("CANCELLED") ==> !ReadyForDelivery(orderStatus)
  {
    ReadyIffPickedUp(orderStatus);
    OrderStatus.OnlyPickedUpDelivers(orderStatus);
    OrderStatus.NormalizeName(OrderStatus.Cancelled);
  }

  /** `canTransitionOrderStatus(normalizeOrderStatus(order?.status), DELIVERED)`. */
  method CheckReadyForDelivery(orderStatus: Option<string>) returns (ready: bool)
    ensures ready <==> ReadyForDelivery(orderStatus)
  {
    var status := OrderStatus.Normalize(orderStatus);
    ready := OrderStatus.CanTransition(Some(status), Some("DELIVERED"));
    OrderStatus.OnlyPickedUpDelivers(Some(status));
  }

  class UploadSession {
    /** `order?.status` of the order the hook was given. */
    const orderStatus: Option<string>
    var selectedImage: Option<Asset>
    var uploadProgress: nat
    var uploading: bool
    var uploadComplete: bool
    /** `abortRef.current` is set. */
    var hasController: bool
    /** Upload requests started and not yet settled. */
    var pending: nat
    /** The toasts dispatched so far. */
    var toasts: seq<string>

    constructor(orderStatus: Option<string>)
      ensures this.orderStatus == orderStatus
      ensures selectedImage == None && uploadProgress == 0 && !uploading && !uploadComplete
      ensures !hasController && pending == 0 && toasts == []
      ensures Valid()
    {
      this.orderStatus := orderStatus;
      selectedImage := None;
      uploadProgress := 0;
      uploading := false;
      uploadComplete := false;
      hasController := false;
      pending := 0;
      toasts := [];
    }

    /** A request in flight or a completed upload was started for this order, so
        the order was ready for delivery. */
    predicate Valid()
      reads this
    {
      pending > 0 || uploadComplete ==> ReadyForDelivery(orderStatus)
    }

    /** The second guard of `startUpload`: a selected image with a non-empty uri. */
    predicate HasProofUri()
      reads this
    {
      selectedImage.Some? && selectedImage.value.uri.Some? && selectedImage.value.uri.value != ""
    }

    /** `canUpload`: online, an image selected and no upload running; the uri is
        not checked. */
    predicate CanUpload(isOffline: bool)
      reads this
    {
      !isOffline && selectedImage.Some? && !uploading
    }

    /** `selectFromCamera` / `selectFromGallery` after the permission prompt and the
        picker: only an accepted asset changes the state, and it resets the
        progress and the completion flag. */
    method Select(source: Source, granted: bool, res: PickerResponse) returns (outcome: SelectOutcome)
      requires Valid()
      modifies this
      ensures Valid()
      ensures outcome == SelectionOutcome(source, granted, res)
      ensures outcome.Selected? ==>
        selectedImage == Some(outcome.asset) && !uploadComplete && uploadProgress == 0
      ensures !outcome.Selected? ==>
        selectedImage == old(selectedImage) && uploadComplete == old(uploadComplete)
        && uploadProgress == old(uploadProgress)
      ensures uploading == old(uploading) && hasController == old(hasController)
      ensures pending == old(pending) && toasts == old(toasts)
    {
      outcome := SelectionOutcome(source, granted, res);
      if outcome.Selected? {
        selectedImage := Some(outcome.asset);
        uploadComplete := false;
        uploadProgress := 0;
      }
    }

    /** The guards of `startUpload`, in order: offline, no image uri, an upload in
        progress, an order that cannot move to DELIVERED. Only a passing start
        changes the state. */
    method StartUpload(isOffline: bool) returns (outcome: StartOutcome)
      requires Valid()
      modifies this
      ensures Valid()
      ensures outcome == OfflineBlocked <==> isOffline
      ensures outcome == ProofRequired <==> !isOffline && !old(HasProofUri())
      ensures outcome == AlreadyUploading <==> !isOffline && old(HasProofUri()) && old(uploading)
      ensures outcome == Started ==> ReadyForDelivery(orderStatus)
      ensures outcome == InvalidState ==> !ReadyForDelivery(orderStatus)
      ensures outcome == Started ==>
        uploading && uploadProgress == 0 && hasController && pending == old(pending) + 1
        && selectedImage == old(selectedImage) && uploadComplete == old(uploadComplete) && toasts == old(toasts)
      ensures outcome != Started ==>
        selectedImage == old(selectedImage) && uploadProgress == old(uploadProgress) && uploading == old(uploading)
        && uploadComplete == old(uploadComplete) && hasController == old(hasController)
        && pending == old(pending) && toasts == old(toasts)
    {
      var ready := false;
      if !isOffline && HasProofUri() && !uploading {
        ready := CheckReadyForDelivery(orderStatus);
      }
      outcome := Begin(isOffline, ready);
    }

    /** The guards of `startUpload` once the order's readiness is known. */
    method Begin(isOffline: bool, ready: bool) returns (outcome: StartOutcome)
      modifies this
      ensures outcome == OfflineBlocked <==> isOffline
      ensures outcome == ProofRequired <==> !isOffline && !old(HasProofUri())
      ensures outcome == AlreadyUploading <==> !isOffline && old(HasProofUri()) && old(uploading)
      ensures outcome == Started <==> !isOffline && old(HasProofUri()) && !old(uploading) && ready
      ensures outcome == InvalidState <==> !isOffline && old(HasProofUri()) && !old(uploading) && !ready
      ensures outcome == Started ==>
        uploading && uploadProgress == 0 && hasController && pending == old(pending) + 1
        && selectedImage == old(selectedImage) && uploadComplete == old(uploadComplete) && toasts == old(toasts)
      ensures outcome != Started ==>
        selectedImage == old(selectedImage) && uploadProgress == old(uploadProgress) && uploading == old(uploading)
        && uploadComplete == old(uploadComplete) && hasController == old(hasController)
        && pending == old(pending) && toasts == old(toasts)
    {
      if isOffline {
        return OfflineBlocked;
      }
      if !HasProofUri() {
        return ProofRequired;
      }
      if uploading {
        return AlreadyUploading;
      }
      if !ready {
        return InvalidState;
      }
      uploading := true;
      uploadProgress := 0;
      hasController := true;
      pending := pending + 1;
      outcome := Started;
    }

    /** `onUploadProgress`: an event with a falsy total is ignored. */
    method OnUploadProgress(loaded: nat, total: Option<nat>)
      requires pending > 0 && Valid()
      modifies this
      ensures Valid()
      ensures total.Some? && total.value > 0 ==> uploadProgress == ProgressPercent(loaded, total.value)
      ensures !(total.Some? && total.value > 0) ==> uploadProgress == old(uploadProgress)
      ensures selectedImage == old(selectedImage) && uploading == old(uploading)
      ensures uploadComplete == old(uploadComplete) && hasController == old(hasController)
      ensures pending == old(pending) && toasts == old(toasts)
    {
      if total.Some? && total.value > 0 {
        uploadProgress := ProgressPercent(loaded, total.value);
      }
    }

    /** The end of an upload request: success completes at 100 %, a failure other
        than a cancellation clears the completion flag, a cancellation leaves it;
        every path ends with no upload running and no controller. */
    method FinishUpload(result: UploadResult) returns (ok: bool)
      requires pending > 0 && Valid()
      modifies this
      ensures Valid()
      ensures ok <==> result == Succeeded
      ensures result == Succeeded ==>
        uploadProgress == 100 && uploadComplete && toasts == old(toasts) + [ProofUploaded]
      ensures result.Failed? && !IsCancellation(result.errorName) ==>
        !uploadComplete && uploadProgress == old(uploadProgress) && toasts == old(toasts)
      ensures result.Failed? && IsCancellation(result.errorName) ==>
        uploadComplete == old(uploadComplete) && uploadProgress == old(uploadProgress) && toasts == old(toasts)
      ensures !uploading && !hasController && pending == old(pending) - 1
      ensures selectedImage == old(selectedImage)
    {
      if result == Succeeded {
        uploadProgress := 100;
        uploadComplete := true;
        toasts := toasts + [ProofUploaded];
        ok := true;
      } else {
        if !IsCancellation(result.errorName) {
          uploadComplete := false;
        }
        ok := false;
      }
      uploading := false;
      hasController := false;
      pending := pending - 1;
    }

    /** `cancelUpload`: unconditional; it aborts the running request when there is
        one, and always stops, resets the progress and toasts. */
    method CancelUpload() returns (aborted: bool)
      requires Valid()
      modifies this
      ensures Valid()
      ensures aborted == old(hasController)
      ensures !uploading && uploadProgress == 0 && !hasController
      ensures toasts == old(toasts) + [UploadCanceled]
      ensures selectedImage == old(selectedImage) && uploadComplete == old(uploadComplete)
      ensures pending == old(pending)
    {
      aborted := hasController;
      hasController := false;
      uploading := false;
      uploadProgress := 0;
      toasts := toasts + [UploadCanceled];
    }
  }

  /** A picked-up order with a selected image uploads, and a success leaves the
      session complete at 100 %. */
  method HappyPath(asset: Asset) returns (s: UploadSession)
    requires asset.uri == Some("file:///proof.jpg") && ValidateAsset(asset) == Acceptable
    ensures s.uploadComplete && s.uploadProgress == 100 && !s.uploading && s.pending == 0
  {
    s := new UploadSession(Some("PICKED_UP"));
    var picked := s.Select(Camera, true, PickerResponse(false, Some([asset])));
    OrderStatus.ParseNormalizeName(OrderStatus.PickedUp);
    OrderStatus.ParseNormalizeName(OrderStatus.Delivered);
    OrderStatus.NormalizeName(OrderStatus.PickedUp);
    assert OrderStatus.Allows(Some(OrderStatus.PickedUp), Some(OrderStatus.Delivered));
    var started := s.StartUpload(false);
    assert started == Started;
    var ok := s.FinishUpload(Succeeded);
  }

  /** `canUpload` asks for a selected image but not for its uri, so an enabled
      Upload button can still be refused as missing proof, changing nothing. */
  method EnabledUploadWithoutUri(s: UploadSession, isOffline: bool) returns (outcome: StartOutcome)
    requires s.Valid() && s.CanUpload(isOffline) && !s.HasProofUri()
    modifies s
    ensures outcome == ProofRequired
    ensures s.selectedImage == old(s.selectedImage) && s.uploading == old(s.uploading)
    ensures s.uploadComplete == old(s.uploadComplete) && s.pending == old(s.pending)
  {
    outcome := s.StartUpload(isOffline);
  }

  /** An accepted asset without a uri enables the Upload button, and the tap is
      refused as missing proof, whatever the order. */
  method UploadButtonWithoutUri(orderStatus: Option<string>, asset: Asset) returns (enabled: bool, outcome: StartOutcome)
    requires asset.uri.None? && ValidateAsset(asset) == Acceptable
    ensures enabled && outcome == ProofRequired
  {
    var s := new UploadSession(orderStatus);
    var picked := s.Select(Gallery, true, PickerResponse(false, Some([asset])));
    enabled := s.CanUpload(false);
    outcome := EnabledUploadWithoutUri(s, false);
  }
}

/**
 * The delivery verification screen: the customer OTP, the confirmation gate
 * that needs a completed proof upload, and the completion that hands the order
 * on as DELIVERED. The build flavour (`__DEV__`) is the parameter `isDev`.
 */
module DeliveryProof {
  import opened Wrappers
  import opened Entities
  import OrderStatus
  import DeliveryUpload

  /** The OTP accepted in development builds. */
  const DevOtp := "1234"

  predicate IsValidOtp(otp: string) { |otp| == 4 }

  /** `canConfirm`: online, no completion running, a four-character OTP and a
      completed upload. */
  predicate CanConfirm(isOffline: bool, actionLoading: bool, otp: string, uploadComplete: bool) {
    !isOffline && !actionLoading && IsValidOtp(otp) && uploadComplete
  }

  /** The Confirm button. */
  predicate ConfirmDisabled(canConfirm: bool, uploading: bool, actionLoading: bool) {
    !canConfirm || uploading || actionLoading
  }

  /** The Retry button, shown while no upload runs. */
  predicate RetryDisabled(hasImage: bool, uploadComplete: bool, isOffline: bool) {
    !hasImage || uploadComplete || isOffline
  }

  /** The three ways a tap on Confirm ends. */
  datatype Completion =
    | RequirementsMissing
    | InvalidOtp
    /** The summary screen opens with the order marked DELIVERED; an absent order
        stays absent. */
    | Completed(order: Option<Order>)

  /** The order as handed to the summary screen. */
  function MarkDelivered(order: Option<Order>): (r: Option<Order>)
    ensures order.None? <==> r.None?
    ensures r.Some? ==> r.value == order.value.(status := Some(OrderStatus.Name(OrderStatus.Delivered)))
  {
    match order
    case None => None
    case Some(o) => Some(o.(status := Some(OrderStatus.Name(OrderStatus.Delivered))))
  }

  class Screen {
    var otp: string
    var actionLoading: bool

    constructor()
      ensures otp == "" && !actionLoading
    {
      otp := "";
      actionLoading := false;
    }

    method SetOtp(text: string)
      modifies this
      ensures otp == text && actionLoading == old(actionLoading)
    {
      otp := text;
    }

    /** `handleComplete`: the gate, then in development builds the fixed OTP,
        then completion after a fake delay; no transition check and no backend
        call. */
    method HandleComplete(isDev: bool, isOffline: bool, uploadComplete: bool, order: Option<Order>) returns (c: Completion)
      modifies this
      ensures c == RequirementsMissing <==> !CanConfirm(isOffline, old(actionLoading), otp, uploadComplete)
      ensures c == InvalidOtp <==> CanConfirm(isOffline, old(actionLoading), otp, uploadComplete) && isDev && otp != DevOtp
      ensures c.Completed? ==> c.order == MarkDelivered(order)
      ensures c.Completed? ==> !actionLoading
      ensures !c.Completed? ==> actionLoading == old(actionLoading)
      ensures otp == old(otp)
    {
      if !CanConfirm(isOffline, actionLoading, otp, uploadComplete) {
        return RequirementsMissing;
      }
      if isDev && otp != DevOtp {
        return InvalidOtp;
      }
      actionLoading := true;
      c := Completed(MarkDelivered(order));
      actionLoading := false;
    }
  }

  /** `handleComplete` itself checks no transition: given a completed upload, an
      online device and the development OTP, it marks any order DELIVERED, a
      CANCELLED one included. In the app the completed upload cannot exist for
      such an order; see `ConfirmWithSession`. */
  method CompletionIgnoresLifecycle(order: Order) returns (c: Completion)
    requires order.status == Some(OrderStatus.Name(OrderStatus.Cancelled))
    ensures c.Completed? && c.order.Some? && c.order.value.status == Some(OrderStatus.Name(OrderStatus.Delivered))
    ensures !OrderStatus.CanTransition(order.status, Some(OrderStatus.Name(OrderStatus.Delivered)))
  {
    var s := new Screen();
    s.SetOtp(DevOtp);
    c := s.HandleComplete(true, false, true, Some(order));
    OrderStatus.TerminalStatuses(OrderStatus.Cancelled, Some(OrderStatus.Name(OrderStatus.Delivered)));
  }

  /** Whenever Confirm is enabled, a tap passes the gate. */
  lemma EnabledConfirmPassesGate(isOffline: bool, actionLoading: bool, otp: string, uploadComplete: bool, uploading: bool)
    requires !ConfirmDisabled(CanConfirm(isOffline, actionLoading, otp, uploadComplete), uploading, actionLoading)
    ensures IsValidOtp(otp) && uploadComplete && !isOffline && !uploading
  {
  }

  /** The status an order is handed to the upload hook with. */
  function StatusOf(order: Option<Order>): Option<string> {
    if order.Some? then order.value.status else None
  }

  /** In the app the upload hook and the completion share the route's order, and
      only an upload started for that order can complete. So a completion only
      ever delivers an order whose status normalises to PICKED_UP: the move to
      DELIVERED it records is one the table allows, and a CANCELLED order is
      never delivered. */
  method ConfirmWithSession(p: Screen, u: DeliveryUpload.UploadSession, isDev: bool, isOffline: bool, order: Option<Order>)
    returns (c: Completion)
    requires u.Valid() && u.orderStatus == StatusOf(order)
    modifies p
    ensures c.Completed? ==> OrderStatus.Normalize(StatusOf(order)) == "PICKED_UP"
    ensures c.Completed? ==> OrderStatus.CanTransition(StatusOf(order), Some("DELIVERED"))
    ensures StatusOf(order) == Some("CANCELLED") ==> !c.Completed?
  {
    var ready := u.uploadComplete;
    DeliveryUpload.ReadyMeansDeliverable(u.orderStatus);
    c := p.HandleComplete(isDev, isOffline, ready, order);
  }

  /** Retry is shown while no upload runs. There it is enabled exactly when the
      Upload button is and the upload has not completed yet. */
  lemma RetryEnabledIff(u: DeliveryUpload.UploadSession, isOffline: bool)
    requires !u.uploading
    ensures !RetryDisabled(u.selectedImage.Some?, u.uploadComplete, isOffline) <==> u.CanUpload(isOffline) && !u.uploadComplete
  {
  }

  /** A tap on an enabled Retry is never refused as offline or as a running
      upload; it starts exactly when the image has a uri and the order is ready
      for delivery. */
  method TapRetry(u: DeliveryUpload.UploadSession, isOffline: bool) returns (outcome: DeliveryUpload.StartOutcome)
    requires u.Valid() && !u.uploading && !RetryDisabled(u.selectedImage.Some?, u.uploadComplete, isOffline)
    modifies u
    ensures outcome != DeliveryUpload.OfflineBlocked && outcome != DeliveryUpload.AlreadyUploading
    ensures outcome == DeliveryUpload.Started <==> old(u.HasProofUri()) && DeliveryUpload.ReadyForDelivery(u.orderStatus)
    ensures u.Valid()
  {
    outcome := u.StartUpload(isOffline);
  }
}

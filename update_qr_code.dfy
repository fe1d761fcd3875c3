/** The admin form that changes the prize of one QR code (src/pages/UpdateQRCode.js). */
module UpdateQRCode {
  import opened Wrappers
  import opened JsStrings
  import opened AdminSession

  /** `isUpdateDisabled`: Update is enabled exactly when idle with both fields non-blank. */
  function UpdateDisabled(qrCodeId: string, prizeType: string, isLoading: bool): (r: bool)
    ensures !r <==> !isLoading && HasVisibleChar(qrCodeId) && HasVisibleChar(prizeType)
  {
    TrimEmptyIff(qrCodeId);
    TrimEmptyIff(prizeType);
    Trim(qrCodeId) == [] || Trim(prizeType) == [] || isLoading
  }

  const UpdateFailedText := "Error updating QR Code"

  /** `buttonText`: "Updating..." exactly while loading, "Update QR Code" otherwise. */
  function UpdateButtonText(isLoading: bool): (r: string)
    ensures r == "Updating..." <==> isLoading
    ensures r == "Update QR Code" <==> !isLoading
  {
    if isLoading then "Updating..." else "Update QR Code"
  }

  /**
   * The arguments `handleUpdate` passes to `updateQRCode`: the QR code id and the prize
   * type as typed, and the `Authorization` header of the config object.
   */
  datatype UpdateCall = UpdateCall(qrCodeId: string, prizeType: string, authorization: string)

  /** The component state, with the stored token and the page it sent the browser to. */
  class UpdateForm {
    var qrCodeId: string
    var prizeType: string
    var message: Option<string>
    var isLoading: bool
    var token: Option<string>
    var redirectedTo: Option<string>

    constructor (storedToken: Option<string>)
      ensures qrCodeId == "" && prizeType == "" && message == Some("") && !isLoading
      ensures token == storedToken && redirectedTo == None
    {
      qrCodeId, prizeType, message, isLoading := "", "", Some(""), false;
      token, redirectedTo := storedToken, None;
    }

    /** Update is enabled exactly when the form is idle and neither field is blank. */
    function Disabled(): (r: bool)
      reads this
      ensures !r <==> !isLoading && HasVisibleChar(qrCodeId) && HasVisibleChar(prizeType)
    {
      UpdateDisabled(qrCodeId, prizeType, isLoading)
    }

    function ButtonText(): string
      reads this
    {
      UpdateButtonText(isLoading)
    }

    method ChangeQrCodeId(raw: string)
      modifies this
      ensures qrCodeId == raw
      ensures prizeType == old(prizeType) && message == old(message) && isLoading == old(isLoading)
      ensures token == old(token) && redirectedTo == old(redirectedTo)
    {
      qrCodeId := raw;
    }

    method ChangePrizeType(raw: string)
      modifies this
      ensures prizeType == raw
      ensures qrCodeId == old(qrCodeId) && message == old(message) && isLoading == old(isLoading)
      ensures token == old(token) && redirectedTo == old(redirectedTo)
    {
      prizeType := raw;
    }

    /** `handleUpdate` up to the `await`: loading on, message cleared, the call's arguments built from the fields. */
    method BeginUpdate() returns (call: UpdateCall)
      modifies this
      ensures isLoading && message == Some("") && ButtonText() == "Updating..."
      ensures call == UpdateCall(qrCodeId, prizeType, BearerHeader(token))
      ensures qrCodeId == old(qrCodeId) && prizeType == old(prizeType)
      ensures token == old(token) && redirectedTo == old(redirectedTo)
    {
      isLoading := true;
      message := Some("");
      call := UpdateCall(qrCodeId, prizeType, BearerHeader(token));
    }

    /** `handleAuthError`: sign out on a missing status or 401, otherwise show the fallback text. */
    method HandleAuthError(status: Option<int>, fallback: string)
      modifies this
      ensures SessionRejected(status) ==>
        token == None && redirectedTo == Some(LoginPath) && message == old(message)
      ensures !SessionRejected(status) ==>
        message == Some(fallback) && token == old(token) && redirectedTo == old(redirectedTo)
      ensures qrCodeId == old(qrCodeId) && prizeType == old(prizeType) && isLoading == old(isLoading)
    {
      match AuthErrorOutcome(status, fallback) {
        case SignOut =>
          token := None;
          redirectedTo := Some(LoginPath);
        case ShowMessage(text) =>
          message := Some(text);
      }
    }

    /** `handleUpdate` after the request: the reply's message or the error handling; loading ends. */
    method CompleteUpdate(reply: Reply)
      modifies this
      ensures !isLoading && ButtonText() == "Update QR Code"
      ensures reply.Replied? ==>
        message == reply.message && token == old(token) && redirectedTo == old(redirectedTo)
      ensures reply.Rejected? && SessionRejected(reply.status) ==>
        token == None && redirectedTo == Some(LoginPath) && message == old(message)
      ensures reply.Rejected? && !SessionRejected(reply.status) ==>
        message == Some(UpdateFailedText) && token == old(token) && redirectedTo == old(redirectedTo)
      ensures qrCodeId == old(qrCodeId) && prizeType == old(prizeType)
    {
      match reply {
        case Replied(m) =>
          message := m;
        case Rejected(status) =>
          HandleAuthError(status, UpdateFailedText);
      }
      isLoading := false;
    }
  }
}

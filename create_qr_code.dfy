/** The admin form that generates a batch of QR codes (src/pages/CreateQRCode.js). */
module CreateQRCode {
  import opened Wrappers
  import opened JsStrings
  import opened AdminSession

  /** The count `onChange`: `replace(/\D/g, "")`. */
  function SanitiseCount(raw: string): (r: string)
    ensures AllDigits(r) && |r| <= |raw|
    ensures forall c :: c in r <==> c in raw && IsDigit(c)
  {
    Filter(raw, IsDigit)
  }

  /** Sanitising keeps a string of digits and so is idempotent. */
  lemma SanitiseCountIdempotent(raw: string)
    ensures SanitiseCount(SanitiseCount(raw)) == SanitiseCount(raw)
    ensures AllDigits(raw) ==> SanitiseCount(raw) == raw
  {
    FilterKeepsAll(SanitiseCount(raw), IsDigit);
    if AllDigits(raw) {
      FilterKeepsAll(raw, IsDigit);
    }
  }

  /**
   * `parseInt(count, 10) || 0`: `NaN` (and zero) become 0. A count of digits is its
   * decimal value, and the empty count is 0.
   */
  function NumericCount(count: string): (r: int)
    ensures AllDigits(count) ==> r == DecimalValue(count) as int
  {
    match ParseInt10(count)
    case None => 0
    case Some(v) => v
  }

  /** The numeric count of `String(n)` is `n`. */
  lemma NumericCountRoundTrip(n: nat)
    ensures NumericCount(NatToString(n)) == n
  {
    ParseIntRoundTrip(n);
  }

  /** `isGenerateDisabled`: a blank prize type, a count that is not positive, or a request in flight. */
  function GenerateDisabled(prizeType: string, count: string, isLoading: bool): (r: bool)
    ensures r <==> isLoading || !HasVisibleChar(prizeType) || NumericCount(count) <= 0
  {
    TrimEmptyIff(prizeType);
    Trim(prizeType) == [] || NumericCount(count) <= 0 || isLoading
  }

  /**
   * For a count made of digits, Generate is enabled exactly when nothing is loading, the
   * prize type has a non-blank character and the count has a non-zero digit.
   */
  lemma GenerateEnabledIff(prizeType: string, count: string, isLoading: bool)
    requires AllDigits(count)
    ensures !GenerateDisabled(prizeType, count, isLoading) <==>
      !isLoading && HasVisibleChar(prizeType) && exists i :: 0 <= i < |count| && count[i] != '0'
  {
    DecimalValueZero(count);
  }

  const CreateFailedText := "Error creating QR Code"

  /** `buttonText`: "Generating..." exactly while loading, "Generate QR Code" otherwise. */
  function CreateButtonText(isLoading: bool): (r: string)
    ensures r == "Generating..." <==> isLoading
    ensures r == "Generate QR Code" <==> !isLoading
  {
    if isLoading then "Generating..." else "Generate QR Code"
  }

  /**
   * The arguments `handleCreate` passes to `createQRCode`: the prize type and the count
   * as typed, and the `Authorization` header of the config object.
   */
  datatype CreateCall = CreateCall(prizeType: string, count: string, authorization: string)

  /** The component state, with the stored token and the page it sent the browser to. */
  class CreateForm {
    var prizeType: string
    var count: string
    var message: Option<string>
    var isLoading: bool
    var token: Option<string>
    var redirectedTo: Option<string>

    /** The count field only ever holds digits. */
    ghost predicate Valid()
      reads this
    {
      AllDigits(count)
    }

    constructor (storedToken: Option<string>)
      ensures Valid()
      ensures prizeType == "" && count == "" && message == Some("") && !isLoading
      ensures token == storedToken && redirectedTo == None
    {
      prizeType, count, message, isLoading := "", "", Some(""), false;
      token, redirectedTo := storedToken, None;
    }

    /** With a count of digits, Generate is disabled unless idle, with a prize type and a non-zero digit. */
    function Disabled(): (r: bool)
      requires Valid()
      reads this
      ensures !r <==> !isLoading && HasVisibleChar(prizeType) && exists i :: 0 <= i < |count| && count[i] != '0'
    {
      GenerateEnabledIff(prizeType, count, isLoading);
      GenerateDisabled(prizeType, count, isLoading)
    }

    function ButtonText(): string
      reads this
    {
      CreateButtonText(isLoading)
    }

    method ChangePrizeType(raw: string)
      requires Valid()
      modifies this
      ensures Valid()
      ensures prizeType == raw
      ensures count == old(count) && message == old(message) && isLoading == old(isLoading)
      ensures token == old(token) && redirectedTo == old(redirectedTo)
    {
      prizeType := raw;
    }

    /** `handleCountChange` */
    method ChangeCount(raw: string)
      requires Valid()
      modifies this
      ensures Valid()
      ensures count == SanitiseCount(raw)
      ensures prizeType == old(prizeType) && message == old(message) && isLoading == old(isLoading)
      ensures token == old(token) && redirectedTo == old(redirectedTo)
    {
      count := SanitiseCount(raw);
    }

    /** `handleCreate` up to the `await`: loading on, message cleared, the call's arguments built from the fields. */
    method BeginCreate() returns (call: CreateCall)
      requires Valid()
      modifies this
      ensures Valid()
      ensures isLoading && message == Some("") && ButtonText() == "Generating..."
      ensures call == CreateCall(prizeType, count, BearerHeader(token))
      ensures prizeType == old(prizeType) && count == old(count)
      ensures token == old(token) && redirectedTo == old(redirectedTo)
    {
      isLoading := true;
      message := Some("");
      call := CreateCall(prizeType, count, BearerHeader(token));
    }

    /** `handleAuthError`: sign out on a missing status or 401, otherwise show the fallback text. */
    method HandleAuthError(status: Option<int>, fallback: string)
      modifies this
      ensures SessionRejected(status) ==>
        token == None && redirectedTo == Some(LoginPath) && message == old(message)
      ensures !SessionRejected(status) ==>
        message == Some(fallback) && token == old(token) && redirectedTo == old(redirectedTo)
      ensures prizeType == old(prizeType) && count == old(count) && isLoading == old(isLoading)
    {
      match AuthErrorOutcome(status, fallback) {
        case SignOut =>
          token := None;
          redirectedTo := Some(LoginPath);
        case ShowMessage(text) =>
          message := Some(text);
      }
    }

    /** `handleCreate` after the request: the reply's message or the error handling; loading ends. */
    method CompleteCreate(reply: Reply)
      requires Valid()
      modifies this
      ensures Valid()
      ensures !isLoading && ButtonText() == "Generate QR Code"
      ensures reply.Replied? ==>
        message == reply.message && token == old(token) && redirectedTo == old(redirectedTo)
      ensures reply.Rejected? && SessionRejected(reply.status) ==>
        token == None && redirectedTo == Some(LoginPath) && message == old(message)
      ensures reply.Rejected? && !SessionRejected(reply.status) ==>
        message == Some(CreateFailedText) && token == old(token) && redirectedTo == old(redirectedTo)
      ensures prizeType == old(prizeType) && count == old(count)
    {
      match reply {
        case Replied(m) =>
          message := m;
        case Rejected(status) =>
          HandleAuthError(status, CreateFailedText);
      }
      isLoading := false;
    }
  }
}

/** The errors of the Wisp codec and their `Display` text. Boxed foreign
    errors (`Box<dyn Error>`) are represented by their `Debug` text. */
module WispErrors {
  import Utf8
  import opened Wrappers

  datatype WispError =
    | PacketTooSmall
    | InvalidPacketType
    | InvalidStreamType
    | InvalidStreamId
    | InvalidCloseReason
    | InvalidUri
    | UriHasNoHost
    | UriHasNoPort
    | MaxStreamCountReached
    | StreamAlreadyClosed
    | WsFrameInvalidType
    | WsFrameNotFinished
    | WsImplError(implError: string)
    | WsImplSocketClosed
    | WsImplNotSupported
    | Utf8Error(utf8: Utf8.Utf8Error)
    | Other(other: string)

  /** The variants that carry no payload. */
  predicate IsUnit(e: WispError) {
    !(e.WsImplError? || e.Utf8Error? || e.Other?)
  }

  /** `From<Utf8Error> for WispError`: the error is kept as it is. */
  function FromUtf8Error(err: Utf8.Utf8Error): (e: WispError)
    ensures e.Utf8Error? && e.utf8 == err
  {
    Utf8Error(err)
  }

  function DigitChar(d: nat): (c: char)
    requires d < 10
    ensures '0' <= c <= '9' && c as int - '0' as int == d
  {
    ('0' as int + d) as char
  }

  /** Decimal rendering of a natural number, as `{}` and `{:?}` print it. */
  function Decimal(n: nat): (s: string)
    ensures |s| > 0
    ensures forall k :: 0 <= k < |s| ==> '0' <= s[k] <= '9'
  {
    if n < 10 then [DigitChar(n)] else Decimal(n / 10) + [DigitChar(n % 10)]
  }

  /** The number a string of decimal digits denotes. */
  function DecimalValue(s: string): nat
    requires forall k :: 0 <= k < |s| ==> '0' <= s[k] <= '9'
  {
    if s == [] then 0 else DecimalValue(s[..|s| - 1]) * 10 + (s[|s| - 1] as int - '0' as int)
  }

  lemma {:induction false} DecimalDenotes(n: nat)
    ensures DecimalValue(Decimal(n)) == n
  {
    if n >= 10 {
      DecimalDenotes(n / 10);
      var s := Decimal(n);
      assert s[..|s| - 1] == Decimal(n / 10);
    }
  }

  /** `{:?}` of `Utf8Error`: the derived struct format, field by field. */
  function Utf8ErrorDebug(err: Utf8.Utf8Error): (msg: string)
    ensures var head := "Utf8Error { valid_up_to: " + Decimal(err.validUpTo) + ", error_len: ";
            |head| < |msg| && msg[..|head|] == head
    ensures |msg| >= 2 && msg[|msg| - 2..] == " }"
    ensures err.errorLen.None? ==> |msg| >= 6 && msg[|msg| - 6..] == "None }"
    ensures err.errorLen.Some? ==>
              msg == "Utf8Error { valid_up_to: " + Decimal(err.validUpTo) + ", error_len: "
                     + "Some(" + Decimal(err.errorLen.value) + ") }"
  {
    "Utf8Error { valid_up_to: " + Decimal(err.validUpTo) + ", error_len: "
      + (match err.errorLen case None => "None" case Some(n) => "Some(" + Decimal(n) + ")")
      + " }"
  }

  /** `impl Display for WispError`. */
  function Display(e: WispError): (msg: string)
    ensures |msg| > 0
    ensures e.WsImplError? ==> msg == "Websocket implementation error: " + e.implError
    ensures e.Utf8Error? ==> msg == "UTF-8 error: " + Utf8ErrorDebug(e.utf8)
    ensures e.Other? ==> msg == "Other error: " + e.other
  {
    match e
    case PacketTooSmall => "Packet too small"
    case InvalidPacketType => "Invalid packet type"
    case InvalidStreamType => "Invalid stream type"
    case InvalidStreamId => "Invalid stream id"
    case InvalidCloseReason => "Invalid close reason"
    case InvalidUri => "Invalid URI"
    case UriHasNoHost => "URI has no host"
    case UriHasNoPort => "URI has no port"
    case MaxStreamCountReached => "Maximum stream count reached"
    case StreamAlreadyClosed => "Stream already closed"
    case WsFrameInvalidType => "Invalid websocket frame type"
    case WsFrameNotFinished => "Unfinished websocket frame"
    case WsImplError(err) => "Websocket implementation error: " + err
    case WsImplSocketClosed => "Websocket implementation error: websocket closed"
    case WsImplNotSupported => "Websocket implementation error: unsupported feature"
    case Utf8Error(err) => "UTF-8 error: " + Utf8ErrorDebug(err)
    case Other(err) => "Other error: " + err
  }

  /** The messages the codec's own errors print. */
  lemma CodecErrorMessages()
    ensures Display(PacketTooSmall) == "Packet too small"
    ensures Display(InvalidPacketType) == "Invalid packet type"
    ensures Display(InvalidStreamType) == "Invalid stream type"
    ensures Display(InvalidCloseReason) == "Invalid close reason"
  {
  }

  /** Each unit variant has its own fixed message: no two share one. */
  lemma DisplayDistinguishesUnitVariants(e1: WispError, e2: WispError)
    requires IsUnit(e1) && IsUnit(e2) && e1 != e2
    ensures Display(e1) != Display(e2)
  {
  }
}

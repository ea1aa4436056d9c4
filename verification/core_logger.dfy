/**
 * The core-library logger adapter: every log call of the shared core libraries
 * goes to the Timber logger unchanged and is forwarded once to the Proton logger,
 * at a level fixed by the overload, with debug messages truncated, the three API
 * tags turned into dedicated API events and every other tag given a category.
 * Both sinks are modelled as the records a call produces.
 */
module CoreLogger {
  import opened Options

  /** The core logs full response bodies at debug level: they are cut to this length. */
  const MaxDebugMsgLength: nat := 500

  /** The message used when an overload is given only a throwable. */
  const NoMessage: string := "no message"

  datatype LogLevel = Error | Warn | Info | Debug | Trace

  /** The categories the routing table produces. */
  datatype LogCategory = Api | SecureStore | App

  datatype ApiEvent = ApiLogRequest | ApiLogResponse | ApiLogError

  /** The core library a tag constant is declared in. */
  datatype TagOrigin = Account | Network | HumanVerification | Keystore | UnknownOrigin

  /** The tag constants of the core libraries that the table names, each one
      distinct, and every other tag string. */
  datatype LogTag =
    | SessionRefresh | SessionRequest | SessionForceLogout
    | ServerTimeParseError | ApiRequest | ApiResponse | ApiError | NetworkDefault
    | HvRequestError
    | KeystoreInit | KeystoreEncrypt | KeystoreDecrypt
    | OtherTag(name: string)
  {
    function Origin(): TagOrigin
    {
      match this
      case SessionRefresh | SessionRequest | SessionForceLogout => Account
      case ServerTimeParseError | ApiRequest | ApiResponse | ApiError | NetworkDefault => Network
      case HvRequestError => HumanVerification
      case KeystoreInit | KeystoreEncrypt | KeystoreDecrypt => Keystore
      case OtherTag(_) => UnknownOrigin
    }

    /** The network tags that have an API event of their own. */
    predicate IsApiEventTag()
    {
      this == ApiRequest || this == ApiResponse || this == ApiError
    }
  }

  /** A throwable, reduced to its printed stack trace. */
  datatype Throwable = Throwable(stackTrace: string)

  /** What reaches the Proton logger: an API event, or a custom entry. */
  datatype Forward =
    | ApiEventLog(event: ApiEvent, message: string)
    | CustomLog(level: LogLevel, category: LogCategory, message: string)

  /** What reaches the Timber logger: the overload's own arguments. */
  datatype TimberEntry = TimberEntry(level: LogLevel, tag: LogTag, error: Option<Throwable>, message: Option<string>)

  /** The effect of one call: one Timber entry and exactly one Proton forward. */
  datatype LogCall = LogCall(timber: TimberEntry, proton: Forward)

  function Min(a: nat, b: nat): nat
  {
    if a <= b then a else b
  }

  /** messageWithError: the message, a line break, then the stack trace. */
  function MessageWithError(message: string, e: Throwable): (r: string)
    ensures |r| == |message| + 1 + |e.stackTrace|
    ensures r[..|message|] == message
    ensures r[|message|] == '\n'
    ensures r[|message| + 1..] == e.stackTrace
  {
    message + "\n" + e.stackTrace
  }

  /** categoryForTag: each of the twelve listed tags gets the category of its
      group (session, network and human-verification tags API, keystore tags
      SECURE_STORE); any other string, including other constants of the same
      libraries, gets APP. */
  function CategoryForTag(tag: LogTag): (r: LogCategory)
    ensures r == Api <==> tag.Origin() in {Account, Network, HumanVerification}
    ensures r == SecureStore <==> tag.Origin() == Keystore
    ensures r == App <==> tag.OtherTag?
  {
    match tag
    case SessionRefresh => Api
    case SessionRequest => Api
    case SessionForceLogout => Api
    case ServerTimeParseError => Api
    case ApiRequest => Api
    case ApiResponse => Api
    case ApiError => Api
    case NetworkDefault => Api
    case HvRequestError => Api
    case KeystoreInit => SecureStore
    case KeystoreEncrypt => SecureStore
    case KeystoreDecrypt => SecureStore
    case OtherTag(_) => App
  }

  /** forwardToProtonLogger: the message is forwarded unchanged; the API tags become
      their own events whatever the level, every other tag keeps the level and
      gets its category. */
  function ForwardToProtonLogger(tag: LogTag, sourceLevel: LogLevel, message: string): (r: Forward)
    ensures r.message == message
    ensures r.ApiEventLog? <==> tag.IsApiEventTag()
    ensures tag == ApiRequest ==> r.event == ApiLogRequest
    ensures tag == ApiResponse ==> r.event == ApiLogResponse
    ensures tag == ApiError ==> r.event == ApiLogError
    ensures r.CustomLog? ==> r.level == sourceLevel && r.category == CategoryForTag(tag)
  {
    match tag
    case ApiRequest => ApiEventLog(ApiLogRequest, message)
    case ApiResponse => ApiEventLog(ApiLogResponse, message)
    case ApiError => ApiEventLog(ApiLogError, message)
    case _ => CustomLog(sourceLevel, CategoryForTag(tag), message)
  }

  /** Only the debug message is truncated: the prefix of the message that fits. */
  function TakeDebug(message: string): (r: string)
    ensures |r| == Min(|message|, MaxDebugMsgLength)
    ensures r <= message
  {
    if |message| <= MaxDebugMsgLength then message else message[..MaxDebugMsgLength]
  }

  // ---------------------------------------------------------------------------
  // The overloads

  /** e(tag, message) */
  function E(tag: LogTag, message: string): (r: LogCall)
    ensures r.timber == TimberEntry(Error, tag, None, Some(message))
    ensures r.proton.message == message && (r.proton.CustomLog? ==> r.proton.level == Error)
    ensures r.proton == ForwardToProtonLogger(tag, Error, message)
  {
    LogCall(TimberEntry(Error, tag, None, Some(message)), ForwardToProtonLogger(tag, Error, message))
  }

  /** e(tag, throwable) */
  function EThrowable(tag: LogTag, e: Throwable): (r: LogCall)
    ensures r.timber == TimberEntry(Error, tag, Some(e), None)
    ensures r.proton == ForwardToProtonLogger(tag, Error, MessageWithError(NoMessage, e))
    ensures r.proton.message == MessageWithError(NoMessage, e) && (r.proton.CustomLog? ==> r.proton.level == Error)
  {
    LogCall(TimberEntry(Error, tag, Some(e), None),
            ForwardToProtonLogger(tag, Error, MessageWithError(NoMessage, e)))
  }

  /** e(tag, throwable, message) */
  function EThrowableMessage(tag: LogTag, e: Throwable, message: string): (r: LogCall)
    ensures r.timber == TimberEntry(Error, tag, Some(e), Some(message))
    ensures r.proton == ForwardToProtonLogger(tag, Error, MessageWithError(message, e))
    ensures r.proton.message == MessageWithError(message, e) && (r.proton.CustomLog? ==> r.proton.level == Error)
  {
    LogCall(TimberEntry(Error, tag, Some(e), Some(message)),
            ForwardToProtonLogger(tag, Error, MessageWithError(message, e)))
  }

  /** i(tag, message) */
  function I(tag: LogTag, message: string): (r: LogCall)
    ensures r.timber == TimberEntry(Info, tag, None, Some(message))
    ensures r.proton.message == message && (r.proton.CustomLog? ==> r.proton.level == Info)
    ensures r.proton == ForwardToProtonLogger(tag, Info, message)
  {
    LogCall(TimberEntry(Info, tag, None, Some(message)), ForwardToProtonLogger(tag, Info, message))
  }

  /** i(tag, throwable, message) */
  function IThrowableMessage(tag: LogTag, e: Throwable, message: string): (r: LogCall)
    ensures r.timber == TimberEntry(Info, tag, Some(e), Some(message))
    ensures r.proton == ForwardToProtonLogger(tag, Info, MessageWithError(message, e))
    ensures r.proton.message == MessageWithError(message, e) && (r.proton.CustomLog? ==> r.proton.level == Info)
  {
    LogCall(TimberEntry(Info, tag, Some(e), Some(message)),
            ForwardToProtonLogger(tag, Info, MessageWithError(message, e)))
  }

  /** w(tag, message) */
  function W(tag: LogTag, message: string): (r: LogCall)
    ensures r.timber == TimberEntry(Warn, tag, None, Some(message))
    ensures r.proton.message == message && (r.proton.CustomLog? ==> r.proton.level == Warn)
    ensures r.proton == ForwardToProtonLogger(tag, Warn, message)
  {
    LogCall(TimberEntry(Warn, tag, None, Some(message)), ForwardToProtonLogger(tag, Warn, message))
  }

  /** w(tag, throwable) */
  function WThrowable(tag: LogTag, e: Throwable): (r: LogCall)
    ensures r.timber == TimberEntry(Warn, tag, Some(e), None)
    ensures r.proton == ForwardToProtonLogger(tag, Warn, MessageWithError(NoMessage, e))
    ensures r.proton.message == MessageWithError(NoMessage, e) && (r.proton.CustomLog? ==> r.proton.level == Warn)
  {
    LogCall(TimberEntry(Warn, tag, Some(e), None),
            ForwardToProtonLogger(tag, Warn, MessageWithError(NoMessage, e)))
  }

  /** w(tag, throwable, message) */
  function WThrowableMessage(tag: LogTag, e: Throwable, message: string): (r: LogCall)
    ensures r.timber == TimberEntry(Warn, tag, Some(e), Some(message))
    ensures r.proton == ForwardToProtonLogger(tag, Warn, MessageWithError(message, e))
    ensures r.proton.message == MessageWithError(message, e) && (r.proton.CustomLog? ==> r.proton.level == Warn)
  {
    LogCall(TimberEntry(Warn, tag, Some(e), Some(message)),
            ForwardToProtonLogger(tag, Warn, MessageWithError(message, e)))
  }

  /** d(tag, message): Timber gets the whole message, the Proton logger at most
      its first 500 characters. */
  function D(tag: LogTag, message: string): (r: LogCall)
    ensures r.timber == TimberEntry(Debug, tag, None, Some(message))
    ensures r.proton.message <= message
    ensures |r.proton.message| == Min(|message|, MaxDebugMsgLength)
    ensures r.proton == ForwardToProtonLogger(tag, Debug, r.proton.message)
  {
    LogCall(TimberEntry(Debug, tag, None, Some(message)), ForwardToProtonLogger(tag, Debug, TakeDebug(message)))
  }

  /** d(tag, throwable, message): not truncated. */
  function DThrowableMessage(tag: LogTag, e: Throwable, message: string): (r: LogCall)
    ensures r.timber == TimberEntry(Debug, tag, Some(e), Some(message))
    ensures r.proton == ForwardToProtonLogger(tag, Debug, MessageWithError(message, e))
    ensures r.proton.message == MessageWithError(message, e) && (r.proton.CustomLog? ==> r.proton.level == Debug)
  {
    LogCall(TimberEntry(Debug, tag, Some(e), Some(message)),
            ForwardToProtonLogger(tag, Debug, MessageWithError(message, e)))
  }

  /** v(tag, message) */
  function V(tag: LogTag, message: string): (r: LogCall)
    ensures r.timber == TimberEntry(Trace, tag, None, Some(message))
    ensures r.proton.message == message && (r.proton.CustomLog? ==> r.proton.level == Trace)
    ensures r.proton == ForwardToProtonLogger(tag, Trace, message)
  {
    LogCall(TimberEntry(Trace, tag, None, Some(message)), ForwardToProtonLogger(tag, Trace, message))
  }

  /** v(tag, throwable, message) */
  function VThrowableMessage(tag: LogTag, e: Throwable, message: string): (r: LogCall)
    ensures r.timber == TimberEntry(Trace, tag, Some(e), Some(message))
    ensures r.proton == ForwardToProtonLogger(tag, Trace, MessageWithError(message, e))
    ensures r.proton.message == MessageWithError(message, e) && (r.proton.CustomLog? ==> r.proton.level == Trace)
  {
    LogCall(TimberEntry(Trace, tag, Some(e), Some(message)),
            ForwardToProtonLogger(tag, Trace, MessageWithError(message, e)))
  }

  // ---------------------------------------------------------------------------
  // Properties

  /** A debug message of at most 500 characters is forwarded unchanged; a longer
      one is cut to exactly 500. */
  lemma DebugTruncation(tag: LogTag, message: string)
    ensures |message| <= MaxDebugMsgLength ==> D(tag, message).proton.message == message
    ensures |message| > MaxDebugMsgLength ==> D(tag, message).proton.message == message[..MaxDebugMsgLength]
  {
  }

  /** An API tag is routed to the same event whatever the level of the overload. */
  lemma ApiTagIgnoresLevel(tag: LogTag, level1: LogLevel, level2: LogLevel, message: string)
    requires tag.IsApiEventTag()
    ensures ForwardToProtonLogger(tag, level1, message) == ForwardToProtonLogger(tag, level2, message)
  {
  }

  /** Every other tag keeps the overload's level: the forward of two different
      levels differs. */
  lemma CustomForwardKeepsLevel(tag: LogTag, level1: LogLevel, level2: LogLevel, message: string)
    requires !tag.IsApiEventTag() && level1 != level2
    ensures ForwardToProtonLogger(tag, level1, message) != ForwardToProtonLogger(tag, level2, message)
  {
  }

  /** The throwable-only overloads forward what the throwable-and-message overload
      forwards for the message "no message". */
  lemma ThrowableOnlyIsNoMessage(tag: LogTag, e: Throwable)
    ensures EThrowable(tag, e).proton == EThrowableMessage(tag, e, NoMessage).proton
    ensures WThrowable(tag, e).proton == WThrowableMessage(tag, e, NoMessage).proton
  {
  }

  /** The forwarded text of a throwable overload splits back into the message
      and the stack trace. */
  lemma MessageWithErrorSplits(message: string, e: Throwable, m2: string, e2: Throwable)
    requires |message| == |m2|
    requires MessageWithError(message, e) == MessageWithError(m2, e2)
    ensures message == m2 && e == e2
  {
    var r := MessageWithError(message, e);
    assert message == r[..|message|];
    assert e.stackTrace == r[|message| + 1..];
  }
}

/** `ErrorType` and `ErrorClassifier`: a message is classified by keyword
    groups in a fixed priority, then by the exception's class. */
module Errors {
  import opened Base
  import opened Config

  datatype ErrorType = QUOTA | NETWORK | DISK | CONFIG | CODE_BUG | SYSTEM

  /** The `.value` of each member, which names its retry policy. */
  function Value(t: ErrorType): string {
    match t
    case QUOTA => "quota"
    case NETWORK => "network"
    case DISK => "disk"
    case CONFIG => "config"
    case CODE_BUG => "code_bug"
    case SYSTEM => "system"
  }

  /** The exception classes the pipeline's code raises or meets. */
  datatype PyClass =
    | Exception
    | OSError | ConnectionError | TimeoutError | FileNotFoundError | PermissionError | IsADirectoryError
    | MemoryError
    | ValueError | JSONDecodeError | UnicodeDecodeError
    | LookupError | KeyError | IndexError
    | TypeError | RuntimeError | AttributeError

  /** The class and its base classes, up to `Exception`, as Python defines them
      (`IOError` is another name of `OSError`). */
  function Ancestors(c: PyClass): (r: seq<PyClass>)
    ensures c in r && Exception in r
  {
    match c
    case Exception => [Exception]
    case OSError => [OSError, Exception]
    case ConnectionError => [ConnectionError, OSError, Exception]
    case TimeoutError => [TimeoutError, OSError, Exception]
    case FileNotFoundError => [FileNotFoundError, OSError, Exception]
    case PermissionError => [PermissionError, OSError, Exception]
    case IsADirectoryError => [IsADirectoryError, OSError, Exception]
    case MemoryError => [MemoryError, Exception]
    case ValueError => [ValueError, Exception]
    case JSONDecodeError => [JSONDecodeError, ValueError, Exception]
    case UnicodeDecodeError => [UnicodeDecodeError, ValueError, Exception]
    case LookupError => [LookupError, Exception]
    case KeyError => [KeyError, LookupError, Exception]
    case IndexError => [IndexError, LookupError, Exception]
    case TypeError => [TypeError, Exception]
    case RuntimeError => [RuntimeError, Exception]
    case AttributeError => [AttributeError, Exception]
  }

  /** `issubclass(c, d)` */
  predicate IsSubclass(c: PyClass, d: PyClass) {
    d in Ancestors(c)
  }

  /** `issubclass(c, tuple)`: a subclass of some member of the tuple. */
  predicate IsSubclassOfAny(c: PyClass, ds: seq<PyClass>) {
    exists d :: d in ds && IsSubclass(c, d)
  }

  const NetworkKeywords: seq<string> := ["connection", "timeout", "network", "dns", "ssl", "certificate"]
  const DiskKeywords: seq<string> := ["no space", "disk full", "permission denied", "file not found"]
  const SystemKeywords: seq<string> := ["memory", "ram", "cpu", "system", "os error"]

  /** `any(keyword in text for keyword in keywords)` */
  predicate AnyIn(keywords: seq<string>, text: string) {
    exists k :: k in keywords && Contains(text, k)
  }

  const NetworkClasses: seq<PyClass> := [ConnectionError, TimeoutError]
  /** `(OSError, IOError, PermissionError)`; `IOError` is `OSError`. */
  const DiskClasses: seq<PyClass> := [OSError, PermissionError]
  const SystemClasses: seq<PyClass> := [MemoryError]
  const ConfigClasses: seq<PyClass> := [FileNotFoundError, JSONDecodeError, KeyError, ValueError, TypeError]

  /** `classify_error(message, exception_type)` with the classifier's quota
      keywords. The keyword groups are tried in the order quota, network, disk,
      system, each before the exception's class; only a message with no keyword
      at all is classified by its class. */
  function ClassifyError(quotaKeywords: seq<string>, message: string, exceptionType: Option<PyClass>): (r: ErrorType)
    ensures AnyIn(quotaKeywords, Lower(message)) ==> r == QUOTA
    ensures r == QUOTA ==> AnyIn(quotaKeywords, Lower(message))
    ensures (!AnyIn(quotaKeywords, Lower(message)) && AnyIn(NetworkKeywords, Lower(message))) ==> r == NETWORK
    ensures (!AnyIn(quotaKeywords, Lower(message)) && !AnyIn(NetworkKeywords, Lower(message))
             && AnyIn(DiskKeywords, Lower(message))) ==> r == DISK
    ensures (!AnyIn(quotaKeywords, Lower(message)) && !AnyIn(NetworkKeywords, Lower(message))
             && !AnyIn(DiskKeywords, Lower(message)) && AnyIn(SystemKeywords, Lower(message))) ==> r == SYSTEM
    ensures !NoKeyword(quotaKeywords, message) ==> r in {QUOTA, NETWORK, DISK, SYSTEM}
  {
    var text := Lower(message);
    if AnyIn(quotaKeywords, text) then QUOTA
    else if AnyIn(NetworkKeywords, text) then NETWORK
    else if AnyIn(DiskKeywords, text) then DISK
    else if AnyIn(SystemKeywords, text) then SYSTEM
    else if exceptionType.Some? then
      var c := exceptionType.value;
      if IsSubclassOfAny(c, NetworkClasses) then NETWORK
      else if IsSubclassOfAny(c, DiskClasses) then DISK
      else if IsSubclassOfAny(c, SystemClasses) then SYSTEM
      else if IsSubclassOfAny(c, ConfigClasses) then CONFIG
      else CODE_BUG
    else CODE_BUG
  }

  /** No keyword of any group occurs in the lower-cased message. */
  predicate NoKeyword(quotaKeywords: seq<string>, message: string) {
    var text := Lower(message);
    !AnyIn(quotaKeywords, text) && !AnyIn(NetworkKeywords, text)
    && !AnyIn(DiskKeywords, text) && !AnyIn(SystemKeywords, text)
  }

  /** `is_retryable` */
  function IsRetryable(t: ErrorType): bool {
    t in {QUOTA, NETWORK, DISK, SYSTEM}
  }

  /** Exactly CONFIG and CODE_BUG errors are not retried. */
  lemma RetryableUnlessConfigOrBug(t: ErrorType)
    ensures IsRetryable(t) <==> t != CONFIG && t != CODE_BUG
  {
    match t {
      case QUOTA => assert QUOTA in {QUOTA, NETWORK, DISK, SYSTEM};
      case NETWORK => assert NETWORK in {QUOTA, NETWORK, DISK, SYSTEM};
      case DISK => assert DISK in {QUOTA, NETWORK, DISK, SYSTEM};
      case SYSTEM => assert SYSTEM in {QUOTA, NETWORK, DISK, SYSTEM};
      case CONFIG =>
      case CODE_BUG =>
    }
  }

  // ---------------------------------------------------------------------------
  // What the priority order means.

  /** A message that mentions "quota" is a QUOTA error under the default keywords,
      even when it also mentions a network, disk or system keyword. */
  lemma QuotaBeforeOtherKeywords(message: string, exceptionType: Option<PyClass>)
    requires Contains(Lower(message), "quota")
    ensures ClassifyError(DefaultQuotaKeywords, message, exceptionType) == QUOTA
  {
    assert "quota" in DefaultQuotaKeywords;
  }

  /** A network keyword outranks a disk or system keyword and the class, and a
      disk keyword outranks a system keyword and the class: a timeout reported
      as an `OSError` is a NETWORK error, and "permission denied" raised as a
      `MemoryError` is a DISK error. */
  lemma KeywordsBeforeClass(message: string)
    requires !AnyIn(DefaultQuotaKeywords, Lower(message))
    ensures Contains(Lower(message), "timeout") ==>
      ClassifyError(DefaultQuotaKeywords, message, Some(OSError)) == NETWORK
    ensures (Contains(Lower(message), "permission denied") && !AnyIn(NetworkKeywords, Lower(message))) ==>
      ClassifyError(DefaultQuotaKeywords, message, Some(MemoryError)) == DISK
  {
    assert "timeout" in NetworkKeywords;
    assert "permission denied" in DiskKeywords;
  }

  /** The class-based outcome, class by class, as Python's hierarchy makes it. */
  function ClassTable(c: PyClass): ErrorType {
    match c
    case ConnectionError => NETWORK
    case TimeoutError => NETWORK
    case OSError => DISK
    case FileNotFoundError => DISK
    case PermissionError => DISK
    case IsADirectoryError => DISK
    case MemoryError => SYSTEM
    case ValueError => CONFIG
    case JSONDecodeError => CONFIG
    case UnicodeDecodeError => CONFIG
    case KeyError => CONFIG
    case TypeError => CONFIG
    case Exception => CODE_BUG
    case LookupError => CODE_BUG
    case IndexError => CODE_BUG
    case RuntimeError => CODE_BUG
    case AttributeError => CODE_BUG
  }

  /** When no keyword matches, the class decides, as the table says; without a
      class the error is a CODE_BUG. */
  lemma ClassFallback(quotaKeywords: seq<string>, message: string, exceptionType: Option<PyClass>)
    requires NoKeyword(quotaKeywords, message)
    ensures exceptionType.Some? ==> ClassifyError(quotaKeywords, message, exceptionType) == ClassTable(exceptionType.value)
    ensures exceptionType.None? ==> ClassifyError(quotaKeywords, message, exceptionType) == CODE_BUG
  {
    if exceptionType.Some? {
      match exceptionType.value {
        case ConnectionError => assert IsSubclass(ConnectionError, ConnectionError);
        case TimeoutError => assert IsSubclass(TimeoutError, TimeoutError);
        case OSError => assert IsSubclass(OSError, OSError);
        case FileNotFoundError => assert IsSubclass(FileNotFoundError, OSError);
        case PermissionError => assert IsSubclass(PermissionError, OSError);
        case IsADirectoryError => assert IsSubclass(IsADirectoryError, OSError);
        case MemoryError => assert IsSubclass(MemoryError, MemoryError);
        case ValueError => assert IsSubclass(ValueError, ValueError);
        case JSONDecodeError => assert IsSubclass(JSONDecodeError, JSONDecodeError);
        case UnicodeDecodeError => assert IsSubclass(UnicodeDecodeError, ValueError);
        case KeyError => assert IsSubclass(KeyError, KeyError);
        case TypeError => assert IsSubclass(TypeError, TypeError);
        case Exception =>
        case LookupError =>
        case IndexError =>
        case RuntimeError =>
        case AttributeError =>
      }
    }
  }

  /** A `FileNotFoundError` is an `OSError`, so it is never a CONFIG error,
      whatever its message; with no keyword in the message it is a DISK error. */
  lemma FileNotFoundIsNeverConfig(quotaKeywords: seq<string>, message: string)
    ensures ClassifyError(quotaKeywords, message, Some(FileNotFoundError)) != CONFIG
    ensures NoKeyword(quotaKeywords, message) ==> ClassifyError(quotaKeywords, message, Some(FileNotFoundError)) == DISK
  {
    if NoKeyword(quotaKeywords, message) {
      ClassFallback(quotaKeywords, message, Some(FileNotFoundError));
    }
  }

  /** Only a value, JSON, key or type error reaches CONFIG. */
  lemma ConfigOnlyFromConfigClasses(quotaKeywords: seq<string>, message: string, exceptionType: Option<PyClass>)
    requires ClassifyError(quotaKeywords, message, exceptionType) == CONFIG
    ensures NoKeyword(quotaKeywords, message)
    ensures exceptionType.Some?
    ensures exceptionType.value in {ValueError, JSONDecodeError, UnicodeDecodeError, KeyError, TypeError}
  {
    ClassFallback(quotaKeywords, message, exceptionType);
  }

  /** A plain `Exception` whose message has no keyword is a CODE_BUG. */
  lemma PlainExceptionIsCodeBug(quotaKeywords: seq<string>, message: string)
    requires NoKeyword(quotaKeywords, message)
    ensures ClassifyError(quotaKeywords, message, Some(Exception)) == CODE_BUG
  {
    ClassFallback(quotaKeywords, message, Some(Exception));
  }
}

/** Types shared by the whole harness: optional values, results that carry
    the exception a call raised, the test runner's outcome and log levels. */
module Common {

  datatype Option<+T> = None | Some(value: T)

  /** The .NET exception types the harness raises, catches or reports. */
  datatype ExceptionKind =
    | General
    | Timeout
    | FileNotFound
    | InvalidOperation
    | HttpRequest
    | NullReference
    | ArgumentOutOfRange

  /** An exception value: its type, `Message` and `StackTrace`. */
  datatype Exception = Exception(kind: ExceptionKind, message: string, stackTrace: string)

  /** `exception.GetType().Name`. */
  function TypeName(kind: ExceptionKind): string
  {
    match kind
    case General => "Exception"
    case Timeout => "TimeoutException"
    case FileNotFound => "FileNotFoundException"
    case InvalidOperation => "InvalidOperationException"
    case HttpRequest => "HttpRequestException"
    case NullReference => "NullReferenceException"
    case ArgumentOutOfRange => "ArgumentOutOfRangeException"
  }

  /** The exception of a member access through a null reference. */
  const NullFault: Exception := Exception(NullReference, "Object reference not set to an instance of an object.", "")

  /** The value a call returned, or the exception it threw. */
  datatype Result<+T> = Ok(value: T) | Err(error: Exception)

  /** MSTest's `UnitTestOutcome`. */
  datatype UnitTestOutcome =
    | Failed
    | Inconclusive
    | Passed
    | InProgress
    | Error
    | Timeout
    | Aborted
    | Unknown
    | NotRunnable

  /** `outcome.ToString()`. */
  function OutcomeName(o: UnitTestOutcome): string
  {
    match o
    case Failed => "Failed"
    case Inconclusive => "Inconclusive"
    case Passed => "Passed"
    case InProgress => "InProgress"
    case Error => "Error"
    case Timeout => "Timeout"
    case Aborted => "Aborted"
    case Unknown => "Unknown"
    case NotRunnable => "NotRunnable"
  }

  /** `Microsoft.Extensions.Logging.LogLevel`; `Off` is the enum's `None`. */
  datatype LogLevel = Trace | Debug | Information | Warning | Error | Critical | Off

  /** The numeric value of a log level, which orders them. */
  function Severity(l: LogLevel): nat
  {
    match l
    case Trace => 0
    case Debug => 1
    case Information => 2
    case Warning => 3
    case Error => 4
    case Critical => 5
    case Off => 6
  }

  /** `level.ToString()`. */
  function LevelName(l: LogLevel): string
  {
    match l
    case Trace => "Trace"
    case Debug => "Debug"
    case Information => "Information"
    case Warning => "Warning"
    case Error => "Error"
    case Critical => "Critical"
    case Off => "None"
  }

  /** Number of elements of `s` that satisfy `p`. */
  function CountWhere<T>(s: seq<T>, p: T -> bool): (n: nat)
    ensures n <= |s|
  {
    if |s| == 0 then 0 else (if p(s[0]) then 1 else 0) + CountWhere(s[1..], p)
  }

  /** Counting distributes over concatenation. */
  lemma {:induction false} CountWhereAppend<T>(a: seq<T>, b: seq<T>, p: T -> bool)
    ensures CountWhere(a + b, p) == CountWhere(a, p) + CountWhere(b, p)
  {
    if |a| == 0 {
      assert a + b == b;
    } else {
      assert (a + b)[1..] == a[1..] + b;
      CountWhereAppend(a[1..], b, p);
    }
  }

  /** Concatenation regrouped; stating it at the point of use keeps the
      solver from searching for the regrouping itself. */
  lemma Regroup<T>(x: seq<T>, y: seq<T>, z: seq<T>)
    ensures x + y + z == x + (y + z)
  {
  }
}

/** Shared vocabulary: optional values, results with the system's error
    taxonomy, channels, and a few sequence helpers. */
module Common {

  datatype Option<+T> = None | Some(value: T)

  /** The exceptions the modelled code raises, one constructor per class. */
  datatype Error =
    | PulseError(msg: string)
    | NoActiveBuilder
    | BackendNotSet
    | CompilerError(msg: string)
    | QiskitError(msg: string)
    | KeyError
    | IndexError
    | ValueError
    | TypeError
    | NotImplementedError
    | CircuitError
    | UnsupportedCommand        // the bare `Exception` of a TimedPulse on the wrong channel

  datatype Result<+T> = Ok(value: T) | Err(error: Error) {
    predicate IsFailure() { Err? }
    function PropagateFailure<U>(): Result<U>
      requires Err?
    {
      Err(error)
    }
    function Extract(): T
      requires Ok?
    {
      value
    }
  }

  datatype Outcome = Pass | Fail(error: Error) {
    predicate IsFailure() { Fail? }
    function PropagateFailure<U>(): Result<U>
      requires Fail?
    {
      Err(error)
    }
  }

  /** Kinds of addressable hardware resources. */
  datatype ChannelKind = Drive | Measure | Acquire | Control | MemorySlot | RegisterSlot | SnapshotChannel

  /** A channel is identified by its kind and its integer index. */
  datatype Channel = Channel(kind: ChannelKind, index: nat)

  /** Position of the first occurrence of `x` in `s`, as Python's `list.index`. */
  function IndexOf<T(==)>(s: seq<T>, x: T): (r: Option<nat>)
    ensures r.Some? ==> r.value < |s| && s[r.value] == x && x !in s[..r.value]
    ensures r.None? <==> x !in s
  {
    if |s| == 0 then None
    else if s[0] == x then Some(0)
    else match IndexOf(s[1..], x)
      case None => None
      case Some(k) => assert s[1..][..k] == s[1..k + 1]; Some(k + 1)
  }

  function Max(a: int, b: int): int { if a < b then b else a }

  /** Decimal rendering of a natural number, as Python's `'%d' % n`. */
  function NatToString(n: nat): (s: string)
    ensures |s| > 0
    ensures forall i :: 0 <= i < |s| ==> '0' <= s[i] <= '9'
    decreases n
  {
    var d := ['0', '1', '2', '3', '4', '5', '6', '7', '8', '9'][n % 10];
    if n < 10 then [d] else NatToString(n / 10) + [d]
  }

  /** `schedule.name or 'Experiment-%d' % idx`. */
  function ExperimentName(name: string, idx: nat): string
  {
    if name != "" then name else "Experiment-" + NatToString(idx)
  }
}

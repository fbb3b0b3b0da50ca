/** Shared vocabulary: optional values, the errors the program raises, results,
    and the abstract random stream every sampler draws from. */
module Base {

  datatype Option<+T> = None | Some(value: T) {
    function GetOr(default: T): T {
      match this
      case Some(v) => v
      case None => default
    }
  }

  /** The exceptions the program throws, by kind. */
  datatype Error =
    | NotImplemented(what: string)     // NotImplementedException
    | IllegalState(what: string)       // IllegalStateException
    | Runtime(what: string)            // RuntimeException with a message
    | InvalidArgument(what: string)    // a generator library argument check
    | Uninitialised(what: string)      // a field read before `init` assigned it
    | Dangling(name: string)           // `!!` on a definition missing at sampling time
    | OutOfFuel                        // the model's bound on late-bound reference depth
    | Transport(what: string)          // a transport failure rethrown as RuntimeException
    | IndexOutOfBounds(index: int)     // list access outside the list
    | NoInput                          // the input stream ended

  datatype Result<+T> = Ok(value: T) | Err(error: Error)

  /** A source of randomness: a finite prefix of draws; once it is used up it reads as zeros. */
  type Stream = seq<int>

  function Head(s: Stream): int {
    if |s| == 0 then 0 else s[0]
  }

  function Tail(s: Stream): (t: Stream)
    ensures |t| == if |s| == 0 then 0 else |s| - 1
  {
    if |s| == 0 then [] else s[1..]
  }

  /** The outcome of drawing one sample: a value and the unread rest of the stream, or an exception. */
  datatype Draw<+T> = Drawn(value: T, rest: Stream) | Failed(error: Error)
}

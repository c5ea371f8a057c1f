/** Shared vocabulary: optional values, and the ways one external effect can end. */
module Effects {

  datatype Option<+T> = None | Some(value: T)

  /** How a piece of control logic ends: normally, with an exception, or because
      the whole process died. After a crash nothing more of the run executes. */
  datatype Outcome = Ok | Error | Crash

  /** What an external command does when it is asked for an effect. */
  datatype Verdict =
    | Go       // the effect happens and success is reported
    | Refuse   // nothing happens and an error is reported
    | Late     // the effect happens but an error is reported
    | Die      // the process is killed before the effect

  function Report(v: Verdict): (r: Outcome)
    ensures r == Ok <==> v == Go
    ensures r == Crash <==> v == Die
  {
    match v
    case Go => Ok
    case Refuse => Error
    case Late => Error
    case Die => Crash
  }

  predicate Happens(v: Verdict) {
    v == Go || v == Late
  }
}

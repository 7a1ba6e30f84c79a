// Failure-compatible results, shared by every module.
module Common {

  datatype Option<+T> = None | Some(value: T)

  // Why a reconcile stopped early: the API server refused the call, the call
  // failed in transit, the process died, or the handler itself gave up with
  // an error that is retried.
  datatype Fault = Rejected | Transport | Crashed | Missing

  datatype Result<+T> = Ok(value: T) | Err(fault: Fault) {
    predicate IsFailure() { Err? }

    function PropagateFailure<U>(): Result<U>
      requires Err?
    {
      Err(fault)
    }

    function Extract(): T
      requires Ok?
    {
      value
    }
  }

  function SaturatingSub(a: nat, b: nat): nat {
    if a < b then 0 else a - b
  }
}

/**
 The recognition status a process reports, and the fixed label the plugin
 writes for it under STATUS (get_status_info).

 The numeric codes are the engine's J_RESULT_STATUS_* constants. Success is
 0 and every rejection or failure is negative. The engine also has a
 buffer-overflow code, which has no label of its own.
 */
module Status {
  import opened JsonTree

  const SUCCESS: int := 0
  const FAIL: int := -1
  const REJECT_SHORT: int := -2
  const REJECT_GMM: int := -3
  const ONLY_SILENCE: int := -4
  const TERMINATE: int := -5
  const REJECT_POWER: int := -6
  const BUFFER_OVERFLOW: int := -7
  const REJECT_LONG: int := -8

  /** The codes that have a label of their own. */
  predicate Known(code: int) {
    code in {SUCCESS, REJECT_POWER, TERMINATE, ONLY_SILENCE, REJECT_GMM,
             REJECT_SHORT, REJECT_LONG, FAIL}
  }

  /** The success flag written beside every STATUS. */
  predicate Succeeded(code: int) {
    code >= 0
  }

  /** get_status_info: total, one label per known code, "UNKNOWN" for every
      other code. Each label is produced by exactly one code. */
  function StatusInfo(code: int): (info: string)
    ensures info == "SUCCESS" <==> code == SUCCESS
    ensures info == "REJECTED: by power" <==> code == REJECT_POWER
    ensures info == "input terminated by request" <==> code == TERMINATE
    ensures info == "REJECTED: result has pause words only" <==> code == ONLY_SILENCE
    ensures info == "REJECTED: by GMM" <==> code == REJECT_GMM
    ensures info == "REJECTED: too short input" <==> code == REJECT_SHORT
    ensures info == "REJECTED: too long input" <==> code == REJECT_LONG
    ensures info == "RECOGFAIL" <==> code == FAIL
    ensures info == "UNKNOWN" <==> !Known(code)
    ensures Known(code) ==> (Succeeded(code) <==> info == "SUCCESS")
  {
    if code == SUCCESS then "SUCCESS"
    else if code == REJECT_POWER then "REJECTED: by power"
    else if code == TERMINATE then "input terminated by request"
    else if code == ONLY_SILENCE then "REJECTED: result has pause words only"
    else if code == REJECT_GMM then "REJECTED: by GMM"
    else if code == REJECT_SHORT then "REJECTED: too short input"
    else if code == REJECT_LONG then "REJECTED: too long input"
    else if code == FAIL then "RECOGFAIL"
    else "UNKNOWN"
  }

  /** Reads a STATUS label back to the code that produces it; None for
      "UNKNOWN" and for strings no code produces. */
  function LabelCode(info: string): (c: Option<int>)
    ensures c.Some? ==> Known(c.value) && StatusInfo(c.value) == info
    ensures c.None? ==> forall code :: Known(code) ==> StatusInfo(code) != info
  {
    if info == "SUCCESS" then Some(SUCCESS)
    else if info == "REJECTED: by power" then Some(REJECT_POWER)
    else if info == "input terminated by request" then Some(TERMINATE)
    else if info == "REJECTED: result has pause words only" then Some(ONLY_SILENCE)
    else if info == "REJECTED: by GMM" then Some(REJECT_GMM)
    else if info == "REJECTED: too short input" then Some(REJECT_SHORT)
    else if info == "REJECTED: too long input" then Some(REJECT_LONG)
    else if info == "RECOGFAIL" then Some(FAIL)
    else None
  }

  /** Every labelled code is read back from its label, and "UNKNOWN" reads
      back to no code. */
  lemma LabelRoundTrip(code: int)
    ensures Known(code) ==> LabelCode(StatusInfo(code)) == Some(code)
    ensures !Known(code) ==> LabelCode(StatusInfo(code)) == None
  {
  }

  /** The engine's buffer-overflow code is the one code without a label of
      its own: it falls to the default case. */
  lemma BufferOverflowUnknown()
    ensures !Known(BUFFER_OVERFLOW)
    ensures StatusInfo(BUFFER_OVERFLOW) == "UNKNOWN"
  {
  }
}

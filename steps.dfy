/**
 * The five provisioning steps as values: their integer status codes, the capped
 * status increment, and the labels a row shows for a status.
 */
module Steps {
  import opened Wrappers
  import opened Text

  const PENDING := 0
  const RUNNING := 1
  const SUCCESS := 2
  const FAILED := 9

  /** The cap of the status increment (MAX_STEPS in the component). */
  const MAX_STEPS := 2

  /** The status codes the workflow ever assigns. */
  predicate KnownStatus(status: int)
  {
    status == PENDING || status == RUNNING || status == SUCCESS || status == FAILED
  }

  /** One row of the checklist: stable key, human label, status code and optional diagnostic. */
  datatype Step = Step(key: string, name: string, status: int, message: Option<string>)

  const STEP_COUNT := 5

  /** The steps as the component is constructed: all pending, no message. */
  const INITIAL_STEPS: seq<Step> := [
    Step("Step 0", "Prepare Identity & API Token", PENDING, None),
    Step("Step 1", "Setup ThreadDB", PENDING, None),
    Step("Step 2", "Add Instance to Collection", PENDING, None),
    Step("Step 3", "Query from our Collection", PENDING, None),
    Step("Step 4", "Push webpage to User Bucket", PENDING, None)
  ]

  /** The status after one increment: one more, unless the cap is already reached. */
  function Bump(status: int): (r: int)
    ensures status <= r <= status + 1
    ensures r == status <==> status >= MAX_STEPS
  {
    if status >= MAX_STEPS then status else status + 1
  }

  /** The status after k increments. */
  function BumpTimes(status: int, k: nat): int
  {
    if k == 0 then status else Bump(BumpTimes(status, k - 1))
  }

  function Min(a: int, b: int): int
  {
    if a <= b then a else b
  }

  /** The increment is a counter saturating at MAX_STEPS; a status at or above it never moves. */
  lemma {:induction false} BumpSaturates(status: int, k: nat)
    ensures BumpTimes(status, k) == if status >= MAX_STEPS then status else Min(status + k, MAX_STEPS)
  {
    if k > 0 {
      BumpSaturates(status, k - 1);
    }
  }

  /** Incrementing keeps a status among the known codes and never lowers it. */
  lemma BumpKeepsKnown(status: int)
    requires KnownStatus(status)
    ensures KnownStatus(Bump(status)) && Bump(status) >= status
    ensures Bump(status) == status <==> status == SUCCESS || status == FAILED
  {
  }

  const PENDING_ICON := " \U{25B5} "
  const RUNNING_ICON := " \U{2605} "
  const SUCCESS_ICON := " \U{2713} "
  const FAILED_ICON := " \U{2718} "

  /** The status column of a row; `current` says the row is the current step. */
  function StatusLabel(status: int, current: bool): string
  {
    if status == SUCCESS then "success"
    else if status == FAILED then "error"
    else if current then "running"
    else "pending"
  }

  /** The icon of a row. */
  function StatusIcon(status: int): string
  {
    if status < 1 then PENDING_ICON
    else if status == 1 then RUNNING_ICON
    else if status == 2 then SUCCESS_ICON
    else FAILED_ICON
  }

  /** The colour of a row's icon. */
  function IconColor(status: int): string
  {
    if status < 1 then "grey"
    else if status == 1 then "orange"
    else if status == 2 then "green"
    else "red"
  }

  /** The diagnostic shown for a step that has no message of its own. */
  function DefaultMessage(status: int): string
  {
    if status == 0 then "step pending"
    else if status == 1 then "step running"
    else if status == 2 then "step success"
    else "step failed"
  }

  /** What tapping a row shows: its message as JSON, or the status-derived default. */
  function Diagnostic(s: Step): (r: string)
    ensures s.message.Some? ==> r == JsonQuote(s.message.value)
    ensures s.message.None? ==> r == DefaultMessage(s.status)
    ensures r != ""
  {
    match s.message
    case Some(m) => JsonQuote(m)
    case None => DefaultMessage(s.status)
  }

  /**
   * On the known status codes, icon, colour and default diagnostic tell the
   * same story: each one alone determines the status.
   */
  lemma PresentationsAgree(a: int, b: int)
    requires KnownStatus(a) && KnownStatus(b)
    ensures StatusIcon(a) == StatusIcon(b) <==> a == b
    ensures IconColor(a) == IconColor(b) <==> a == b
    ensures DefaultMessage(a) == DefaultMessage(b) <==> a == b
  {
  }

  /** The status column says "success" or "error" exactly for the two terminal codes, whatever the current row. */
  lemma TerminalLabels(status: int, current: bool)
    ensures StatusLabel(status, current) == "success" <==> status == SUCCESS
    ensures StatusLabel(status, current) == "error" <==> status == FAILED
    ensures StatusLabel(status, current) == "running" <==> status != SUCCESS && status != FAILED && current
  {
  }

  /** Every code outside 0, 1 and 2 reads as a failure in the icon, colour and default diagnostic. */
  lemma UnknownCodesReadAsFailed(status: int)
    requires status > SUCCESS
    ensures StatusIcon(status) == FAILED_ICON && IconColor(status) == "red"
    ensures DefaultMessage(status) == "step failed"
  {
  }
}

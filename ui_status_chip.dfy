/**
 * `StatusChip`: the colour and label of the chip that shows a run or task
 * state. The colour names are Material UI's chip palette.
 */
module StatusChip {
  import opened Wrappers
  import opened Text

  datatype Colour = Default | Success | Info | Error | Warning | Secondary

  /** The state names the chip knows, compared after lower-casing. */
  function KnownColour(lowered: string): Colour
  {
    if lowered == "success" then Success
    else if lowered == "running" then Info
    else if lowered == "failed" then Error
    else if lowered == "upstream_failed" then Warning
    else if lowered == "queued" then Secondary
    else Default
  }

  /** The chip colour; a null or empty status is shown in the default colour. */
  function ChipColour(status: Option<string>): (c: Colour)
    ensures status.None? || status == Some("") ==> c == Default
    ensures c == Success <==> status.Some? && Lower(status.value) == "success"
    ensures c == Info <==> status.Some? && Lower(status.value) == "running"
    ensures c == Error <==> status.Some? && Lower(status.value) == "failed"
    ensures c == Warning <==> status.Some? && Lower(status.value) == "upstream_failed"
    ensures c == Secondary <==> status.Some? && Lower(status.value) == "queued"
  {
    if status.None? || status.value == "" then Default else KnownColour(Lower(status.value))
  }

  /** Letter case never changes the colour. */
  lemma ChipColourIgnoresCase(s: string)
    ensures ChipColour(Some(Lower(s))) == ChipColour(Some(s))
  {
    LowerIdempotent(s);
  }

  /** The chip's label: the status, or `unknown` when there is none. */
  function ChipLabel(status: Option<string>): (shown: string)
    ensures shown != ""
    ensures status.Some? && status.value != "" ==> shown == status.value
  {
    if status.Some? && status.value != "" then status.value else "unknown"
  }
}

/** `TaskInstances`: the state colour of a task row and the try count handed to the log viewer. */
module TaskInstances {
  import opened Wrappers
  import opened Text
  import opened StatusChip

  /** `getStateColor`: like the chip, except that `queued` gets no colour of its own. */
  function TaskStateColour(state: Option<string>): (c: Colour)
    ensures c != Secondary
    ensures state.None? || state == Some("") ==> c == Default
    ensures c == Success <==> state.Some? && Lower(state.value) == "success"
    ensures c == Info <==> state.Some? && Lower(state.value) == "running"
    ensures c == Error <==> state.Some? && Lower(state.value) == "failed"
    ensures c == Warning <==> state.Some? && Lower(state.value) == "upstream_failed"
  {
    if state.None? || state.value == "" then Default
    else
      var lowered := Lower(state.value);
      if lowered == "success" then Success
      else if lowered == "running" then Info
      else if lowered == "failed" then Error
      else if lowered == "upstream_failed" then Warning
      else Default
  }

  /** Task-instance rows and the status chip colour every state alike, except `queued`. */
  lemma TaskColourAgreesWithChip(state: Option<string>)
    ensures ChipColour(state) == Secondary ==> TaskStateColour(state) == Default
    ensures ChipColour(state) != Secondary ==> TaskStateColour(state) == ChipColour(state)
  {
  }

  /** `try_number || 1`: a missing or zero try number becomes 1. */
  function MaxTryNumber(tryNumber: Option<int>): (n: int)
    ensures n != 0
    ensures tryNumber.Some? && tryNumber.value != 0 ==> n == tryNumber.value
    ensures tryNumber.None? || tryNumber == Some(0) ==> n == 1
  {
    if tryNumber.Some? && tryNumber.value != 0 then tryNumber.value else 1
  }
}

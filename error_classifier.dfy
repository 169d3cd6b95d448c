/** The error classification both withdrawal hooks run in their `catch` block. */
module ErrorClassifier {
  import opened Wrappers
  import opened Text

  const RejectedText := "Transaction rejected by user"
  const FallbackText := "Withdrawal failed"

  /** `err?.message` is truthy: present and non-empty. */
  predicate HasMessage(err: Option<string>) {
    err.Some? && err.value != ""
  }

  /** The user-facing text for a failure whose message is `err`, checked by
      substring in priority order; `fundsText` is the hook's own wording for a
      lack of funds. */
  function Classify(err: Option<string>, fundsText: string): (m: string)
    ensures !HasMessage(err) ==> m == FallbackText
    ensures HasMessage(err) && (exists i :: OccursAt(err.value, "user rejected", i)) ==> m == RejectedText
    ensures (HasMessage(err) && !(exists i :: OccursAt(err.value, "user rejected", i))
             && (exists i :: OccursAt(err.value, "insufficient funds", i))) ==> m == fundsText
    ensures (HasMessage(err) && !(exists i :: OccursAt(err.value, "user rejected", i))
             && !(exists i :: OccursAt(err.value, "insufficient funds", i))) ==> m == err.value
  {
    if HasMessage(err) then
      ContainsIff(err.value, "user rejected");
      ContainsIff(err.value, "insufficient funds");
      if Contains(err.value, "user rejected") then RejectedText
      else if Contains(err.value, "insufficient funds") then fundsText
      else err.value
    else FallbackText
  }

  /** The classified text is never empty, so the error the hook raises always
      carries a message. */
  lemma ClassifyNonEmpty(err: Option<string>, fundsText: string)
    requires fundsText != ""
    ensures Classify(err, fundsText) != ""
  {
  }
}

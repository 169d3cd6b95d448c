/** The cross-chain messenger of the Mantle SDK, seen only through the calls the
    hooks make on it and the outcome each call settles with. */
module Messenger {
  import opened Wrappers

  /** The relay statuses a hook waits for with `waitForMessageStatus`. */
  datatype MessageStatus = ReadyToProve | InChallengePeriod | ReadyForRelay | Relayed

  /** One awaited call on the messenger or on a transaction it returned. */
  datatype Call =
    | WithdrawErc721(l1Token: string, l2Token: string, tokenId: string)
    | WithdrawMnt(amount: string)
    | ApproveErc20(amount: string)
    | DepositMnt(amount: string)
    | Wait(txHash: string)
    | WaitForMessageStatus(txHash: string, target: MessageStatus)
    | ProveMessage(txHash: string)
    | FinalizeMessage(txHash: string, gasLimit: Option<nat>)

  /** How an awaited call settles: resolved with a value (the transaction hash for a
      submission), or rejected with an error whose `message` may be absent. */
  datatype Outcome = Ok(value: string) | Fail(message: Option<string>)

  /** How an entry point of a hook ends: it returns a value, throws an error with a
      message, or stays suspended on a call that never settles. */
  datatype Completion<+R> = Returned(value: R) | Threw(message: string) | Suspended

  /** How the body of a hook's `try` block leaves it: it finishes with a value, it
      raises an error (whose `message` may be absent), or it hangs on a call that
      never settles. */
  datatype Exit<+R> = Finished(value: R) | Raised(err: Option<string>) | Hung

  /** What call `i` of a run settles with: `outs[i]`, or nothing when the outcomes
      have run out and the call never settles. */
  function Settle(outs: seq<Outcome>, i: nat): (o: Option<Outcome>)
    ensures o.Some? <==> i < |outs|
    ensures o.Some? ==> o.value == outs[i]
  {
    if i < |outs| then Some(outs[i]) else None
  }

  /** How a `try` block leaves on a call that does not resolve: it hangs when the
      call never settles, and raises the call's error when it is rejected. */
  function Halt<R>(o: Option<Outcome>): (r: Exit<R>)
    requires o.None? || o.value.Fail?
  {
    if o.None? then Hung else Raised(o.value.message)
  }

  /** The first `k` outcomes exist and are all resolutions. */
  predicate OkUpTo(outs: seq<Outcome>, k: nat) {
    k <= |outs| && forall i :: 0 <= i < k ==> outs[i].Ok?
  }

  /** The first of the calls `k` to `n - 1` that does not resolve (it is rejected, or
      no outcome is left for it), or `n` when they all resolve. */
  function FirstStop(outs: seq<Outcome>, k: nat, n: nat): (j: nat)
    requires k <= n
    ensures k <= j <= n
    ensures k < j ==> j <= |outs|
    ensures forall i :: k <= i < j ==> outs[i].Ok?
    ensures j < n ==> j >= |outs| || outs[j].Fail?
    decreases n - k
  {
    if k == n then n
    else if k >= |outs| || outs[k].Fail? then k
    else FirstStop(outs, k + 1, n)
  }

  /** The value a call resolved with, or the empty string. */
  function ValueAt(outs: seq<Outcome>, i: nat): (r: string) {
    if i < |outs| && outs[i].Ok? then outs[i].value else ""
  }
}

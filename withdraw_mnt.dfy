/** The hook that withdraws MNT from Mantle L2 to L1: initiate on L2, wait for the
    state root, prove on L1, wait until the message is ready for relay, finalize. */
module WithdrawMnt {
  import opened Wrappers
  import opened Messenger
  import opened WithdrawalTrace
  import opened Seqs
  import ErrorClassifier

  /** `WithdrawalStatus`. */
  datatype Status = Idle | Initiating | WaitingStateRoot | Proving | WaitingChallenge | Finalizing | Success | Error

  /** The wallet connection the hook reads from `useAccount`. */
  datatype Account = Account(isConnected: bool, address: Option<string>)

  /** What a completed withdrawal returns (its `success` flag is always true). */
  datatype Receipt = Receipt(txHash: string, proveTxHash: string, finalizeTxHash: string, amount: string)

  const NotConnectedText := "Please connect your wallet first"
  const NoProviderText := "No wallet provider available"
  const FundsText := "Insufficient funds for transaction"
  /** The number of awaited messenger calls in a complete withdrawal. */
  const CallCount: nat := 8

  /** The messages the hook shows with its steps: the empty message of the initial
      state, the fixed messages of the progress steps, the completion message with
      the elapsed seconds, and the message of a failure. */
  datatype Note =
    | Blank
    | InitializingBridge | InitiatingWithdrawal | AwaitingL2 | AwaitingStateRoot | ProvingOnL1
    | AwaitingProof | AwaitingChallenge | FinalizingOnL1 | AwaitingFinalization
    | Completed(elapsed: string)
    | Failed(text: string)

  /** The text the hook shows for a message. */
  function Text(n: Note): (r: string) {
    match n
    case Blank => ""
    case InitializingBridge => "Initializing bridge..."
    case InitiatingWithdrawal => "Initiating withdrawal from L2... (confirm in wallet)"
    case AwaitingL2 => "Waiting for L2 confirmation..."
    case AwaitingStateRoot => "Waiting for state root to be published to L1 (this may take several minutes)..."
    case ProvingOnL1 => "Proving withdrawal on L1... (confirm in wallet)"
    case AwaitingProof => "Waiting for prove confirmation..."
    case AwaitingChallenge => "Waiting for challenge period (this may take up to 7 days on mainnet, shorter on testnet)..."
    case FinalizingOnL1 => "Finalizing withdrawal on L1... (confirm in wallet)"
    case AwaitingFinalization => "Waiting for finalization..."
    case Completed(elapsed) => "Withdrawal complete in " + elapsed + "s!"
    case Failed(text) => text
  }

  /** The progress steps the hook shows, in the order it shows them. */
  const InitializingStep: Step<Status, Note> := Step(Idle, InitializingBridge, 5)
  const InitiatingStep: Step<Status, Note> := Step(Initiating, InitiatingWithdrawal, 15)
  const L2ConfirmStep: Step<Status, Note> := Step(Initiating, AwaitingL2, 25)
  const StateRootStep: Step<Status, Note> := Step(WaitingStateRoot, AwaitingStateRoot, 40)
  const ProvingStep: Step<Status, Note> := Step(Proving, ProvingOnL1, 60)
  const ProveConfirmStep: Step<Status, Note> := Step(Proving, AwaitingProof, 70)
  const ChallengeStep: Step<Status, Note> := Step(WaitingChallenge, AwaitingChallenge, 75)
  const FinalizingStep: Step<Status, Note> := Step(Finalizing, FinalizingOnL1, 90)
  const FinalizeConfirmStep: Step<Status, Note> := Step(Finalizing, AwaitingFinalization, 95)

  /** The message the hook shows and throws for a failure whose message is `err`. */
  function ErrorText(err: Option<string>): (r: string) {
    ErrorClassifier.Classify(err, FundsText)
  }

  /** `isLoading`: the status is neither idle nor terminal. */
  predicate Loading(s: Status) {
    s != Idle && s != Success && s != Error
  }

  function Initial(): (r: Snapshot<Status, Note>) {
    Snapshot(Step(Idle, Blank, 0), "", None)
  }

  /** `setError(null)` and `setTxHash('')`, run once the wallet check passes. */
  function Prologue(): (r: seq<Event<Status, Note>>) {
    [ErrorSet(None), TxHashSet("")]
  }

  /** The `catch` block's state updates for the classified message `m`. */
  function CatchEvents(m: string): (r: seq<Event<Status, Note>>) {
    [ErrorSet(Some(m)), StepSet(Step(Error, Failed(m), 0))]
  }

  /** What the caller asks to withdraw: the `amount` string, and `units`, what
      `parseEther` turned it into. */
  datatype Request = Request(amount: string, units: string)

  /** The hashes of the withdraw, prove and finalize transactions. */
  datatype Hashes = Hashes(withdraw: string, prove: string, finalize: string)

  /** The state updates of stage `k` of a withdrawal, which come before messenger call
      `k`; the last stage is only the final success step. `h` holds the hashes the
      calls before it resolved with. */
  function Updates(k: nat, h: Hashes, elapsed: string): (r: seq<Event<Status, Note>>)
    requires k <= CallCount
  {
    match k
    case 0 => [StepSet(InitiatingStep)]
    case 1 => [TxHashSet(h.withdraw), StepSet(L2ConfirmStep)]
    case 2 => [StepSet(StateRootStep)]
    case 3 => [StepSet(ProvingStep)]
    case 4 => [StepSet(ProveConfirmStep)]
    case 5 => [StepSet(ChallengeStep)]
    case 6 => [StepSet(FinalizingStep)]
    case 7 => [StepSet(FinalizeConfirmStep)]
    case _ => [StepSet(Step(Success, Completed(elapsed), 100))]
  }

  /** Messenger call `k` of a withdrawal. */
  function CallAt(k: nat, req: Request, h: Hashes): (r: Call)
    requires k < CallCount
  {
    match k
    case 0 => WithdrawMnt(req.units)
    case 1 => Wait(h.withdraw)
    case 2 => WaitForMessageStatus(h.withdraw, ReadyToProve)
    case 3 => ProveMessage(h.withdraw)
    case 4 => Wait(h.prove)
    case 5 => WaitForMessageStatus(h.withdraw, ReadyForRelay)
    case 6 => FinalizeMessage(h.withdraw, None)
    case _ => Wait(h.finalize)
  }

  /** The messenger calls of a complete withdrawal, in the order they are made. */
  function CallScript(req: Request, h: Hashes): (r: seq<Call>) {
    seq(CallCount, k requires 0 <= k < CallCount => CallAt(k, req, h))
  }

  /** Stage `k`: its state updates, then call `k` of the script. */
  function Stage(k: nat, req: Request, h: Hashes, elapsed: string): (r: seq<Event<Status, Note>>)
    requires k <= CallCount
  {
    if k < CallCount then Updates(k, h, elapsed) + [Invoked(CallAt(k, req, h))] else Updates(k, h, elapsed)
  }

  /** The hashes a run reads from the outcomes of calls 0, 3 and 6. */
  function HashesOf(outs: seq<Outcome>): (r: Hashes) {
    Hashes(ValueAt(outs, 0), ValueAt(outs, 3), ValueAt(outs, 6))
  }

  /** The trace after the rest of the `try` block, from stage `k` on, once the calls
      before `k` have resolved and left the trace `past`: each stage in turn, up to
      and including the first call that does not resolve; the success step when all
      of them do. */
  function From(k: nat, req: Request, outs: seq<Outcome>, elapsed: string, past: seq<Event<Status, Note>>): (r: Attempt<Status, Note, Receipt>)
    requires k <= CallCount
    decreases CallCount - k
  {
    var h := HashesOf(outs);
    var now := past + Stage(k, req, h, elapsed);
    if k == CallCount then Attempt(now, Finished(Receipt(h.withdraw, h.prove, h.finalize, req.amount)))
    else if k >= |outs| then Attempt(now, Hung)
    else if outs[k].Fail? then Attempt(now, Raised(outs[k].message))
    else From(k + 1, req, outs, elapsed, now)
  }

  /** The `try` block, entered with the trace `past`: `provider` says whether a
      wallet provider is available, `parsed` is what `parseEther(amount)` gives
      (the amount in wei, or the error it throws), `outs` what the messenger calls
      settle with, in order. */
  function Body(amount: string, provider: bool, parsed: Outcome, outs: seq<Outcome>, elapsed: string,
                past: seq<Event<Status, Note>>): (r: Attempt<Status, Note, Receipt>)
  {
    if !provider then Attempt(past, Raised(Some(NoProviderText)))
    else
      var shown := past + [StepSet(InitializingStep)];
      if parsed.Fail? then Attempt(shown, Raised(parsed.message))
      else From(0, Request(amount, parsed.value), outs, elapsed, shown)
  }

  /** The trace after one call of `withdrawMNT` and how the call completes. */
  datatype Run = Run(trace: seq<Event<Status, Note>>, result: Completion<Receipt>)

  /** The specification of `withdrawMNT`, called on a hook whose trace is `past`:
      the wallet check throws before any state changes; then the prologue and the
      `try` block, followed by the `catch` block, which rethrows the classified
      message, when the block raised. */
  function Expected(past: seq<Event<Status, Note>>, acct: Account, amount: string, provider: bool,
                    parsed: Outcome, outs: seq<Outcome>, elapsed: string): (r: Run)
    ensures r.result.Threw? ==> r.result.message != ""
    ensures r.result.Threw? ==>
              r.trace == past || (|r.trace| > 0 && r.trace[|r.trace| - 1] == StepSet(Step(Error, Failed(r.result.message), 0)))
  {
    if !acct.isConnected || acct.address.None? then Run(past, Threw(NotConnectedText))
    else
      var a := Body(amount, provider, parsed, outs, elapsed, past + Prologue());
      match a.exit
      case Finished(receipt) => Run(a.trace, Returned(receipt))
      case Hung => Run(a.trace, Suspended)
      case Raised(err) =>
        var m := ErrorText(err);
        ErrorClassifier.ClassifyNonEmpty(err, FundsText);
        Run(a.trace + CatchEvents(m), Threw(m))
  }

  /** Progress step `i` of a complete withdrawal, in the order they are shown. */
  function Checkpoint(i: nat, elapsed: string): (r: Step<Status, Note>)
    requires i < CallCount + 2
  {
    match i
    case 0 => InitializingStep
    case 1 => InitiatingStep
    case 2 => L2ConfirmStep
    case 3 => StateRootStep
    case 4 => ProvingStep
    case 5 => ProveConfirmStep
    case 6 => ChallengeStep
    case 7 => FinalizingStep
    case 8 => FinalizeConfirmStep
    case _ => Step(Success, Completed(elapsed), 100)
  }

  /** The progress steps of a complete withdrawal, in the order they are shown. */
  function Checkpoints(elapsed: string): (r: seq<Step<Status, Note>>) {
    seq(CallCount + 2, i requires 0 <= i < CallCount + 2 => Checkpoint(i, elapsed))
  }

  /** The events of stages `k` to `j`, in order. */
  function Stages(k: nat, j: nat, req: Request, h: Hashes, elapsed: string): (r: seq<Event<Status, Note>>)
    requires j <= CallCount
    decreases j + 1 - k
  {
    if k > j then [] else Stage(k, req, h, elapsed) + Stages(k + 1, j, req, h, elapsed)
  }

  /** A run from stage `k` exits the way the first call from `k` on that does not
      resolve settles: hung when no outcome is left for it, raising its error when
      it is rejected; it finishes with the three hashes and the amount when every
      call resolves. */
  lemma {:induction false} RunExit(k: nat, req: Request, outs: seq<Outcome>, elapsed: string, past: seq<Event<Status, Note>>)
    requires k <= CallCount
    ensures var a := From(k, req, outs, elapsed, past);
            var j := FirstStop(outs, k, CallCount);
            var h := HashesOf(outs);
            && (j == CallCount ==> a.exit == Finished(Receipt(h.withdraw, h.prove, h.finalize, req.amount)))
            && (j < CallCount && j >= |outs| ==> a.exit == Hung)
            && (j < CallCount && j < |outs| ==> a.exit == Raised(outs[j].message))
    decreases CallCount - k
  {
    if k < CallCount && k < |outs| && outs[k].Ok? {
      RunExit(k + 1, req, outs, elapsed, past + Stage(k, req, HashesOf(outs), elapsed));
    }
  }

  /** The trace of a run from stage `k` is its stages up to and including the stage
      of the first call that does not resolve. */
  lemma {:induction false} RunTrace(k: nat, req: Request, outs: seq<Outcome>, elapsed: string, past: seq<Event<Status, Note>>)
    requires k <= CallCount
    ensures From(k, req, outs, elapsed, past).trace
            == past + Stages(k, FirstStop(outs, k, CallCount), req, HashesOf(outs), elapsed)
    decreases CallCount - k
  {
    if k < CallCount && k < |outs| && outs[k].Ok? {
      RunTrace(k + 1, req, outs, elapsed, past + Stage(k, req, HashesOf(outs), elapsed));
      RunTraceCons(k, req, outs, elapsed, past);
    } else {
      RunTraceStop(k, req, outs, elapsed, past);
    }
  }

  /** The step of `RunTrace`: a stage whose call resolves, in front of the rest. */
  lemma RunTraceCons(k: nat, req: Request, outs: seq<Outcome>, elapsed: string, past: seq<Event<Status, Note>>)
    requires k < CallCount && k < |outs| && outs[k].Ok?
    requires var st := Stage(k, req, HashesOf(outs), elapsed);
             From(k + 1, req, outs, elapsed, past + st).trace
             == (past + st) + Stages(k + 1, FirstStop(outs, k + 1, CallCount), req, HashesOf(outs), elapsed)
    ensures From(k, req, outs, elapsed, past).trace
            == past + Stages(k, FirstStop(outs, k, CallCount), req, HashesOf(outs), elapsed)
  {
    var h := HashesOf(outs);
    var st := Stage(k, req, h, elapsed);
    var j := FirstStop(outs, k + 1, CallCount);
    assert FirstStop(outs, k, CallCount) == j;
    AppendAssoc(past, st, Stages(k + 1, j, req, h, elapsed));
  }

  /** The base of `RunTrace`: the stage whose call does not resolve, or the success
      stage, ends the run. */
  lemma RunTraceStop(k: nat, req: Request, outs: seq<Outcome>, elapsed: string, past: seq<Event<Status, Note>>)
    requires k <= CallCount && !(k < CallCount && k < |outs| && outs[k].Ok?)
    ensures From(k, req, outs, elapsed, past).trace
            == past + Stages(k, FirstStop(outs, k, CallCount), req, HashesOf(outs), elapsed)
  {
    var h := HashesOf(outs);
    var st := Stage(k, req, h, elapsed);
    assert FirstStop(outs, k, CallCount) == k;
    assert Stages(k + 1, k, req, h, elapsed) == [];
    assert st + [] == st;
  }

  /** Stage `k` makes exactly the `k`-th call of the script; the success stage none. */
  lemma StageCalls(k: nat, req: Request, h: Hashes, elapsed: string)
    requires k <= CallCount
    ensures k < CallCount ==> Calls(Stage(k, req, h, elapsed)) == [CallScript(req, h)[k]]
    ensures k == CallCount ==> Calls(Stage(k, req, h, elapsed)) == []
  {
    NoCalls(Updates(k, h, elapsed));
    if k < CallCount {
      var last: seq<Event<Status, Note>> := [Invoked(CallAt(k, req, h))];
      CallsAppend(Updates(k, h, elapsed), last);
      assert last[..0] == [];
    }
  }

  /** Stages `k` to `j` make the script's calls from `k` to `j`, and no others. */
  lemma {:induction false} StagesCalls(k: nat, j: nat, req: Request, h: Hashes, elapsed: string)
    requires k <= j + 1 && k <= CallCount && j <= CallCount
    ensures Calls(Stages(k, j, req, h, elapsed)) == CallScript(req, h)[k..if j == CallCount then j else j + 1]
    decreases j + 1 - k
  {
    if k < CallCount && k <= j {
      StagesCalls(k + 1, j, req, h, elapsed);
    }
    StagesCallsStep(k, j, req, h, elapsed);
  }

  /** The step of `StagesCalls`, given its result for the stages after `k`. */
  lemma StagesCallsStep(k: nat, j: nat, req: Request, h: Hashes, elapsed: string)
    requires k <= j + 1 && k <= CallCount && j <= CallCount
    requires k < CallCount && k <= j ==>
               Calls(Stages(k + 1, j, req, h, elapsed)) == CallScript(req, h)[k + 1..if j == CallCount then j else j + 1]
    ensures Calls(Stages(k, j, req, h, elapsed)) == CallScript(req, h)[k..if j == CallCount then j else j + 1]
  {
    if k < CallCount && k <= j {
      StagesCallsCons(k, j, req, h, elapsed);
    } else if k <= j {
      StagesCallsLast(k, j, req, h, elapsed);
    } else {
      StagesCallsNil(k, j, req, h, elapsed);
    }
  }

  /** The step of `StagesCalls`: stage `k` in front of the stages after it. */
  lemma StagesCallsCons(k: nat, j: nat, req: Request, h: Hashes, elapsed: string)
    requires k <= j <= CallCount && k < CallCount
    requires Calls(Stages(k + 1, j, req, h, elapsed)) == CallScript(req, h)[k + 1..if j == CallCount then j else j + 1]
    ensures Calls(Stages(k, j, req, h, elapsed)) == CallScript(req, h)[k..if j == CallCount then j else j + 1]
  {
    StageCalls(k, req, h, elapsed);
    CallsJoin(Stage(k, req, h, elapsed), Stages(k + 1, j, req, h, elapsed), CallScript(req, h), k,
              if j == CallCount then j else j + 1);
  }

  /** The success stage, which makes no call, alone. */
  lemma StagesCallsLast(k: nat, j: nat, req: Request, h: Hashes, elapsed: string)
    requires k == j == CallCount
    ensures Calls(Stages(k, j, req, h, elapsed)) == CallScript(req, h)[k..if j == CallCount then j else j + 1]
  {
    StageCalls(k, req, h, elapsed);
    var rest := Stages(k + 1, j, req, h, elapsed);
    assert rest == [];
    CallsAppend(Stage(k, req, h, elapsed), rest);
    SliceEmpty(CallScript(req, h), k);
  }

  /** The base of `StagesCalls`: no stages, no calls. */
  lemma StagesCallsNil(k: nat, j: nat, req: Request, h: Hashes, elapsed: string)
    requires k == j + 1 && k <= CallCount
    ensures Calls(Stages(k, j, req, h, elapsed)) == CallScript(req, h)[k..if j == CallCount then j else j + 1]
  {
    SliceEmpty(CallScript(req, h), k);
  }

  /** A run from stage `k` makes the script's calls from `k` up to and including the
      first that does not resolve, and no others. */
  lemma RunCalls(k: nat, req: Request, outs: seq<Outcome>, elapsed: string, past: seq<Event<Status, Note>>)
    requires k <= CallCount
    ensures var j := FirstStop(outs, k, CallCount);
            Calls(From(k, req, outs, elapsed, past).trace)
            == Calls(past) + CallScript(req, HashesOf(outs))[k..if j == CallCount then j else j + 1]
  {
    RunTrace(k, req, outs, elapsed, past);
    CallsOfRun(From(k, req, outs, elapsed, past).trace, past, k, FirstStop(outs, k, CallCount), req, HashesOf(outs), elapsed);
  }

  /** `RunCalls` on a trace already known to be `past` and stages `k` to `j`. */
  lemma CallsOfRun(t: seq<Event<Status, Note>>, past: seq<Event<Status, Note>>, k: nat, j: nat, req: Request, h: Hashes, elapsed: string)
    requires k <= j + 1 && k <= CallCount && j <= CallCount
    requires t == past + Stages(k, j, req, h, elapsed)
    ensures Calls(t) == Calls(past) + CallScript(req, h)[k..if j == CallCount then j else j + 1]
  {
    StagesCalls(k, j, req, h, elapsed);
    CallsAfter(t, past, Stages(k, j, req, h, elapsed), CallScript(req, h)[k..if j == CallCount then j else j + 1]);
  }

  /** The state updates of stage `k` show checkpoint `k + 1`. */
  lemma UpdateSteps(k: nat, h: Hashes, elapsed: string)
    requires k <= CallCount
    ensures Steps(Updates(k, h, elapsed)) == Checkpoints(elapsed)[k + 1..k + 2]
  {
    var u := Updates(k, h, elapsed);
    var c := Checkpoints(elapsed);
    if k == 1 {
      ShowsAfterHash(u, c, 2);
    } else {
      ShowsOne(u, c, k + 1);
    }
  }

  /** Stage `k` shows checkpoint `k + 1`. */
  lemma StageSteps(k: nat, req: Request, h: Hashes, elapsed: string)
    requires k <= CallCount
    ensures Steps(Stage(k, req, h, elapsed)) == Checkpoints(elapsed)[k + 1..k + 2]
  {
    UpdateSteps(k, h, elapsed);
    if k < CallCount {
      StepsThenCall(Updates(k, h, elapsed), CallAt(k, req, h));
    }
  }

  /** Stages `k` to `j` show checkpoints `k + 1` to `j + 1`, in order. */
  lemma {:induction false} StagesSteps(k: nat, j: nat, req: Request, h: Hashes, elapsed: string)
    requires k <= j + 1 && j <= CallCount
    ensures Steps(Stages(k, j, req, h, elapsed)) == Checkpoints(elapsed)[k + 1..j + 2]
    decreases j + 1 - k
  {
    if k <= j {
      StagesSteps(k + 1, j, req, h, elapsed);
      StagesStepsCons(k, j, req, h, elapsed);
    } else {
      StagesStepsNil(k, j, req, h, elapsed);
    }
  }

  /** The base of `StagesSteps`: no stages, no steps. */
  lemma StagesStepsNil(k: nat, j: nat, req: Request, h: Hashes, elapsed: string)
    requires k == j + 1 && j <= CallCount
    ensures Steps(Stages(k, j, req, h, elapsed)) == Checkpoints(elapsed)[k + 1..j + 2]
  {
    SliceEmpty(Checkpoints(elapsed), k + 1);
  }

  /** The step of `StagesSteps`: stage `k` in front of stages `k + 1` to `j`. */
  lemma StagesStepsCons(k: nat, j: nat, req: Request, h: Hashes, elapsed: string)
    requires k <= j <= CallCount
    requires Steps(Stages(k + 1, j, req, h, elapsed)) == Checkpoints(elapsed)[k + 2..j + 2]
    ensures Steps(Stages(k, j, req, h, elapsed)) == Checkpoints(elapsed)[k + 1..j + 2]
  {
    StageSteps(k, req, h, elapsed);
    StepsJoin(Stage(k, req, h, elapsed), Stages(k + 1, j, req, h, elapsed), Checkpoints(elapsed), k + 1, k + 2, j + 2);
  }

  /** A run from stage `k` shows the checkpoints of its stages, up to and including
      the stage of the first call that does not resolve, in order. */
  lemma RunSteps(k: nat, req: Request, outs: seq<Outcome>, elapsed: string, past: seq<Event<Status, Note>>)
    requires k <= CallCount
    ensures var j := FirstStop(outs, k, CallCount);
            Steps(From(k, req, outs, elapsed, past).trace) == Steps(past) + Checkpoints(elapsed)[k + 1..j + 2]
  {
    RunTrace(k, req, outs, elapsed, past);
    StepsOfRun(From(k, req, outs, elapsed, past).trace, past, k, FirstStop(outs, k, CallCount), req, HashesOf(outs), elapsed);
  }

  /** `RunSteps` on a trace already known to be `past` and stages `k` to `j`. */
  lemma StepsOfRun(t: seq<Event<Status, Note>>, past: seq<Event<Status, Note>>, k: nat, j: nat, req: Request, h: Hashes, elapsed: string)
    requires k <= j + 1 && j <= CallCount
    requires t == past + Stages(k, j, req, h, elapsed)
    ensures Steps(t) == Steps(past) + Checkpoints(elapsed)[k + 1..j + 2]
  {
    StagesSteps(k, j, req, h, elapsed);
    StepsAfter(t, past, Stages(k, j, req, h, elapsed), Checkpoints(elapsed)[k + 1..j + 2]);
  }

  /** The checkpoints' percentages rise strictly and end at 100. */
  lemma CheckpointsIncrease(elapsed: string)
    ensures StrictlyIncreasing(Checkpoints(elapsed))
    ensures Checkpoints(elapsed)[CallCount + 1].progress == 100
  {
  }

  /** The prologue and the bridge-initialising step show the first checkpoint. */
  lemma StartSteps(past: seq<Event<Status, Note>>, elapsed: string)
    ensures Steps(past + Prologue() + [StepSet(InitializingStep)]) == Steps(past) + Checkpoints(elapsed)[0..1]
  {
    var init: seq<Event<Status, Note>> := [StepSet(InitializingStep)];
    StepsAppend(past + Prologue(), init);
    StepsAppend(past, Prologue());
    NoSteps(Prologue());
    StepsOne(init[0]);
    assert Checkpoints(elapsed)[0..1] == [InitializingStep];
  }

  /** A withdrawal whose calls all resolve returns the three hashes and the amount. */
  lemma SuccessResult(past: seq<Event<Status, Note>>, acct: Account, amount: string, parsed: Outcome,
                      outs: seq<Outcome>, elapsed: string)
    requires acct.isConnected && acct.address.Some? && parsed.Ok?
    requires OkUpTo(outs, CallCount)
    ensures Expected(past, acct, amount, true, parsed, outs, elapsed).result
            == Returned(Receipt(outs[0].value, outs[3].value, outs[6].value, amount))
  {
    RunExit(0, Request(amount, parsed.value), outs, elapsed, past + Prologue() + [StepSet(InitializingStep)]);
    assert FirstStop(outs, 0, CallCount) == CallCount;
  }

  /** A withdrawal whose calls all resolve shows every checkpoint, in order. */
  lemma SuccessSteps(past: seq<Event<Status, Note>>, acct: Account, amount: string, parsed: Outcome,
                     outs: seq<Outcome>, elapsed: string)
    requires acct.isConnected && acct.address.Some? && parsed.Ok?
    requires OkUpTo(outs, CallCount)
    ensures Steps(Expected(past, acct, amount, true, parsed, outs, elapsed).trace) == Steps(past) + Checkpoints(elapsed)
  {
    var c := Checkpoints(elapsed);
    var start := past + Prologue() + [StepSet(InitializingStep)];
    SuccessResult(past, acct, amount, parsed, outs, elapsed);
    RunSteps(0, Request(amount, parsed.value), outs, elapsed, start);
    assert FirstStop(outs, 0, CallCount) == CallCount;
    StartSteps(past, elapsed);
    AppendAssoc(Steps(past), c[0..1], c[1..CallCount + 2]);
    SliceSplit(c, 0, 1, CallCount + 2);
    SliceAll(c);
  }

  /** The state of one `useMantleWithdrawal` hook instance. */
  class Hook {
    var step: Step<Status, Note>
    var txHash: string
    var error: Option<string>
    /** Every setter call and messenger call so far. */
    ghost var trace: seq<Event<Status, Note>>

    function State(): (r: Snapshot<Status, Note>)
      reads this
    {
      Snapshot(step, txHash, error)
    }

    /** The state is what the recorded setter calls made it. */
    ghost predicate Valid()
      reads this
    {
      State() == Replay(Initial(), trace)
    }

    constructor ()
      ensures Valid() && trace == [] && State() == Initial()
    {
      step := Step(Idle, Blank, 0);
      txHash := "";
      error := None;
      trace := [];
    }

    method SetStep(s: Step<Status, Note>)
      requires Valid()
      modifies this
      ensures Valid() && trace == old(trace) + [StepSet(s)]
      ensures step == s && txHash == old(txHash) && error == old(error)
    {
      ReplaySnoc(Initial(), trace, StepSet(s));
      step := s;
      trace := trace + [StepSet(s)];
    }

    method SetTxHash(h: string)
      requires Valid()
      modifies this
      ensures Valid() && trace == old(trace) + [TxHashSet(h)]
      ensures step == old(step) && txHash == h && error == old(error)
    {
      ReplaySnoc(Initial(), trace, TxHashSet(h));
      txHash := h;
      trace := trace + [TxHashSet(h)];
    }

    method SetError(err: Option<string>)
      requires Valid()
      modifies this
      ensures Valid() && trace == old(trace) + [ErrorSet(err)]
      ensures step == old(step) && txHash == old(txHash) && error == err
    {
      ReplaySnoc(Initial(), trace, ErrorSet(err));
      error := err;
      trace := trace + [ErrorSet(err)];
    }

    /** Awaits messenger call number `i`, `c`, which settles with `Settle(outs, i)`. */
    method Await(c: Call, outs: seq<Outcome>, i: nat) returns (o: Option<Outcome>)
      requires Valid()
      modifies this
      ensures Valid() && trace == old(trace) + [Invoked(c)] && o == Settle(outs, i)
      ensures step == old(step) && txHash == old(txHash) && error == old(error)
    {
      ReplaySnoc(Initial(), trace, Invoked(c));
      trace := trace + [Invoked(c)];
      o := Settle(outs, i);
    }

    /** Step 1: initiate the withdrawal on L2 and wait for its confirmation (calls 0
        and 1); on success, `withdrawHash` is the hash of the L2 transaction. */
    method Initiate(req: Request, outs: seq<Outcome>, ghost elapsed: string)
      returns (stop: Option<Exit<Receipt>>, withdrawHash: string)
      requires Valid()
      modifies this
      ensures Valid() && error == old(error) && Loading(step.status)
      ensures stop.Some? ==> !stop.value.Finished? && trace == From(0, req, outs, elapsed, old(trace)).trace
                             && stop.value == From(0, req, outs, elapsed, old(trace)).exit
      ensures stop.None? ==>
                var h := HashesOf(outs);
                && OkUpTo(outs, 2) && withdrawHash == h.withdraw && txHash == withdrawHash
                && From(0, req, outs, elapsed, old(trace)) == From(2, req, outs, elapsed, trace)
    {
      ghost var t := trace;
      ghost var h := HashesOf(outs);
      SetStep(InitiatingStep);
      var o := Await(Call.WithdrawMnt(req.units), outs, 0);
      assert trace == t + Stage(0, req, h, elapsed);
      if o.None? || o.value.Fail? { return Some(Halt(o)), ""; }
      t := trace;
      withdrawHash := o.value.value;
      SetTxHash(withdrawHash);
      SetStep(L2ConfirmStep);
      o := Await(Wait(withdrawHash), outs, 1);
      assert trace == t + Stage(1, req, h, elapsed);
      if o.None? || o.value.Fail? { return Some(Halt(o)), withdrawHash; }
      stop := None;
    }

    /** Step 2: wait until the state root that covers the withdrawal is published on
        L1 (call 2). */
    method AwaitStateRoot(req: Request, withdrawHash: string, outs: seq<Outcome>, ghost elapsed: string)
      returns (stop: Option<Exit<Receipt>>)
      requires Valid() && OkUpTo(outs, 2) && withdrawHash == HashesOf(outs).withdraw
      modifies this
      ensures Valid() && error == old(error) && txHash == old(txHash) && Loading(step.status)
      ensures stop.Some? ==> !stop.value.Finished? && trace == From(2, req, outs, elapsed, old(trace)).trace
                             && stop.value == From(2, req, outs, elapsed, old(trace)).exit
      ensures stop.None? ==>
                && OkUpTo(outs, 3)
                && From(2, req, outs, elapsed, old(trace)) == From(3, req, outs, elapsed, trace)
    {
      ghost var t := trace;
      ghost var h := HashesOf(outs);
      SetStep(StateRootStep);
      var o := Await(WaitForMessageStatus(withdrawHash, ReadyToProve), outs, 2);
      assert trace == t + Stage(2, req, h, elapsed);
      if o.None? || o.value.Fail? { return Some(Halt(o)); }
      stop := None;
    }

    /** Step 3: prove the withdrawal on L1 and wait for the proof's confirmation
        (calls 3 and 4); on success, `proveHash` is the hash of the proof
        transaction. */
    method Prove(req: Request, withdrawHash: string, outs: seq<Outcome>, ghost elapsed: string)
      returns (stop: Option<Exit<Receipt>>, proveHash: string)
      requires Valid() && OkUpTo(outs, 3) && withdrawHash == HashesOf(outs).withdraw
      modifies this
      ensures Valid() && error == old(error) && txHash == old(txHash) && Loading(step.status)
      ensures stop.Some? ==> !stop.value.Finished? && trace == From(3, req, outs, elapsed, old(trace)).trace
                             && stop.value == From(3, req, outs, elapsed, old(trace)).exit
      ensures stop.None? ==>
                var h := HashesOf(outs);
                && OkUpTo(outs, 5)
                && proveHash == h.prove
                && From(3, req, outs, elapsed, old(trace)) == From(5, req, outs, elapsed, trace)
    {
      ghost var t := trace;
      ghost var h := HashesOf(outs);
      SetStep(ProvingStep);
      var o := Await(ProveMessage(withdrawHash), outs, 3);
      assert trace == t + Stage(3, req, h, elapsed);
      if o.None? || o.value.Fail? { return Some(Halt(o)), ""; }
      t := trace;
      proveHash := o.value.value;
      SetStep(ProveConfirmStep);
      o := Await(Wait(proveHash), outs, 4);
      assert trace == t + Stage(4, req, h, elapsed);
      if o.None? || o.value.Fail? { return Some(Halt(o)), proveHash; }
      stop := None;
    }

    /** Step 4: wait out the challenge period until the message is ready for relay
        (call 5). */
    method AwaitChallenge(req: Request, withdrawHash: string, outs: seq<Outcome>, ghost elapsed: string)
      returns (stop: Option<Exit<Receipt>>)
      requires Valid() && OkUpTo(outs, 5) && withdrawHash == HashesOf(outs).withdraw
      modifies this
      ensures Valid() && error == old(error) && txHash == old(txHash) && Loading(step.status)
      ensures stop.Some? ==> !stop.value.Finished? && trace == From(5, req, outs, elapsed, old(trace)).trace
                             && stop.value == From(5, req, outs, elapsed, old(trace)).exit
      ensures stop.None? ==>
                && OkUpTo(outs, 6)
                && From(5, req, outs, elapsed, old(trace)) == From(6, req, outs, elapsed, trace)
    {
      ghost var t := trace;
      ghost var h := HashesOf(outs);
      SetStep(ChallengeStep);
      var o := Await(WaitForMessageStatus(withdrawHash, ReadyForRelay), outs, 5);
      assert trace == t + Stage(5, req, h, elapsed);
      if o.None? || o.value.Fail? { return Some(Halt(o)); }
      stop := None;
    }

    /** Step 5: finalize the withdrawal on L1 and wait for the finalization (calls 6
        and 7); on success, `finalizeHash` is the hash of the finalizing
        transaction. */
    method Finalize(req: Request, withdrawHash: string, outs: seq<Outcome>, ghost elapsed: string)
      returns (stop: Option<Exit<Receipt>>, finalizeHash: string)
      requires Valid() && OkUpTo(outs, 6) && withdrawHash == HashesOf(outs).withdraw
      modifies this
      ensures Valid() && error == old(error) && txHash == old(txHash) && Loading(step.status)
      ensures stop.Some? ==> !stop.value.Finished? && trace == From(6, req, outs, elapsed, old(trace)).trace
                             && stop.value == From(6, req, outs, elapsed, old(trace)).exit
      ensures stop.None? ==>
                var h := HashesOf(outs);
                && OkUpTo(outs, 8)
                && finalizeHash == h.finalize
                && From(6, req, outs, elapsed, old(trace)) == From(8, req, outs, elapsed, trace)
    {
      ghost var t := trace;
      ghost var h := HashesOf(outs);
      SetStep(FinalizingStep);
      var o := Await(FinalizeMessage(withdrawHash, None), outs, 6);
      assert trace == t + Stage(6, req, h, elapsed);
      if o.None? || o.value.Fail? { return Some(Halt(o)), ""; }
      t := trace;
      finalizeHash := o.value.value;
      SetStep(FinalizeConfirmStep);
      o := Await(Wait(finalizeHash), outs, 7);
      assert trace == t + Stage(7, req, h, elapsed);
      if o.None? || o.value.Fail? { return Some(Halt(o)), finalizeHash; }
      stop := None;
    }

    /** The `try` block: check the provider, show the bridge initialising, convert
        the amount, then the five steps and the success step. */
    method Try(amount: string, provider: bool, parsed: Outcome, outs: seq<Outcome>, elapsed: string)
      returns (exit: Exit<Receipt>)
      requires Valid()
      modifies this
      ensures Valid() && error == old(error)
      ensures trace == Body(amount, provider, parsed, outs, elapsed, old(trace)).trace
      ensures exit == Body(amount, provider, parsed, outs, elapsed, old(trace)).exit
      ensures exit.Hung? ==> Loading(step.status)
      ensures exit.Finished? ==>
                step == Step(Success, Completed(elapsed), 100) && txHash == exit.value.txHash
    {
      if !provider { return Raised(Some(NoProviderText)); }
      SetStep(InitializingStep);
      if parsed.Fail? { return Raised(parsed.message); }
      var req := Request(amount, parsed.value);
      var stop, withdrawHash := Initiate(req, outs, elapsed);
      if stop.Some? { return stop.value; }
      stop := AwaitStateRoot(req, withdrawHash, outs, elapsed);
      if stop.Some? { return stop.value; }
      var proveHash;
      stop, proveHash := Prove(req, withdrawHash, outs, elapsed);
      if stop.Some? { return stop.value; }
      stop := AwaitChallenge(req, withdrawHash, outs, elapsed);
      if stop.Some? { return stop.value; }
      var finalizeHash;
      stop, finalizeHash := Finalize(req, withdrawHash, outs, elapsed);
      if stop.Some? { return stop.value; }
      SetStep(Step(Success, Completed(elapsed), 100));
      exit := Finished(Receipt(withdrawHash, proveHash, finalizeHash, amount));
    }

    /** The `catch` block: classify the failure, store it and show it. */
    method Catch(err: Option<string>) returns (m: string)
      requires Valid()
      modifies this
      ensures Valid() && trace == old(trace) + CatchEvents(ErrorText(err)) && m == ErrorText(err)
      ensures step == Step(Error, Failed(m), 0) && error == Some(m) && txHash == old(txHash)
    {
      m := ErrorText(err);
      SetError(Some(m));
      SetStep(Step(Error, Failed(m), 0));
    }

    /** `withdrawMNT`. */
    method WithdrawMnt(acct: Account, amount: string, provider: bool, parsed: Outcome,
                       outs: seq<Outcome>, elapsed: string)
      returns (r: Completion<Receipt>)
      requires Valid()
      modifies this
      ensures Valid()
      ensures trace == Expected(old(trace), acct, amount, provider, parsed, outs, elapsed).trace
      ensures r == Expected(old(trace), acct, amount, provider, parsed, outs, elapsed).result
      ensures r.Threw? && trace != old(trace) ==> step == Step(Error, Failed(r.message), 0) && error == Some(r.message)
      ensures r.Returned? ==> step.status == Success && step.progress == 100 && txHash == r.value.txHash && error == None
      ensures r.Suspended? ==> IsLoading() && error == None
    {
      if !acct.isConnected || acct.address.None? {
        return Threw(NotConnectedText);
      }
      SetError(None);
      SetTxHash("");
      assert trace == old(trace) + Prologue();
      var exit := Try(amount, provider, parsed, outs, elapsed);
      match exit
      case Finished(receipt) => r := Returned(receipt);
      case Hung => r := Suspended;
      case Raised(err) =>
        var m := Catch(err);
        r := Threw(m);
    }

    /** `reset`. */
    method Reset()
      requires Valid()
      modifies this
      ensures Valid() && State() == Initial()
      ensures trace == old(trace) + [StepSet(Step(Idle, Blank, 0)), TxHashSet(""), ErrorSet(None)]
    {
      SetStep(Step(Idle, Blank, 0));
      SetTxHash("");
      SetError(None);
    }

    /** `isLoading`. */
    function IsLoading(): (r: bool)
      reads this
    {
      Loading(step.status)
    }

    /** `isSuccess`. */
    function IsSuccess(): (r: bool)
      reads this
    {
      step.status == Success
    }

    /** `isError`. */
    function IsError(): (r: bool)
      reads this
    {
      step.status == Error
    }
  }
}

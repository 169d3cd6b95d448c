/** The hook that deposits MNT from L1 to L2: approve the bridge to move the amount,
    wait for the approval, submit the deposit, wait for it on L1, then wait until
    it is relayed to L2. Unlike the withdrawal hooks it keeps `isLoading`,
    `status`, `progress` and `txHash` as four separate pieces of state, and it
    reports a failure by returning it rather than by throwing. */
module DepositMnt {
  import opened Wrappers
  import opened Messenger
  import opened Seqs

  /** The texts `status` shows: the empty initial text, the fixed texts of the
      stages, the completion text with the elapsed seconds, and the failure text
      with the error's message. */
  datatype Note =
    | Blank
    | Approving
    | Depositing
    | AwaitingL1
    | AwaitingRelay
    | Completed(elapsed: string)
    | Failed(message: Option<string>)

  /** The text of a status. A failure whose error has no message shows
      `undefined`, as the template literal prints it. */
  function Text(n: Note): (r: string) {
    match n
    case Blank => ""
    case Approving => "Approving MNT..."
    case Depositing => "Depositing MNT..."
    case AwaitingL1 => "Waiting for L1 confirmation..."
    case AwaitingRelay => "Waiting for L2 relay..."
    case Completed(elapsed) => "MNT deposit complete! Took " + elapsed + "s"
    case Failed(m) => "MNT deposit failed: " + m.GetOr("undefined")
  }

  /** The hook's four state variables. */
  datatype Snapshot = Snapshot(isLoading: bool, status: Note, txHash: string, progress: int)

  function Initial(): (r: Snapshot) {
    Snapshot(false, Blank, "", 0)
  }

  /** One observable event: a call of one of the four setters, or an awaited
      messenger call. */
  datatype Event =
    | LoadingSet(on: bool)
    | StatusSet(note: Note)
    | ProgressSet(percent: int)
    | TxHashSet(hash: string)
    | Invoked(call: Call)

  /** The state after one event. */
  function Apply(st: Snapshot, e: Event): (r: Snapshot) {
    match e
    case LoadingSet(on) => st.(isLoading := on)
    case StatusSet(n) => st.(status := n)
    case ProgressSet(p) => st.(progress := p)
    case TxHashSet(h) => st.(txHash := h)
    case Invoked(_) => st
  }

  /** The state after a sequence of events, applied in order. */
  function Replay(st: Snapshot, ev: seq<Event>): (r: Snapshot) {
    ReplayPrefix(st, ev, |ev|)
  }

  /** The state after the first `n` events. */
  function ReplayPrefix(st: Snapshot, ev: seq<Event>, n: nat): (r: Snapshot)
    requires n <= |ev|
  {
    if n == 0 then st else Apply(ReplayPrefix(st, ev, n - 1), ev[n - 1])
  }

  lemma {:induction false} ReplayPrefixExtend(st: Snapshot, a: seq<Event>, b: seq<Event>, n: nat)
    requires n <= |a|
    ensures ReplayPrefix(st, a + b, n) == ReplayPrefix(st, a, n)
  {
    if n > 0 {
      ReplayPrefixExtend(st, a, b, n - 1);
    }
  }

  /** Replaying one more event applies it to the state replayed so far. */
  lemma ReplaySnoc(st: Snapshot, ev: seq<Event>, e: Event)
    ensures Replay(st, ev + [e]) == Apply(Replay(st, ev), e)
  {
    ReplayPrefixExtend(st, ev, [e], |ev|);
  }

  /** The `setProgress` values among the events, in order. */
  function Progresses(ev: seq<Event>): (r: seq<int>)
    decreases |ev|
  {
    if ev == [] then []
    else Progresses(ev[..|ev| - 1]) + (if ev[|ev| - 1].ProgressSet? then [ev[|ev| - 1].percent] else [])
  }

  /** The messenger calls among the events, in order. */
  function Calls(ev: seq<Event>): (r: seq<Call>)
    decreases |ev|
  {
    if ev == [] then []
    else Calls(ev[..|ev| - 1]) + (if ev[|ev| - 1].Invoked? then [ev[|ev| - 1].call] else [])
  }

  /** The `setStatus` texts among the events, in order. */
  function Notes(ev: seq<Event>): (r: seq<Note>)
    decreases |ev|
  {
    if ev == [] then []
    else Notes(ev[..|ev| - 1]) + (if ev[|ev| - 1].StatusSet? then [ev[|ev| - 1].note] else [])
  }

  lemma {:induction false} ProgressesAppend(a: seq<Event>, b: seq<Event>)
    ensures Progresses(a + b) == Progresses(a) + Progresses(b)
    decreases |b|
  {
    if b == [] {
      assert a + b == a;
    } else {
      assert (a + b)[..|a + b| - 1] == a + b[..|b| - 1];
      ProgressesAppend(a, b[..|b| - 1]);
    }
  }

  lemma {:induction false} CallsAppend(a: seq<Event>, b: seq<Event>)
    ensures Calls(a + b) == Calls(a) + Calls(b)
    decreases |b|
  {
    if b == [] {
      assert a + b == a;
    } else {
      assert (a + b)[..|a + b| - 1] == a + b[..|b| - 1];
      CallsAppend(a, b[..|b| - 1]);
    }
  }

  /** Events that set no progress show no progress. */
  lemma {:induction false} NoProgress(ev: seq<Event>)
    requires forall i :: 0 <= i < |ev| ==> !ev[i].ProgressSet?
    ensures Progresses(ev) == []
    decreases |ev|
  {
    if ev != [] {
      NoProgress(ev[..|ev| - 1]);
    }
  }

  /** Events that make no messenger call make no calls. */
  lemma {:induction false} NoCalls(ev: seq<Event>)
    requires forall i :: 0 <= i < |ev| ==> !ev[i].Invoked?
    ensures Calls(ev) == []
    decreases |ev|
  {
    if ev != [] {
      NoCalls(ev[..|ev| - 1]);
    }
  }

  /** Events that end with their only `setProgress`, one of `c[i]`, show exactly
      `c[i]`. */
  lemma ShowsLast(u: seq<Event>, c: seq<int>, i: nat)
    requires i < |c| && |u| > 0 && u[|u| - 1] == ProgressSet(c[i])
    requires forall t :: 0 <= t < |u| - 1 ==> !u[t].ProgressSet?
    ensures Progresses(u) == c[i..i + 1]
  {
    NoProgress(u[..|u| - 1]);
    SliceOne(c, i);
  }

  /** Two events, a `setProgress` of `c[i]` and then one that sets no progress,
      show exactly `c[i]`. */
  lemma ShowsFirst(u: seq<Event>, c: seq<int>, i: nat)
    requires i < |c| && |u| == 2 && u[0] == ProgressSet(c[i]) && !u[1].ProgressSet?
    ensures Progresses(u) == c[i..i + 1]
  {
    assert u[..|u| - 1] == [u[0]];
    assert [u[0]][..0] == [];
    assert Progresses([u[0]]) == [c[i]];
    SliceOne(c, i);
  }

  /** Events that end with their only messenger call `c` make exactly that call. */
  lemma MakesLast(u: seq<Event>, c: Call)
    requires |u| > 0 && u[|u| - 1] == Invoked(c)
    requires forall t :: 0 <= t < |u| - 1 ==> !u[t].Invoked?
    ensures Calls(u) == [c]
  {
    NoCalls(u[..|u| - 1]);
  }

  /** The number of awaited messenger calls in a complete deposit. */
  const CallCount: nat := 5

  /** The hashes of the approval and of the deposit, the values calls 0 and 2
      resolve with. */
  datatype Hashes = Hashes(approve: string, deposit: string)

  function HashesOf(outs: seq<Outcome>): (r: Hashes) {
    Hashes(ValueAt(outs, 0), ValueAt(outs, 2))
  }

  /** The state updates of stage `k`, which come before messenger call `k`; the
      last stage is only the success updates. */
  function Updates(k: nat, h: Hashes, elapsed: string): (r: seq<Event>)
    requires k <= CallCount
  {
    match k
    case 0 => [StatusSet(Approving), ProgressSet(15)]
    case 1 => []
    case 2 => [StatusSet(Depositing), ProgressSet(40)]
    case 3 => [TxHashSet(h.deposit), StatusSet(AwaitingL1), ProgressSet(60)]
    case 4 => [StatusSet(AwaitingRelay), ProgressSet(80)]
    case _ => [ProgressSet(100), StatusSet(Completed(elapsed))]
  }

  /** Messenger call `k` of a deposit of `units` wei. */
  function CallAt(k: nat, units: string, h: Hashes): (r: Call)
    requires k < CallCount
  {
    match k
    case 0 => ApproveErc20(units)
    case 1 => Wait(h.approve)
    case 2 => DepositMnt(units)
    case 3 => Wait(h.deposit)
    case _ => WaitForMessageStatus(h.deposit, Relayed)
  }

  /** The messenger calls of a complete deposit, in the order they are made. */
  function CallScript(units: string, h: Hashes): (r: seq<Call>) {
    seq(CallCount, k requires 0 <= k < CallCount => CallAt(k, units, h))
  }

  /** Stage `k`: its state updates, then call `k` of the script. */
  function Stage(k: nat, units: string, h: Hashes, elapsed: string): (r: seq<Event>)
    requires k <= CallCount
  {
    if k < CallCount then Updates(k, h, elapsed) + [Invoked(CallAt(k, units, h))] else Updates(k, h, elapsed)
  }

  /** The events of stages `0` to `n - 1`, in order. */
  function Stages(n: nat, units: string, h: Hashes, elapsed: string): (r: seq<Event>)
    requires n <= CallCount + 1
  {
    if n == 0 then [] else Stages(n - 1, units, h, elapsed) + Stage(n - 1, units, h, elapsed)
  }

  /** What `depositMNT` returns: `{success: true, txHash, amount}` or
      `{success: false, error}`, where `error` is the caught error's message. */
  datatype Result = Deposited(txHash: string, amount: string) | NotDeposited(error: Option<string>)

  /** The trace a `try` block leaves behind (what came before it included) and how
      it exits. */
  datatype Attempt = Attempt(trace: seq<Event>, exit: Exit<Result>)

  /** The `try` block, entered with the trace `past`: `parsed` is what `parseEther`
      makes of `amount` (the number of wei as a decimal string, or the error it
      throws), `outs` what the messenger calls settle with, in order. The block
      runs every stage up to and including the first call that does not resolve,
      and the success updates when all of them do. */
  function Body(amount: string, parsed: Outcome, outs: seq<Outcome>, elapsed: string, past: seq<Event>): (r: Attempt) {
    if parsed.Fail? then Attempt(past, Raised(parsed.message))
    else
      var h := HashesOf(outs);
      var j := FirstStop(outs, 0, CallCount);
      var shown := past + Stages(j + 1, parsed.value, h, elapsed);
      if j == CallCount then Attempt(shown, Finished(Deposited(h.deposit, amount)))
      else Attempt(shown, Halt(Settle(outs, j)))
  }

  /** The trace after one call of `depositMNT` and how the call completes. */
  datatype Run = Run(trace: seq<Event>, result: Completion<Result>)

  /** The updates after the `try` block has left with `exit`: the `catch` block's
      failure text when it raised, then loading off in the `finally` block; none
      while it hangs, since neither block runs. */
  function Epilogue(exit: Exit<Result>): (r: seq<Event>) {
    match exit
    case Finished(_) => [LoadingSet(false)]
    case Hung => []
    case Raised(err) => [StatusSet(Failed(err)), LoadingSet(false)]
  }

  /** What `depositMNT` completes with once the `try` block has left with `exit`:
      the result, or the failure as a result, or nothing yet. */
  function Report(exit: Exit<Result>): (r: Completion<Result>) {
    match exit
    case Finished(res) => Returned(res)
    case Hung => Suspended
    case Raised(err) => Returned(NotDeposited(err))
  }

  /** The specification of `depositMNT`, called on a hook whose trace is `past`:
      loading on and progress 0, then the `try` block and what follows it. Every
      rejection is an object here (one without a message shows `undefined`), so
      the call never throws, and whenever it returns its last update turns loading off; a
      failure is returned right after its text is shown. */
  function Expected(past: seq<Event>, amount: string, parsed: Outcome, outs: seq<Outcome>, elapsed: string): (r: Run)
    ensures !r.result.Threw?
    ensures r.result.Returned? ==> |r.trace| > 0 && r.trace[|r.trace| - 1] == LoadingSet(false)
    ensures r.result.Returned? && r.result.value.NotDeposited? ==>
              |r.trace| > 1 && r.trace[|r.trace| - 2] == StatusSet(Failed(r.result.value.error))
  {
    var a := Body(amount, parsed, outs, elapsed, past + Start());
    Run(a.trace + Epilogue(a.exit), Report(a.exit))
  }

  /** `setIsLoading(true)` and `setProgress(0)`, which open every call. */
  function Start(): (r: seq<Event>) {
    [LoadingSet(true), ProgressSet(0)]
  }

  /** Progress `i` of a complete deposit, in the order they are shown. */
  function Checkpoint(i: nat): (r: int)
    requires i <= CallCount
  {
    match i
    case 0 => 0
    case 1 => 15
    case 2 => 40
    case 3 => 60
    case 4 => 80
    case _ => 100
  }

  /** The progress values of a complete deposit, in the order they are shown. */
  function Checkpoints(): (r: seq<int>) {
    seq(CallCount + 1, i requires 0 <= i <= CallCount => Checkpoint(i))
  }

  /** Every value is larger than the one before it. */
  predicate Increasing(s: seq<int>) {
    forall i, j :: 0 <= i < j < |s| ==> s[i] < s[j]
  }

  /** The progress values rise strictly from 0 to 100. */
  lemma CheckpointsIncrease()
    ensures Increasing(Checkpoints())
    ensures Checkpoints()[0] == 0 && Checkpoints()[CallCount] == 100
  {
  }

  /** How many progress values stages `0` to `n - 1` show (stage 1 shows none). */
  function MarkCount(n: nat): (r: nat)
    requires n <= CallCount + 1
  {
    if n <= 1 then n else n - 1
  }

  /** How many progress values a call of `depositMNT` shows: the 0 at the start,
      then one for each stage it reaches. */
  function ShownCount(parsed: Outcome, outs: seq<Outcome>): (r: nat) {
    if parsed.Fail? then 1 else 1 + MarkCount(FirstStop(outs, 0, CallCount) + 1)
  }

  /** The updates of stage `k` show the progress values that follow those of the
      stages before it. */
  lemma UpdateProgress(k: nat, h: Hashes, elapsed: string)
    requires k <= CallCount
    ensures Progresses(Updates(k, h, elapsed)) == Checkpoints()[1 + MarkCount(k)..1 + MarkCount(k + 1)]
  {
    var u := Updates(k, h, elapsed);
    var c := Checkpoints();
    match k
    case 0 => ShowsLast(u, c, 1);
    case 1 => SliceEmpty(c, 2);
    case 2 => ShowsLast(u, c, 2);
    case 3 => ShowsLast(u, c, 3);
    case 4 => ShowsLast(u, c, 4);
    case _ => ShowsFirst(u, c, 5);
  }

  /** Stage `k` shows the progress values that follow those of the stages before
      it. */
  lemma StageProgress(k: nat, units: string, h: Hashes, elapsed: string)
    requires k <= CallCount
    ensures Progresses(Stage(k, units, h, elapsed)) == Checkpoints()[1 + MarkCount(k)..1 + MarkCount(k + 1)]
  {
    UpdateProgress(k, h, elapsed);
    if k < CallCount {
      var call := Invoked(CallAt(k, units, h));
      ProgressesAppend(Updates(k, h, elapsed), [call]);
      NoProgress([call]);
    }
  }

  /** Stages `0` to `n - 1` show the first progress values after the initial 0, in
      order. */
  lemma {:induction false} StagesProgress(n: nat, units: string, h: Hashes, elapsed: string)
    requires n <= CallCount + 1
    ensures Progresses(Stages(n, units, h, elapsed)) == Checkpoints()[1..1 + MarkCount(n)]
  {
    if n > 0 {
      StagesProgress(n - 1, units, h, elapsed);
    }
    StagesProgressStep(n, units, h, elapsed);
  }

  /** One step of `StagesProgress`, given what the stages before it show. */
  lemma StagesProgressStep(n: nat, units: string, h: Hashes, elapsed: string)
    requires n <= CallCount + 1
    requires n > 0 ==> Progresses(Stages(n - 1, units, h, elapsed)) == Checkpoints()[1..1 + MarkCount(n - 1)]
    ensures Progresses(Stages(n, units, h, elapsed)) == Checkpoints()[1..1 + MarkCount(n)]
  {
    if n > 0 {
      StagesProgressSnoc(n, units, h, elapsed);
    } else {
      StagesProgressNil(units, h, elapsed);
    }
  }

  /** The base of `StagesProgress`: no stages, no progress. */
  lemma StagesProgressNil(units: string, h: Hashes, elapsed: string)
    ensures Progresses(Stages(0, units, h, elapsed)) == Checkpoints()[1..1 + MarkCount(0)]
  {
    SliceEmpty(Checkpoints(), 1);
  }

  /** The step of `StagesProgress`: stage `n - 1` after the stages before it. */
  lemma StagesProgressSnoc(n: nat, units: string, h: Hashes, elapsed: string)
    requires 0 < n <= CallCount + 1
    requires Progresses(Stages(n - 1, units, h, elapsed)) == Checkpoints()[1..1 + MarkCount(n - 1)]
    ensures Progresses(Stages(n, units, h, elapsed)) == Checkpoints()[1..1 + MarkCount(n)]
  {
    StageProgress(n - 1, units, h, elapsed);
    ProgressesJoin(Stages(n - 1, units, h, elapsed), Stage(n - 1, units, h, elapsed),
                   Checkpoints(), 1, 1 + MarkCount(n - 1), 1 + MarkCount(n));
  }

  /** Two runs showing adjacent slices of `c` show, together, their union. */
  lemma ProgressesJoin(a: seq<Event>, b: seq<Event>, c: seq<int>, i: nat, j: nat, e: nat)
    requires i <= j <= e <= |c|
    requires Progresses(a) == c[i..j] && Progresses(b) == c[j..e]
    ensures Progresses(a + b) == c[i..e]
  {
    ProgressesAppend(a, b);
    SliceSplit(c, i, j, e);
  }

  /** The `try` block shows the progress of every stage it reaches, in order. */
  lemma TryProgress(amount: string, parsed: Outcome, outs: seq<Outcome>, elapsed: string, start: seq<Event>)
    ensures Progresses(Body(amount, parsed, outs, elapsed, start).trace)
            == Progresses(start) + Checkpoints()[1..ShownCount(parsed, outs)]
  {
    if parsed.Ok? {
      var j := FirstStop(outs, 0, CallCount);
      StagesProgress(j + 1, parsed.value, HashesOf(outs), elapsed);
      ProgressesAppend(start, Stages(j + 1, parsed.value, HashesOf(outs), elapsed));
    } else {
      SliceEmpty(Checkpoints(), 1);
    }
  }

  /** The opening updates, a `try` block showing `c[1..n]` and an epilogue that
      sets no progress show `c[..n]`, when `c` starts with 0. */
  lemma AssembleProgress(past: seq<Event>, t: seq<Event>, epi: seq<Event>, c: seq<int>, n: nat)
    requires 1 <= n <= |c| && c[0] == 0
    requires Progresses(t) == Progresses(past + Start()) + c[1..n]
    requires forall i :: 0 <= i < |epi| ==> !epi[i].ProgressSet?
    ensures Progresses(t + epi) == Progresses(past) + c[..n]
  {
    ShowsLast(Start(), c, 0);
    ProgressesAppend(past, Start());
    NoProgress(epi);
    ProgressesAppend(t, epi);
    AppendAssoc(Progresses(past), c[0..1], c[1..n]);
    SliceSplit(c, 0, 1, n);
    assert c[..n] == c[0..n];
  }

  /** A call of `depositMNT` shows progress 0 and then the progress of every stage
      it reaches, in order, and nothing else; the catch and finally blocks set no
      progress. */
  lemma RunProgress(past: seq<Event>, amount: string, parsed: Outcome, outs: seq<Outcome>, elapsed: string)
    ensures Progresses(Expected(past, amount, parsed, outs, elapsed).trace)
            == Progresses(past) + Checkpoints()[..ShownCount(parsed, outs)]
  {
    var a := Body(amount, parsed, outs, elapsed, past + Start());
    TryProgress(amount, parsed, outs, elapsed, past + Start());
    AssembleProgress(past, a.trace, Epilogue(a.exit), Checkpoints(), ShownCount(parsed, outs));
  }

  lemma {:induction false} NotesAppend(a: seq<Event>, b: seq<Event>)
    ensures Notes(a + b) == Notes(a) + Notes(b)
    decreases |b|
  {
    if b == [] {
      assert a + b == a;
    } else {
      assert (a + b)[..|a + b| - 1] == a + b[..|b| - 1];
      NotesAppend(a, b[..|b| - 1]);
    }
  }

  /** Events that set no status show no status. */
  lemma {:induction false} NoNotes(ev: seq<Event>)
    requires forall i :: 0 <= i < |ev| ==> !ev[i].StatusSet?
    ensures Notes(ev) == []
    decreases |ev|
  {
    if ev != [] {
      NoNotes(ev[..|ev| - 1]);
    }
  }

  /** Events that end with their only `setStatus`, one of `c[i]`, show exactly
      `c[i]`. */
  lemma NoteLast(u: seq<Event>, c: seq<Note>, i: nat)
    requires i < |c| && |u| > 0 && u[|u| - 1] == StatusSet(c[i])
    requires forall t :: 0 <= t < |u| - 1 ==> !u[t].StatusSet?
    ensures Notes(u) == c[i..i + 1]
  {
    NoNotes(u[..|u| - 1]);
    SliceOne(c, i);
  }

  /** Events whose only `setStatus`, one of `c[i]`, is followed by one more event
      show exactly `c[i]`. */
  lemma NoteBeforeLast(u: seq<Event>, c: seq<Note>, i: nat)
    requires i < |c| && |u| > 1 && u[|u| - 2] == StatusSet(c[i]) && !u[|u| - 1].StatusSet?
    requires forall t :: 0 <= t < |u| - 2 ==> !u[t].StatusSet?
    ensures Notes(u) == c[i..i + 1]
  {
    var v := u[..|u| - 1];
    assert forall t :: 0 <= t < |v| - 1 ==> v[t] == u[t];
    NoteLast(v, c, i);
    assert Notes(u) == Notes(v) + [];
  }

  /** Status `i` of a complete deposit, in the order they are shown. */
  function Milestone(i: nat, elapsed: string): (r: Note)
    requires i < CallCount
  {
    match i
    case 0 => Approving
    case 1 => Depositing
    case 2 => AwaitingL1
    case 3 => AwaitingRelay
    case _ => Completed(elapsed)
  }

  /** The statuses of a complete deposit, in the order they are shown: status `i`
      is shown by the same stage as progress `i + 1` of `Checkpoints()`. */
  function Milestones(elapsed: string): (r: seq<Note>) {
    seq(CallCount, i requires 0 <= i < CallCount => Milestone(i, elapsed))
  }

  /** The updates of stage `k` show the statuses that follow those of the stages
      before it, at the same positions as its progress values in `UpdateProgress`:
      each status comes with its progress value. */
  lemma UpdateNotes(k: nat, h: Hashes, elapsed: string)
    requires k <= CallCount
    ensures Notes(Updates(k, h, elapsed)) == Milestones(elapsed)[MarkCount(k)..MarkCount(k + 1)]
  {
    var u := Updates(k, h, elapsed);
    var c := Milestones(elapsed);
    match k
    case 0 => NoteBeforeLast(u, c, 0);
    case 1 => SliceEmpty(c, 1);
    case 2 => NoteBeforeLast(u, c, 1);
    case 3 => NoteBeforeLast(u, c, 2);
    case 4 => NoteBeforeLast(u, c, 3);
    case _ => NoteLast(u, c, 4);
  }

  /** Stage `k` shows the statuses that follow those of the stages before it. */
  lemma StageNotes(k: nat, units: string, h: Hashes, elapsed: string)
    requires k <= CallCount
    ensures Notes(Stage(k, units, h, elapsed)) == Milestones(elapsed)[MarkCount(k)..MarkCount(k + 1)]
  {
    UpdateNotes(k, h, elapsed);
    if k < CallCount {
      var call := Invoked(CallAt(k, units, h));
      NotesAppend(Updates(k, h, elapsed), [call]);
      NoNotes([call]);
    }
  }

  /** Stages `0` to `n - 1` show the first statuses, in order. */
  lemma {:induction false} StagesNotes(n: nat, units: string, h: Hashes, elapsed: string)
    requires n <= CallCount + 1
    ensures Notes(Stages(n, units, h, elapsed)) == Milestones(elapsed)[0..MarkCount(n)]
  {
    if n > 0 {
      StagesNotes(n - 1, units, h, elapsed);
    }
    StagesNotesStep(n, units, h, elapsed);
  }

  /** One step of `StagesNotes`, given what the stages before it show. */
  lemma StagesNotesStep(n: nat, units: string, h: Hashes, elapsed: string)
    requires n <= CallCount + 1
    requires n > 0 ==> Notes(Stages(n - 1, units, h, elapsed)) == Milestones(elapsed)[0..MarkCount(n - 1)]
    ensures Notes(Stages(n, units, h, elapsed)) == Milestones(elapsed)[0..MarkCount(n)]
  {
    if n > 0 {
      StagesNotesSnoc(n, units, h, elapsed);
    } else {
      SliceEmpty(Milestones(elapsed), 0);
    }
  }

  /** The step of `StagesNotes`: stage `n - 1` after the stages before it. */
  lemma StagesNotesSnoc(n: nat, units: string, h: Hashes, elapsed: string)
    requires 0 < n <= CallCount + 1
    requires Notes(Stages(n - 1, units, h, elapsed)) == Milestones(elapsed)[0..MarkCount(n - 1)]
    ensures Notes(Stages(n, units, h, elapsed)) == Milestones(elapsed)[0..MarkCount(n)]
  {
    StageNotes(n - 1, units, h, elapsed);
    NotesAppend(Stages(n - 1, units, h, elapsed), Stage(n - 1, units, h, elapsed));
    SliceSplit(Milestones(elapsed), 0, MarkCount(n - 1), MarkCount(n));
  }

  /** The failure text a call of `depositMNT` shows last, when it returns a
      failure. */
  function FailureNotes(r: Completion<Result>): (ns: seq<Note>)
    ensures |ns| <= 1
    ensures ns != [] <==> r.Returned? && r.value.NotDeposited?
  {
    if r.Returned? && r.value.NotDeposited? then [Failed(r.value.error)] else []
  }

  /** The `try` block shows the status of every stage it reaches, in order, and
      leaves with a success only when the deposit went through. */
  lemma TryNotes(amount: string, parsed: Outcome, outs: seq<Outcome>, elapsed: string, start: seq<Event>)
    ensures var a := Body(amount, parsed, outs, elapsed, start);
            && Notes(a.trace) == Notes(start) + Milestones(elapsed)[0..ShownCount(parsed, outs) - 1]
            && (a.exit.Finished? ==> a.exit.value.Deposited?)
  {
    if parsed.Ok? {
      var j := FirstStop(outs, 0, CallCount);
      StagesNotes(j + 1, parsed.value, HashesOf(outs), elapsed);
      NotesAppend(start, Stages(j + 1, parsed.value, HashesOf(outs), elapsed));
    } else {
      SliceEmpty(Milestones(elapsed), 0);
      assert start + [] == start;
    }
  }

  /** The `finally` and `catch` updates show the failure text exactly when the
      call returns a failure. */
  lemma EpilogueNotes(exit: Exit<Result>)
    requires exit.Finished? ==> exit.value.Deposited?
    ensures Notes(Epilogue(exit)) == FailureNotes(Report(exit))
  {
    match exit
    case Finished(_) => NoNotes(Epilogue(exit));
    case Hung =>
    case Raised(err) => NoteBeforeLast(Epilogue(exit), [Failed(err)], 0);
  }

  /** The opening updates, a `try` block showing `x` and an epilogue showing `y`
      show `x` and then `y`. */
  lemma AssembleNotes(past: seq<Event>, t: seq<Event>, epi: seq<Event>, x: seq<Note>, y: seq<Note>)
    requires Notes(t) == Notes(past + Start()) + x && Notes(epi) == y
    ensures Notes(t + epi) == Notes(past) + x + y
  {
    NoNotes(Start());
    NotesAppend(past, Start());
    NotesAppend(t, epi);
    assert Notes(past) + [] == Notes(past);
  }

  /** A call of `depositMNT` shows the status of every stage it reaches, in order,
      each alongside the progress value `RunProgress` places after it, then the
      failure text when it fails, and nothing else. */
  lemma RunNotes(past: seq<Event>, amount: string, parsed: Outcome, outs: seq<Outcome>, elapsed: string)
    ensures var r := Expected(past, amount, parsed, outs, elapsed);
            Notes(r.trace) == Notes(past) + Milestones(elapsed)[0..ShownCount(parsed, outs) - 1] + FailureNotes(r.result)
  {
    var a := Body(amount, parsed, outs, elapsed, past + Start());
    TryNotes(amount, parsed, outs, elapsed, past + Start());
    EpilogueNotes(a.exit);
    AssembleNotes(past, a.trace, Epilogue(a.exit), Milestones(elapsed)[0..ShownCount(parsed, outs) - 1],
                  FailureNotes(Report(a.exit)));
  }

  /** Stage `k` makes call `k` of the script, and the success stage none. */
  lemma StageCalls(k: nat, units: string, h: Hashes, elapsed: string)
    requires k <= CallCount
    ensures Calls(Stage(k, units, h, elapsed)) == CallScript(units, h)[k..if k < CallCount then k + 1 else k]
  {
    var u := Stage(k, units, h, elapsed);
    var s := CallScript(units, h);
    if k < CallCount {
      MakesLast(u, CallAt(k, units, h));
      SliceOne(s, k);
    } else {
      NoCalls(u);
      SliceEmpty(s, k);
    }
  }

  /** Stages `0` to `n - 1` make the first calls of the script, in order. */
  lemma {:induction false} StagesCalls(n: nat, units: string, h: Hashes, elapsed: string)
    requires n <= CallCount + 1
    ensures Calls(Stages(n, units, h, elapsed)) == CallScript(units, h)[..if n <= CallCount then n else CallCount]
  {
    if n > 0 {
      StagesCalls(n - 1, units, h, elapsed);
    }
    StagesCallsStep(n, units, h, elapsed);
  }

  /** One step of `StagesCalls`, given what the stages before it make. */
  lemma StagesCallsStep(n: nat, units: string, h: Hashes, elapsed: string)
    requires n <= CallCount + 1
    requires n > 0 ==> Calls(Stages(n - 1, units, h, elapsed)) == CallScript(units, h)[..n - 1]
    ensures Calls(Stages(n, units, h, elapsed)) == CallScript(units, h)[..if n <= CallCount then n else CallCount]
  {
    if n == 0 {
      StagesCallsNil(units, h, elapsed);
    } else if n <= CallCount {
      StagesCallsCons(n, units, h, elapsed);
    } else {
      StagesCallsLast(units, h, elapsed);
    }
  }

  /** No stages, no calls. */
  lemma StagesCallsNil(units: string, h: Hashes, elapsed: string)
    ensures Calls(Stages(0, units, h, elapsed)) == CallScript(units, h)[..0]
  {
  }

  /** Stage `n - 1` makes call `n - 1` after the calls of the stages before it. */
  lemma StagesCallsCons(n: nat, units: string, h: Hashes, elapsed: string)
    requires 0 < n <= CallCount
    requires Calls(Stages(n - 1, units, h, elapsed)) == CallScript(units, h)[..n - 1]
    ensures Calls(Stages(n, units, h, elapsed)) == CallScript(units, h)[..n]
  {
    StageCalls(n - 1, units, h, elapsed);
    CallsJoin(Stages(n - 1, units, h, elapsed), Stage(n - 1, units, h, elapsed), CallScript(units, h), n - 1, n);
  }

  /** The success stage makes no call. */
  lemma StagesCallsLast(units: string, h: Hashes, elapsed: string)
    requires Calls(Stages(CallCount, units, h, elapsed)) == CallScript(units, h)[..CallCount]
    ensures Calls(Stages(CallCount + 1, units, h, elapsed)) == CallScript(units, h)[..CallCount]
  {
    CallsIgnore(Stages(CallCount, units, h, elapsed), Stage(CallCount, units, h, elapsed));
  }

  /** A run making a prefix of `s`, then one making the next slice, make the
      longer prefix. */
  lemma CallsJoin(a: seq<Event>, b: seq<Event>, s: seq<Call>, j: nat, e: nat)
    requires j <= e <= |s|
    requires Calls(a) == s[..j] && Calls(b) == s[j..e]
    ensures Calls(a + b) == s[..e]
  {
    CallsAppend(a, b);
    SliceSplit(s, 0, j, e);
    assert s[..j] == s[0..j] && s[..e] == s[0..e];
  }

  /** The `try` block makes the script's calls up to and including the first that
      does not resolve, and no others; none when `parseEther` throws. */
  lemma TryCalls(amount: string, parsed: Outcome, outs: seq<Outcome>, elapsed: string, start: seq<Event>)
    ensures var j := FirstStop(outs, 0, CallCount);
            Calls(Body(amount, parsed, outs, elapsed, start).trace)
            == Calls(start) + (if parsed.Fail? then []
                               else CallScript(parsed.value, HashesOf(outs))[..if j < CallCount then j + 1 else CallCount])
  {
    if parsed.Ok? {
      var j := FirstStop(outs, 0, CallCount);
      StagesCalls(j + 1, parsed.value, HashesOf(outs), elapsed);
      CallsAppend(start, Stages(j + 1, parsed.value, HashesOf(outs), elapsed));
    } else {
      assert start + [] == start;
    }
  }

  /** The opening updates, a `try` block making the calls `x` and an epilogue
      that makes none make the calls `x`. */
  lemma AssembleCalls(past: seq<Event>, t: seq<Event>, epi: seq<Event>, x: seq<Call>)
    requires Calls(t) == Calls(past + Start()) + x
    requires forall i :: 0 <= i < |epi| ==> !epi[i].Invoked?
    ensures Calls(t + epi) == Calls(past) + x
  {
    CallsIgnore(past, Start());
    CallsIgnore(t, epi);
  }

  /** Appending events that make no call leaves the calls as they were. */
  lemma CallsIgnore(a: seq<Event>, b: seq<Event>)
    requires forall i :: 0 <= i < |b| ==> !b[i].Invoked?
    ensures Calls(a + b) == Calls(a)
  {
    NoCalls(b);
    CallsAppend(a, b);
    assert Calls(a) + [] == Calls(a);
  }

  /** A call of `depositMNT` makes the script's calls up to and including the first
      that does not resolve, and no others; none when `parseEther` throws. So the
      approval is confirmed before the deposit is submitted, and the relay wait
      comes last, keyed by the deposit's hash. */
  lemma RunCalls(past: seq<Event>, amount: string, parsed: Outcome, outs: seq<Outcome>, elapsed: string)
    ensures var j := FirstStop(outs, 0, CallCount);
            Calls(Expected(past, amount, parsed, outs, elapsed).trace)
            == Calls(past) + (if parsed.Fail? then []
                              else CallScript(parsed.value, HashesOf(outs))[..if j < CallCount then j + 1 else CallCount])
  {
    var j := FirstStop(outs, 0, CallCount);
    var a := Body(amount, parsed, outs, elapsed, past + Start());
    TryCalls(amount, parsed, outs, elapsed, past + Start());
    AssembleCalls(past, a.trace, Epilogue(a.exit),
                  if parsed.Fail? then []
                  else CallScript(parsed.value, HashesOf(outs))[..if j < CallCount then j + 1 else CallCount]);
  }

  /** A deposit whose amount converts and whose calls all resolve returns the
      deposit's hash and the amount as given, and shows every progress value and
      every stage's status. */
  lemma SuccessRun(past: seq<Event>, amount: string, parsed: Outcome, outs: seq<Outcome>, elapsed: string)
    requires parsed.Ok? && OkUpTo(outs, CallCount)
    ensures Expected(past, amount, parsed, outs, elapsed).result == Returned(Deposited(outs[2].value, amount))
    ensures Progresses(Expected(past, amount, parsed, outs, elapsed).trace) == Progresses(past) + Checkpoints()
    ensures Notes(Expected(past, amount, parsed, outs, elapsed).trace)
            == Notes(past) + [Approving, Depositing, AwaitingL1, AwaitingRelay, Completed(elapsed)]
  {
    assert FirstStop(outs, 0, CallCount) == CallCount;
    RunProgress(past, amount, parsed, outs, elapsed);
    assert Checkpoints()[..CallCount + 1] == Checkpoints();
    RunNotes(past, amount, parsed, outs, elapsed);
    assert Milestones(elapsed)[0..CallCount] == [Approving, Depositing, AwaitingL1, AwaitingRelay, Completed(elapsed)];
  }

  /** The state of one `useMantleDeposit` hook instance. */
  class Hook {
    var isLoading: bool
    var status: Note
    var txHash: string
    var progress: int
    /** Every setter call and messenger call so far. */
    ghost var trace: seq<Event>

    function State(): (r: Snapshot)
      reads this
    {
      Snapshot(isLoading, status, txHash, progress)
    }

    /** The state is what the recorded setter calls made it. */
    ghost predicate Valid()
      reads this
    {
      State() == Replay(Initial(), trace)
    }

    constructor ()
      ensures Valid() && trace == [] && State() == Initial()
    {
      isLoading := false;
      status := Blank;
      txHash := "";
      progress := 0;
      trace := [];
    }

    method SetLoading(on: bool)
      requires Valid()
      modifies this
      ensures Valid() && trace == old(trace) + [LoadingSet(on)]
      ensures isLoading == on && status == old(status) && txHash == old(txHash) && progress == old(progress)
    {
      ReplaySnoc(Initial(), trace, LoadingSet(on));
      isLoading := on;
      trace := trace + [LoadingSet(on)];
    }

    method SetStatus(n: Note)
      requires Valid()
      modifies this
      ensures Valid() && trace == old(trace) + [StatusSet(n)]
      ensures isLoading == old(isLoading) && status == n && txHash == old(txHash) && progress == old(progress)
    {
      ReplaySnoc(Initial(), trace, StatusSet(n));
      status := n;
      trace := trace + [StatusSet(n)];
    }

    method SetProgress(p: int)
      requires Valid()
      modifies this
      ensures Valid() && trace == old(trace) + [ProgressSet(p)]
      ensures isLoading == old(isLoading) && status == old(status) && txHash == old(txHash) && progress == p
    {
      ReplaySnoc(Initial(), trace, ProgressSet(p));
      progress := p;
      trace := trace + [ProgressSet(p)];
    }

    method SetTxHash(h: string)
      requires Valid()
      modifies this
      ensures Valid() && trace == old(trace) + [TxHashSet(h)]
      ensures isLoading == old(isLoading) && status == old(status) && txHash == h && progress == old(progress)
    {
      ReplaySnoc(Initial(), trace, TxHashSet(h));
      txHash := h;
      trace := trace + [TxHashSet(h)];
    }

    /** Awaits messenger call number `i`, `c`, which settles with `Settle(outs, i)`. */
    method Await(c: Call, outs: seq<Outcome>, i: nat) returns (o: Option<Outcome>)
      requires Valid()
      modifies this
      ensures Valid() && trace == old(trace) + [Invoked(c)] && o == Settle(outs, i)
      ensures isLoading == old(isLoading) && status == old(status) && txHash == old(txHash) && progress == old(progress)
    {
      ReplaySnoc(Initial(), trace, Invoked(c));
      trace := trace + [Invoked(c)];
      o := Settle(outs, i);
    }

    /** Stages 0 and 1: approve the bridge to move `units` wei and wait for the
        approval; the stages before them left the trace `base`. */
    method Approve(units: string, outs: seq<Outcome>, ghost amount: string, ghost base: seq<Event>, ghost elapsed: string)
      returns (stop: Option<Exit<Result>>)
      requires Valid() && trace == base
      modifies this
      ensures Valid() && isLoading == old(isLoading) && txHash == old(txHash)
      ensures stop.Some? ==>
                && trace == Body(amount, Ok(units), outs, elapsed, base).trace
                && stop.value == Body(amount, Ok(units), outs, elapsed, base).exit && !stop.value.Finished?
                && progress == Checkpoint(MarkCount(FirstStop(outs, 0, CallCount) + 1))
      ensures stop.None? ==>
                && OkUpTo(outs, 2) && progress == Checkpoint(MarkCount(2))
                && trace == base + Stages(2, units, HashesOf(outs), elapsed)
    {
      ghost var h := HashesOf(outs);
      SetStatus(Approving);
      SetProgress(15);
      var o := Await(ApproveErc20(units), outs, 0);
      assert trace == base + Stages(1, units, h, elapsed);
      if o.None? || o.value.Fail? {
        assert FirstStop(outs, 0, CallCount) == 0;
        return Some(Halt(o));
      }
      ghost var t := trace;
      o := Await(Wait(o.value.value), outs, 1);
      assert trace == t + Stage(1, units, h, elapsed);
      AppendAssoc(base, Stages(1, units, h, elapsed), Stage(1, units, h, elapsed));
      if o.None? || o.value.Fail? {
        assert FirstStop(outs, 0, CallCount) == 1;
        return Some(Halt(o));
      }
      stop := None;
    }

    /** Stage 2: submit the deposit; on success, `depositHash` is its hash. */
    method Submit(units: string, outs: seq<Outcome>, ghost amount: string, ghost base: seq<Event>, ghost elapsed: string)
      returns (stop: Option<Exit<Result>>, depositHash: string)
      requires Valid() && OkUpTo(outs, 2) && trace == base + Stages(2, units, HashesOf(outs), elapsed)
      modifies this
      ensures Valid() && isLoading == old(isLoading) && txHash == old(txHash)
      ensures stop.Some? ==>
                && trace == Body(amount, Ok(units), outs, elapsed, base).trace
                && stop.value == Body(amount, Ok(units), outs, elapsed, base).exit && !stop.value.Finished?
                && progress == Checkpoint(MarkCount(FirstStop(outs, 0, CallCount) + 1))
      ensures stop.None? ==>
                && OkUpTo(outs, 3) && depositHash == HashesOf(outs).deposit
                && trace == base + Stages(3, units, HashesOf(outs), elapsed)
    {
      ghost var h := HashesOf(outs);
      ghost var t := trace;
      SetStatus(Depositing);
      SetProgress(40);
      var o := Await(Call.DepositMnt(units), outs, 2);
      assert trace == t + Stage(2, units, h, elapsed);
      AppendAssoc(base, Stages(2, units, h, elapsed), Stage(2, units, h, elapsed));
      if o.None? || o.value.Fail? {
        assert FirstStop(outs, 0, CallCount) == 2;
        return Some(Halt(o)), "";
      }
      stop, depositHash := None, o.value.value;
    }

    /** Stage 3: record the deposit's hash and wait for it on L1. */
    method ConfirmL1(units: string, depositHash: string, outs: seq<Outcome>,
                     ghost amount: string, ghost base: seq<Event>, ghost elapsed: string)
      returns (stop: Option<Exit<Result>>)
      requires Valid() && OkUpTo(outs, 3) && depositHash == HashesOf(outs).deposit
      requires trace == base + Stages(3, units, HashesOf(outs), elapsed)
      modifies this
      ensures Valid() && isLoading == old(isLoading) && txHash == depositHash
      ensures stop.Some? ==>
                && trace == Body(amount, Ok(units), outs, elapsed, base).trace
                && stop.value == Body(amount, Ok(units), outs, elapsed, base).exit && !stop.value.Finished?
                && progress == Checkpoint(MarkCount(FirstStop(outs, 0, CallCount) + 1))
      ensures stop.None? ==> OkUpTo(outs, 4) && trace == base + Stages(4, units, HashesOf(outs), elapsed)
    {
      ghost var h := HashesOf(outs);
      ghost var t := trace;
      SetTxHash(depositHash);
      SetStatus(AwaitingL1);
      SetProgress(60);
      var o := Await(Wait(depositHash), outs, 3);
      assert trace == t + Stage(3, units, h, elapsed);
      AppendAssoc(base, Stages(3, units, h, elapsed), Stage(3, units, h, elapsed));
      if o.None? || o.value.Fail? {
        assert FirstStop(outs, 0, CallCount) == 3;
        return Some(Halt(o));
      }
      stop := None;
    }

    /** Stage 4: wait until the deposit is relayed to L2. */
    method AwaitRelay(units: string, depositHash: string, outs: seq<Outcome>,
                      ghost amount: string, ghost base: seq<Event>, ghost elapsed: string)
      returns (stop: Option<Exit<Result>>)
      requires Valid() && OkUpTo(outs, 4) && depositHash == HashesOf(outs).deposit
      requires trace == base + Stages(4, units, HashesOf(outs), elapsed)
      modifies this
      ensures Valid() && isLoading == old(isLoading) && txHash == old(txHash)
      ensures stop.Some? ==>
                && trace == Body(amount, Ok(units), outs, elapsed, base).trace
                && stop.value == Body(amount, Ok(units), outs, elapsed, base).exit && !stop.value.Finished?
                && progress == Checkpoint(MarkCount(FirstStop(outs, 0, CallCount) + 1))
      ensures stop.None? ==> OkUpTo(outs, 5) && trace == base + Stages(5, units, HashesOf(outs), elapsed)
    {
      ghost var h := HashesOf(outs);
      ghost var t := trace;
      SetStatus(AwaitingRelay);
      SetProgress(80);
      var o := Await(WaitForMessageStatus(depositHash, Relayed), outs, 4);
      assert trace == t + Stage(4, units, h, elapsed);
      AppendAssoc(base, Stages(4, units, h, elapsed), Stage(4, units, h, elapsed));
      if o.None? || o.value.Fail? {
        assert FirstStop(outs, 0, CallCount) == 4;
        return Some(Halt(o));
      }
      stop := None;
    }

    /** The `try` block: convert the amount, then the five stages and the success
        updates. */
    method Try(amount: string, parsed: Outcome, outs: seq<Outcome>, elapsed: string) returns (exit: Exit<Result>)
      requires Valid()
      modifies this
      ensures Valid() && isLoading == old(isLoading)
      ensures trace == Body(amount, parsed, outs, elapsed, old(trace)).trace
      ensures exit == Body(amount, parsed, outs, elapsed, old(trace)).exit
      ensures !exit.Finished? ==>
                progress == if parsed.Fail? then old(progress) else Checkpoint(MarkCount(FirstStop(outs, 0, CallCount) + 1))
      ensures exit.Finished? ==>
                progress == Checkpoint(CallCount) && status == Completed(elapsed) && txHash == exit.value.txHash
    {
      if parsed.Fail? { return Raised(parsed.message); }
      var units := parsed.value;
      ghost var base := trace;
      var stop := Approve(units, outs, amount, base, elapsed);
      if stop.Some? { return stop.value; }
      var depositHash;
      stop, depositHash := Submit(units, outs, amount, base, elapsed);
      if stop.Some? { return stop.value; }
      stop := ConfirmL1(units, depositHash, outs, amount, base, elapsed);
      if stop.Some? { return stop.value; }
      stop := AwaitRelay(units, depositHash, outs, amount, base, elapsed);
      if stop.Some? { return stop.value; }
      exit := Complete(amount, units, depositHash, outs, base, elapsed);
    }

    /** The success updates, once every call has resolved. */
    method Complete(amount: string, units: string, depositHash: string, outs: seq<Outcome>,
                    ghost base: seq<Event>, elapsed: string)
      returns (exit: Exit<Result>)
      requires Valid() && OkUpTo(outs, CallCount) && depositHash == HashesOf(outs).deposit
      requires trace == base + Stages(CallCount, units, HashesOf(outs), elapsed)
      modifies this
      ensures Valid() && isLoading == old(isLoading) && txHash == old(txHash)
      ensures trace == Body(amount, Ok(units), outs, elapsed, base).trace
      ensures exit == Body(amount, Ok(units), outs, elapsed, base).exit
      ensures exit == Finished(Deposited(depositHash, amount))
      ensures progress == Checkpoint(CallCount) && status == Completed(elapsed)
    {
      ghost var h := HashesOf(outs);
      ghost var t := trace;
      SetProgress(100);
      SetStatus(Completed(elapsed));
      assert trace == t + Stage(5, units, h, elapsed);
      AppendAssoc(base, Stages(5, units, h, elapsed), Stage(5, units, h, elapsed));
      assert FirstStop(outs, 0, CallCount) == CallCount;
      exit := Finished(Deposited(depositHash, amount));
    }

    /** `depositMNT`: it never throws; once it returns, loading is off, progress is
        the last value shown, and the status is the completion text or the failure
        text with the error's message; while a call never settles it stays
        loading. */
    method DepositMnt(amount: string, parsed: Outcome, outs: seq<Outcome>, elapsed: string)
      returns (r: Completion<Result>)
      requires Valid()
      modifies this
      ensures Valid()
      ensures trace == Expected(old(trace), amount, parsed, outs, elapsed).trace
      ensures r == Expected(old(trace), amount, parsed, outs, elapsed).result
      ensures r.Returned? <==> !isLoading
      ensures r.Returned? ==> progress == Checkpoints()[ShownCount(parsed, outs) - 1]
      ensures r.Returned? && r.value.Deposited? ==> status == Completed(elapsed) && txHash == r.value.txHash
      ensures r.Returned? && r.value.NotDeposited? ==> status == Failed(r.value.error)
    {
      SetLoading(true);
      SetProgress(0);
      assert trace == old(trace) + Start();
      var exit := Try(amount, parsed, outs, elapsed);
      match exit
      case Finished(res) =>
        SetLoading(false);
        r := Returned(res);
      case Hung =>
        r := Suspended;
      case Raised(err) =>
        SetStatus(Failed(err));
        SetLoading(false);
        r := Returned(NotDeposited(err));
    }
  }
}

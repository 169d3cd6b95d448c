/** The state both withdrawal hooks keep (`step`, `txHash`, `error`) and the trace
    of setter calls and messenger calls a run leaves behind. `S` is the hook's own
    status type and `N` its type of step messages. */
module WithdrawalTrace {
  import opened Wrappers
  import opened Messenger
  import opened Seqs

  /** The `step` state: a status, the message shown to the user and a percentage. */
  datatype Step<S, N> = Step(status: S, message: N, progress: int)

  /** One observable event: a `setStep`, `setTxHash` or `setError` call, or an awaited
      messenger call. `error` holds the message of the stored `Error`. */
  datatype Event<S, N> =
    | StepSet(step: Step<S, N>)
    | TxHashSet(hash: string)
    | ErrorSet(error: Option<string>)
    | Invoked(call: Call)

  /** The hook's three state variables. */
  datatype Snapshot<S, N> = Snapshot(step: Step<S, N>, txHash: string, error: Option<string>)

  /** The trace a `try` block leaves behind (what came before it included) and how
      it exits. */
  datatype Attempt<S, N, +R> = Attempt(trace: seq<Event<S, N>>, exit: Exit<R>)

  /** The state after one event. */
  function Apply<S, N>(st: Snapshot<S, N>, e: Event<S, N>): (r: Snapshot<S, N>) {
    match e
    case StepSet(s) => st.(step := s)
    case TxHashSet(h) => st.(txHash := h)
    case ErrorSet(err) => st.(error := err)
    case Invoked(_) => st
  }

  /** The state after a sequence of events, applied in order. */
  function Replay<S, N>(st: Snapshot<S, N>, ev: seq<Event<S, N>>): (r: Snapshot<S, N>) {
    ReplayPrefix(st, ev, |ev|)
  }

  /** The state after the first `n` events. */
  function ReplayPrefix<S, N>(st: Snapshot<S, N>, ev: seq<Event<S, N>>, n: nat): (r: Snapshot<S, N>)
    requires n <= |ev|
  {
    if n == 0 then st else Apply(ReplayPrefix(st, ev, n - 1), ev[n - 1])
  }

  lemma {:induction false} ReplayPrefixExtend<S, N>(st: Snapshot<S, N>, a: seq<Event<S, N>>, b: seq<Event<S, N>>, n: nat)
    requires n <= |a|
    ensures ReplayPrefix(st, a + b, n) == ReplayPrefix(st, a, n)
  {
    if n > 0 {
      ReplayPrefixExtend(st, a, b, n - 1);
    }
  }

  /** Replaying one more event applies it to the state replayed so far. */
  lemma ReplaySnoc<S, N>(st: Snapshot<S, N>, ev: seq<Event<S, N>>, e: Event<S, N>)
    ensures Replay(st, ev + [e]) == Apply(Replay(st, ev), e)
  {
    ReplayPrefixExtend(st, ev, [e], |ev|);
  }

  /** The `setStep` values among the events, in order. */
  function Steps<S, N>(ev: seq<Event<S, N>>): (r: seq<Step<S, N>>)
    decreases |ev|
  {
    if ev == [] then []
    else Steps(ev[..|ev| - 1]) + (if ev[|ev| - 1].StepSet? then [ev[|ev| - 1].step] else [])
  }

  /** The messenger calls among the events, in order. */
  function Calls<S, N>(ev: seq<Event<S, N>>): (r: seq<Call>)
    decreases |ev|
  {
    if ev == [] then []
    else Calls(ev[..|ev| - 1]) + (if ev[|ev| - 1].Invoked? then [ev[|ev| - 1].call] else [])
  }

  lemma {:induction false} StepsAppend<S, N>(a: seq<Event<S, N>>, b: seq<Event<S, N>>)
    ensures Steps(a + b) == Steps(a) + Steps(b)
    decreases |b|
  {
    if b == [] {
      assert a + b == a;
    } else {
      assert (a + b)[..|a + b| - 1] == a + b[..|b| - 1];
      StepsAppend(a, b[..|b| - 1]);
    }
  }

  lemma {:induction false} CallsAppend<S, N>(a: seq<Event<S, N>>, b: seq<Event<S, N>>)
    ensures Calls(a + b) == Calls(a) + Calls(b)
    decreases |b|
  {
    if b == [] {
      assert a + b == a;
    } else {
      assert (a + b)[..|a + b| - 1] == a + b[..|b| - 1];
      CallsAppend(a, b[..|b| - 1]);
    }
  }

  /** The steps among one event. */
  lemma StepsOne<S, N>(e: Event<S, N>)
    ensures Steps([e]) == if e.StepSet? then [e.step] else []
  {
    assert [e][..0] == [];
  }

  /** A messenger call after some events adds no step. */
  lemma StepsThenCall<S, N>(ev: seq<Event<S, N>>, c: Call)
    ensures Steps(ev + [Invoked(c)]) == Steps(ev)
  {
    StepsAppend(ev, [Invoked(c)]);
    StepsOne<S, N>(Invoked(c));
  }

  /** A single `setStep` of `c[i]` shows exactly `c[i]`. */
  lemma ShowsOne<S, N>(u: seq<Event<S, N>>, c: seq<Step<S, N>>, i: nat)
    requires i < |c| && u == [StepSet(c[i])]
    ensures Steps(u) == c[i..i + 1]
  {
    StepsOne(u[0]);
  }

  /** Two `setStep`s of `c[i]` and `c[i + 1]` show exactly those two steps. */
  lemma ShowsTwo<S, N>(u: seq<Event<S, N>>, c: seq<Step<S, N>>, i: nat)
    requires i + 1 < |c| && u == [StepSet(c[i]), StepSet(c[i + 1])]
    ensures Steps(u) == c[i..i + 2]
  {
    assert u == [u[0]] + [u[1]];
    StepsAppend([u[0]], [u[1]]);
    StepsOne(u[0]);
    StepsOne(u[1]);
  }

  /** A `setTxHash` followed by a `setStep` of `c[i]` shows exactly `c[i]`. */
  lemma ShowsAfterHash<S, N>(u: seq<Event<S, N>>, c: seq<Step<S, N>>, i: nat)
    requires i < |c| && |u| == 2 && u[0].TxHashSet? && u[1] == StepSet(c[i])
    ensures Steps(u) == c[i..i + 1]
  {
    assert u == [u[0]] + [u[1]];
    StepsAppend([u[0]], [u[1]]);
    StepsOne(u[0]);
    StepsOne(u[1]);
  }

  /** No events show no steps. */
  lemma ShowsNone<S, N>(u: seq<Event<S, N>>, c: seq<Step<S, N>>, i: nat)
    requires i <= |c| && u == []
    ensures Steps(u) == c[i..i]
  {
  }

  /** Events showing two adjacent slices of `c`, one after the other, show the slice
      that spans both. */
  lemma StepsJoin<S, N>(a: seq<Event<S, N>>, b: seq<Event<S, N>>, c: seq<Step<S, N>>, i: nat, j: nat, e: nat)
    requires i <= j <= e <= |c| && Steps(a) == c[i..j] && Steps(b) == c[j..e]
    ensures Steps(a + b) == c[i..e]
  {
    StepsAppend(a, b);
    SliceSplit(c, i, j, e);
  }

  /** Events making call `k` of `s`, followed by events making the calls after it,
      make the calls from `k` on. */
  lemma CallsJoin<S, N>(a: seq<Event<S, N>>, b: seq<Event<S, N>>, s: seq<Call>, k: nat, e: nat)
    requires k < e <= |s| && Calls(a) == [s[k]] && Calls(b) == s[k + 1..e]
    ensures Calls(a + b) == s[k..e]
  {
    CallsAppend(a, b);
    SliceCons(s, k, e);
  }

  /** Events showing `x` after a trace `past` add `x` to the steps of `past`. */
  lemma StepsAfter<S, N>(t: seq<Event<S, N>>, past: seq<Event<S, N>>, mid: seq<Event<S, N>>, x: seq<Step<S, N>>)
    requires t == past + mid && Steps(mid) == x
    ensures Steps(t) == Steps(past) + x
  {
    StepsAppend(past, mid);
  }

  /** Events making the calls `x` after a trace `past` add `x` to the calls of `past`. */
  lemma CallsAfter<S, N>(t: seq<Event<S, N>>, past: seq<Event<S, N>>, mid: seq<Event<S, N>>, x: seq<Call>)
    requires t == past + mid && Calls(mid) == x
    ensures Calls(t) == Calls(past) + x
  {
    CallsAppend(past, mid);
  }

  /** Events that are all state updates make no calls. */
  lemma {:induction false} NoCalls<S, N>(ev: seq<Event<S, N>>)
    requires forall i :: 0 <= i < |ev| ==> !ev[i].Invoked?
    ensures Calls(ev) == []
    decreases |ev|
  {
    if ev != [] {
      NoCalls(ev[..|ev| - 1]);
    }
  }

  /** Events that are not `setStep` calls show no steps. */
  lemma {:induction false} NoSteps<S, N>(ev: seq<Event<S, N>>)
    requires forall i :: 0 <= i < |ev| ==> !ev[i].StepSet?
    ensures Steps(ev) == []
    decreases |ev|
  {
    if ev != [] {
      NoSteps(ev[..|ev| - 1]);
    }
  }

  /** Every step reports a larger percentage than the one before it. */
  predicate StrictlyIncreasing<S, N>(steps: seq<Step<S, N>>) {
    forall i, j :: 0 <= i < j < |steps| ==> steps[i].progress < steps[j].progress
  }
}

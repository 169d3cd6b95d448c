# HostIT on Mantle: bridge hooks, registration form and event pagination in Dafny

This project models the logic at the core of the HostIT front end, a ticketing
application on the Mantle L2 network. Three parts are covered:

- **The three cross-chain transfer hooks.**
  - `useWithdrawERC721ToL1` withdraws an ERC721 token from L2 to L1.
  - `useMantleWithdrawal` withdraws MNT from L2 to L1.
  - `useMantleDeposit` deposits MNT from L1 to L2.

  Each hook is a class whose fields are the hook's React state (`step`, `txHash`, `error`; or `isLoading`,
  `status`, `progress`, `txHash` for the deposit). Each setter is an immediate field assignment. Each class
  also keeps a ghost `trace` of every setter call and every awaited messenger call. Its invariant `Valid()`
  says that the fields are what replaying the trace from the initial state gives.

  The Mantle SDK's cross-chain messenger is an oracle. It is a sequence of outcomes, each `Ok(hash)` or
  `Fail(message)`, and call `i` consumes `outs[i]`. When the outcomes run out, the awaited call never settles
  and the entry point stays `Suspended`.

  Each entry method (`WithdrawErc721`, `WithdrawMnt`, `DepositMnt`) is split into phase methods, one per step
  of the source. Its new trace, its result and its new state are tied to a pure specification `Expected`.
  Lemmas then prove, about `Expected`, the order of the messenger calls, the progress checkpoints, the
  success result and the failure path.
- **The registration-form hook** `useRegistrationForm`. It is a class holding `formData` (a map from field
  names to text or checkbox values), `errors` and `touched`. The name and email rules are pure predicates.
  The email regular expression `^[^\s@]+@[^\s@]+\.[^\s@]+$` is modelled as a decomposition of the string, and
  it is proved equal to a direct description of its shape.
- **The organizer's event-analytics page.** This covers:
  - the page-size choice and `totalPages`;
  - the clamp of the current page;
  - the slice window, with JavaScript's `slice` semantics;
  - `isFreeEvent` and the `formatTime` fallback;
  - the error message `loadEvents` shows.

  The page's state is a class with `currentPage`, `eventsPerPage`, `is2XL`, `events`, `isLoading` and `error`.

Shared modules:

- `Messenger` holds the oracle: `Outcome`, `Settle`, `FirstStop` (the first call that does not resolve) and `Halt`.
- `WithdrawalTrace` holds the trace, replay and checkpoint lemmas the two withdrawal hooks share.
- `ErrorClassifier` holds the substring classifier both withdrawal hooks run in their `catch` block.
- `Text` holds JavaScript's `trim`, `includes` and `toLowerCase` on strings.
- `Seqs` holds sequence slicing facts, and `Wrappers` the `Option` type.

Facts about the code that the model keeps as written:

- The deposit shows progress 0, 15, 40, 60, 80, 100. Each value from 15 on is set next to one status text.
- A failed deposit does not classify its error, and it does not throw when the rejection is an object. It returns `{success: false, error}`, shows
  "MNT deposit failed: " and the message, and leaves `progress` where it was.
- The deposit hook does not check the wallet connection.
- Both withdrawals start with an `idle`/5 "Initializing bridge..." step. While it is shown, `isLoading` is false.
- The ERC721 withdrawal sets the 75% challenge step once, before both status waits.
- In both withdrawals, a missing or empty error message becomes "Withdrawal failed".
- Nothing checks the token addresses, so no hook fails on an invalid asset.
- Two waits outside the messenger may never end. The ERC721 withdrawal's `getAddresses` may never settle; the run
  then stays suspended with the step untouched. The analytics page clears its abort timer before it reads the
  response body, so a body that never arrives leaves the page loading.

## Model

| member | source | states |
|---|---|---|
| Messenger.Settle | frontend/src/hooks/useWithdrawERC721ToL1.ts:97-179 | an awaited call settles exactly when an outcome is left for it, and then with that outcome |
| Messenger.FirstStop | frontend/src/hooks/useWithdrawERC721ToL1.ts:97-179 | the first call of a range that does not resolve: every call before it resolved; it was rejected or never settles, or the range is exhausted |
| ErrorClassifier.Classify | frontend/src/hooks/useWithdrawERC721ToL1.ts:200-209 | no message or an empty one gives "Withdrawal failed"; "user rejected" wins over "insufficient funds"; "insufficient funds" gives the hook's funds text; any other message passes through verbatim |
| ErrorClassifier.ClassifyNonEmpty | frontend/src/hooks/useWithdrawERC721ToL1.ts:211-219 | the classified text, which the thrown error carries, is never empty |
| Text.LeadingSpace | frontend/src/hooks/useRegistrationForm.ts:50 | `trim` removes exactly the leading whitespace: all before the cut is whitespace, the character at the cut is not |
| Text.TrailingStart | frontend/src/hooks/useRegistrationForm.ts:50 | `trim` removes exactly the trailing whitespace |
| Text.Trim | frontend/src/hooks/useRegistrationForm.ts:50 | `s.trim()`: the leading whitespace is cut, then the trailing whitespace; what that leaves is stated by `Text.TrimShape` and `Text.TrimCount` |
| Text.TrimShape | frontend/src/hooks/useRegistrationForm.ts:50 | the trimmed string is a slice with only whitespace around it, and it starts and ends with non-whitespace |
| Text.TrimKeepsCount | frontend/src/hooks/useRegistrationForm.ts:50-52 | trimming keeps every non-whitespace character |
| Text.TrimCount | frontend/src/hooks/useRegistrationForm.ts:50-52 | the trimmed string is empty, of length 1 or of length at least 2 exactly when the string has 0, 1 or at least 2 non-whitespace characters |
| Text.AllSpaceCount | frontend/src/hooks/useRegistrationForm.ts:60 | a string is all whitespace exactly when it has no non-whitespace character |
| Text.NonSpaceCountAppend | frontend/src/hooks/useRegistrationForm.ts:50-52 | the non-whitespace count of a concatenation is the sum of the counts |
| Text.CountBetweenEnds | frontend/src/hooks/useRegistrationForm.ts:52 | a string that starts and ends with non-whitespace has 1 such character at length 1 and at least 2 otherwise |
| Text.Contains | frontend/src/hooks/useWithdrawERC721ToL1.ts:202-204 | `s.includes(sub)` as a left-to-right search; what it finds is stated by `Text.ContainsIff` |
| Text.ContainsIff | frontend/src/hooks/useWithdrawERC721ToL1.ts:202-204 | the executable substring search `includes` holds exactly when the substring occurs at some index |
| Text.LowerChar | frontend/src/app/dashboard/organizer/event-analytics/page.tsx:158 | an upper-case ASCII letter maps to the lower-case letter at the same place in the alphabet; every other character is kept |
| Text.Lower | frontend/src/app/dashboard/organizer/event-analytics/page.tsx:158 | `toLowerCase` keeps the length and lowers each character |
| WithdrawErc721.Expected | frontend/src/hooks/useWithdrawERC721ToL1.ts:41-223 | the whole call: a thrown message is never empty, and a throw either changes nothing (the wallet checks) or ends with the step {error, message, 0} |
| WithdrawErc721.RunExit | frontend/src/hooks/useWithdrawERC721ToL1.ts:97-195 | a run finishes with the withdraw, prove and finalize hashes and the token id when all nine calls resolve; otherwise it raises the error of the first rejected call, or hangs on the first call that never settles |
| WithdrawErc721.RunTrace | frontend/src/hooks/useWithdrawERC721ToL1.ts:90-187 | a run's trace is its stages up to and including the stage of the first call that does not resolve |
| WithdrawErc721.StageCalls | frontend/src/hooks/useWithdrawERC721ToL1.ts:97-179 | stage `k` makes exactly call `k` of the script; the success stage makes none |
| WithdrawErc721.StagesCalls | frontend/src/hooks/useWithdrawERC721ToL1.ts:97-179 | stages `k` to `j` make exactly the script's calls `k` to `j`, in order |
| WithdrawErc721.RunCalls | frontend/src/hooks/useWithdrawERC721ToL1.ts:97-179 | a run makes these calls in order: withdrawERC721; wait; READY_TO_PROVE; proveMessage; wait; IN_CHALLENGE_PERIOD; READY_FOR_RELAY; finalizeMessage with gas limit 4700000; wait. Every status call is keyed by the withdrawal hash. The run stops at the first call that does not resolve |
| WithdrawErc721.UpdateSteps | frontend/src/hooks/useWithdrawERC721ToL1.ts:76-187 | the setter calls of each stage show exactly that stage's part of the checkpoint list |
| WithdrawErc721.StageSteps | frontend/src/hooks/useWithdrawERC721ToL1.ts:76-187 | a stage, call included, shows exactly its part of the checkpoints |
| WithdrawErc721.StagesSteps | frontend/src/hooks/useWithdrawERC721ToL1.ts:76-187 | stages `k` to `j` show the checkpoints from stage `k`'s first to stage `j`'s last, in order |
| WithdrawErc721.RunSteps | frontend/src/hooks/useWithdrawERC721ToL1.ts:76-187 | a run shows the checkpoints of every stage it reaches, in order, and no other step |
| WithdrawErc721.CheckpointsIncrease | frontend/src/hooks/useWithdrawERC721ToL1.ts:76-187 | the checkpoints idle/5, initiating/15, initiating/25, waiting_prove/40, proving/60, proving/70, waiting_challenge/75, finalizing/90, finalizing/95, success/100 rise strictly and end at 100 |
| WithdrawErc721.StartSteps | frontend/src/hooks/useWithdrawERC721ToL1.ts:52-53 | clearing `error` and `txHash` shows no step |
| WithdrawErc721.SuccessResult | frontend/src/hooks/useWithdrawERC721ToL1.ts:189-195 | when every call resolves, the result is the withdraw, prove and finalize hashes and the token id unchanged |
| WithdrawErc721.SuccessSteps | frontend/src/hooks/useWithdrawERC721ToL1.ts:76-187 | when every call resolves, the steps shown are exactly the ten checkpoints, in order |
| WithdrawErc721.Hook.constructor | frontend/src/hooks/useWithdrawERC721ToL1.ts:33-39 | the initial state is step {idle, "", 0}, `txHash` "" and `error` null, with an empty trace |
| WithdrawErc721.Hook.SetStep | frontend/src/hooks/useWithdrawERC721ToL1.ts:33-37 | `setStep` replaces the step, records the update and changes nothing else |
| WithdrawErc721.Hook.SetTxHash | frontend/src/hooks/useWithdrawERC721ToL1.ts:38 | `setTxHash` replaces the hash, records the update and changes nothing else |
| WithdrawErc721.Hook.SetError | frontend/src/hooks/useWithdrawERC721ToL1.ts:39 | `setError` replaces the error, records the update and changes nothing else |
| WithdrawErc721.Hook.Await | frontend/src/hooks/useWithdrawERC721ToL1.ts:97-179 | awaiting a call records it, changes no state and settles with the oracle's outcome |
| WithdrawErc721.Hook.Initiate | frontend/src/hooks/useWithdrawERC721ToL1.ts:75-111 | shows idle/5 and initiating/15, submits the withdrawal, sets `txHash` to its hash, shows initiating/25 and waits; stops as the specification says on a failed call |
| WithdrawErc721.Hook.AwaitStateRoot | frontend/src/hooks/useWithdrawERC721ToL1.ts:113-123 | shows waiting_prove/40 and waits for READY_TO_PROVE on the withdrawal hash |
| WithdrawErc721.Hook.Prove | frontend/src/hooks/useWithdrawERC721ToL1.ts:125-140 | shows proving/60, proves the message, shows proving/70 and waits for the proof; the proof's hash is returned |
| WithdrawErc721.Hook.AwaitChallenge | frontend/src/hooks/useWithdrawERC721ToL1.ts:142-158 | shows waiting_challenge/75 once, then waits for IN_CHALLENGE_PERIOD and READY_FOR_RELAY in that order |
| WithdrawErc721.Hook.Finalize | frontend/src/hooks/useWithdrawERC721ToL1.ts:160-179 | shows finalizing/90, finalizes with gas limit 4700000, shows finalizing/95 and waits; the finalizing hash is returned |
| WithdrawErc721.Hook.Try | frontend/src/hooks/useWithdrawERC721ToL1.ts:56-195 | the `try` block. A `getAddresses` that never settles hangs before any step, and a failed one or a missing account raises before any step. The trace and exit are those of the specification, and success leaves success/100 with `txHash` the withdrawal hash |
| WithdrawErc721.Hook.Catch | frontend/src/hooks/useWithdrawERC721ToL1.ts:196-219 | stores the classified message in `error`, then shows {error, message, 0}, and returns the message to throw |
| WithdrawErc721.Hook.WithdrawErc721 | frontend/src/hooks/useWithdrawERC721ToL1.ts:41-223 | trace and result follow the specification. A disconnected wallet or missing wallet client throws before any state changes. A failure inside the `try` ends in {error, m, 0} with `error` set and the same `m` thrown. Success ends at success/100 with `txHash` the withdrawal hash and no error. A suspended call has no error, and it is loading unless `getAddresses` never settled, in which case the step is untouched |
| WithdrawErc721.Hook.Reset | frontend/src/hooks/useWithdrawERC721ToL1.ts:225-229 | from any state, yields step {idle, "", 0}, `txHash` "" and `error` null |
| WithdrawMnt.Expected | frontend/src/hooks/useWithdrawMntToL1.ts:44-205 | the whole call: a thrown message is never empty, and a throw either changes nothing (the wallet check) or ends with the step {error, message, 0} |
| WithdrawMnt.RunExit | frontend/src/hooks/useWithdrawMntToL1.ts:94-177 | a run finishes with the three hashes and the amount when all eight calls resolve; otherwise it raises the first rejection's error or hangs |
| WithdrawMnt.RunTrace | frontend/src/hooks/useWithdrawMntToL1.ts:87-169 | a run's trace is its stages up to and including the stage of the first call that does not resolve |
| WithdrawMnt.StageCalls | frontend/src/hooks/useWithdrawMntToL1.ts:94-161 | stage `k` makes exactly call `k` of the script; the success stage makes none |
| WithdrawMnt.StagesCalls | frontend/src/hooks/useWithdrawMntToL1.ts:94-161 | stages `k` to `j` make exactly the script's calls `k` to `j`, in order |
| WithdrawMnt.RunCalls | frontend/src/hooks/useWithdrawMntToL1.ts:94-161 | a run makes these calls in order: withdrawMNT; wait; READY_TO_PROVE; proveMessage; wait; READY_FOR_RELAY; finalizeMessage with no override; wait. There is a single relay gate, and the run stops at the first call that does not resolve |
| WithdrawMnt.UpdateSteps | frontend/src/hooks/useWithdrawMntToL1.ts:87-169 | the setter calls of each stage show exactly that stage's part of the checkpoints |
| WithdrawMnt.StageSteps | frontend/src/hooks/useWithdrawMntToL1.ts:87-169 | a stage, call included, shows exactly its part of the checkpoints |
| WithdrawMnt.StagesSteps | frontend/src/hooks/useWithdrawMntToL1.ts:87-169 | stages `k` to `j` show their checkpoints in order |
| WithdrawMnt.RunSteps | frontend/src/hooks/useWithdrawMntToL1.ts:87-169 | a run shows the checkpoints of every stage it reaches, in order |
| WithdrawMnt.CheckpointsIncrease | frontend/src/hooks/useWithdrawMntToL1.ts:71-169 | the checkpoints idle/5, initiating/15, initiating/25, waiting_state_root/40, proving/60, proving/70, waiting_challenge/75, finalizing/90, finalizing/95, success/100 rise strictly and end at 100 |
| WithdrawMnt.StartSteps | frontend/src/hooks/useWithdrawMntToL1.ts:51-75 | clearing `error` and `txHash`, then the bridge step, shows exactly idle/5 |
| WithdrawMnt.SuccessResult | frontend/src/hooks/useWithdrawMntToL1.ts:171-177 | when the provider exists, the amount converts and every call resolves, the result is the three hashes and the original `amount` string |
| WithdrawMnt.SuccessSteps | frontend/src/hooks/useWithdrawMntToL1.ts:71-169 | when every call resolves, the steps shown are exactly the ten checkpoints, in order |
| WithdrawMnt.Hook.constructor | frontend/src/hooks/useWithdrawMntToL1.ts:36-42 | the initial state is step {idle, "", 0}, `txHash` "" and `error` null |
| WithdrawMnt.Hook.SetStep | frontend/src/hooks/useWithdrawMntToL1.ts:36-40 | `setStep` replaces the step only |
| WithdrawMnt.Hook.SetTxHash | frontend/src/hooks/useWithdrawMntToL1.ts:41 | `setTxHash` replaces the hash only |
| WithdrawMnt.Hook.SetError | frontend/src/hooks/useWithdrawMntToL1.ts:42 | `setError` replaces the error only |
| WithdrawMnt.Hook.Await | frontend/src/hooks/useWithdrawMntToL1.ts:94-161 | awaiting a call records it, changes no state and settles with the oracle's outcome |
| WithdrawMnt.Hook.Initiate | frontend/src/hooks/useWithdrawMntToL1.ts:87-103 | shows initiating/15, submits the withdrawal, sets `txHash` to its hash, shows initiating/25 and waits |
| WithdrawMnt.Hook.AwaitStateRoot | frontend/src/hooks/useWithdrawMntToL1.ts:105-115 | shows waiting_state_root/40 and waits for READY_TO_PROVE on the withdrawal hash |
| WithdrawMnt.Hook.Prove | frontend/src/hooks/useWithdrawMntToL1.ts:117-132 | shows proving/60, proves, shows proving/70 and waits; returns the proof's hash |
| WithdrawMnt.Hook.AwaitChallenge | frontend/src/hooks/useWithdrawMntToL1.ts:134-144 | shows waiting_challenge/75 and waits for READY_FOR_RELAY only |
| WithdrawMnt.Hook.Finalize | frontend/src/hooks/useWithdrawMntToL1.ts:146-161 | shows finalizing/90, finalizes without an override, shows finalizing/95 and waits |
| WithdrawMnt.Hook.Try | frontend/src/hooks/useWithdrawMntToL1.ts:55-177 | a missing provider raises "No wallet provider available" before any step. The bridge step comes before `parseEther`, whose failure raises. Otherwise the trace and exit are those of the specification, and success leaves success/100 with `txHash` the withdrawal hash |
| WithdrawMnt.Hook.Catch | frontend/src/hooks/useWithdrawMntToL1.ts:178-201 | stores the classified message (funds text "Insufficient funds for transaction") and shows {error, message, 0} |
| WithdrawMnt.Hook.WithdrawMnt | frontend/src/hooks/useWithdrawMntToL1.ts:44-205 | trace and result follow the specification. Disconnected throws before any state change. Every failure in the `try`, a missing provider included, ends in {error, m, 0} with `error` set and `m` thrown. Success ends at success/100 |
| WithdrawMnt.Hook.Reset | frontend/src/hooks/useWithdrawMntToL1.ts:207-211 | yields step {idle, "", 0}, `txHash` "" and `error` null |
| DepositMnt.Expected | frontend/src/hooks/useDepositMntFromL1.ts:42-99 | a deposit whose rejections are objects never throws. Whenever it returns, its last update turns loading off. A failure is returned right after its status text |
| DepositMnt.CheckpointsIncrease | frontend/src/hooks/useDepositMntFromL1.ts:44-82 | the progress values 0, 15, 40, 60, 80, 100 rise strictly from 0 to 100 |
| DepositMnt.UpdateProgress | frontend/src/hooks/useDepositMntFromL1.ts:52-82 | each stage's setter calls show exactly its progress value (none for the approval wait) |
| DepositMnt.StageProgress | frontend/src/hooks/useDepositMntFromL1.ts:52-82 | a stage, call included, shows exactly its progress values |
| DepositMnt.StagesProgress | frontend/src/hooks/useDepositMntFromL1.ts:52-82 | the first `n` stages show the progress values after 0 up to stage `n`, in order |
| DepositMnt.TryProgress | frontend/src/hooks/useDepositMntFromL1.ts:47-88 | the `try` block shows the progress values of the stages it reaches, and none when `parseEther` throws |
| DepositMnt.RunProgress | frontend/src/hooks/useDepositMntFromL1.ts:42-99 | a deposit shows progress 0 and then the value of each stage it reaches, and nothing else. So a failure leaves progress at the last value reached |
| DepositMnt.StageCalls | frontend/src/hooks/useDepositMntFromL1.ts:58-79 | stage `k` makes exactly call `k` of the script; the success stage none |
| DepositMnt.StagesCalls | frontend/src/hooks/useDepositMntFromL1.ts:58-79 | the first `n` stages make the first calls of the script, in order |
| DepositMnt.TryCalls | frontend/src/hooks/useDepositMntFromL1.ts:47-88 | the `try` block makes the script's calls up to the first that does not resolve; none when `parseEther` throws |
| DepositMnt.RunCalls | frontend/src/hooks/useDepositMntFromL1.ts:58-79 | a deposit makes these calls in order: approveERC20, wait on the approval, depositMNT, wait on the deposit, RELAYED keyed by the deposit hash. It stops at the first call that does not resolve |
| DepositMnt.UpdateNotes | frontend/src/hooks/useDepositMntFromL1.ts:52-82 | each stage's setter calls show exactly its status text, and none for the approval wait. Stage `k` shows status `MarkCount(k)` and progress `MarkCount(k) + 1`, so each text comes with its progress value: Approving with 15, Depositing with 40, the L1 text with 60, the relay text with 80, the completion text with 100 |
| DepositMnt.StageNotes | frontend/src/hooks/useDepositMntFromL1.ts:52-82 | a stage, call included, shows exactly its status text |
| DepositMnt.StagesNotes | frontend/src/hooks/useDepositMntFromL1.ts:52-82 | the first `n` stages show the status texts up to stage `n`, in order |
| DepositMnt.TryNotes | frontend/src/hooks/useDepositMntFromL1.ts:47-88 | the `try` block shows the status texts of the stages it reaches, none when `parseEther` throws, and it finishes only with a completed deposit |
| DepositMnt.FailureNotes | frontend/src/hooks/useDepositMntFromL1.ts:89-95 | at most one failure text, present exactly when the call returns a failure |
| DepositMnt.EpilogueNotes | frontend/src/hooks/useDepositMntFromL1.ts:89-98 | the `catch` and `finally` updates show "MNT deposit failed: " and the message exactly when the call returns a failure, and no other status |
| DepositMnt.RunNotes | frontend/src/hooks/useDepositMntFromL1.ts:42-99 | a deposit shows the status text of each stage it reaches, in order, then the failure text when it fails, and nothing else |
| DepositMnt.SuccessRun | frontend/src/hooks/useDepositMntFromL1.ts:81-88 | when everything resolves, the result is the deposit hash and the amount as given. Progress shows 0, 15, 40, 60, 80, 100, and the statuses shown are exactly "Approving MNT...", "Depositing MNT...", "Waiting for L1 confirmation...", "Waiting for L2 relay..." and the completion text, in order |
| DepositMnt.Hook.constructor | frontend/src/hooks/useDepositMntFromL1.ts:19-22 | initially not loading, empty status, empty hash, progress 0 |
| DepositMnt.Hook.SetLoading | frontend/src/hooks/useDepositMntFromL1.ts:19 | `setIsLoading` replaces the flag only |
| DepositMnt.Hook.SetStatus | frontend/src/hooks/useDepositMntFromL1.ts:20 | `setStatus` replaces the status only |
| DepositMnt.Hook.SetTxHash | frontend/src/hooks/useDepositMntFromL1.ts:21 | `setTxHash` replaces the hash only |
| DepositMnt.Hook.SetProgress | frontend/src/hooks/useDepositMntFromL1.ts:22 | `setProgress` replaces the progress only |
| DepositMnt.Hook.Await | frontend/src/hooks/useDepositMntFromL1.ts:58-79 | awaiting a call records it and changes no state |
| DepositMnt.Hook.Approve | frontend/src/hooks/useDepositMntFromL1.ts:52-63 | shows "Approving MNT..." and 15, submits the approval and waits for it; on failure stops with progress at 15 |
| DepositMnt.Hook.Submit | frontend/src/hooks/useDepositMntFromL1.ts:65-69 | shows "Depositing MNT..." and 40 and submits the deposit; returns its hash |
| DepositMnt.Hook.ConfirmL1 | frontend/src/hooks/useDepositMntFromL1.ts:69-74 | sets `txHash` to the deposit hash, shows "Waiting for L1 confirmation..." and 60, and waits |
| DepositMnt.Hook.AwaitRelay | frontend/src/hooks/useDepositMntFromL1.ts:76-79 | shows "Waiting for L2 relay..." and 80 and waits for RELAYED on the deposit hash |
| DepositMnt.Hook.Complete | frontend/src/hooks/useDepositMntFromL1.ts:81-88 | shows 100 and the completion text, and finishes with the deposit hash and amount |
| DepositMnt.Hook.Try | frontend/src/hooks/useDepositMntFromL1.ts:47-88 | trace and exit follow the specification. A stop leaves progress at the last value reached, or untouched when `parseEther` throws. Success leaves 100, the completion status and `txHash` the deposit hash |
| DepositMnt.Hook.DepositMnt | frontend/src/hooks/useDepositMntFromL1.ts:42-99 | trace and result follow the specification. For rejections that are objects, the call returns exactly when loading is off. Progress ends at the last value shown. Success has `txHash` the returned hash. A failure shows "MNT deposit failed: " and the message, and returns it |
| RegistrationForm.NameError | frontend/src/hooks/useRegistrationForm.ts:49-57 | the name's error is "Name is required", "Name must be at least 2 characters" or none, and none only when the trimmed name has two or more characters |
| RegistrationForm.NameRule | frontend/src/hooks/useRegistrationForm.ts:49-57 | "Name is required" exactly when the name has no non-whitespace character; "must be at least 2" exactly when it has one; no error exactly when it has two or more |
| RegistrationForm.IsEmail | frontend/src/hooks/useRegistrationForm.ts:62 | the pattern `^[^\s@]+@[^\s@]+\.[^\s@]+$` as a split of the whole string; equivalent to the shape by `RegistrationForm.EmailShapeIff` |
| RegistrationForm.EmailShapeIff | frontend/src/hooks/useRegistrationForm.ts:62 | the regular expression's decomposition holds exactly when the email has no whitespace, exactly one '@' (not first), and a '.' after the '@' with text on both sides |
| RegistrationForm.SplitShape | frontend/src/hooks/useRegistrationForm.ts:62 | a match of the regular expression has that shape |
| RegistrationForm.ShapeSplit | frontend/src/hooks/useRegistrationForm.ts:62 | a string of that shape matches the regular expression |
| RegistrationForm.EmailError | frontend/src/hooks/useRegistrationForm.ts:59-67 | the email's error is "Email is required", "Invalid email format" or none, and none only when the email matches the pattern and is not blank |
| RegistrationForm.EmailRule | frontend/src/hooks/useRegistrationForm.ts:59-67 | "Email is required" exactly when the email is all whitespace; no error exactly when the untrimmed email matches; "Invalid email format" otherwise |
| RegistrationForm.FieldErrors | frontend/src/hooks/useRegistrationForm.ts:46-68 | `validateField` fails on a non-text name or email. It changes only the named field's entry. An unknown field leaves the errors unchanged |
| RegistrationForm.FormErrors | frontend/src/hooks/useRegistrationForm.ts:72-87 | `validateForm`'s errors are those of validating the name and then the email from any previous errors, so they do not depend on previous errors |
| RegistrationForm.FormValidIff | frontend/src/hooks/useRegistrationForm.ts:72-89 | the form is valid exactly when the name has at least two non-whitespace characters and the email matches |
| RegistrationForm.Cleared | frontend/src/hooks/useRegistrationForm.ts:35-38 | editing name or email clears that error and keeps the other; other fields keep both |
| RegistrationForm.Form.constructor | frontend/src/hooks/useRegistrationForm.ts:16-24 | empty name, email and handle, newsletter off, no errors, nothing touched |
| RegistrationForm.Form.HandleChange | frontend/src/hooks/useRegistrationForm.ts:26-39 | only the named field changes, to the checked flag for a checkbox and to the text otherwise; its error is cleared |
| RegistrationForm.Form.ValidateField | frontend/src/hooks/useRegistrationForm.ts:46-70 | the errors become `FieldErrors` of the old errors; form data and touched fields are kept |
| RegistrationForm.Form.HandleBlur | frontend/src/hooks/useRegistrationForm.ts:41-44 | marks the field touched, then validates it |
| RegistrationForm.Form.ValidateForm | frontend/src/hooks/useRegistrationForm.ts:72-89 | replaces the errors with `FormErrors` and returns true exactly when there are none |
| RegistrationForm.Form.ResetForm | frontend/src/hooks/useRegistrationForm.ts:91-100 | restores the empty form, no errors and nothing touched |
| EventAnalytics.IsFreeEvent | frontend/src/app/dashboard/organizer/event-analytics/page.tsx:156-161 | an event with neither a category nor ticket types is not free |
| EventAnalytics.FreeEventIff | frontend/src/app/dashboard/organizer/event-analytics/page.tsx:156-161 | free exactly when the lower-cased category is "free" or some ticket's price is the number 0 |
| EventAnalytics.LowerFree | frontend/src/app/dashboard/organizer/event-analytics/page.tsx:158 | a category lower-cases to "free" exactly when it spells "free" in any mix of cases |
| EventAnalytics.FormatTime | frontend/src/app/dashboard/organizer/event-analytics/page.tsx:138-153 | the local time is used exactly when `start_date` is set; otherwise the text is a non-empty start time or "TBD" |
| EventAnalytics.TimeFallback | frontend/src/app/dashboard/organizer/event-analytics/page.tsx:148-152 | without `start_date`: the first schedule entry's start time when present, else "TBD" |
| EventAnalytics.EventsPerPage | frontend/src/app/dashboard/organizer/event-analytics/page.tsx:80-81 | 8 events per page exactly when the width is at least 1536, else 6 |
| EventAnalytics.TotalPages | frontend/src/app/dashboard/organizer/event-analytics/page.tsx:112 | `Math.ceil(count / per)` as the integer `(count + per - 1) / per`; its meaning is stated by `EventAnalytics.TotalPagesBounds` |
| EventAnalytics.TotalPagesBounds | frontend/src/app/dashboard/organizer/event-analytics/page.tsx:112 | `ceil(len / per)` pages cover all events and no fewer would; there are 0 pages exactly when there are no events |
| EventAnalytics.Clamp | frontend/src/app/dashboard/organizer/event-analytics/page.tsx:105-110 | a page beyond a non-zero total becomes the total; any other page is kept; clamping twice changes nothing |
| EventAnalytics.Relative | frontend/src/app/dashboard/organizer/event-analytics/page.tsx:116 | a `slice` index lies within the list, and a non-negative one is capped at its length |
| EventAnalytics.RelativeGap | frontend/src/app/dashboard/organizer/event-analytics/page.tsx:116 | two `slice` indices `a <= b` resolve at most `b - a` apart |
| EventAnalytics.Slice | frontend/src/app/dashboard/organizer/event-analytics/page.tsx:116 | `s.slice(start, end)` is an unbroken stretch of `s` that begins at the resolved start and, when not empty, ends at the resolved end |
| EventAnalytics.Window | frontend/src/app/dashboard/organizer/event-analytics/page.tsx:114-116 | `events.slice(page * per - per, page * per)`; what a page shows is stated by the `Window…` lemmas and `EventAnalytics.PagesCover` |
| EventAnalytics.WindowAtMost | frontend/src/app/dashboard/organizer/event-analytics/page.tsx:114-116 | a page never shows more than `per` events, whatever the current page |
| EventAnalytics.WindowOnPage | frontend/src/app/dashboard/organizer/event-analytics/page.tsx:114-116 | for `1 <= p <= totalPages` the page is `events[(p-1)*per .. min(p*per, len))` and is non-empty |
| EventAnalytics.WindowBeyond | frontend/src/app/dashboard/organizer/event-analytics/page.tsx:114-116 | a page beyond `totalPages` is empty |
| EventAnalytics.PagesPrefix | frontend/src/app/dashboard/organizer/event-analytics/page.tsx:112-116 | the first `n` pages, laid end to end, are the first `min(n*per, len)` events |
| EventAnalytics.PagesCover | frontend/src/app/dashboard/organizer/event-analytics/page.tsx:112-116 | all pages, laid end to end, are exactly the events: nothing lost, repeated or reordered |
| EventAnalytics.FetchErrorText | frontend/src/app/dashboard/organizer/event-analytics/page.tsx:52-59 | an AbortError gives the timeout text; another Error with a non-empty message gives that message; anything else gives "Failed to load events" |
| EventAnalytics.NatText | frontend/src/app/dashboard/organizer/event-analytics/page.tsx:44 | the status is written as a non-empty string of decimal digits |
| EventAnalytics.NatTextValue | frontend/src/app/dashboard/organizer/event-analytics/page.tsx:44 | the status text reads back as the status, with no leading zero |
| EventAnalytics.LoadOf | frontend/src/app/dashboard/organizer/event-analytics/page.tsx:37-62 | a rejected fetch shows its error's text; an OK JSON response loads `events`, or no events when it is absent; a failure's message is never empty; loading never ends exactly when an OK response's body never arrives |
| EventAnalytics.NotOkMessage | frontend/src/app/dashboard/organizer/event-analytics/page.tsx:44 | a response that is not OK shows "Failed to fetch events: " and its status |
| EventAnalytics.Page.constructor | frontend/src/app/dashboard/organizer/event-analytics/page.tsx:11-16 | page 1, 6 per page, not 2XL, no events, loading, no error |
| EventAnalytics.Page.CurrentEvents | frontend/src/app/dashboard/organizer/event-analytics/page.tsx:114-116 | at most `eventsPerPage` events; some on every page from 1 to `totalPages`; none beyond |
| EventAnalytics.Page.CheckScreenSize | frontend/src/app/dashboard/organizer/event-analytics/page.tsx:79-86 | sets `is2XL` and the page size from the width and changes nothing else |
| EventAnalytics.Page.ClampPage | frontend/src/app/dashboard/organizer/event-analytics/page.tsx:105-110 | the current page becomes `Clamp` of itself. After it, a list with events shows some on any page from 1 on |
| EventAnalytics.Page.HandlePageChange | frontend/src/app/dashboard/organizer/event-analytics/page.tsx:118-120 | sets the current page, to any number, and nothing else |
| EventAnalytics.Page.LoadEvents | frontend/src/app/dashboard/organizer/event-analytics/page.tsx:28-68 | while mounted, unless the body never arrives: loading ends, and either the events are replaced and the error cleared, or the events are kept and the message shown. A body that never arrives, or an unmounted page, leaves only the opening updates |

## Left out

- The Mantle SDK's `CrossChainMessenger`, the ethers and viem providers, `wait()` and `waitForMessageStatus`. They are external; the model sees them only as a sequence of outcomes. Status polling, proofs and state roots are not modelled.
- `parseEther` is an input to the model: the amount in wei as a decimal string, or the error it throws. `getAddresses` is also an input: its first address, its error, or `None` when it never settles. Decimal conversion is not modelled.
- The elapsed time (`Date.now()`, division by 1000, `toFixed(1)`) is an opaque `elapsed` string parameter, because it depends on the clock and floating point.
- React's batching, closures and effects. Each setter is an immediate assignment, and one call is in flight at a time. `validateField` reads the current form data rather than a render's stale copy.
- The ERC721 hook's second `viemWalletClient` check inside `try` is the same check as the one before it, so it cannot fail there. It is not modelled.
- The ERC721 hook with neither `overrides.provider` nor `window.ethereum`. There `new Web3Provider(undefined)` throws inside the `try` block (useWithdrawERC721ToL1.ts:57, 72), and the run ends in the error state with ethers' message classified. The model has no provider input for this hook, so it does not produce that run. The MNT hook checks for the provider itself, and the model covers that check.
- A failing `JsonRpcProvider` or `CrossChainMessenger` construction, and a dynamic `import('ethers')` that fails or never settles. The model has no input for these failures.
- `createMessenger` in the deposit hook: it builds wallets from environment variables. The approval's token addresses also come from environment variables, and `ApproveErc20` carries only the amount.
- `console.log` and `console.error`.
- `useRegisterForEvent`, the wallet connection setup and the chain definitions; they are provider wiring and network calls.
- The page's JSX, `isClient`, `formatDate`, the `fetch` itself and its 10-second AbortController timer, and the resize listener's debounce. A timed-out fetch is a rejection with an `AbortError`, so `fetch` itself always settles; the body read after it may not, and that case is modelled.
- Locale date and time formatting: `formatTime` with a `start_date` returns `LocalTime(start_date)` instead of formatted text.
- Ticket prices are a number or not a number; NaN and JavaScript's loose typing of `any` fields are not modelled.
- Strings are sequences of characters, not of UTF-16 code units. `trim().length` counts characters.
- DepositMnt.Expected: a rejection is assumed to be an object, possibly without a message. A rejection with `null` or `undefined` makes the `catch` block's `error.message` throw a TypeError. `finally` still turns loading off and the call then rejects. That run is not modelled, so `Expected`'s "never throws" and `DepositMnt.Hook.DepositMnt`'s "returns exactly when loading is off" hold only for rejections that are objects.
- DepositMnt.Hook.DepositMnt: the same limit. A `null` or `undefined` rejection, which ends with loading off and a thrown TypeError, is not modelled.
- Text.Lower: lower-cases ASCII letters only, not all of Unicode. That is enough to decide whether a category equals "free".
- Text.LowerChar: maps the ASCII letters only, not all of Unicode, for the same reason.
- RegistrationForm.Form.HandleChange: keys are plain strings. JavaScript's special object keys such as `__proto__` are not modelled.
- The withdrawal hooks' `IsLoading`, `IsSuccess` and `IsError` are functions of the step's status with no contract of their own. `isLoading` is false while the first idle/5 step is shown.

# mtaskctl admission controller, modelled in Dafny

`MTaskCtl` limits how many tasks run at once across eight independent pools.
Each pool is a buffered channel of tokens whose capacity is the pool's limit
`max[i]`. A task first takes a token (`Start`). The controller counts it in
`n[i]`. When the task finishes (`Done`), a token carrying the current cause goes back to the pool. A token
is nil, or it carries the cancellation cause. `TaskPause` drains the free
tokens, `TaskResume` refills them, `TaskCancel` records a cause and wakes a
paused controller, and `Close` drops the channels.

The model is the class `TaskCtl.MTaskCtl` (`mtaskctl.dfy`):

- `n` and `ch` are sequence fields. `ch[i]` is pool `i`'s channel buffer, oldest token first.
- `max` is a constant, `e` is the cause (`None` is nil), `pa` is the pause flag, and `closed` records `Close`.
- Each operation is a method that updates these fields. The pool loops of the original are `while` loops with invariants.
- A point where the original blocks on a channel becomes a precondition. A receive needs a token and a send needs room below the channel's capacity (`Cap`).
- The choice a `select` makes among ready channels is the caller's `choice` argument.

Four invariants are stated as predicates. The methods' postconditions say when each one is preserved:

- `Valid`: the shape of the state, and no channel holds more than its capacity.
- `Admission`: admitted tasks plus free tokens never exceed `max[i]`, and a paused controller holds no free token.
- `Balanced`: while running, admitted tasks plus free tokens equal `max[i]`, so no token is lost.
- `NilUntilCanceled`: until a cause is set, every token is nil.

`scenarios.dfy` (module `TaskCtlScenarios`) contains client runs: sequences of calls and what the contracts let a caller conclude from them.

## Model

| member | source | states |
|---|---|---|
| `TaskCtl.MTaskCtl.constructor` | mtaskctl.go:23-36 | every pool `i` holds exactly `max[i]` nil tokens, every count is 0, the controller is not paused and has no cause; all four invariants hold |
| `TaskCtl.MTaskCtl.Start` | mtaskctl.go:61-88 | with a cause set it returns `(0, cause)` and changes nothing; otherwise it removes exactly the oldest token of the chosen pool, leaves the other pools alone, and increments `n[choice]` only if the token was nil; the invariants are preserved, and before any cancellation the token is always nil |
| `TaskCtl.MTaskCtl.Check` | mtaskctl.go:92-97 | when not paused, returns the current cause, the same value `Start` returns on its early path |
| `TaskCtl.MTaskCtl.Done` | mtaskctl.go:100-107 | `n[index]` always drops by one; exactly one token equal to the cause is appended to pool `index` iff not paused and the channel is below capacity; no other pool changes; `Admission` is preserved, and `Balanced` too when the pool had a running task |
| `TaskCtl.MTaskCtl.TaskPause` | mtaskctl.go:145-154 | sets the pause flag and removes `max[i] - n[i]` tokens from every pool; from a state satisfying `Admission` this leaves every pool empty |
| `TaskCtl.MTaskCtl.TaskResume` | mtaskctl.go:157-164 | clears the pause flag and appends `max[i] - n[i]` tokens equal to the cause to every pool; after a pause from a state satisfying `Admission`, pool `i` then holds exactly those tokens and the controller is `Admission` and `Balanced` again |
| `TaskCtl.MTaskCtl.ResumeIfPaused` | mtaskctl.go:139-141 | resumes only a paused controller and leaves a running one unchanged; unlike a bare `TaskResume`, it preserves `Admission` from any state, and `Balanced` from any state that also satisfies `Admission` |
| `TaskCtl.MTaskCtl.TaskCancel` | mtaskctl.go:133-142 | stores the given cause, or `Canceled` when none is given, replacing any earlier cause; a paused controller is resumed with every pool refilled by tokens carrying the cause; a running one keeps its pools |
| `TaskCtl.MTaskCtl.Close` | mtaskctl.go:119-130 | every pool becomes an empty channel of capacity zero; counts, cause and pause flag are unchanged |
| `TaskCtl.Tokens` | mtaskctl.go:31-33 | `k` sends of `t` produce a sequence of length `k` whose every element is `t` |
| `TaskCtlScenarios.NoPermitLeak` | mtaskctl.go:61-107 | after `k <= max[i]` starts and `k` dones on pool `i`, the peak count is `k` and the pool holds `max[i]` tokens again |
| `TaskCtlScenarios.PauseHoldsReleasedToken` | mtaskctl.go:103-105 | a task finishing while paused gives back no token and every pool stays empty; resuming refills the pool to `max[i]` and the next `Start` admits normally |
| `TaskCtlScenarios.CancelWhilePausedWakesAll` | mtaskctl.go:133-142 | cancelling a paused controller refills every pool with one cause token per free slot; `Check` and `Start` then report that cause |
| `TaskCtlScenarios.CancelReplacesCause` | mtaskctl.go:134-138 | a second `TaskCancel` overwrites the first cause |
| `TaskCtlScenarios.DoneAfterClose` | mtaskctl.go:119-125 | after `Close`, `Done` only decrements the count and returns no token |
| `TaskCtlScenarios.ResumeWhileRunningOverAdmits` | mtaskctl.go:157-164 | a `TaskResume` on a running controller can admit more tasks than the pool's limit |
| `TaskCtlScenarios.GuardedResumeKeepsLimit` | mtaskctl.go:139-141 | with the paused-only resume instead, the resume changes nothing; after the second `Start` pool 0 is empty (`free == 0`), so a third `Start` would block, and the running count stays at the limit 2 |

## Left out

- `Do` (mtaskctl.go:39-57) is not modelled. It launches goroutines and uses a context cancel function, so its meaning is concurrent orchestration.
- `Wait` (mtaskctl.go:110-116) is not modelled. It terminates only because other goroutines call `Done`, so it has no sequential meaning.
- The `resume` channel is not modelled. This covers the broadcast loop in `TaskResume` (mtaskctl.go:165-171), the blocking receive in `Check` and the closing of that channel in `Close`. These are thread signalling only.
- TaskCtl.MTaskCtl.Check: only the non-paused path is modelled, as a precondition. The paused path blocks until another goroutine resumes.
- The mutex (mtaskctl.go:17) and the unsynchronised reads of `e` and `pa` are not modelled. In a sequential model every call runs alone.
- Which ready channel `select` picks is the caller's `choice`. No fairness is modelled.
- Counts are unbounded integers. Go's 64-bit `int` wrap-around in `n[i]` is not modelled.
- Error values are the datatype `Error`: the `Canceled` sentinel, or another error identified by a number.
- A pool index outside 0..7 makes the original panic. It is a precondition here, and so is a negative capacity, which makes the channel allocation panic.
- `mtaskctl_test.go` is not part of this model. It is a timing harness with no assertions, and it passes slices where the constructor takes an eight-element array.
- Un-cancel, timeouts and a post-acquisition re-check of the cause do not exist in the source, so they are not modelled.
- The source differs from a sticky, first-cause-wins cancellation: `TaskCancel` overwrites an earlier cause. The model follows the code (`CancelReplacesCause`).

## Findings

| source | as written | input that shows it | evidently intended | confidence | as-written member | corrected member |
|---|---|---|---|---|---|---|
| mtaskctl.go:157-164 | `TaskResume` refills every pool by `max[i] - n[i]` tokens even when the controller is not paused and the pool still holds its free tokens | limits `[2,0,0,0,0,0,0,0]`: `Start` on pool 0, then `TaskResume` (the send fits in the channel), then two more `Start`s, which leaves three tasks running against a limit of 2 | resuming a running controller changes nothing, which is the guard `TaskCancel` already places around it (mtaskctl.go:139-141) | medium, not executed | `TaskCtlScenarios.ResumeWhileRunningOverAdmits` (over `TaskCtl.MTaskCtl.TaskResume`) | `TaskCtl.MTaskCtl.ResumeIfPaused`, with `TaskCtlScenarios.GuardedResumeKeepsLimit` |

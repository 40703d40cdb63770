# Frank: the self-refinement loop

Frank is a small desktop chat front end (Frank.py). A worker thread,
`AIThread`, takes a prompt and runs a self-refinement session against a
local language model:

1. One seed completion is requested on the raw prompt.
2. Refinement completions follow. Each sends a fixed template that wraps the
   original prompt and the latest draft.
3. Every reply is appended to the worker's history `thinking_steps`. The
   history and a progress percentage are emitted after each append.
4. The session stops early when a reply equals the draft it refined, with
   leading and trailing whitespace ignored. Otherwise it stops when the
   iteration counter reaches the budget.

The window's `process_input` reads the budget from a text field, falling back
to 3 when the text is not an integer. It creates a new worker for every
submission.

This project models that core in Dafny:

- `options.dfy` holds `Options`, an `Option` type for a parse that may fail
  and a service call that may raise.
- `pystrings.dfy` (`PyStrings`) models Python's argument-less `str.strip()`:
  two index scans over Python's exact `str.isspace` character set.
- `thinking.dfy` (`Thinking`) holds the pure side:
  - the template and the prompt it produces;
  - the progress formula;
  - `RunWith`/`RunSpec`, the reference definition of how a session over a
    scripted chat service ends;
  - the logs a session leaves: requests sent, progress values, history
    snapshots.
- `frank.dfy` (`Frank`) holds the class `AIThread`. Its fields are the
  history and the emitted signals, kept as logs that only grow. Its methods
  follow `primaryAIInput`, `recursiveThinking`, the inner `think` and `run`.
  Each method is proved to leave exactly the state that the reference
  definition gives for the service's script. The module also holds the
  iteration-count fallback and `process_input`.

The chat service is an oracle. The field `AIThread.service` is the script of
replies still to come, one per call. A call made after the script is used up
is the service raising, and it aborts the session. The log `sent` records
every request: model name and prompt.

Points to note about the code:

- A budget `m` allows at most `m` completion calls in total: the seed plus
  refinements for counter values 1 to `m - 1`. It does not allow `m + 1`.
- Progress is `int(...)`, which truncates toward zero. It is not rounded.
- A parsed budget of zero or below is passed to the worker unchanged.
  Only a text that is not an integer falls back to 3.
  - A zero budget makes the seed call and then fails with `ZeroDivisionError`
    when it computes progress.
  - A negative budget makes the seed call only and returns the seed reply.

## Model

| member | source | states |
|---|---|---|
| PyStrings.IsSpace | Frank.py:59 | Python 3's `str.isspace` set: U+0009 to U+000D, U+001C to U+0020, U+0085, U+00A0, U+1680, U+2000 to U+200A, U+2028, U+2029, U+202F, U+205F and U+3000. It is the whitespace `strip()` removes. |
| PyStrings.SpanFrom | Frank.py:59 | The forward scan of `strip()` stops at the first non-whitespace index at or after its start, or at the end. Everything it skips is whitespace. |
| PyStrings.SpanBack | Frank.py:59 | The backward scan stops no lower than the forward scan's result, just after the last non-whitespace character. Everything it skips is whitespace. |
| PyStrings.Strip | Frank.py:59 | `s.strip()` is the slice of `s` between the forward and the backward scan, so it is never longer than `s`. `StripTrimmed`, `StripSplit` and `StripUnique` characterise it. |
| PyStrings.StripTrimmed | Frank.py:59 | `strip()` leaves no whitespace at either end. |
| PyStrings.StripSplit | Frank.py:59 | Every string is its stripped text with a whitespace run on each side. |
| PyStrings.StripUnique | Frank.py:59 | A trimmed text with whitespace on both sides strips to exactly that text. With `StripSplit` and `StripTrimmed`, this pins `strip()` down completely. |
| PyStrings.StripKeepsTrimmed | Frank.py:59 | A text with no whitespace at either end is its own `strip()`. |
| PyStrings.StripIdempotent | Frank.py:59 | Stripping twice is stripping once. |
| PyStrings.StripIgnoresPadding | Frank.py:59 | Adding whitespace at either end does not change the stripped text. So the convergence test ignores it. |
| Thinking.Fill | Frank.py:38-53 | A filled template is exactly as long as its fixed parts plus the two slot texts. |
| Thinking.RefinementPrompt | Frank.py:38-53 | A refinement prompt is as long as the template text plus the original prompt and the draft. |
| Thinking.TemplateSlots | Frank.py:38-53 | The decoder of the template: given the original prompt's length, it reads the two slot texts out of a prompt that has the template's shape. Whatever it reads, refilled, is that prompt. |
| Thinking.SlotsRoundTrip | Frank.py:38-53 | Round trip: decoding a refinement prompt gives back the original prompt and the draft it was filled with, unchanged. |
| Thinking.RefinementPromptInjective | Frank.py:38-53 | For one original prompt, different drafts give different refinement prompts. |
| Thinking.Progress | Frank.py:57 | The progress value `int(step / m * 100)` on exact numbers, cut toward zero; defined for a non-zero budget only, as the source divides by it. Its properties are those of `ProgressTruncates` and the lemmas after it. |
| Thinking.ProgressTruncates | Frank.py:57 | The progress value is the quotient `step * 100 / m` truncated toward zero. It is never negative for a positive budget and never positive for a negative one. |
| Thinking.ProgressMonotone | Frank.py:57 | For a positive budget, later steps never report less progress. |
| Thinking.ProgressStrict | Frank.py:57 | Under exact division, for a budget of at most 100, every step reports strictly more progress. |
| Thinking.ProgressFull | Frank.py:57 | The step equal to the budget reports 100. |
| Thinking.ProgressAtMost100 | Frank.py:57 | Steps within a positive budget report 0 to 100. |
| Thinking.Converged | Frank.py:59 | The early-stop test: a reply agrees with its draft when both strip to the same text. `TrimmedConverged` and `StripIgnoresPadding` say what that test ignores. |
| Thinking.TrimmedConverged | Frank.py:59 | Replies without surrounding whitespace agree exactly when they are equal. |
| Thinking.Think | Frank.py:34-62 | From counter `i`: the history reaches at least `i` entries, and goes past `i` only within the budget. A returned text is the last history entry, with one call per entry. An abort is a service error: one call more than entries, after the whole script, below the budget. |
| Thinking.RunWith | Frank.py:64-69 | A session makes at least one call and at most `max(m, 1)`. Each call adds at most one entry. A successful session has 1 to `max(m, 1)` entries, one call for each, and returns the last entry. It fails with the service error exactly when a call received no reply. It fails with `ZeroDivisionError` exactly when `m == 0` and the seed call succeeded. |
| Thinking.RunSpec | Frank.py:33-69 | The reference run of `recursiveThinking`: `RunWith` with `Converged` as the agreement test. It carries all of `RunWith`'s guarantees, and `AIThread.RecursiveThinking` is proved to end exactly as it says. |
| Thinking.ThinkPairs | Frank.py:59-62 | From counter `i`, every adjacent pair that did not end the run disagrees. A success shorter than the budget ends on an agreeing pair. An aborted run saw no agreement. |
| Thinking.ConvergenceShape | Frank.py:59-62 | For a session with budget at least 1: every adjacent history pair except possibly the last disagrees. A successful session shorter than its budget ends on an agreeing pair. A failed session saw no agreeing pair. |
| Thinking.ThinkStopsAt | Frank.py:59-60 | From counter `i`, the first agreeing reply within the budget ends the run with that reply, and no further call. |
| Thinking.StopsAtFirstAgreement | Frank.py:59-60 | Convergence: when reply `k` is the first to agree with its draft and `k < m`, the session ends after `k + 1` calls and returns reply `k`. |
| Thinking.ThinkExhausts | Frank.py:35-36 | From counter `i`, with no agreement before the budget, the run ends at the budget. The result is the last draft. |
| Thinking.RunsFullBudget | Frank.py:34-69 | Without early agreement the session makes exactly `m` calls (the seed and `m - 1` refinements) and returns reply `m - 1`. |
| Thinking.ThinkRunsDry | Frank.py:38-55 | From counter `i`, a script that runs out before agreement or the budget ends in the service error. One call is made past the last reply. |
| Thinking.FailsWhenServiceFails | Frank.py:38-55 | When the service raises on call `n + 1`, before agreement or the budget, the session aborts holding the `n` replies it received. |
| Thinking.NonPositiveBudget | Frank.py:64-69 | A budget of 0 makes the seed call and then fails on the division. A negative budget makes one call and returns the seed reply. |
| Thinking.PromptOf | Frank.py:38-64 | The prompt of call `k`: the raw prompt for the seed call, and for every later call the template around the original prompt and reply `k - 1`. `RequestsAt` states it for the request log. |
| Thinking.Requests | Frank.py:38-64 | The request log of `c` calls has `c` entries. |
| Thinking.RequestsAt | Frank.py:38-64 | Request `k` goes to the worker's model. It carries the raw prompt for the seed and, after that, the template around the original prompt and reply `k - 1`. |
| Thinking.RunRequests | Frank.py:34-69 | A session's first request is the raw prompt. Every later request is the refinement template around the unchanged original and the reply just before it. |
| Thinking.ProgressLog | Frank.py:57 | One progress value is emitted per history entry. |
| Thinking.ProgressLogAt | Frank.py:57 | The progress value emitted for entry `k` is `Progress(k + 1, m)`. |
| Thinking.RunProgress | Frank.py:57-67 | For a positive budget, a session emits one value per history entry, each `(k + 1) * 100 / m` and within 0 to 100. The values never decrease. Under exact division they strictly increase for budgets up to 100. A session that spends its whole budget ends on 100. |
| Thinking.Snapshots | Frank.py:55-56 | One history snapshot is emitted per append. |
| Thinking.SnapshotsArePrefixes | Frank.py:55-56 | Snapshot `k` is the earlier history followed by the first `k + 1` replies. |
| Frank.AIThread.constructor | Frank.py:13-18 | A new worker keeps its prompt, budget and model. It starts with an empty history and has emitted nothing. |
| Frank.AIThread.PrimaryAIInput | Frank.py:24-31 | One request with the worker's model and the given prompt is logged. The next scripted reply is returned and consumed, or nothing when the service has none. |
| Frank.AIThread.RecordStep | Frank.py:55-56 | The reply is appended to the history, and the new history is emitted. |
| Frank.AIThread.RecursiveThinking | Frank.py:33-69 | The result, the request log, the service, the history, the progress values and the snapshots are exactly those that `RunSpec` gives for the script the service held. |
| Frank.AIThread.RefinementCall | Frank.py:38-57 | One refinement call on the template around the original and the current draft. A reply is the next script entry; it is appended and emitted with progress `(i + 1) * 100 / m`. A raise leaves only the logged request. |
| Frank.AIThread.Think | Frank.py:34-62 | From counter `i`, the method ends with the outcome that `Thinking.Think` gives for counter `i`, and leaves the matching state. |
| Frank.AIThread.Refined | Frank.py:59-62 | After the call at counter `i`, the method ends with the outcome that `Thinking.Think` gives for counter `i`, and leaves the matching state. A raise aborts, an agreeing reply is returned, any other reply is refined next. |
| Frank.AIThread.Run | Frank.py:20-22 | As `RecursiveThinking` on the worker's prompt and budget. The result is emitted on `finished` only when the session returns a text. |
| Frank.IterationCount | Frank.py:189-192 | Text that does not parse gives 3. A parsed integer is used unchanged, zero and negatives included. |
| Frank.UnparsableRunsAsThree | Frank.py:189-192 | A session whose budget text does not parse runs exactly as one with the text "3". |
| Frank.ProcessInput | Frank.py:187-204 | A fresh worker runs the session. Its history is exactly the replies of its own run, and its logs match `RunSpec`. The text emitted on `finished` is the last history entry. |
| Frank.TwoSubmissions | Frank.py:200 | Two submissions get two distinct workers. Each worker's history holds exactly its own session's replies. |
| Frank.ConvergesEarly | Frank.py:59-60 | Seed "draft-1" followed by "draft-1", with budget 5: history `["draft-1", "draft-1"]`, 2 calls, "draft-1" emitted. This holds whatever the service would say next. |
| Frank.SpendsBudget | Frank.py:34-69 | Replies "d0", "d1", "d2" with budget 3: history `["d0", "d1", "d2"]`, 3 calls, "d2" emitted. |
| Frank.FailsOnSecondCall | Frank.py:38-55 | A service that raises on the second call, with a budget of at least 2: history `["d0"]`, 2 calls, nothing emitted on `finished`. |

## Left out

- The `ollama.chat` request and the unpacking of its answer (Frank.py:25-31) are a network call. They are replaced by the scripted service and the request log. Any exception the call raises is modelled as one service error.
- PyQt is left out: `QThread` scheduling, signal delivery to slots, and all widgets, tray and window handling. Emitted signal values are recorded as logs.
- `process_input` starts the worker asynchronously. The model runs the session to its end inside `ProcessInput`. It also leaves out the window state that `process_input` resets and the disabled button.
- Snapshots: `update_thinking_steps` emits the worker's own list object, so a stored list seen by a receiver keeps growing with later appends. The model records each emitted history as a value copy. It does not capture that aliasing.
- Progress: computed on exact numbers. The source computes `(i + 1) / m * 100` in floating point before `int()`, which can come out one lower. For example, `29 / 100 * 100` is 28.999999999999996, so the window shows 28, where the model says 29.
- ProgressStrict, RunProgress: strict increase for budgets up to 100 holds only under exact division. In the source's floating point, a budget of 100 gives 28 at both steps 28 and 29 (`28 / 100 * 100` is 28.000000000000004, `29 / 100 * 100` is 28.999999999999996), and likewise at steps 56 and 57. Monotonicity, the 0 to 100 range and 100 at a full budget do not depend on this.
- IterationCount: its argument is the result of Python's `int()` on the field's text, given as an `Option<int>`. The literal grammar `int()` accepts is not modelled: signs, underscores, surrounding whitespace, non-ASCII digits.
- Frank.AIThread.Think: the source nests one Python call per refinement. Python's recursion limit would raise `RecursionError` for budgets near 1000. The model has no such limit.
- Output text is not normalised in any way (no Unicode normalisation or encoding). Strings are sequences of characters.

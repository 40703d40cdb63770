/** The pure side of the self-refinement loop of `AIThread.recursiveThinking`:
    the fixed refinement template, the progress formula, and a reference
    definition of how a run over a scripted chat service ends. */
module Thinking {
  import opened Options
  import opened PyStrings

  // ---------------------------------------------------------------------------
  // The refinement template (Frank.py lines 38-53)
  // ---------------------------------------------------------------------------

  /** Text before the original prompt. */
  const TemplateHead: string :=
    "\nYou are an AI assistant tasked with providing a thoughtful and comprehensive response to the following prompt:\n\n"

  /** Text between the original prompt and the current draft. */
  const TemplateMiddle: string := "\n\nYour current draft response is:\n\n"

  /** Text after the current draft; the first line keeps its trailing space. */
  const TemplateTail: string :=
    "\n\nCarefully analyze this draft. Consider its accuracy, comprehensiveness, and how directly it addresses the original prompt. \n"
    + "Refine and improve your response, focusing on clarity, conciseness, and addressing all aspects of the prompt.\n"
    + "Do not mention the improvement process or include any meta-commentary about the response.\n"
    + "Simply provide the improved response as if it were your first and only answer to the original prompt.\n"
    + "\nRefined response:\n"

  /** A prompt template with two slots: fixed text around an original prompt
      and around a draft. */
  datatype Template = Template(head: string, middle: string, tail: string)

  /** The template of `think`. */
  const Refinement: Template := Template(TemplateHead, TemplateMiddle, TemplateTail)

  /** `t` with `original` in its first slot and `draft` in its second. */
  function Fill(t: Template, original: string, draft: string): (p: string)
    ensures |p| == |t.head| + |original| + |t.middle| + |draft| + |t.tail|
  {
    t.head + original + t.middle + draft + t.tail
  }

  /** The prompt of one refinement call: the original prompt in the first slot
      and the draft to refine in the second. */
  function RefinementPrompt(original: string, draft: string): (p: string)
    ensures |p| == |TemplateHead| + |original| + |TemplateMiddle| + |draft| + |TemplateTail|
  {
    Fill(Refinement, original, draft)
  }

  /** Reads the two slots back out of a refinement prompt, given the length of
      the original prompt; `None` when `p` does not have the template's shape. */
  function TemplateSlots(p: string, originalLength: nat): (r: Option<(string, string)>)
    ensures r.Some? ==> RefinementPrompt(r.value.0, r.value.1) == p && |r.value.0| == originalLength
  {
    var h, m, t := |TemplateHead|, |TemplateMiddle|, |TemplateTail|;
    if |p| < h + originalLength + m + t then None
    else
      var original := p[h..h + originalLength];
      var draft := p[h + originalLength + m..|p| - t];
      if RefinementPrompt(original, draft) == p then Some((original, draft)) else None
  }

  lemma FiveSlices(a: string, b: string, c: string, d: string, e: string)
    ensures var p := a + b + c + d + e;
      p[|a|..|a| + |b|] == b && p[|a| + |b| + |c|..|p| - |e|] == d
  {
    var p := a + b + c + d + e;
    assert p == a + (b + (c + (d + e)));
  }

  /** The template embeds both strings unchanged: they can be read back. */
  lemma SlotsRoundTrip(original: string, draft: string)
    ensures TemplateSlots(RefinementPrompt(original, draft), |original|) == Some((original, draft))
  {
    FiveSlices(TemplateHead, original, TemplateMiddle, draft, TemplateTail);
  }

  /** For a fixed original prompt, different drafts give different prompts. */
  lemma RefinementPromptInjective(original: string, d1: string, d2: string)
    requires RefinementPrompt(original, d1) == RefinementPrompt(original, d2)
    ensures d1 == d2
  {
    SlotsRoundTrip(original, d1);
    SlotsRoundTrip(original, d2);
  }

  // ---------------------------------------------------------------------------
  // Progress (Frank.py lines 57 and 67)
  // ---------------------------------------------------------------------------

  /** `int(step / m * 100)` on exact rationals: Python's `int` truncates toward
      zero, so a negative budget gives a non-positive value. */
  function Progress(step: nat, m: int): int
    requires m != 0
  {
    if m > 0 then 100 * step / m else -(100 * step / -m)
  }

  /** `Progress(step, m)` is the exact quotient of `step * 100` by `m`, cut
      toward zero: the largest value not above it for a positive budget, the
      smallest not below it for a negative one. */
  lemma ProgressTruncates(step: nat, m: int)
    requires m != 0
    ensures var pct := Progress(step, m);
      (m > 0 ==> 0 <= pct && pct * m <= 100 * step < (pct + 1) * m)
      && (m < 0 ==> pct <= 0 && -pct * -m <= 100 * step < (-pct + 1) * -m)
  {
  }

  lemma MulMonotone(x: int, y: int, m: int)
    requires m > 0 && x * m < y * m
    ensures x < y
  {
  }

  lemma ProgressMonotone(a: nat, b: nat, m: int)
    requires m > 0 && a <= b
    ensures Progress(a, m) <= Progress(b, m)
  {
    var pa, pb := Progress(a, m), Progress(b, m);
    ProgressTruncates(a, m);
    ProgressTruncates(b, m);
    MulMonotone(pa, pb + 1, m);
  }

  /** With a budget of at most 100 steps, every step moves the bar. */
  lemma ProgressStrict(a: nat, b: nat, m: int)
    requires 0 < m <= 100 && a < b
    ensures Progress(a, m) < Progress(b, m)
  {
    var pa, pb := Progress(a, m), Progress(b, m);
    ProgressTruncates(a, m);
    ProgressTruncates(b, m);
    assert (pa + 1) * m == pa * m + m;
    assert (pa + 1) * m < (pb + 1) * m;
    MulMonotone(pa + 1, pb + 1, m);
  }

  lemma ProgressFull(m: int)
    requires m > 0
    ensures Progress(m, m) == 100
  {
    var p := Progress(m, m);
    ProgressTruncates(m, m);
    MulMonotone(p, 101, m);
    MulMonotone(99, p + 1, m);
  }

  lemma ProgressAtMost100(step: nat, m: int)
    requires 0 < m && step <= m
    ensures 0 <= Progress(step, m) <= 100
  {
    ProgressMonotone(step, m, m);
    ProgressFull(m);
  }

  // ---------------------------------------------------------------------------
  // A run over a scripted chat service
  // ---------------------------------------------------------------------------

  /** The two ways a run is cut short: the chat service raises, or the progress
      formula divides by a budget of zero. */
  datatype Error = ServiceError | ZeroDivisionError

  /** What `recursiveThinking` returns, or the exception that ends it. */
  datatype Outcome = Final(text: string) | Aborted(error: Error)

  /** How a run ends: completion calls issued, replies appended to the history,
      and what the run returns. */
  datatype Ending = Ending(calls: nat, steps: nat, outcome: Outcome)

  /** The test that ends `think` early: a reply equals the draft it refines
      once leading and trailing whitespace are stripped from both. */
  predicate Converged(reply: string, draft: string) {
    Strip(reply) == Strip(draft)
  }

  /** Texts without whitespace at either end agree exactly when they are equal. */
  lemma TrimmedConverged(reply: string, draft: string)
    requires Trimmed(reply) && Trimmed(draft)
    ensures Converged(reply, draft) <==> reply == draft
  {
    StripKeepsTrimmed(reply);
    StripKeepsTrimmed(draft);
  }

  /** Under the agreement test `same`, reply `j` agrees with the draft it
      refined. The run functions and the lemmas about their shape hold for any
      test; `RunSpec` fixes it to `Converged`. */
  predicate Agree(same: (string, string) -> bool, script: seq<string>, j: nat)
    requires 1 <= j < |script|
  {
    same(script[j], script[j - 1])
  }

  /** `think(draft, i)` entered after `i` successful calls whose replies are
      `script[..i]`, so that the draft is `script[i - 1]`. The service fails on
      every call after the script's last reply. */
  function Think(same: (string, string) -> bool, script: seq<string>, m: int, i: nat): (e: Ending)
    requires 1 <= i <= |script|
    ensures i <= e.steps <= |script|
    ensures e.steps <= i || e.steps <= m
    ensures e.outcome.Aborted? ==> e.outcome.error == ServiceError
    ensures e.outcome.Final? ==> e.calls == e.steps && e.outcome.text == script[e.steps - 1]
    ensures e.outcome.Aborted? ==> e.calls == e.steps + 1 && e.steps == |script| < m
    decreases m - i
  {
    if i >= m then Ending(i, i, Final(script[i - 1]))
    else if i == |script| then Ending(i + 1, i, Aborted(ServiceError))
    else if Agree(same, script, i) then Ending(i + 1, i + 1, Final(script[i]))
    else Think(same, script, m, i + 1)
  }

  /** A whole run of `recursiveThinking(prompt, m)` under the agreement test
      `same`, against a service whose replies, by call number, are `script`. */
  function RunWith(same: (string, string) -> bool, script: seq<string>, m: int): (e: Ending)
    ensures 1 <= e.calls <= (if m > 1 then m else 1)
    ensures e.steps <= |script| && e.steps <= e.calls <= e.steps + 1
    ensures e.outcome.Final? ==> e.calls == e.steps >= 1 && e.outcome.text == script[e.steps - 1]
    ensures e.outcome == Aborted(ServiceError) <==> e.calls == e.steps + 1
    ensures e.outcome == Aborted(ZeroDivisionError) <==> m == 0 && script != []
  {
    if script == [] then Ending(1, 0, Aborted(ServiceError))
    else if m == 0 then Ending(1, 1, Aborted(ZeroDivisionError))
    else Think(same, script, m, 1)
  }

  /** The run of `recursiveThinking` itself. */
  function RunSpec(script: seq<string>, m: int): Ending {
    RunWith(Converged, script, m)
  }

  lemma {:induction false} ThinkPairs(same: (string, string) -> bool, script: seq<string>, m: int, i: nat)
    requires 1 <= i <= |script|
    ensures var e := Think(same, script, m, i);
      (forall j :: i <= j < e.steps - 1 ==> !Agree(same, script, j))
      && (e.outcome.Final? && e.steps < m ==> e.steps >= i + 1 && Agree(same, script, e.steps - 1))
      && (e.outcome.Aborted? ==> forall j :: i <= j < e.steps ==> !Agree(same, script, j))
    decreases m - i
  {
    if i < m && i < |script| && !Agree(same, script, i) {
      var e := Think(same, script, m, i + 1);
      assert Think(same, script, m, i) == e;
      ThinkPairs(same, script, m, i + 1);
      forall j | i <= j < e.steps - 1 ensures !Agree(same, script, j) {
        if j > i {
          assert i + 1 <= j < e.steps - 1;
        }
      }
    }
  }

  /** Every adjacent pair of the history differs under the test, except
      possibly the last; a successful run shorter than its budget ends on an
      agreeing pair, and a failed run saw no agreement at all. */
  lemma ConvergenceShape(same: (string, string) -> bool, script: seq<string>, m: int)
    requires m >= 1
    ensures var e := RunWith(same, script, m);
      (forall j :: 1 <= j < e.steps - 1 ==> !Agree(same, script, j))
      && (e.outcome.Final? && e.steps < m ==> e.steps >= 2 && Agree(same, script, e.steps - 1))
      && (e.outcome.Aborted? ==> forall j :: 1 <= j < e.steps ==> !Agree(same, script, j))
  {
    if script != [] {
      ThinkPairs(same, script, m, 1);
    }
  }

  lemma {:induction false} ThinkStopsAt(same: (string, string) -> bool, script: seq<string>, m: int, i: nat, k: nat)
    requires 1 <= i <= k < |script| && k < m
    requires Agree(same, script, k)
    requires forall j :: i <= j < k ==> !Agree(same, script, j)
    ensures Think(same, script, m, i) == Ending(k + 1, k + 1, Final(script[k]))
    decreases k - i
  {
    if i < k {
      ThinkStopsAt(same, script, m, i + 1, k);
    }
  }

  /** Convergence: the first reply that agrees with the draft it refined ends
      the run; no further call is made and that reply is the result. */
  lemma StopsAtFirstAgreement(same: (string, string) -> bool, script: seq<string>, m: int, k: nat)
    requires 1 <= k < |script| && k < m
    requires Agree(same, script, k)
    requires forall j :: 1 <= j < k ==> !Agree(same, script, j)
    ensures RunWith(same, script, m) == Ending(k + 1, k + 1, Final(script[k]))
  {
    ThinkStopsAt(same, script, m, 1, k);
  }

  lemma {:induction false} ThinkExhausts(same: (string, string) -> bool, script: seq<string>, m: int, i: nat)
    requires 1 <= i <= m <= |script|
    requires forall j :: i <= j < m - 1 ==> !Agree(same, script, j)
    ensures Think(same, script, m, i) == Ending(m, m, Final(script[m - 1]))
    decreases m - i
  {
    if i < m && !Agree(same, script, i) {
      ThinkExhausts(same, script, m, i + 1);
    }
  }

  /** Without early agreement the run spends its whole budget: `m` calls in
      all (the seed and `m - 1` refinements), ending on the last reply. */
  lemma RunsFullBudget(same: (string, string) -> bool, script: seq<string>, m: int)
    requires 1 <= m <= |script|
    requires forall j :: 1 <= j < m - 1 ==> !Agree(same, script, j)
    ensures RunWith(same, script, m) == Ending(m, m, Final(script[m - 1]))
  {
    ThinkExhausts(same, script, m, 1);
  }

  lemma {:induction false} ThinkRunsDry(same: (string, string) -> bool, script: seq<string>, m: int, i: nat)
    requires 1 <= i <= |script| < m
    requires forall j :: i <= j < |script| ==> !Agree(same, script, j)
    ensures Think(same, script, m, i) == Ending(|script| + 1, |script|, Aborted(ServiceError))
    decreases |script| - i
  {
    if i < |script| {
      ThinkRunsDry(same, script, m, i + 1);
    }
  }

  /** When the service fails at call `n + 1` before the run has agreed or spent
      its budget, the run aborts holding the `n` replies it received. */
  lemma FailsWhenServiceFails(same: (string, string) -> bool, script: seq<string>, m: int)
    requires |script| < m
    requires forall j :: 1 <= j < |script| ==> !Agree(same, script, j)
    ensures RunWith(same, script, m) == Ending(|script| + 1, |script|, Aborted(ServiceError))
  {
    if script != [] {
      ThinkRunsDry(same, script, m, 1);
    }
  }

  /** A budget of zero or less still makes the seed call; zero then fails on
      the progress division, a negative budget returns the seed reply. */
  lemma NonPositiveBudget(same: (string, string) -> bool, script: seq<string>, m: int)
    requires m <= 0 && script != []
    ensures RunWith(same, script, m) ==
      if m == 0 then Ending(1, 1, Aborted(ZeroDivisionError)) else Ending(1, 1, Final(script[0]))
  {
  }

  // ---------------------------------------------------------------------------
  // What a run leaves behind: the requests sent, the progress values and
  // history snapshots emitted
  // ---------------------------------------------------------------------------

  /** One `ollama.chat` request: the model and the single user message. */
  datatype ChatRequest = ChatRequest(model: string, content: string)

  /** The prompt of call number `k`: the raw prompt for the seed, otherwise the
      template `t` around the reply of the call before. */
  function PromptOf(t: Template, original: string, script: seq<string>, k: nat): string
    requires k <= |script|
  {
    if k == 0 then original else Fill(t, original, script[k - 1])
  }

  /** The first `c` requests of a run that refines with the template `t`. */
  function Requests(model: string, t: Template, original: string, script: seq<string>, c: nat): (r: seq<ChatRequest>)
    requires c <= |script| + 1
    ensures |r| == c
  {
    if c == 0 then [] else Requests(model, t, original, script, c - 1) + [ChatRequest(model, PromptOf(t, original, script, c - 1))]
  }

  lemma {:induction false} RequestsAt(model: string, t: Template, original: string, script: seq<string>, c: nat, k: nat)
    requires c <= |script| + 1 && k < c
    ensures Requests(model, t, original, script, c)[k] == ChatRequest(model, PromptOf(t, original, script, k))
  {
    if k < c - 1 {
      RequestsAt(model, t, original, script, c - 1, k);
    }
  }

  /** The requests of a run: the seed carries the raw prompt, each later call
      the refinement template around the unchanged original and the previous
      history entry. */
  lemma RunRequests(same: (string, string) -> bool, model: string, original: string, script: seq<string>, m: int)
    ensures var e := RunWith(same, script, m); var r := Requests(model, Refinement, original, script, e.calls);
      |r| == e.calls && r[0] == ChatRequest(model, original)
      && forall k :: 1 <= k < e.calls ==> k - 1 < e.steps && r[k] == ChatRequest(model, RefinementPrompt(original, script[k - 1]))
  {
    var e := RunWith(same, script, m);
    RequestsAt(model, Refinement, original, script, e.calls, 0);
    forall k | 1 <= k < e.calls
      ensures k - 1 < e.steps && Requests(model, Refinement, original, script, e.calls)[k] == ChatRequest(model, RefinementPrompt(original, script[k - 1]))
    {
      RequestsAt(model, Refinement, original, script, e.calls, k);
    }
  }

  /** The progress values emitted for the first `n` history entries under a
      non-zero budget (a zero budget emits none: the first division fails). */
  function ProgressLog(m: int, n: nat): (r: seq<int>)
    requires m != 0
    ensures |r| == n
  {
    if n == 0 then [] else ProgressLog(m, n - 1) + [Progress(n, m)]
  }

  lemma {:induction false} ProgressLogAt(m: int, n: nat, k: nat)
    requires m != 0 && k < n
    ensures ProgressLog(m, n)[k] == Progress(k + 1, m)
  {
    if k < n - 1 {
      ProgressLogAt(m, n - 1, k);
    }
  }

  /** The progress values of a run: one per history entry, entry `k` reporting
      `(k + 1) * 100 / m`; never decreasing, strictly increasing when the budget
      is at most 100, within 0..100, and 100 at the end of a full budget. */
  lemma RunProgress(same: (string, string) -> bool, script: seq<string>, m: int)
    requires m >= 1
    ensures var e := RunWith(same, script, m); var p := ProgressLog(m, e.steps);
      |p| == e.steps
      && (forall k :: 0 <= k < |p| ==> p[k] == Progress(k + 1, m) && 0 <= p[k] <= 100)
      && (forall i, j :: 0 <= i <= j < |p| ==> p[i] <= p[j])
      && (m <= 100 ==> forall i, j :: 0 <= i < j < |p| ==> p[i] < p[j])
      && (e.steps == m ==> p[m - 1] == 100)
  {
    var e := RunWith(same, script, m);
    var p := ProgressLog(m, e.steps);
    forall k | 0 <= k < |p| ensures p[k] == Progress(k + 1, m) && 0 <= p[k] <= 100 {
      ProgressLogAt(m, e.steps, k);
      ProgressAtMost100(k + 1, m);
    }
    forall i, j | 0 <= i <= j < |p| ensures p[i] <= p[j] {
      ProgressLogAt(m, e.steps, i);
      ProgressLogAt(m, e.steps, j);
      ProgressMonotone(i + 1, j + 1, m);
    }
    if m <= 100 {
      forall i, j | 0 <= i < j < |p| ensures p[i] < p[j] {
        ProgressLogAt(m, e.steps, i);
        ProgressLogAt(m, e.steps, j);
        ProgressStrict(i + 1, j + 1, m);
      }
    }
    if e.steps == m {
      ProgressLogAt(m, e.steps, m - 1);
      ProgressFull(m);
    }
  }

  /** The history snapshots emitted after each append, on top of `prior`. */
  function Snapshots(prior: seq<string>, script: seq<string>, n: nat): (r: seq<seq<string>>)
    requires n <= |script|
    ensures |r| == n
  {
    if n == 0 then [] else Snapshots(prior, script, n - 1) + [prior + script[..n]]
  }

  /** Snapshot `k` is the history right after its `k + 1`-th append. */
  lemma {:induction false} SnapshotsArePrefixes(prior: seq<string>, script: seq<string>, n: nat, k: nat)
    requires n <= |script| && k < n
    ensures Snapshots(prior, script, n)[k] == prior + script[..k + 1]
  {
    if k < n - 1 {
      SnapshotsArePrefixes(prior, script, n - 1, k);
    }
  }
}

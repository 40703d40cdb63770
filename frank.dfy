/** The worker object that runs one self-refinement session (`AIThread`) and
    the part of the window's `process_input` that prepares it. The chat
    service is a script of replies held by the worker; the signals the worker
    emits are logs that only grow. */
module Frank {
  import opened Options
  import opened Thinking

  class AIThread {
    const prompt: string
    const maxIterations: int
    const modelName: string

    /** Replies the chat service has still to give, in call order; a call made
        when none is left raises a service error. */
    var service: seq<string>
    /** Every request sent to the chat service, in order. */
    var sent: seq<ChatRequest>
    /** `self.thinking_steps`: every reply received, in order. */
    var thinkingSteps: seq<string>
    /** Values emitted on `update_progress`. */
    var progressEvents: seq<int>
    /** Values emitted on `update_thinking_steps`, each a copy of the history. */
    var stepsEvents: seq<seq<string>>
    /** Values emitted on `finished`. */
    var finishedEvents: seq<string>

    /** A new worker starts with an empty history and has emitted nothing. */
    constructor (prompt: string, maxIterations: int, modelName: string, service: seq<string>)
      ensures this.prompt == prompt && this.maxIterations == maxIterations && this.modelName == modelName
      ensures this.service == service && sent == []
      ensures thinkingSteps == [] && progressEvents == [] && stepsEvents == [] && finishedEvents == []
    {
      this.prompt := prompt;
      this.maxIterations := maxIterations;
      this.modelName := modelName;
      this.service := service;
      sent := [];
      thinkingSteps := [];
      progressEvents := [];
      stepsEvents := [];
      finishedEvents := [];
    }

    /** One chat completion with the worker's model and `p` as the only user
        message; `None` is the service raising. */
    method PrimaryAIInput(p: string) returns (reply: Option<string>)
      modifies this`service, this`sent
      ensures sent == old(sent) + [ChatRequest(modelName, p)]
      ensures old(service) == [] ==> reply == None && service == []
      ensures old(service) != [] ==> reply == Some(old(service)[0]) && service == old(service)[1..]
    {
      sent := sent + [ChatRequest(modelName, p)];
      if service == [] {
        reply := None;
      } else {
        reply := Some(service[0]);
        service := service[1..];
      }
    }

    /** Appends a reply to the history and emits the new history. */
    method RecordStep(response: string)
      modifies this`thinkingSteps, this`stepsEvents
      ensures thinkingSteps == old(thinkingSteps) + [response]
      ensures stepsEvents == old(stepsEvents) + [thinkingSteps]
    {
      thinkingSteps := thinkingSteps + [response];
      stepsEvents := stepsEvents + [thinkingSteps];
    }

    /** The worker's state once a run that started from the logs `sent0`,
        `prior`, `progress0` and `steps0` has issued `calls` completion calls
        and appended `steps` replies. */
    ghost predicate Reflects(script: seq<string>, calls: nat, steps: nat, template: Template, initialPrompt: string, maxIterations: int,
                             sent0: seq<ChatRequest>, prior: seq<string>, progress0: seq<int>, steps0: seq<seq<string>>)
      reads this
      requires calls <= |script| + 1 && steps <= |script| && maxIterations != 0
    {
      service == script[steps..]
      && sent == sent0 + Requests(modelName, template, initialPrompt, script, calls)
      && thinkingSteps == prior + script[..steps]
      && progressEvents == progress0 + ProgressLog(maxIterations, steps)
      && stepsEvents == steps0 + Snapshots(prior, script, steps)
    }

    /** The seed call on the raw prompt, then the refinement calls of `Think`.
        Everything the run leaves behind is given by `RunSpec` of the service's
        script. */
    method RecursiveThinking(initialPrompt: string, maxIterations: int) returns (outcome: Outcome)
      modifies this`service, this`sent, this`thinkingSteps, this`progressEvents, this`stepsEvents
      ensures var script, e := old(service), RunSpec(old(service), maxIterations);
        outcome == e.outcome
        && sent == old(sent) + Requests(modelName, Refinement, initialPrompt, script, e.calls)
        && service == script[e.steps..]
        && thinkingSteps == old(thinkingSteps) + script[..e.steps]
        && progressEvents == old(progressEvents) + (if maxIterations == 0 then [] else ProgressLog(maxIterations, e.steps))
        && stepsEvents == old(stepsEvents) + Snapshots(old(thinkingSteps), script, e.steps)
    {
      ghost var script, sent0, prior := service, sent, thinkingSteps;
      ghost var progress0, steps0 := progressEvents, stepsEvents;

      var seed := PrimaryAIInput(initialPrompt);
      if seed.None? {
        outcome := Aborted(ServiceError);
        return;
      }
      var initialResponse := seed.value;
      RecordStep(initialResponse);
      assert script[..1] == [initialResponse];
      if maxIterations == 0 {
        outcome := Aborted(ZeroDivisionError);
        return;
      }
      progressEvents := progressEvents + [Progress(1, maxIterations)];
      outcome := Think(script, Refinement, initialPrompt, maxIterations, initialResponse, 1, sent0, prior, progress0, steps0);
    }

    /** One refinement call (lines 38-57 of `think`): the template around the
        original prompt and the draft goes to the service; a reply is appended
        to the history, which is emitted, and then the progress value of the
        counter is emitted. */
    method RefinementCall(ghost script: seq<string>, template: Template, initialPrompt: string, maxIterations: int, draft: string,
                          iteration: nat, ghost sent0: seq<ChatRequest>, ghost prior: seq<string>,
                          ghost progress0: seq<int>, ghost steps0: seq<seq<string>>)
      returns (reply: Option<string>)
      requires 1 <= iteration <= |script| && maxIterations != 0 && draft == script[iteration - 1]
      requires Reflects(script, iteration, iteration, template, initialPrompt, maxIterations, sent0, prior, progress0, steps0)
      modifies this`service, this`sent, this`thinkingSteps, this`progressEvents, this`stepsEvents
      ensures reply.None? ==>
                iteration == |script|
                && Reflects(script, iteration + 1, iteration, template, initialPrompt, maxIterations, sent0, prior, progress0, steps0)
      ensures reply.Some? ==>
                iteration < |script| && reply.value == script[iteration]
                && Reflects(script, iteration + 1, iteration + 1, template, initialPrompt, maxIterations, sent0, prior, progress0, steps0)
    {
      reply := PrimaryAIInput(Fill(template, initialPrompt, draft));
      if reply.Some? {
        RecordStep(reply.value);
        assert script[..iteration + 1] == script[..iteration] + [reply.value];
        progressEvents := progressEvents + [Progress(iteration + 1, maxIterations)];
      }
    }

    /** `think(draft, iteration)`: stop at the budget, otherwise make one
        refinement call and go on with `Refined`. */
    method Think(ghost script: seq<string>, template: Template, initialPrompt: string, maxIterations: int, draft: string, iteration: nat,
                 ghost sent0: seq<ChatRequest>, ghost prior: seq<string>,
                 ghost progress0: seq<int>, ghost steps0: seq<seq<string>>)
      returns (outcome: Outcome)
      requires 1 <= iteration <= |script| && maxIterations != 0 && draft == script[iteration - 1]
      requires Reflects(script, iteration, iteration, template, initialPrompt, maxIterations, sent0, prior, progress0, steps0)
      modifies this`service, this`sent, this`thinkingSteps, this`progressEvents, this`stepsEvents
      ensures var e := Thinking.Think(Converged, script, maxIterations, iteration);
        outcome == e.outcome
        && Reflects(script, e.calls, e.steps, template, initialPrompt, maxIterations, sent0, prior, progress0, steps0)
      decreases maxIterations - iteration, 1
    {
      if iteration >= maxIterations {
        outcome := Final(draft);
        return;
      }
      var reply := RefinementCall(script, template, initialPrompt, maxIterations, draft, iteration, sent0, prior, progress0, steps0);
      outcome := Refined(script, template, initialPrompt, maxIterations, draft, iteration, reply, sent0, prior, progress0, steps0);
    }

    /** The rest of `think` once the refinement call made at `iteration` has
        given `reply`: a raised call ends the run, a reply that agrees with the
        draft is the result, any other reply is the next draft. */
    method Refined(ghost script: seq<string>, template: Template, initialPrompt: string, maxIterations: int, draft: string,
                   iteration: nat, reply: Option<string>, ghost sent0: seq<ChatRequest>, ghost prior: seq<string>,
                   ghost progress0: seq<int>, ghost steps0: seq<seq<string>>)
      returns (outcome: Outcome)
      requires 1 <= iteration < maxIterations && iteration <= |script| && draft == script[iteration - 1]
      requires reply.None? ==>
                 iteration == |script|
                 && Reflects(script, iteration + 1, iteration, template, initialPrompt, maxIterations, sent0, prior, progress0, steps0)
      requires reply.Some? ==>
                 iteration < |script| && reply.value == script[iteration]
                 && Reflects(script, iteration + 1, iteration + 1, template, initialPrompt, maxIterations, sent0, prior, progress0, steps0)
      modifies this`service, this`sent, this`thinkingSteps, this`progressEvents, this`stepsEvents
      ensures var e := Thinking.Think(Converged, script, maxIterations, iteration);
        outcome == e.outcome
        && Reflects(script, e.calls, e.steps, template, initialPrompt, maxIterations, sent0, prior, progress0, steps0)
      decreases maxIterations - iteration, 0
    {
      if reply.None? {
        outcome := Aborted(ServiceError);
        return;
      }
      var response := reply.value;
      if Converged(response, draft) {
        outcome := Final(response);
        return;
      }
      outcome := Think(script, template, initialPrompt, maxIterations, response, iteration + 1, sent0, prior, progress0, steps0);
    }

    /** `run`: the session on the worker's own prompt and budget; the final
        text is emitted on `finished` only when the session returns. */
    method Run() returns (outcome: Outcome)
      modifies this`service, this`sent, this`thinkingSteps, this`progressEvents, this`stepsEvents, this`finishedEvents
      ensures var script, e := old(service), RunSpec(old(service), maxIterations);
        outcome == e.outcome
        && sent == old(sent) + Requests(modelName, Refinement, prompt, script, e.calls)
        && service == script[e.steps..]
        && thinkingSteps == old(thinkingSteps) + script[..e.steps]
        && progressEvents == old(progressEvents) + (if maxIterations == 0 then [] else ProgressLog(maxIterations, e.steps))
        && stepsEvents == old(stepsEvents) + Snapshots(old(thinkingSteps), script, e.steps)
        && finishedEvents == old(finishedEvents) + (if outcome.Final? then [outcome.text] else [])
    {
      outcome := RecursiveThinking(prompt, maxIterations);
      if outcome.Final? {
        finishedEvents := finishedEvents + [outcome.text];
      }
    }
  }

  /** The text of the iteration field when it is not edited. */
  const DefaultThinkingSteps: int := 3

  /** The budget `process_input` hands to the worker, from the iteration
      field's text as Python's `int()` reads it (`None` when `int()` raises
      `ValueError`): the default when it does not parse, otherwise the parsed
      number unchanged, zero and negative numbers included. */
  function IterationCount(parsed: Option<int>): (n: int)
    ensures parsed.None? ==> n == DefaultThinkingSteps
    ensures parsed.Some? ==> n == parsed.value
  {
    match parsed
    case None => DefaultThinkingSteps
    case Some(k) => k
  }

  /** Text that does not parse runs exactly like the text "3". */
  lemma UnparsableRunsAsThree(script: seq<string>)
    ensures RunSpec(script, IterationCount(None)) == RunSpec(script, IterationCount(Some(3)))
  {
  }

  /** `process_input`: a fresh worker for every submission, started on the
      prompt, the budget from the iteration field and the model name. The
      session runs to its end before the call returns; starting from an empty
      history, the worker holds exactly the replies of its own run, and the
      text emitted on `finished` is the last of them. */
  method ProcessInput(promptText: string, parsedSteps: Option<int>, modelText: string, service: seq<string>)
    returns (thread: AIThread)
    ensures fresh(thread)
    ensures thread.prompt == promptText && thread.maxIterations == IterationCount(parsedSteps)
    ensures thread.modelName == modelText
    ensures var m := IterationCount(parsedSteps); var e := RunSpec(service, m);
      thread.service == service[e.steps..]
      && thread.sent == Requests(modelText, Refinement, promptText, service, e.calls)
      && thread.thinkingSteps == service[..e.steps]
      && thread.progressEvents == (if m == 0 then [] else ProgressLog(m, e.steps))
      && thread.stepsEvents == Snapshots([], service, e.steps)
      && thread.finishedEvents == (if e.outcome.Final? then [e.outcome.text] else [])
    ensures thread.finishedEvents != [] ==>
              thread.thinkingSteps != [] && thread.finishedEvents == [thread.thinkingSteps[|thread.thinkingSteps| - 1]]
  {
    thread := new AIThread(promptText, IterationCount(parsedSteps), modelText, service);
    var _ := thread.Run();
    assert [] + service[..RunSpec(service, IterationCount(parsedSteps)).steps] == service[..RunSpec(service, IterationCount(parsedSteps)).steps];
  }

  /** Two submissions in a row: each session's history holds only its own
      replies, and the second session leaves the first worker as it was. */
  method TwoSubmissions(prompt1: string, prompt2: string, parsed: Option<int>, model: string,
                        service1: seq<string>, service2: seq<string>)
    returns (first: AIThread, second: AIThread)
    ensures first != second
    ensures first.thinkingSteps == service1[..RunSpec(service1, IterationCount(parsed)).steps]
    ensures second.thinkingSteps == service2[..RunSpec(service2, IterationCount(parsed)).steps]
  {
    first := ProcessInput(prompt1, parsed, model, service1);
    second := ProcessInput(prompt2, parsed, model, service2);
  }

  /** A reply equal to the seed ends the run after the first refinement call, whatever the
      service would have said next, even with a budget of five. */
  method ConvergesEarly(prompt: string, model: string, later: seq<string>)
    returns (history: seq<string>, calls: nat, finished: seq<string>)
    ensures history == ["draft-1", "draft-1"] && calls == 2 && finished == ["draft-1"]
  {
    var service := ["draft-1", "draft-1"] + later;
    StopsAtFirstAgreement(Converged, service, 5, 1);
    var thread := ProcessInput(prompt, Some(5), model, service);
    assert service[..2] == ["draft-1", "draft-1"];
    history, calls, finished := thread.thinkingSteps, |thread.sent|, thread.finishedEvents;
  }

  /** Replies that never agree use the whole budget: three replies for a budget
      of three, the last of them the result. */
  method SpendsBudget(prompt: string, model: string, later: seq<string>)
    returns (history: seq<string>, calls: nat, finished: seq<string>)
    ensures history == ["d0", "d1", "d2"] && calls == 3 && finished == ["d2"]
  {
    var service := ["d0", "d1", "d2"] + later;
    TrimmedConverged("d1", "d0");
    RunsFullBudget(Converged, service, 3);
    var thread := ProcessInput(prompt, Some(3), model, service);
    assert service[..3] == ["d0", "d1", "d2"];
    history, calls, finished := thread.thinkingSteps, |thread.sent|, thread.finishedEvents;
  }

  /** A service that raises on the second call ends the run with nothing on
      `finished` and the seed reply as the whole history. */
  method FailsOnSecondCall(prompt: string, model: string, parsed: Option<int>)
    returns (history: seq<string>, calls: nat, finished: seq<string>)
    requires IterationCount(parsed) >= 2
    ensures history == ["d0"] && calls == 2 && finished == []
  {
    FailsWhenServiceFails(Converged, ["d0"], IterationCount(parsed));
    var thread := ProcessInput(prompt, parsed, model, ["d0"]);
    history, calls, finished := thread.thinkingSteps, |thread.sent|, thread.finishedEvents;
  }
}

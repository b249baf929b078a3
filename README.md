# Agentic image generation: loop controller and tool-call collection

This project models the two pieces of control logic in `agentic_image_gen`:

- **The generate → evaluate → refine loop** `run_image_generation_loop` (`loop_controller.py`). It runs at most `MAX_ITERATIONS = 2` rounds. Each round does these steps:
  1. It asks the image generator for an image. The current prompt always goes along. The reference images go along only while no non-empty response id is held. The held id goes along too.
  2. A failed generation (no image path) skips the round. If the fresh response id is also empty, the loop aborts instead.
  3. Otherwise the evaluator scores the image against the prompt that produced it.
  4. The best score and image are updated on a strict improvement.
  5. A score of at least `SCORE_THRESHOLD = 90` ends the loop.
  6. Otherwise the prompter refines the prompt with the feedback, and the assistant run (`run_and_stream`) is advanced.

  The loop returns the best image, its score and three history lists.
- **The tool-call collection** at the end of `run_and_stream` (`run_orchestrator.py`). It flattens a run's final steps into one list of `{id, type[, name, arguments]}` records. Only steps of type `"tool_calls"` contribute. Steps keep their order, and so do the calls within each step.

The loop's collaborators are oracles. The thread id, the assistant id and the successive answers of the generator, the evaluator and the prompter are given up front (`Oracles`). Answers are consumed in call order. The loop returns its report and a `CallLog` that records the arguments of every generator, evaluator, prompter and `run_and_stream` call. The number of calls made to each of them is the length of its log. Thread creation and the assistant id lookup are not logged; their results are the `threadId` and `assistantId` inputs.

Structure:

- `wrappers.dfy`: `Option`.
- `loop_controller.dfy` (module `LoopController`):
  - `Round` is one pass of the loop body over the loop's locals (`LoopState`).
  - `Run` is the state after at most `n` rounds, and `RunImageGenerationLoop` is the method, a `for` loop with `break`/`continue`. It is proved to end in `Run(.., MaxIterations)`.
  - `RunKeepsPromises` proves the loop's guarantees about `Run` for every round cap `n`, by induction over rounds. They are stated as five predicates: `HistoryShape`, `StopsOnlyOnAbortOrThreshold`, `EvaluatorPrompterArguments`, `GeneratorArguments` and `TracksBest`.
- `run_orchestrator.dfy` (module `RunOrchestrator`):
  - `CollectToolCalls` is the nested loop. It is proved equal to `Records(ToolCallsOf(steps))`.
  - `ToolCallsOf` is a reference definition: the calls of the tool-call steps, concatenated.

Behaviour of the code that the model follows:

- The constants are `MAX_ITERATIONS = 2` and `SCORE_THRESHOLD = 90` (loop_controller.py:14-15).
- A failed generation appends nothing to any history; the round is skipped.
- The abort on a failed generation without a response id can happen in any round, not only the first. With two rounds this is observable only as "the second round was the last anyway".
- "No response id" means Python falsiness: `None` or `""`.
- The held id is overwritten every round, even with `None`. A round after one that returned no id therefore re-sends the full reference set.
- The best image starts as `""`, not `None`.
- The evaluator and prompter are unimplemented stubs. No parsing of their answers is modelled; their answers are given already split into fields.

The loop tests in `tests/test_loop_controller.py` call the loop with six arguments and expect a `full_history` key and three rounds. The code takes two arguments and stops after two rounds. `HistoryTrackingWithinTwoRounds` shows what the code does with that test's answers: the prompter and run counts (2 and 2) match the test, while the best image and score (`img2`, 50) differ from the test's expectations.

## Model

| member | source | states |
|---|---|---|
| `LoopController.RunImageGenerationLoop` | agentic_image_gen/loop_controller.py:18-87 | The loop's report and every collaborator call equal what `Run` reaches after `MaxIterations` rounds. Report: best image, final score, the three histories, thread id. |
| `LoopController.Run` | agentic_image_gen/loop_controller.py:42-78 | Rounds run in order until a break: at most n generator calls, and exactly n when no break happened. Prompter calls ≤ evaluator calls ≤ generator calls. |
| `LoopController.Round` | agentic_image_gen/loop_controller.py:45-78 | One round makes exactly one generator call, at most one evaluator call, and a prompter call only after an evaluator call. |
| `LoopController.RoundCallsGeneratorOnce` | agentic_image_gen/loop_controller.py:45-51 | The generator gets the current prompt and the held id. It gets the reference images only while the held id is empty or `None`. Afterwards the held id is the fresh one, even `None`. Earlier prompts are kept. |
| `LoopController.RoundOnFailedGeneration` | agentic_image_gen/loop_controller.py:50-58 | An empty or missing image path means no evaluator, prompter or run call, no history append, and an unchanged prompt and best result. The loop stops exactly when the fresh id is empty. |
| `LoopController.RoundOnThresholdScore` | agentic_image_gen/loop_controller.py:64-73 | A score ≥ 90 stops the loop after the evaluator call, with no prompter or run call and an unchanged prompt. |
| `LoopController.StoppedRunStaysStopped` | agentic_image_gen/loop_controller.py:53-73 | After a break no further round happens, whatever the round cap. |
| `LoopController.RunKeepsPromises` | agentic_image_gen/loop_controller.py:33-78 | For every cap n > 0 there is at least one round. History shape: only generated rounds are recorded, image and feedback histories have one entry per evaluator call, `prompt_history[0]` is the prompt, and there is one prompt entry and one run per prompter call. Only the last score can reach 90. Abort or threshold stops the loop in its own round, in any round, and nothing else stops it. Argument passing: prompts, feedback, ids and references go to the collaborators as described. Best tracking: `MaxScore`/`BestImage` of the evaluated rounds. |
| `LoopController.ReportKeepsPromises` | agentic_image_gen/loop_controller.py:37-87 | On the returned dictionary, for every round cap: `final_score` is at least every evaluated score and is -1 or one of them. `image_history` and `feedback_history` have one entry per evaluator call. `prompt_history` has one entry more than there were prompter calls, and there is one run per prompter call. |
| `LoopController.Images` | agentic_image_gen/loop_controller.py:50-60 | The image history holds only non-empty paths, at most one per round. |
| `LoopController.MaxScore` | agentic_image_gen/loop_controller.py:37-69 | The best score never drops below its start value -1. |
| `LoopController.MaxScoreIsMaximum` | agentic_image_gen/loop_controller.py:68-69 | The final score is at least every evaluated score, and it is either -1 or one of them. |
| `LoopController.BestImageIsFirstMaximum` | agentic_image_gen/loop_controller.py:68-70 | The best image is that of the first round reaching the final score, so ties keep the earlier image. It is `""` when no score beat -1. |
| `LoopController.EarlyExitOnHighScore` | tests/test_loop_controller.py:9-35 | A first score of 95 gives best image `img1`, final score 95 and one round, with no prompter call. |
| `LoopController.HistoryTrackingWithinTwoRounds` | tests/test_loop_controller.py:39-79 | With that test's answers the code runs two rounds and makes two prompter calls and two runs. The best is `img2` at 50. |
| `RunOrchestrator.CollectToolCalls` | agentic_image_gen/run_orchestrator.py:37-49 | The result is one record per call of every `"tool_calls"` step, in step order and call order. |
| `RunOrchestrator.Records` | agentic_image_gen/run_orchestrator.py:42-47 | There is one record per call, in order, and record k is `CallInfo` of call k. |
| `RunOrchestrator.CallInfo` | agentic_image_gen/run_orchestrator.py:43-46 | A record always has `id` and `type`, copied unchanged. It has `name` and `arguments` iff the call has a function, and they are copied from it. It has no other keys. |
| `RunOrchestrator.ToolCallsOfAppend` | agentic_image_gen/run_orchestrator.py:39-47 | The calls of consecutive step lists follow each other, which preserves order. |
| `RunOrchestrator.ToolCallsOfLength` | agentic_image_gen/run_orchestrator.py:39-47 | The output length equals the total number of calls across `"tool_calls"` steps. |
| `RunOrchestrator.OtherStepsContributeNothing` | agentic_image_gen/run_orchestrator.py:40-41 | Steps whose type is not `"tool_calls"` produce no records. |
| `RunOrchestrator.ToolCallPosition` | agentic_image_gen/run_orchestrator.py:39-47 | Call c of tool-call step j sits at index (calls of earlier steps) + c. |
| `RunOrchestrator.CollectsOneFunctionCall` | tests/test_run_orchestrator.py:12-71 | One completed step with one function call `foo` yields exactly `[{id, type, name, arguments}]`. |

## Left out

- Creating the thread and loading or creating the assistant (loop_controller.py:28-31). Their results are the opaque `threadId` and `assistantId` inputs. The config-file persistence behind them is file I/O.
- The bodies of the generator, evaluator and prompter. They are unimplemented stubs and are modelled only by their answers.
- `run_and_stream`'s client construction, API-key check and streaming (run_orchestrator.py:9-36). These are network I/O. The loop only records each call. The steps collected at the end are an input.
- Exceptions raised by collaborators. They propagate out of the loop and are not modelled.
- Python's async machinery. The awaits are strictly sequential and are modelled as plain calls. `print` logging is left out.
- `LoopController.RunImageGenerationLoop` requires at least `MaxIterations` answers from each of the generator, the evaluator and the prompter. A real collaborator always answers. Extra answers are ignored.
- `Evaluation.score`: scores are unbounded integers. A float score orders the same way, so the proofs carry over. NaN is not represented: in Python a NaN score fails both `>` comparisons, so it would not update the best and would not stop the loop, and `MaxScoreIsMaximum`'s upper bound would not hold for it.
- The generator and the prompter are modelled as the loop calls them, not by the stubs' declared signatures. The loop passes `generate_image` three arguments and reads the `image_path` and `response_id` keys of its answer (loop_controller.py:45-51). It passes `generate_prompt` the feedback as one string (loop_controller.py:75). The stubs declare two parameters and a `str` result for `generate_image` (image_gen.py:6), and a list-of-strings feedback for `generate_prompt` (prompter.py:6).
- Message sending (`message_sender.py`), the CLI and the config files are not part of this model.

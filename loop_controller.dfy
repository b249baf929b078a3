/**
 * The generate -> evaluate -> refine loop of agentic_image_gen/loop_controller.py.
 *
 * The collaborators (thread creation, the assistant id, the image generator, the
 * evaluator, the prompter) are oracles: their answers are given up front and the
 * answers of the generator, evaluator and prompter are consumed in call order.
 * Besides its report the loop returns a log of the arguments of every generator,
 * evaluator, prompter and `run_and_stream` call; the number of calls made to each
 * of them is the length of its log.
 *
 * `Round` is one pass of the loop body and `Run` the state after at most n rounds;
 * `RunImageGenerationLoop` is proved to end in `Run(.., MaxIterations)`, and the
 * lemmas below state what the loop promises about `Run` for every round cap n.
 */
module LoopController {
  import opened Wrappers

  /** Upper bound on the number of rounds. */
  const MaxIterations: nat := 2
  /** A score at or above this value ends the loop. */
  const ScoreThreshold: int := 90

  /** Arguments of one `generate_image` call. */
  datatype GenRequest = GenRequest(prompt: string, referenceImages: Option<seq<string>>, responseId: Option<string>)
  /** The `{"image_path", "response_id"}` answer of the generator. */
  datatype GenResult = GenResult(imagePath: Option<string>, responseId: Option<string>)
  /** Arguments of one `evaluate_image` call. */
  datatype EvalRequest = EvalRequest(imageUrl: string, prompt: string)
  /** The `{"score", "feedback"}` answer of the evaluator. */
  datatype Evaluation = Evaluation(score: int, feedback: string)
  /** Arguments of one `generate_prompt` call. */
  datatype PromptRequest = PromptRequest(previousPrompt: string, feedback: string)
  /** Arguments of one `run_and_stream` call. */
  datatype RunRequest = RunRequest(threadId: string, assistantId: string)

  /**
   * The collaborators' answers: the thread id `create_thread` returns, the assistant
   * id (loaded, or created when none was stored), and the successive answers of the
   * generator, the evaluator and the prompter.
   */
  datatype Oracles = Oracles(
    threadId: string,
    assistantId: string,
    generator: seq<GenResult>,
    evaluator: seq<Evaluation>,
    prompter: seq<string>)

  /** Every collaborator call the loop made, in order, with its arguments. */
  datatype CallLog = CallLog(
    generator: seq<GenRequest>,
    evaluator: seq<EvalRequest>,
    prompter: seq<PromptRequest>,
    runs: seq<RunRequest>)

  /** The dictionary the loop returns. */
  datatype LoopReport = LoopReport(
    bestImageUrl: string,
    finalScore: int,
    promptHistory: seq<string>,
    imageHistory: seq<string>,
    feedbackHistory: seq<string>,
    threadId: string)

  /** The loop's locals, the calls made so far, and whether a `break` was taken. */
  datatype LoopState = LoopState(
    currentPrompt: string,
    currentResponseId: Option<string>,
    bestScore: int,
    bestImageUrl: string,
    promptHistory: seq<string>,
    imageHistory: seq<string>,
    feedbackHistory: seq<string>,
    calls: CallLog,
    stopped: bool)

  /** Python truthiness of a `str | None` response id: present and non-empty. */
  predicate Held(id: Option<string>) {
    id.Some? && id.value != ""
  }

  /** `gen_result["image_path"] or ""`: a missing path reads as the empty string. */
  function ImageUrl(r: GenResult): string {
    match r.imagePath
    case None => ""
    case Some(path) => path
  }

  /** A failed generation whose fresh response id is empty ends the loop. */
  predicate Aborts(r: GenResult) {
    ImageUrl(r) == "" && !Held(r.responseId)
  }

  /** The images of the rounds whose generation succeeded, in round order. */
  function Images(gens: seq<GenResult>): (images: seq<string>)
    ensures |images| <= |gens|
    ensures forall k :: 0 <= k < |images| ==> images[k] != ""
  {
    if gens == [] then []
    else
      var url := ImageUrl(gens[|gens| - 1]);
      Images(gens[..|gens| - 1]) + (if url == "" then [] else [url])
  }

  /** The best score after scanning `evals` in order, starting from -1. */
  function MaxScore(evals: seq<Evaluation>): (best: int)
    ensures best >= -1
  {
    if evals == [] then -1
    else
      var before := MaxScore(evals[..|evals| - 1]);
      var score := evals[|evals| - 1].score;
      if score > before then score else before
  }

  /** The best image after the same scan: replaced only on a strict improvement. */
  function BestImage(images: seq<string>, evals: seq<Evaluation>): string
    requires |images| == |evals|
  {
    if evals == [] then ""
    else if evals[|evals| - 1].score > MaxScore(evals[..|evals| - 1]) then images[|images| - 1]
    else BestImage(images[..|images| - 1], evals[..|evals| - 1])
  }

  /** `MaxScore` is the maximum of -1 and every score. */
  lemma {:induction false} MaxScoreIsMaximum(evals: seq<Evaluation>)
    ensures forall k :: 0 <= k < |evals| ==> evals[k].score <= MaxScore(evals)
    ensures MaxScore(evals) == -1 || exists k :: 0 <= k < |evals| && evals[k].score == MaxScore(evals)
  {
    if evals != [] {
      var init := evals[..|evals| - 1];
      MaxScoreIsMaximum(init);
      assert forall k :: 0 <= k < |init| ==> init[k] == evals[k];
    }
  }

  /**
   * `BestImage` is the image of the FIRST round that reached `MaxScore`
   * (ties keep the earlier image), and "" when no score beat -1.
   */
  lemma {:induction false} BestImageIsFirstMaximum(images: seq<string>, evals: seq<Evaluation>)
    requires |images| == |evals|
    ensures MaxScore(evals) == -1 ==> BestImage(images, evals) == ""
    ensures MaxScore(evals) > -1 ==>
      exists j :: 0 <= j < |evals| && evals[j].score == MaxScore(evals) && BestImage(images, evals) == images[j] &&
        forall i :: 0 <= i < j ==> evals[i].score < MaxScore(evals)
  {
    if evals != [] {
      var n := |evals| - 1;
      var init, initImages := evals[..n], images[..n];
      BestImageIsFirstMaximum(initImages, init);
      MaxScoreIsMaximum(init);
      assert forall k :: 0 <= k < n ==> init[k] == evals[k];
      if evals[n].score > MaxScore(init) {
        assert forall i :: 0 <= i < n ==> evals[i].score < MaxScore(evals);
      } else if MaxScore(evals) > -1 {
        var j :| 0 <= j < n && init[j].score == MaxScore(init) && BestImage(initImages, init) == initImages[j] &&
          forall i :: 0 <= i < j ==> init[i].score < MaxScore(init);
        assert evals[j].score == MaxScore(evals) && BestImage(images, evals) == images[j];
      }
    }
  }

  /** The locals before the first round. */
  function Start(prompt: string): LoopState {
    LoopState(prompt, None, -1, "", [prompt], [], [], CallLog([], [], [], []), false)
  }

  /** Whether the oracles can answer the next round's calls. */
  predicate CanAnswerRound(o: Oracles, s: LoopState) {
    |s.calls.generator| < |o.generator| && |s.calls.evaluator| < |o.evaluator| && |s.calls.prompter| < |o.prompter|
  }

  /**
   * One pass of the loop body: generate; on failure stop (empty response id) or
   * skip the round; otherwise evaluate, track the best, stop at the threshold, or
   * refine the prompt and advance the assistant run.
   */
  function Round(s: LoopState, referenceImages: Option<seq<string>>, o: Oracles): (r: LoopState)
    requires CanAnswerRound(o, s)
    ensures |r.calls.generator| == |s.calls.generator| + 1
    ensures |s.calls.evaluator| <= |r.calls.evaluator| <= |s.calls.evaluator| + 1
    ensures |r.calls.prompter| - |s.calls.prompter| <= |r.calls.evaluator| - |s.calls.evaluator|
    ensures |s.calls.prompter| <= |r.calls.prompter|
  {
    var request := GenRequest(s.currentPrompt, if Held(s.currentResponseId) then None else referenceImages, s.currentResponseId);
    var result := o.generator[|s.calls.generator|];
    var imageUrl := ImageUrl(result);
    var generated := s.(currentResponseId := result.responseId,
                        calls := s.calls.(generator := s.calls.generator + [request]));
    if imageUrl == "" then
      generated.(stopped := !Held(result.responseId))
    else
      var evaluation := o.evaluator[|s.calls.evaluator|];
      var evaluated := generated.(
        imageHistory := s.imageHistory + [imageUrl],
        feedbackHistory := s.feedbackHistory + [evaluation.feedback],
        calls := generated.calls.(evaluator := s.calls.evaluator + [EvalRequest(imageUrl, s.currentPrompt)]));
      var tracked :=
        if evaluation.score > s.bestScore then evaluated.(bestScore := evaluation.score, bestImageUrl := imageUrl)
        else evaluated;
      if evaluation.score >= ScoreThreshold then
        tracked.(stopped := true)
      else
        var next := o.prompter[|s.calls.prompter|];
        tracked.(
          currentPrompt := next,
          promptHistory := s.promptHistory + [next],
          calls := tracked.calls.(
            prompter := s.calls.prompter + [PromptRequest(s.currentPrompt, evaluation.feedback)],
            runs := s.calls.runs + [RunRequest(o.threadId, o.assistantId)]))
  }

  /** Whether the oracles hold an answer for every call `n` rounds can make. */
  predicate Answers(o: Oracles, n: nat) {
    |o.generator| >= n && |o.evaluator| >= n && |o.prompter| >= n
  }

  /** The locals after `n` iterations of `for i in range(n)`, or after the `break`. */
  function Run(prompt: string, referenceImages: Option<seq<string>>, o: Oracles, n: nat): (s: LoopState)
    requires Answers(o, n)
    ensures |s.calls.prompter| <= |s.calls.evaluator| <= |s.calls.generator| <= n
    ensures !s.stopped ==> |s.calls.generator| == n
  {
    if n == 0 then Start(prompt)
    else
      var s := Run(prompt, referenceImages, o, n - 1);
      if s.stopped then s else Round(s, referenceImages, o)
  }

  /** The returned dictionary. */
  function Report(s: LoopState, threadId: string): LoopReport {
    LoopReport(s.bestImageUrl, s.bestScore, s.promptHistory, s.imageHistory, s.feedbackHistory, threadId)
  }

  /** After a `break` no further round happens. */
  lemma {:induction false} StoppedRunStaysStopped(
    prompt: string, referenceImages: Option<seq<string>>, o: Oracles, n: nat, m: nat)
    requires n <= m && Answers(o, m)
    requires Run(prompt, referenceImages, o, n).stopped
    ensures Run(prompt, referenceImages, o, m) == Run(prompt, referenceImages, o, n)
  {
    if n < m {
      StoppedRunStaysStopped(prompt, referenceImages, o, n, m - 1);
    }
  }

  /**
   * History shape: the image and feedback histories record exactly the rounds
   * whose generation succeeded, in order, with the evaluator's feedback; every
   * evaluated round except a final threshold round refined the prompt once and
   * advanced the assistant run once; `prompt_history` starts with the prompt and
   * ends with the current prompt.
   */
  ghost predicate HistoryShape(prompt: string, o: Oracles, s: LoopState) {
    var g, e, p := |s.calls.generator|, |s.calls.evaluator|, |s.calls.prompter|;
    && g <= |o.generator| && e <= |o.evaluator| && p <= |o.prompter|
    && s.imageHistory == Images(o.generator[..g])
    && e == |s.imageHistory| == |s.feedbackHistory|
    && (forall k :: 0 <= k < e ==> s.feedbackHistory[k] == o.evaluator[k].feedback)
    && p <= e <= p + 1
    && (!s.stopped ==> p == e)
    && s.promptHistory == [prompt] + o.prompter[..p]
    && s.currentPrompt == s.promptHistory[p]
    && |s.calls.runs| == p
    && (forall k :: 0 <= k < p ==> s.calls.runs[k] == RunRequest(o.threadId, o.assistantId))
  }

  /**
   * Stopping: every evaluated score except possibly the last is below the
   * threshold; a score at the threshold ends the loop in its own round, and so
   * does a failed generation without a response id, in whichever round; nothing
   * else stops the loop early.  The response id held is the latest round's, even
   * when that is `None`.
   */
  ghost predicate StopsOnlyOnAbortOrThreshold(o: Oracles, s: LoopState) {
    var g, e, p := |s.calls.generator|, |s.calls.evaluator|, |s.calls.prompter|;
    && g <= |o.generator| && p <= e <= |o.evaluator|
    && (forall k :: 0 <= k < p ==> o.evaluator[k].score < ScoreThreshold)
    && (e == p + 1 ==> 0 < g && o.evaluator[p].score >= ScoreThreshold && ImageUrl(o.generator[g - 1]) != "")
    && (forall k :: 0 <= k < g - 1 ==> !Aborts(o.generator[k]))
    && (s.stopped <==> 0 < g && (Aborts(o.generator[g - 1]) || e == p + 1))
    && s.currentResponseId == (if g == 0 then None else o.generator[g - 1].responseId)
  }

  /**
   * Evaluator and prompter arguments: the evaluator judged each image against the
   * prompt that produced it, and the prompter refined that same prompt with the
   * evaluator's feedback.
   */
  ghost predicate EvaluatorPrompterArguments(o: Oracles, s: LoopState) {
    var e, p := |s.calls.evaluator|, |s.calls.prompter|;
    && e <= |s.imageHistory| && e <= |s.promptHistory| && p <= e && p <= |o.evaluator|
    && (forall k :: 0 <= k < e ==> s.calls.evaluator[k] == EvalRequest(s.imageHistory[k], s.promptHistory[k]))
    && (forall k :: 0 <= k < p ==> s.calls.prompter[k] == PromptRequest(s.promptHistory[k], o.evaluator[k].feedback))
  }

  /**
   * Generator arguments: the response id passed is the previous round's fresh id
   * (`None` in the first round, and `None` again after a round that returned
   * none); the reference images go along exactly when no non-empty id is passed;
   * the prompt is the latest one, refined once per earlier evaluated round.
   */
  ghost predicate GeneratorArguments(referenceImages: Option<seq<string>>, o: Oracles, s: LoopState) {
    var gens := s.calls.generator;
    && |gens| <= |o.generator|
    && (forall k :: 0 <= k < |gens| ==> gens[k].responseId == if k == 0 then None else o.generator[k - 1].responseId)
    && (forall k :: 0 <= k < |gens| ==>
          gens[k].referenceImages == if Held(gens[k].responseId) then None else referenceImages)
    && (forall k :: 0 <= k < |gens| ==>
          |Images(o.generator[..k])| < |s.promptHistory| && gens[k].prompt == s.promptHistory[|Images(o.generator[..k])|])
  }

  /**
   * Best tracking: the best score is `MaxScore` of the evaluated rounds and the
   * best image is `BestImage` of them.
   */
  ghost predicate TracksBest(o: Oracles, s: LoopState) {
    var e := |s.calls.evaluator|;
    && e <= |o.evaluator| && |s.imageHistory| == e
    && s.bestScore == MaxScore(o.evaluator[..e])
    && s.bestImageUrl == BestImage(s.imageHistory, o.evaluator[..e])
  }

  lemma RoundKeepsHistoryShape(prompt: string, referenceImages: Option<seq<string>>, o: Oracles, s: LoopState)
    requires HistoryShape(prompt, o, s) && !s.stopped && CanAnswerRound(o, s)
    ensures HistoryShape(prompt, o, Round(s, referenceImages, o))
  {
    var g, p := |s.calls.generator|, |s.calls.prompter|;
    assert o.generator[..g + 1][..g] == o.generator[..g];
    if ImageUrl(o.generator[g]) != "" && o.evaluator[p].score < ScoreThreshold {
      assert o.prompter[..p + 1] == o.prompter[..p] + [o.prompter[p]];
    }
  }

  lemma RoundKeepsStopping(prompt: string, referenceImages: Option<seq<string>>, o: Oracles, s: LoopState)
    requires HistoryShape(prompt, o, s) && StopsOnlyOnAbortOrThreshold(o, s) && !s.stopped && CanAnswerRound(o, s)
    ensures StopsOnlyOnAbortOrThreshold(o, Round(s, referenceImages, o))
  {
    var g := |s.calls.generator|;
    assert !Aborts(o.generator[g]) ==> forall k :: 0 <= k < g + 1 ==> !Aborts(o.generator[k]);
  }

  lemma RoundKeepsEvaluatorPrompterArguments(
    prompt: string, referenceImages: Option<seq<string>>, o: Oracles, s: LoopState)
    requires HistoryShape(prompt, o, s) && EvaluatorPrompterArguments(o, s) && !s.stopped && CanAnswerRound(o, s)
    ensures EvaluatorPrompterArguments(o, Round(s, referenceImages, o))
  {
  }

  /**
   * Each round makes exactly one generator call, with the current prompt, the
   * reference images only while no non-empty response id is held, and the held id;
   * afterwards the held id is the fresh one, even `None`.  Earlier prompts stay.
   */
  lemma RoundCallsGeneratorOnce(s: LoopState, referenceImages: Option<seq<string>>, o: Oracles)
    requires CanAnswerRound(o, s)
    ensures var r := Round(s, referenceImages, o);
      && r.calls.generator == s.calls.generator + [GenRequest(
           s.currentPrompt, if Held(s.currentResponseId) then None else referenceImages, s.currentResponseId)]
      && r.currentResponseId == o.generator[|s.calls.generator|].responseId
      && s.promptHistory <= r.promptHistory
  {
  }

  /**
   * A round whose generation failed calls neither the evaluator, nor the
   * prompter, nor the assistant run, appends to no history and keeps the prompt
   * and the best result; it ends the loop exactly when the fresh response id is
   * empty.
   */
  lemma RoundOnFailedGeneration(s: LoopState, referenceImages: Option<seq<string>>, o: Oracles)
    requires CanAnswerRound(o, s) && ImageUrl(o.generator[|s.calls.generator|]) == ""
    ensures var r := Round(s, referenceImages, o);
      && r.stopped == !Held(o.generator[|s.calls.generator|].responseId)
      && r.calls.evaluator == s.calls.evaluator && r.calls.prompter == s.calls.prompter && r.calls.runs == s.calls.runs
      && r.promptHistory == s.promptHistory && r.imageHistory == s.imageHistory && r.feedbackHistory == s.feedbackHistory
      && r.currentPrompt == s.currentPrompt && r.bestScore == s.bestScore && r.bestImageUrl == s.bestImageUrl
  {
  }

  /**
   * A round whose image scores at least the threshold ends the loop after one
   * evaluator call, without a prompter call or an assistant run.
   */
  lemma RoundOnThresholdScore(s: LoopState, referenceImages: Option<seq<string>>, o: Oracles)
    requires CanAnswerRound(o, s)
    requires ImageUrl(o.generator[|s.calls.generator|]) != ""
    requires o.evaluator[|s.calls.evaluator|].score >= ScoreThreshold
    ensures var r := Round(s, referenceImages, o);
      && r.stopped
      && r.calls.evaluator == s.calls.evaluator + [EvalRequest(ImageUrl(o.generator[|s.calls.generator|]), s.currentPrompt)]
      && r.calls.prompter == s.calls.prompter && r.calls.runs == s.calls.runs
      && r.promptHistory == s.promptHistory && r.currentPrompt == s.currentPrompt
  {
  }

  /** Appending the next round's generator call keeps `GeneratorArguments`. */
  lemma NextGeneratorCallKeepsArguments(
    referenceImages: Option<seq<string>>, o: Oracles, s: LoopState, r: LoopState)
    requires GeneratorArguments(referenceImages, o, s) && |s.calls.generator| < |o.generator|
    requires var g := |s.calls.generator|;
      && s.currentResponseId == (if g == 0 then None else o.generator[g - 1].responseId)
      && |Images(o.generator[..g])| < |s.promptHistory|
      && s.currentPrompt == s.promptHistory[|Images(o.generator[..g])|]
    requires r.calls.generator == s.calls.generator + [GenRequest(
               s.currentPrompt, if Held(s.currentResponseId) then None else referenceImages, s.currentResponseId)]
    requires s.promptHistory <= r.promptHistory
    ensures GeneratorArguments(referenceImages, o, r)
  {
    var g := |s.calls.generator|;
    forall k | 0 <= k < g + 1
      ensures |Images(o.generator[..k])| < |r.promptHistory|
      ensures r.calls.generator[k].prompt == r.promptHistory[|Images(o.generator[..k])|]
    {
      if k < g {
        assert r.calls.generator[k] == s.calls.generator[k];
      }
    }
  }

  lemma RoundKeepsGeneratorArguments(
    prompt: string, referenceImages: Option<seq<string>>, o: Oracles, s: LoopState)
    requires HistoryShape(prompt, o, s) && StopsOnlyOnAbortOrThreshold(o, s) && GeneratorArguments(referenceImages, o, s)
    requires !s.stopped && CanAnswerRound(o, s)
    ensures GeneratorArguments(referenceImages, o, Round(s, referenceImages, o))
  {
    RoundCallsGeneratorOnce(s, referenceImages, o);
    assert |Images(o.generator[..|s.calls.generator|])| == |s.calls.prompter|;
    NextGeneratorCallKeepsArguments(referenceImages, o, s, Round(s, referenceImages, o));
  }

  lemma RoundKeepsBest(prompt: string, referenceImages: Option<seq<string>>, o: Oracles, s: LoopState)
    requires HistoryShape(prompt, o, s) && TracksBest(o, s) && !s.stopped && CanAnswerRound(o, s)
    ensures TracksBest(o, Round(s, referenceImages, o))
  {
    var e := |s.calls.evaluator|;
    assert o.evaluator[..e + 1][..e] == o.evaluator[..e];
  }

  /**
   * What the loop promises after at most n rounds: at least one round when n > 0,
   * and every property above.
   */
  lemma {:induction false} RunKeepsPromises(prompt: string, referenceImages: Option<seq<string>>, o: Oracles, n: nat)
    requires Answers(o, n)
    ensures var s := Run(prompt, referenceImages, o, n);
      && (n > 0 ==> |s.calls.generator| > 0)
      && HistoryShape(prompt, o, s)
      && StopsOnlyOnAbortOrThreshold(o, s)
      && EvaluatorPrompterArguments(o, s)
      && GeneratorArguments(referenceImages, o, s)
      && TracksBest(o, s)
  {
    if n > 0 {
      RunKeepsPromises(prompt, referenceImages, o, n - 1);
      var s := Run(prompt, referenceImages, o, n - 1);
      if !s.stopped {
        RoundKeepsHistoryShape(prompt, referenceImages, o, s);
        RoundKeepsStopping(prompt, referenceImages, o, s);
        RoundKeepsEvaluatorPrompterArguments(prompt, referenceImages, o, s);
        RoundKeepsGeneratorArguments(prompt, referenceImages, o, s);
        RoundKeepsBest(prompt, referenceImages, o, s);
      }
    }
  }

  /**
   * The promises read off the returned dictionary: `final_score` is at least every
   * evaluated score and is -1 or one of them; the image and feedback histories
   * have one entry per evaluator call; the prompt history holds the initial prompt
   * plus one entry per prompter call, and there is one run per prompter call.
   */
  lemma ReportKeepsPromises(prompt: string, referenceImages: Option<seq<string>>, o: Oracles, n: nat)
    requires Answers(o, n)
    ensures var s := Run(prompt, referenceImages, o, n);
      var r := Report(s, o.threadId);
      var e := |s.calls.evaluator|;
      && e <= |o.evaluator|
      && (forall k :: 0 <= k < e ==> o.evaluator[k].score <= r.finalScore)
      && (r.finalScore == -1 || exists k :: 0 <= k < e && o.evaluator[k].score == r.finalScore)
      && |r.imageHistory| == |r.feedbackHistory| == e
      && |s.calls.runs| == |s.calls.prompter| == |r.promptHistory| - 1
  {
    RunKeepsPromises(prompt, referenceImages, o, n);
    var s := Run(prompt, referenceImages, o, n);
    var e := |s.calls.evaluator|;
    var evals := o.evaluator[..e];
    MaxScoreIsMaximum(evals);
    assert forall k :: 0 <= k < e ==> evals[k] == o.evaluator[k];
  }

  /**
   * `run_image_generation_loop(prompt, reference_images)` with its collaborators'
   * answers in `o`: it ends in the state `Run` reaches after `MaxIterations` rounds.
   */
  method RunImageGenerationLoop(prompt: string, referenceImages: Option<seq<string>>, o: Oracles)
    returns (report: LoopReport, calls: CallLog)
    requires Answers(o, MaxIterations)
    ensures var s := Run(prompt, referenceImages, o, MaxIterations);
      report == Report(s, o.threadId) && calls == s.calls
  {
    var threadId := o.threadId;
    var assistantId := o.assistantId;

    var promptHistory: seq<string> := [prompt];
    var imageHistory: seq<string> := [];
    var feedbackHistory: seq<string> := [];

    var bestScore := -1;
    var bestImageUrl := "";
    var currentPrompt := prompt;
    var currentResponseId: Option<string> := None;

    var generatorCalls: seq<GenRequest> := [];
    var evaluatorCalls: seq<EvalRequest> := [];
    var prompterCalls: seq<PromptRequest> := [];
    var runCalls: seq<RunRequest> := [];

    for i := 0 to MaxIterations
      invariant Run(prompt, referenceImages, o, i) == LoopState(
        currentPrompt, currentResponseId, bestScore, bestImageUrl,
        promptHistory, imageHistory, feedbackHistory,
        CallLog(generatorCalls, evaluatorCalls, prompterCalls, runCalls), false)
    {
      var request := GenRequest(
        currentPrompt,
        if Held(currentResponseId) then None else referenceImages,
        currentResponseId);
      var genResult := o.generator[|generatorCalls|];
      generatorCalls := generatorCalls + [request];
      var imageUrl := ImageUrl(genResult);
      currentResponseId := genResult.responseId;

      if imageUrl == "" {
        if !Held(currentResponseId) {
          StoppedRunStaysStopped(prompt, referenceImages, o, i + 1, MaxIterations);
          break;
        }
        continue;
      }

      imageHistory := imageHistory + [imageUrl];
      var evaluation := o.evaluator[|evaluatorCalls|];
      evaluatorCalls := evaluatorCalls + [EvalRequest(imageUrl, currentPrompt)];
      feedbackHistory := feedbackHistory + [evaluation.feedback];
      var score := evaluation.score;

      if score > bestScore {
        bestScore := score;
        bestImageUrl := imageUrl;
      }

      if score >= ScoreThreshold {
        StoppedRunStaysStopped(prompt, referenceImages, o, i + 1, MaxIterations);
        break;
      }

      var feedback := evaluation.feedback;
      prompterCalls := prompterCalls + [PromptRequest(currentPrompt, feedback)];
      currentPrompt := o.prompter[|prompterCalls| - 1];
      promptHistory := promptHistory + [currentPrompt];

      runCalls := runCalls + [RunRequest(threadId, assistantId)];
    }

    report := LoopReport(bestImageUrl, bestScore, promptHistory, imageHistory, feedbackHistory, threadId);
    calls := CallLog(generatorCalls, evaluatorCalls, prompterCalls, runCalls);
  }

  /**
   * A first image scoring 95 ends the loop after one round: that image is the
   * best, the prompter and the assistant run are never called.
   */
  method EarlyExitOnHighScore() returns (report: LoopReport, calls: CallLog)
    ensures report.bestImageUrl == "img1" && report.finalScore == 95
    ensures report.promptHistory == ["start"] && report.imageHistory == ["img1"] && report.feedbackHistory == ["good"]
    ensures |calls.generator| == 1 && calls.prompter == [] && calls.runs == []
  {
    var answer := GenResult(Some("img1"), Some("rid1"));
    var evaluation := Evaluation(95, "good");
    var o := Oracles("t1", "a1", [answer, answer], [evaluation, evaluation], ["improved", "improved"]);
    assert Run("start", None, o, 1) == LoopState(
      "start", Some("rid1"), 95, "img1", ["start"], ["img1"], ["good"],
      CallLog([GenRequest("start", None, None)], [EvalRequest("img1", "start")], [], []), true);
    report, calls := RunImageGenerationLoop("start", None, o);
  }

  /**
   * Three generator answers and scores 30, 50, 92: the loop stops after
   * `MaxIterations` rounds, before the third answer, with two refinements and
   * two assistant runs, and keeps the second image as the best.
   */
  method HistoryTrackingWithinTwoRounds() returns (report: LoopReport, calls: CallLog)
    ensures report.bestImageUrl == "img2" && report.finalScore == 50
    ensures report.promptHistory == ["start", "p2", "p3"]
    ensures report.imageHistory == ["img1", "img2"] && report.feedbackHistory == ["fb1", "fb2"]
    ensures |calls.prompter| == 2 && |calls.runs| == 2
  {
    var o := Oracles(
      "t1", "a1",
      [GenResult(Some("img1"), Some("rid1")), GenResult(Some("img2"), Some("rid2")), GenResult(Some("img3"), Some("rid3"))],
      [Evaluation(30, "fb1"), Evaluation(50, "fb2"), Evaluation(92, "fb3")],
      ["p2", "p3"]);
    report, calls := RunImageGenerationLoop("start", None, o);
  }
}

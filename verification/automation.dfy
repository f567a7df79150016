/** The workflow page: `handleGenerate` drives the five-stage display
    (sourcing, scripting, voicing, assembling, ready) around one call of the
    script generator, and logs each stage to the session store. */
module Automation {
  import opened Types
  import opened Session
  import opened Gemini

  /** The number of stages the workflow panel shows. */
  const StageCount: nat := 5

  const MissingKeyText: string :=
    "Missing API_KEY in environment " + "variables. Please check your " +
    "Netlify configuration or .env file."
  const FallbackErrorText: string := "Failed to generate content"
  const CallingText: string := "Calling Gemini 2.5 Flash " + "for script generation..."
  const GeneratedText: string := "Script generated successfully"
  const VoiceoverText: string := "Voiceover synthesized " + "(Simulated: Google TTS/Bark)"
  const AssembledText: string := "Video assembled with " + "FFmpeg (Simulated)"
  const ReadyText: string := "Video ready for upload"

  function StartText(topic: string): string
  {
    "Starting workflow for topic: " + topic
  }

  /** How the panel draws a stage. */
  datatype StageDisplay = Completed | Current | Pending

  /** The display of the stage at 0-based `index` while the panel is at `currentStep`. */
  function Display(index: nat, currentStep: nat): (d: StageDisplay)
    ensures d == Completed <==> index + 1 < currentStep
    ensures d == Current <==> index + 1 == currentStep
  {
    if index + 1 == currentStep then Current
    else if index + 1 < currentStep then Completed
    else Pending
  }

  /** How many of the first `n` stages are drawn as `d` at `currentStep`. */
  function CountDisplayed(d: StageDisplay, n: nat, currentStep: nat): nat
  {
    if n == 0 then 0
    else CountDisplayed(d, n - 1, currentStep) + (if Display(n - 1, currentStep) == d then 1 else 0)
  }

  /** At step s, the stages before s are completed and at most one stage is current:
      exactly one when 1 <= s <= n. */
  lemma {:induction false} DisplayCounts(n: nat, s: nat)
    ensures CountDisplayed(Completed, n, s) == Min(n, if s == 0 then 0 else s - 1)
    ensures CountDisplayed(Current, n, s) == (if 1 <= s <= n then 1 else 0)
  {
    if n > 0 {
      DisplayCounts(n - 1, s);
    }
  }

  /** The message shown and logged for a failed generation: the error's own
      message, or a fixed text when it has none. */
  function ErrorText(e: Failure): (t: string)
    ensures t != ""
    ensures e.message != "" ==> t == e.message
    ensures e.message == "" ==> t == FallbackErrorText
  {
    if e.message != "" then e.message else FallbackErrorText
  }

  /** The records a started run logs before it calls the generator. */
  function StartLog(topic: string): seq<LogRecord>
  {
    [LogRecord(Info, StartText(topic)), LogRecord(Info, CallingText)]
  }

  /** The records a run logs once generation has settled. */
  function OutcomeLog(outcome: Result<Json, Failure>): seq<LogRecord>
  {
    match outcome
    case Ok(_) =>
      [LogRecord(Success, GeneratedText), LogRecord(Info, VoiceoverText),
       LogRecord(Info, AssembledText), LogRecord(Success, ReadyText)]
    case Err(e) => [LogRecord(Error, ErrorText(e))]
  }

  /** The records a started run logs, given how generation settled. */
  function RunLog(topic: string, outcome: Result<Json, Failure>): seq<LogRecord>
  {
    StartLog(topic) + OutcomeLog(outcome)
  }

  /** The values the step indicator takes during a started run. */
  function StepTrace(outcome: Result<Json, Failure>): seq<nat>
  {
    [0, 1, 2] + (if outcome.Ok? then [3, 4, 5] else [])
  }

  function Levels(recs: seq<LogRecord>): (ls: seq<LogLevel>)
    ensures |ls| == |recs| && forall i :: 0 <= i < |ls| ==> ls[i] == recs[i].level
  {
    seq(|recs|, i requires 0 <= i < |recs| => recs[i].level)
  }

  /** A run starts by logging its topic; a successful run logs info, info,
      success, info, info, success; a failed one logs exactly one error, last,
      carrying the error text. */
  lemma RunLogShape(topic: string, outcome: Result<Json, Failure>)
    ensures RunLog(topic, outcome)[0] == LogRecord(Info, StartText(topic))
    ensures outcome.Ok? ==> Levels(RunLog(topic, outcome)) == [Info, Info, Success, Info, Info, Success]
    ensures outcome.Err? ==> Levels(RunLog(topic, outcome)) == [Info, Info, Error]
    ensures outcome.Err? ==> RunLog(topic, outcome)[2].message == ErrorText(outcome.error)
  {
  }

  /** The step indicator only moves forward, passes 1 and 2 before the call,
      and ends at 5 after success and at 2 after failure. */
  lemma StepTraceShape(outcome: Result<Json, Failure>)
    ensures forall i, j :: 0 <= i < j < |StepTrace(outcome)| ==> StepTrace(outcome)[i] < StepTrace(outcome)[j]
    ensures StepTrace(outcome)[..3] == [0, 1, 2]
    ensures StepTrace(outcome)[|StepTrace(outcome)| - 1] == if outcome.Ok? then StageCount else 2
  {
  }

  class AutomationPage {
    const store: Store
    var topic: string
    var isGenerating: bool
    var result: Option<Json>
    var currentStep: nat
    var error: Option<string>
    /** The values the step indicator was set to during the last started run. */
    ghost var stepTrace: seq<nat>
    /** The step the indicator showed when the last started run called the generator. */
    ghost var stepAtCall: Option<nat>
    /** Every request the page has had the generator send, oldest first. */
    ghost var requests: seq<Request>

    constructor (store: Store)
      ensures this.store == store
      ensures topic == "" && !isGenerating && result == None && currentStep == 0 && error == None
      ensures stepTrace == [] && stepAtCall == None && requests == []
    {
      this.store := store;
      topic := "";
      isGenerating := false;
      result := None;
      currentStep := 0;
      error := None;
      stepTrace := [];
      stepAtCall := None;
      requests := [];
    }

    /** The topic field's change handler. */
    method EditTopic(text: string)
      modifies this
      ensures topic == text
      ensures isGenerating == old(isGenerating) && result == old(result)
      ensures currentStep == old(currentStep) && error == old(error)
      ensures stepTrace == old(stepTrace) && stepAtCall == old(stepAtCall)
      ensures requests == old(requests)
    {
      topic := text;
    }

    /** `handleGenerate`, run to completion; `apiKey` is the configured key,
        `model` and `parse` stand for the model and `JSON.parse`. */
    method HandleGenerate(apiKey: Option<string>, model: Model, parse: JsonParser)
      requires store.Valid()
      modifies this, store
      ensures store.Valid() && topic == old(topic) && store.language == old(store.language)
      // an empty topic: nothing happens
      ensures old(topic) == "" ==> unchanged(this) && unchanged(store)
      // no key: an error banner and one error log, no run and no call
      ensures old(topic) != "" && !HasKey(apiKey) ==>
        && error == Some(MissingKeyText)
        && isGenerating == old(isGenerating) && result == old(result)
        && currentStep == old(currentStep)
        && stepTrace == old(stepTrace) && stepAtCall == old(stepAtCall)
        && requests == old(requests)
        && store.history == old(store.history)
             + Entries(store.clock, old(store.issued), [LogRecord(Error, MissingKeyText)])
      // a started run
      ensures old(topic) != "" && HasKey(apiKey) ==>
        var outcome := GenerateVideoContent(apiKey, old(topic), old(store.language), model, parse).result;
        && !isGenerating
        && stepAtCall == Some(2)
        && requests == old(requests) + [GenerationRequest(old(topic), old(store.language))]
        && stepTrace == StepTrace(outcome)
        && currentStep == stepTrace[|stepTrace| - 1]
        && store.history == old(store.history) + Entries(store.clock, old(store.issued), RunLog(old(topic), outcome))
        && (outcome.Ok? ==> result == Some(outcome.value) && error == None)
        && (outcome.Err? ==> result == None && error == Some(ErrorText(outcome.error)))
    {
      if topic == "" {
        return;
      }
      ghost var start := store.issued;
      ghost var base := store.history;
      if !HasKey(apiKey) {
        error := Some(MissingKeyText);
        store.AddLog(Error, MissingKeyText);
        EntriesSnoc(store.clock, start, [], LogRecord(Error, MissingKeyText));
        return;
      }
      Run(apiKey, model, parse);
    }

    /** A run past both guards: clear the view, step through the stages
        around one generator call, and log each stage. */
    method Run(apiKey: Option<string>, model: Model, parse: JsonParser)
      requires store.Valid() && topic != "" && HasKey(apiKey)
      modifies this, store
      ensures store.Valid() && topic == old(topic) && store.language == old(store.language)
      ensures
        var outcome := GenerateVideoContent(apiKey, old(topic), old(store.language), model, parse).result;
        && !isGenerating
        && stepAtCall == Some(2)
        && requests == old(requests) + [GenerationRequest(old(topic), old(store.language))]
        && stepTrace == StepTrace(outcome)
        && currentStep == stepTrace[|stepTrace| - 1]
        && store.history == old(store.history) + Entries(store.clock, old(store.issued), RunLog(old(topic), outcome))
        && (outcome.Ok? ==> result == Some(outcome.value) && error == None)
        && (outcome.Err? ==> result == None && error == Some(ErrorText(outcome.error)))
    {
      ghost var start := store.issued;
      ghost var base := store.history;
      Begin();
      stepAtCall := Some(currentStep);
      var call := GenerateVideoContent(apiKey, topic, store.language, model, parse);
      requests := requests + [call.sent.value];
      Settle(call.result, start, base);
      isGenerating := false;
    }

    /** The `try`/`catch` around the generator call, once it has settled. */
    method Settle(outcome: Result<Json, Failure>, ghost start: nat, ghost base: seq<LogEntry>)
      requires store.Valid()
      requires store.history == base + Entries(store.clock, start, StartLog(topic))
      requires store.issued == start + |StartLog(topic)|
      modifies this, store
      ensures store.Valid() && store.language == old(store.language)
      ensures store.history == base + Entries(store.clock, start, RunLog(topic, outcome))
      ensures stepTrace == old(stepTrace) + (if outcome.Ok? then [3, 4, 5] else [])
      ensures outcome.Ok? ==> result == Some(outcome.value) && error == old(error) && currentStep == 5
      ensures outcome.Err? ==> result == old(result) && error == Some(ErrorText(outcome.error))
                               && currentStep == old(currentStep)
      ensures topic == old(topic) && isGenerating == old(isGenerating) && stepAtCall == old(stepAtCall)
      ensures requests == old(requests)
    {
      match outcome {
        case Ok(data) => Succeed(data, start, base, StartLog(topic));
        case Err(e) => Fail(e, start, base, StartLog(topic));
      }
    }

    /** The stages before the generator is called: the view is cleared, the
        start is logged, and the indicator passes 1 and stops at 2 with the
        call logged. */
    method Begin()
      requires store.Valid()
      modifies this, store
      ensures store.Valid() && store.language == old(store.language)
      ensures store.history == old(store.history) + Entries(store.clock, old(store.issued), StartLog(topic))
      ensures store.issued == old(store.issued) + |StartLog(topic)|
      ensures isGenerating && result == None && error == None
      ensures currentStep == 2 && stepTrace == [0, 1, 2]
      ensures topic == old(topic) && stepAtCall == old(stepAtCall) && requests == old(requests)
    {
      ghost var start := store.issued;
      ghost var base := store.history;
      isGenerating := true;
      result := None;
      error := None;
      currentStep := 0;
      stepTrace := [0];

      ghost var logged: seq<LogRecord> := [];
      assert base + Entries(store.clock, start, logged) == base;
      Emit(LogRecord(Info, StartText(topic)), start, base, logged);
      logged := logged + [LogRecord(Info, StartText(topic))];

      currentStep := 1;
      stepTrace := stepTrace + [1];

      currentStep := 2;
      stepTrace := stepTrace + [2];
      Emit(LogRecord(Info, CallingText), start, base, logged);
      logged := logged + [LogRecord(Info, CallingText)];
      assert logged == StartLog(topic);
    }

    /** The stages after a successful generation: the script is shown and the
        indicator moves through voicing and assembling to ready. */
    method Succeed(data: Json, ghost start: nat, ghost base: seq<LogEntry>, ghost prior: seq<LogRecord>)
      requires store.Valid()
      requires store.history == base + Entries(store.clock, start, prior) && store.issued == start + |prior|
      modifies this, store
      ensures store.Valid() && store.language == old(store.language)
      ensures store.history == base + Entries(store.clock, start, prior + OutcomeLog(Ok(data)))
      ensures result == Some(data) && currentStep == 5 && stepTrace == old(stepTrace) + [3, 4, 5]
      ensures topic == old(topic) && isGenerating == old(isGenerating) && error == old(error)
      ensures stepAtCall == old(stepAtCall) && requests == old(requests)
    {
      ghost var logged := prior;
      result := Some(data);
      Emit(LogRecord(Success, GeneratedText), start, base, logged);
      logged := logged + [LogRecord(Success, GeneratedText)];

      currentStep := 3;
      stepTrace := stepTrace + [3];
      Emit(LogRecord(Info, VoiceoverText), start, base, logged);
      logged := logged + [LogRecord(Info, VoiceoverText)];

      currentStep := 4;
      stepTrace := stepTrace + [4];
      Emit(LogRecord(Info, AssembledText), start, base, logged);
      logged := logged + [LogRecord(Info, AssembledText)];

      currentStep := 5;
      stepTrace := stepTrace + [5];
      Emit(LogRecord(Success, ReadyText), start, base, logged);
      logged := logged + [LogRecord(Success, ReadyText)];
      assert logged == prior + OutcomeLog(Ok(data));
    }

    /** A failed generation: the error is logged and shown, the indicator stays put. */
    method Fail(e: Failure, ghost start: nat, ghost base: seq<LogEntry>, ghost prior: seq<LogRecord>)
      requires store.Valid()
      requires store.history == base + Entries(store.clock, start, prior) && store.issued == start + |prior|
      modifies this, store
      ensures store.Valid() && store.language == old(store.language)
      ensures store.history == base + Entries(store.clock, start, prior + OutcomeLog(Err(e)))
      ensures error == Some(ErrorText(e))
      ensures topic == old(topic) && isGenerating == old(isGenerating) && result == old(result)
      ensures currentStep == old(currentStep) && stepTrace == old(stepTrace) && stepAtCall == old(stepAtCall)
      ensures requests == old(requests)
    {
      var message := ErrorText(e);
      Emit(LogRecord(Error, message), start, base, prior);
      error := Some(message);
    }

    /** One `addLog` call of a run, tracked against the records logged so far. */
    method Emit(rec: LogRecord, ghost start: nat, ghost base: seq<LogEntry>, ghost logged: seq<LogRecord>)
      requires store.Valid()
      requires store.history == base + Entries(store.clock, start, logged) && store.issued == start + |logged|
      modifies store
      ensures store.Valid() && store.language == old(store.language)
      ensures store.history == base + Entries(store.clock, start, logged + [rec])
      ensures store.issued == start + |logged| + 1
    {
      store.AddLog(rec.level, rec.message);
      EntriesSnoc(store.clock, start, logged, rec);
    }
  }
}

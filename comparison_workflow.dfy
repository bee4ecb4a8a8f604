/** The orchestration around the judge-response parser: the judge node, the
    batch of comparisons and the single-comparison entry point with its
    input validation and timeout. The judge chain, the clock and the timeout
    are inputs: what the chain answered (or raised), whether the limit was
    reached, and the elapsed time. */
module ComparisonWorkflow {
  import opened PyValues
  import opened JudgeResponse

  /** One comparison request, as the batch receives it. */
  datatype CompareRequest = CompareRequest(
    input: string, responseA: string, responseB: string,
    modelA: Option<string>, modelB: Option<string>)

  /** A `BatchComparisonResult`: the request echoed with the verdict. */
  datatype BatchResult = BatchResult(
    input: string, responseA: string, responseB: string,
    modelA: Option<string>, modelB: Option<string>,
    verdict: Verdict, reasoning: Reasoning)

  /** What invoking the judge chain did: it answered, or it raised. */
  datatype JudgeCall = Answered(output: JudgeOutput) | Failed(e: PyException)

  // ---------------------------------------------------------------------
  // The judge node

  /** `node_judge`: the chain's answer goes to the parser; a ValueError from
      the chain is a JSON parsing failure and any other exception a failure
      of the judge model. */
  function NodeJudge(call: JudgeCall): (r: ParseResult)
    ensures call.Failed? ==> r.verdict.Error?
    ensures call.Failed? && call.e.cls == ValueErrorClass ==> r.verdict == Error("Falha no parsing JSON")
    ensures call.Failed? && call.e.cls != ValueErrorClass ==> r.verdict == Error("Falha no modelo judge")
    ensures call.Answered? ==> r == ParseJudgeResponse(call.output)
    ensures r.verdict.IsDecision() ==> call.Answered?
  {
    match call
    case Answered(output) => ParseJudgeResponse(output)
    case Failed(e) =>
      if e.cls == ValueErrorClass then
        ParseResult(Error("Falha no parsing JSON"), Text("Resposta do judge não pôde ser parseada: " + e.text))
      else
        ParseResult(Error("Falha no modelo judge"),
                    Text("Erro durante execução do judge: " + e.typeName + " - " + e.text))
  }

  // ---------------------------------------------------------------------
  // The batch

  /** What `chain.abatch` did for the whole batch: one output per input (the
      list may be shorter or longer; it is zipped with the inputs), or an
      exception that stops the batch. */
  datatype BatchOutcome = Outputs(outputs: seq<JudgeOutput>) | CriticalFailure(e: PyException)

  /** A `BatchComparisonResult` accepts a reasoning that is a string or None
      and rejects any other value (a number or a list from the judge's
      Reasoning field, say). */
  predicate RecordAccepts(r: Reasoning) {
    !r.Field? || r.v.VStr? || r.v.VNull?
  }

  /** The verdict of the individual-failure record. */
  const IndividualFailure: string := "Falha no processamento individual"

  /** The verdict of a critical-failure record, and its reasoning's prefix. */
  const CriticalFailureDetail: string := "Falha crítica no batch"
  const CriticalFailurePrefix: string := "Erro crítico durante processamento batch: "

  function Record(c: CompareRequest, verdict: Verdict, reasoning: Reasoning): BatchResult {
    BatchResult(c.input, c.responseA, c.responseB, c.modelA, c.modelB, verdict, reasoning)
  }

  /** The record for one comparison and its judge output: the parsed verdict,
      or the individual-failure record when building the record raises. */
  function ItemResult(c: CompareRequest, output: JudgeOutput): BatchResult {
    ItemRecord(c, ParseJudgeResponse(output))
  }

  /** The record built from one comparison and its parsed verdict. It
      echoes the comparison whether or not it could be built; it carries the
      parsed verdict exactly when the record accepts the reasoning, and the
      individual failure, naming the rejected value, otherwise. */
  function ItemRecord(c: CompareRequest, parsed: ParseResult): (r: BatchResult)
    ensures r.input == c.input && r.responseA == c.responseA && r.responseB == c.responseB
    ensures r.modelA == c.modelA && r.modelB == c.modelB
    ensures RecordAccepts(parsed.reasoning) ==> r.verdict == parsed.verdict && r.reasoning == parsed.reasoning
    ensures !RecordAccepts(parsed.reasoning)
            ==> r.verdict == Error(IndividualFailure) && r.reasoning == RecordRejected(parsed.reasoning.v)
  {
    if RecordAccepts(parsed.reasoning) then Record(c, parsed.verdict, parsed.reasoning)
    else Record(c, Error(IndividualFailure), RecordRejected(parsed.reasoning.v))
  }

  /** The record every comparison gets when the batch as a whole fails. */
  function CriticalRecord(c: CompareRequest, e: PyException): BatchResult {
    Record(c, Error(CriticalFailureDetail), Text(CriticalFailurePrefix + e.typeName + " - " + e.text))
  }

  function Min(a: nat, b: nat): nat { if a <= b then a else b }

  /** The results `batch_judge_processing` returns. */
  function BatchSpec(comparisons: seq<CompareRequest>, outcome: BatchOutcome): (rs: seq<BatchResult>)
  {
    match outcome
    case CriticalFailure(e) => seq(|comparisons|, i requires 0 <= i < |comparisons| => CriticalRecord(comparisons[i], e))
    case Outputs(outs) =>
      seq(Min(|comparisons|, |outs|), i requires 0 <= i < Min(|comparisons|, |outs|) => ItemResult(comparisons[i], outs[i]))
  }

  /** A record counts as a success when its verdict does not start with "ERRO". */
  predicate Succeeded(r: BatchResult) {
    !StartsWith(r.verdict.Wire(), "ERRO")
  }

  function CountSucceeded(rs: seq<BatchResult>): (n: nat)
    ensures n <= |rs|
  {
    if rs == [] then 0 else CountSucceeded(rs[..|rs| - 1]) + (if Succeeded(rs[|rs| - 1]) then 1 else 0)
  }

  /** The `except` block of `batch_judge_processing`: one critical-failure
      record per comparison, none of which succeeds. */
  method CriticalResults(comparisons: seq<CompareRequest>, e: PyException) returns (results: seq<BatchResult>)
    ensures |results| == |comparisons|
    ensures forall i :: 0 <= i < |results| ==> results[i] == CriticalRecord(comparisons[i], e)
    ensures CountSucceeded(results) == 0
  {
    results := [];
    for k := 0 to |comparisons|
      invariant |results| == k
      invariant forall i :: 0 <= i < k ==> results[i] == CriticalRecord(comparisons[i], e)
    {
      results := results + [CriticalRecord(comparisons[k], e)];
    }
    NoneSucceed(results);
  }

  lemma CountSucceededSnoc(rs: seq<BatchResult>, r: BatchResult)
    ensures CountSucceeded(rs + [r]) == CountSucceeded(rs) + (if Succeeded(r) then 1 else 0)
  {
    assert (rs + [r])[..|rs|] == rs;
  }

  /** `batch_judge_processing`; `successes` is the `successful_count` the
      source tallies (none on the critical path). */
  method BatchJudgeProcessing(comparisons: seq<CompareRequest>, outcome: BatchOutcome)
    returns (results: seq<BatchResult>, successes: nat)
    ensures results == BatchSpec(comparisons, outcome)
    ensures successes == CountSucceeded(results)
  {
    if outcome.CriticalFailure? {
      results := CriticalResults(comparisons, outcome.e);
      successes := 0;
      assert results == BatchSpec(comparisons, outcome);
      return;
    }
    var outs := outcome.outputs;
    results, successes := ItemResults(comparisons, outs, ItemResult);
    assert results == BatchSpec(comparisons, outcome) by {
      forall i | 0 <= i < |results| ensures results[i] == ItemResult(comparisons[i], outs[i]) { }
    }
  }

  /** The loop of `batch_judge_processing` over the zipped comparisons and
      outputs: one record per pair, appended in order, counting the records
      whose verdict does not start with "ERRO". How one pair becomes a record
      is a parameter (the batch passes `ItemResult`). */
  method ItemResults(comparisons: seq<CompareRequest>, outs: seq<JudgeOutput>, record: (CompareRequest, JudgeOutput) -> BatchResult)
    returns (results: seq<BatchResult>, successes: nat)
    ensures |results| == Min(|comparisons|, |outs|)
    ensures forall i :: 0 <= i < |results| ==> results[i] == record(comparisons[i], outs[i])
    ensures successes == CountSucceeded(results)
  {
    var n := Min(|comparisons|, |outs|);
    results := [];
    successes := 0;
    for k := 0 to n
      invariant |results| == k
      invariant forall i :: 0 <= i < k ==> results[i] == record(comparisons[i], outs[i])
      invariant successes == CountSucceeded(results)
    {
      results, successes := Tally(results, successes, record(comparisons[k], outs[k]));
    }
  }

  /** One step of that loop: append the record, and count it when its
      verdict does not start with "ERRO". */
  method Tally(results: seq<BatchResult>, successes: nat, item: BatchResult)
    returns (results': seq<BatchResult>, successes': nat)
    requires successes == CountSucceeded(results)
    ensures results' == results + [item]
    ensures successes' == CountSucceeded(results')
  {
    CountSucceededSnoc(results, item);
    results' := results + [item];
    successes' := successes;
    if Succeeded(item) {
      successes' := successes + 1;
    }
  }

  /** Every result echoes the comparison at its position, and there is one
      result per zipped pair (one per comparison when the batch fails). */
  lemma BatchKeepsInputs(comparisons: seq<CompareRequest>, outcome: BatchOutcome)
    ensures outcome.CriticalFailure? ==> |BatchSpec(comparisons, outcome)| == |comparisons|
    ensures outcome.Outputs? && |outcome.outputs| == |comparisons| ==> |BatchSpec(comparisons, outcome)| == |comparisons|
    ensures forall i | 0 <= i < |BatchSpec(comparisons, outcome)| ::
              var r := BatchSpec(comparisons, outcome)[i];
              i < |comparisons| && r.input == comparisons[i].input && r.responseA == comparisons[i].responseA
              && r.responseB == comparisons[i].responseB && r.modelA == comparisons[i].modelA && r.modelB == comparisons[i].modelB
  {
    var rs := BatchSpec(comparisons, outcome);
    forall i | 0 <= i < |rs|
      ensures i < |comparisons| && rs[i].input == comparisons[i].input && rs[i].responseA == comparisons[i].responseA
              && rs[i].responseB == comparisons[i].responseB && rs[i].modelA == comparisons[i].modelA
              && rs[i].modelB == comparisons[i].modelB
    {
      match outcome
      case CriticalFailure(e) => assert rs[i] == CriticalRecord(comparisons[i], e);
      case Outputs(outs) =>
        assert rs[i] == ItemRecord(comparisons[i], ParseJudgeResponse(outs[i]));
    }
  }

  /** A batch-level failure yields one critical-failure record per input
      comparison, in input order, and no successes. */
  lemma {:induction false} CriticalBatchAllFail(comparisons: seq<CompareRequest>, e: PyException)
    ensures forall i | 0 <= i < |BatchSpec(comparisons, CriticalFailure(e))| ::
              BatchSpec(comparisons, CriticalFailure(e))[i].verdict == Error("Falha crítica no batch")
    ensures CountSucceeded(BatchSpec(comparisons, CriticalFailure(e))) == 0
  {
    NoneSucceed(BatchSpec(comparisons, CriticalFailure(e)));
  }

  lemma {:induction false} NoneSucceed(rs: seq<BatchResult>)
    requires forall i | 0 <= i < |rs| :: rs[i].verdict.Error?
    ensures CountSucceeded(rs) == 0
  {
    if rs != [] {
      NoneSucceed(rs[..|rs| - 1]);
      WireErrorPrefix(rs[|rs| - 1].verdict);
    }
  }

  /** Each result depends only on its own comparison and judge output: a
      failing item does not affect the others. */
  lemma ItemsAreIndependent(comparisons: seq<CompareRequest>, outs: seq<JudgeOutput>, j: nat, other: JudgeOutput)
    requires j < |outs|
    ensures var before := BatchSpec(comparisons, Outputs(outs));
            var after := BatchSpec(comparisons, Outputs(outs[j := other]));
            |before| == |after| && forall i | 0 <= i < |before| && i != j :: before[i] == after[i]
  {
  }

  /** The success count is the number of items whose parse ended in a
      decision whose record could be built. */
  predicate ItemDecided(c: CompareRequest, o: JudgeOutput) {
    ParseJudgeResponse(o).verdict.IsDecision() && RecordAccepts(ParseJudgeResponse(o).reasoning)
  }

  function CountDecided(cs: seq<CompareRequest>, os: seq<JudgeOutput>): nat
    requires |cs| == |os|
  {
    if cs == [] then 0 else CountDecided(cs[..|cs| - 1], os[..|os| - 1]) + (if ItemDecided(cs[|cs| - 1], os[|os| - 1]) then 1 else 0)
  }

  lemma ItemSucceededIffDecided(c: CompareRequest, o: JudgeOutput)
    ensures Succeeded(ItemResult(c, o)) <==> ItemDecided(c, o)
  {
    var parsed := ParseJudgeResponse(o);
    WireErrorPrefix(ItemResult(c, o).verdict);
    assert ItemResult(c, o).verdict == if RecordAccepts(parsed.reasoning) then parsed.verdict
                                        else Error(IndividualFailure);
  }

  lemma {:induction false} SuccessesAreDecisions(cs: seq<CompareRequest>, os: seq<JudgeOutput>)
    requires |cs| == |os|
    ensures CountSucceeded(BatchSpec(cs, Outputs(os))) == CountDecided(cs, os)
  {
    if cs != [] {
      var n := |cs|;
      SuccessesAreDecisions(cs[..n - 1], os[..n - 1]);
      BatchSpecSnoc(cs, os);
      ItemSucceededIffDecided(cs[n - 1], os[n - 1]);
    }
  }

  /** The batch of a non-empty list is the batch of all but its last pair
      followed by the last pair's record. */
  lemma BatchSpecSnoc(cs: seq<CompareRequest>, os: seq<JudgeOutput>)
    requires |cs| == |os| > 0
    ensures BatchSpec(cs, Outputs(os)) == BatchSpec(cs[..|cs| - 1], Outputs(os[..|os| - 1])) + [ItemResult(cs[|cs| - 1], os[|os| - 1])]
  {
    var n := |cs|;
    var rs := BatchSpec(cs, Outputs(os));
    assert rs[..n - 1] == BatchSpec(cs[..n - 1], Outputs(os[..n - 1]));
    assert rs == rs[..n - 1] + [rs[n - 1]];
  }

  // ---------------------------------------------------------------------
  // The single comparison

  /** The result dict of `main`. */
  datatype ComparisonOutcome = ComparisonOutcome(
    input: string, responseA: string, responseB: string,
    modelA: Option<string>, modelB: Option<string>,
    verdict: Verdict, reasoning: Reasoning, executionTime: real)

  /** The validation of `main`: response_a, then response_b, then the
      question must not be blank; the first blank one names the error. */
  function ValidationError(question: string, a: string, b: string): (r: Option<string>)
  {
    if Strip(a) == "" then Some("response_a não pode ser vazia")
    else if Strip(b) == "" then Some("response_b não pode ser vazia")
    else if Strip(question) == "" then Some("input_question não pode ser vazio")
    else None
  }

  /** `main`. The judge is called on the stripped inputs; `timedOut` says
      that the call did not finish within `timeoutSeconds`, and `elapsed` is
      the time measured since the start. Every outcome echoes the inputs and
      reports the elapsed time; the validation verdict appears exactly when
      an input is blank, and the timeout verdict exactly when valid inputs
      ran out of time. */
  function Main(question: string, a: string, b: string, modelA: Option<string>, modelB: Option<string>,
                timeoutSeconds: int, judge: (string, string, string) -> JudgeCall,
                timedOut: bool, elapsed: real): (r: ComparisonOutcome)
    ensures r.input == question && r.responseA == a && r.responseB == b
    ensures r.modelA == modelA && r.modelB == modelB && r.executionTime == elapsed
    ensures r.verdict == Error("Validação falhou") <==> ValidationError(question, a, b).Some?
    ensures r.verdict.Timeout? <==> ValidationError(question, a, b).None? && timedOut
  {
    match ValidationError(question, a, b)
    case Some(msg) =>
      ComparisonOutcome(question, a, b, modelA, modelB, Error("Validação falhou"),
                        Text("Erro de validação de entrada: " + msg), elapsed)
    case None =>
      if timedOut then
        ComparisonOutcome(question, a, b, modelA, modelB, Timeout(timeoutSeconds), TimedOut(elapsed), elapsed)
      else
        var judged := NodeJudge(judge(Strip(question), Strip(a), Strip(b)));
        JudgedIsNotValidation(judged.verdict);
        ComparisonOutcome(question, a, b, modelA, modelB, judged.verdict, judged.reasoning, elapsed)
  }

  /** The verdicts the judge node produces are neither the validation
      failure nor a timeout. */
  lemma JudgedIsNotValidation(v: Verdict)
    requires v.IsDecision() || IsParserError(v) || v == Error("Falha no parsing JSON") || v == Error("Falha no modelo judge")
    ensures v != Error("Validação falhou") && !v.Timeout?
  {
    if v.Error? && StartsWith(v.detail, "Falha no parsing: ") {
      assert v.detail[0] == v.detail[..18][0] == 'F';
    }
  }

  /** The validation rejects exactly the inputs with a blank field, and
      names the first of response A, response B and the question that is
      blank. */
  lemma ValidationRejectsBlank(question: string, a: string, b: string)
    ensures ValidationError(question, a, b).Some? <==> AllSpace(a) || AllSpace(b) || AllSpace(question)
    ensures AllSpace(a) ==> ValidationError(question, a, b) == Some("response_a não pode ser vazia")
    ensures !AllSpace(a) && AllSpace(b) ==> ValidationError(question, a, b) == Some("response_b não pode ser vazia")
    ensures !AllSpace(a) && !AllSpace(b) && AllSpace(question)
            ==> ValidationError(question, a, b) == Some("input_question não pode ser vazio")
  {
    StripEmptyIffAllSpace(a);
    StripEmptyIffAllSpace(b);
    StripEmptyIffAllSpace(question);
  }

  /** A rejected input never reaches the judge: the outcome is the
      validation error, whatever the judge or the clock would have done, and
      it echoes the inputs. */
  lemma BlankInputRejected(question: string, a: string, b: string, modelA: Option<string>, modelB: Option<string>,
                           timeoutSeconds: int, judge: (string, string, string) -> JudgeCall,
                           timedOut: bool, elapsed: real)
    requires ValidationError(question, a, b).Some?
    ensures var r := Main(question, a, b, modelA, modelB, timeoutSeconds, judge, timedOut, elapsed);
            && r.verdict == Error("Validação falhou")
            && r.reasoning == Text("Erro de validação de entrada: " + ValidationError(question, a, b).value)
            && r.input == question && r.responseA == a && r.responseB == b
            && r.modelA == modelA && r.modelB == modelB && r.executionTime == elapsed
  {
  }

  /** With no blank input the judge decides, given the stripped inputs, unless
      the limit was reached; the original inputs are echoed either way. */
  lemma ValidInputJudged(question: string, a: string, b: string, modelA: Option<string>, modelB: Option<string>,
                         timeoutSeconds: int, judge: (string, string, string) -> JudgeCall,
                         timedOut: bool, elapsed: real)
    requires ValidationError(question, a, b).None?
    ensures var r := Main(question, a, b, modelA, modelB, timeoutSeconds, judge, timedOut, elapsed);
            && r.input == question && r.responseA == a && r.responseB == b && r.executionTime == elapsed
            && (timedOut ==> r.verdict == Timeout(timeoutSeconds) && r.reasoning == TimedOut(elapsed))
            && (!timedOut ==> r.verdict == NodeJudge(judge(Strip(question), Strip(a), Strip(b))).verdict)
  {
  }

  /** A timeout is reported as "TIMEOUT - Excedeu {n}s", which the batch's
      "ERRO" test does not count as an error. */
  lemma TimeoutWire(n: int)
    ensures StartsWith(Timeout(n).Wire(), "TIMEOUT - Excedeu ")
    ensures !StartsWith(Timeout(n).Wire(), "ERRO")
  {
    assert Timeout(n).Wire()[..18] == "TIMEOUT - Excedeu ";
    WireErrorPrefix(Timeout(n));
  }

  /** Surrounding whitespace does not change the verdict: the judge only
      ever sees the stripped inputs. */
  lemma {:induction false} WhitespaceInsensitive(question: string, a: string, b: string, modelA: Option<string>, modelB: Option<string>,
                                                 timeoutSeconds: int, judge: (string, string, string) -> JudgeCall,
                                                 timedOut: bool, elapsed: real)
    ensures Main(Strip(question), Strip(a), Strip(b), modelA, modelB, timeoutSeconds, judge, timedOut, elapsed).verdict
         == Main(question, a, b, modelA, modelB, timeoutSeconds, judge, timedOut, elapsed).verdict
  {
    StrippedInputsAgree(question, a, b);
    SameValidation(Strip(question), Strip(a), Strip(b), question, a, b);
    SameVerdict(Strip(question), Strip(a), Strip(b), question, a, b, modelA, modelB, timeoutSeconds, judge, timedOut, elapsed);
  }

  /** Stripped inputs strip to themselves. */
  lemma StrippedInputsAgree(question: string, a: string, b: string)
    ensures Strip(Strip(question)) == Strip(question)
    ensures Strip(Strip(a)) == Strip(a)
    ensures Strip(Strip(b)) == Strip(b)
  {
    StripIdempotent(question);
    StripIdempotent(a);
    StripIdempotent(b);
  }

  /** The validation looks at the stripped inputs only. */
  lemma SameValidation(q1: string, a1: string, b1: string, q2: string, a2: string, b2: string)
    requires Strip(q1) == Strip(q2) && Strip(a1) == Strip(a2) && Strip(b1) == Strip(b2)
    ensures ValidationError(q1, a1, b1) == ValidationError(q2, a2, b2)
  {
  }

  /** Two inputs that validate alike and strip alike get the same verdict. */
  lemma SameVerdict(q1: string, a1: string, b1: string, q2: string, a2: string, b2: string,
                    modelA: Option<string>, modelB: Option<string>,
                    timeoutSeconds: int, judge: (string, string, string) -> JudgeCall,
                    timedOut: bool, elapsed: real)
    requires ValidationError(q1, a1, b1) == ValidationError(q2, a2, b2)
    requires Strip(q1) == Strip(q2) && Strip(a1) == Strip(a2) && Strip(b1) == Strip(b2)
    ensures Main(q1, a1, b1, modelA, modelB, timeoutSeconds, judge, timedOut, elapsed).verdict
         == Main(q2, a2, b2, modelA, modelB, timeoutSeconds, judge, timedOut, elapsed).verdict
  {
  }
}

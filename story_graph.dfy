/** The story graph: two answer nodes, each building an LLM client for the
    model named in the state and asking it for a story, and a judge node
    that names the better model. The story and judge chains are inputs: the
    story a model writes for a topic, and the value the judge chain returns
    for the two answers and the question. */
module StoryGraph {
  import opened PyValues
  import opened StaticConfig

  /** `BestResponseState` */
  datatype State = State(
    modelA: string, modelB: string, responseA: string, responseB: string,
    betterLlm: string, input: string)

  /** The models a node can build a client for. */
  predicate KnownModel(name: string) {
    name == "claude-4-sonnet" || name == "google-gemini-2.5-pro"
  }

  const ModelNotFound: string := "Model not found, plese select only models from the list: " + LiteralModelsText

  /** The dict an answer node returns: the response, and the model name only
      when a client was built. */
  datatype AnswerUpdate = AnswerUpdate(response: string, model: Option<string>)

  /** `node_llm_a` and `node_llm_b` share this rule: a known model answers
      the input and is written back; any other name gets the not-found
      message and no model key. */
  function NodeLlm(model: string, input: string, story: (string, string) -> string): (u: AnswerUpdate)
    ensures u.model.Some? <==> KnownModel(model)
    ensures u.model.Some? ==> u.model.value == model && u.response == story(model, input)
    ensures u.model.None? ==> u.response == ModelNotFound
  {
    if model == "claude-4-sonnet" || model == "google-gemini-2.5-pro" then
      AnswerUpdate(story(model, input), Some(model))
    else
      AnswerUpdate(ModelNotFound, None)
  }

  /** Merging a node's dict into the state: only the keys it returned change. */
  function ApplyA(s: State, u: AnswerUpdate): State {
    s.(responseA := u.response, modelA := if u.model.Some? then u.model.value else s.modelA)
  }

  function ApplyB(s: State, u: AnswerUpdate): State {
    s.(responseB := u.response, modelB := if u.model.Some? then u.model.value else s.modelB)
  }

  /** `node_llm_a` merged into the state. It never changes which model
      side A names, and touches nothing but response A. */
  function NodeLlmA(s: State, story: (string, string) -> string): (t: State)
    ensures t == s.(responseA := t.responseA)
    ensures t.responseA == (if KnownModel(s.modelA) then story(s.modelA, s.input) else ModelNotFound)
  {
    ApplyA(s, NodeLlm(s.modelA, s.input, story))
  }

  /** `node_llm_b` merged into the state, the mirror image of `NodeLlmA`. */
  function NodeLlmB(s: State, story: (string, string) -> string): (t: State)
    ensures t == s.(responseB := t.responseB)
    ensures t.responseB == (if KnownModel(s.modelB) then story(s.modelB, s.input) else ModelNotFound)
  {
    ApplyB(s, NodeLlm(s.modelB, s.input, story))
  }

  /** The two answer nodes run in the same step: they commute. */
  lemma AnswerNodesCommute(s: State, story: (string, string) -> string)
    ensures NodeLlmB(NodeLlmA(s, story), story) == NodeLlmA(NodeLlmB(s, story), story)
  {
  }

  // ---------------------------------------------------------------------
  // The judge node

  const PreferenceMissing: string := "Error, Preference nao encontrado na resposta do Juiz"

  /** What `node_judge` produces: the `better_llm` value, or the TypeError
      raised by `"Preference" in response` or by indexing a response that is
      not a dict. */
  datatype JudgeUpdate = Better(name: string) | Raises

  /** `node_judge`, given what the judge chain returned. */
  function NodeJudge(s: State, response: Value): (u: JudgeUpdate)
    ensures u.Better? ==> u.name in {s.modelA, s.modelB, "Empate", PreferenceMissing}
  {
    match PyIn("Preference", response)
    case None => Raises
    case Some(found) =>
      if !found then Better(PreferenceMissing)
      else match PyIndex(response, "Preference")
        case None => Raises
        case Some(v) =>
          if EqualsInt(v, 1) then Better(s.modelA)
          else if EqualsInt(v, 2) then Better(s.modelB)
          else Better("Empate")
  }

  /** For a dict, Preference 1 (or True, or 1.0) names model A, 2 names model
      B, any other value is a tie, and a dict without the key gets the error
      text; a dict never raises. */
  lemma JudgeMapsPreference(s: State, entries: seq<(string, Value)>)
    ensures var u := NodeJudge(s, VObject(entries));
            match Lookup(entries, "Preference")
            case None => u == Better(PreferenceMissing)
            case Some(v) =>
              && (EqualsInt(v, 1) ==> u == Better(s.modelA))
              && (EqualsInt(v, 2) ==> u == Better(s.modelB))
              && (!EqualsInt(v, 1) && !EqualsInt(v, 2) ==> u == Better("Empate"))
  {
  }

  /** A string answer raises exactly when it mentions "Preference" (the
      test is a substring test, and indexing a str with a str raises), and
      an answer that is not a dict, str or list always raises. */
  lemma JudgeOutcomes(s: State, response: Value)
    ensures response.VStr? ==> (NodeJudge(s, response).Raises? <==> Contains(response.s, "Preference"))
    ensures !(response.VObject? || response.VStr? || response.VList?) ==> NodeJudge(s, response).Raises?
  {
  }

  // ---------------------------------------------------------------------
  // The graph

  datatype Node = Start | Llm1 | Llm2 | Judge | End

  /** The edges the builder adds. */
  const Edges: seq<(Node, Node)> := [(Start, Llm1), (Start, Llm2), (Llm1, Judge), (Llm2, Judge), (Judge, End)]

  function Successors(n: Node): (ss: set<Node>)
    ensures forall m :: m in ss <==> (n, m) in Edges
  {
    set e | e in Edges && e.0 == n :: e.1
  }

  function Predecessors(n: Node): (ps: set<Node>)
    ensures forall m :: m in ps <==> (m, n) in Edges
  {
    set e | e in Edges && e.1 == n :: e.0
  }

  /** The step at which a node runs. */
  function Step(n: Node): nat {
    match n
    case Start => 0
    case Llm1 => 1
    case Llm2 => 1
    case Judge => 2
    case End => 3
  }

  /** Both answer nodes start from START, the judge waits for both and then
      ends the run, and every edge goes one step forward (so the graph has
      no cycle). */
  lemma GraphShape()
    ensures Successors(Start) == {Llm1, Llm2}
    ensures Predecessors(Judge) == {Llm1, Llm2}
    ensures Successors(Judge) == {End}
    ensures Successors(End) == {} && Predecessors(Start) == {}
    ensures forall i | 0 <= i < |Edges| :: Step(Edges[i].1) == Step(Edges[i].0) + 1
  {
    assert (Start, Llm1) in Edges && (Start, Llm2) in Edges;
    assert (Llm1, Judge) in Edges && (Llm2, Judge) in Edges;
    assert (Judge, End) in Edges;
  }

  /** One run of the graph: both answers, then the judge. */
  function Run(s: State, story: (string, string) -> string, judge: (string, string, string) -> Value)
    : Option<State>
  {
    var answered := NodeLlmB(NodeLlmA(s, story), story);
    match NodeJudge(answered, judge(answered.responseA, answered.responseB, answered.input))
    case Raises => None
    case Better(name) => Some(answered.(betterLlm := name))
  }

  /** When both models are known and the judge prefers A, the run names
      model A; an unknown model is judged on the not-found message. */
  lemma RunNamesWinner(s: State, story: (string, string) -> string, judge: (string, string, string) -> Value)
    requires KnownModel(s.modelA) && KnownModel(s.modelB)
    requires judge(story(s.modelA, s.input), story(s.modelB, s.input), s.input) == VObject([("Preference", VInt(1))])
    ensures Run(s, story, judge) == Some(s.(responseA := story(s.modelA, s.input),
                                            responseB := story(s.modelB, s.input),
                                            betterLlm := s.modelA))
  {
    assert Lookup([("Preference", VInt(1))], "Preference") == Some(VInt(1));
    assert Keys([("Preference", VInt(1))]) == ["Preference"];
  }
}

/** Judge-model qualification: which client a model name is routed to, which
    provider it belongs to, whether a judge reply is a valid structured vote,
    and the two-round contest that keeps, for round 2, only the models that
    voted with the round-1 majority, then merges both rounds per model.

    The judge call itself is an input: for each model either a failure
    (no chain, an exception inside the test, or a critical exception caught
    by the round loop) or a reply together with its elapsed time. JSON
    decoding of a reply's text is an input too (`None` stands for
    `json.JSONDecodeError`). */
module JudgeQualification {
  import opened PyValues

  // ---------------------------------------------------------------------
  // Client routing and provider detection
  // ---------------------------------------------------------------------

  /** The gateway models whose reasoning can be switched off. */
  const ReasoningOptional: set<string> :=
    {"google/gemma-3-27b-it", "google/gemini-2.5-flash", "qwen/qwen3-235b-a22b-2507"}

  const AnthropicModels: set<string> := {"claude-sonnet-4-0", "claude-3-5-haiku-latest"}

  const MistralModels: set<string> :=
    {"mistral-large-latest", "mistral-medium-latest", "mistral-small-latest"}

  /** The client `create_llm_for_model` builds. A gateway client carries the
      `reasoning` options it sends in its request body. */
  datatype Client =
    | Mistral(model: string)
    | Anthropic(model: string)
    | Gateway(model: string, reasoningEnabled: bool, effort: Option<string>)

  /** `create_llm_for_model`: the Mistral list first, then the Anthropic
      list, then the gateway for every other name. */
  function CreateLlmForModel(name: string): (c: Client)
    ensures c.model == name
    ensures c.Gateway? ==> (c.reasoningEnabled <==> c.effort == Some("minimal"))
    ensures c.Gateway? ==> (c.effort.None? <==> name in ReasoningOptional)
  {
    if name in MistralModels then Mistral(name)
    else if name in AnthropicModels then Anthropic(name)
    else
      Gateway(name,
        if name in ReasoningOptional then false else true,
        if name !in ReasoningOptional then Some("minimal") else None)
  }

  /** The routing partitions the names: each name goes to exactly one of
      the three clients, decided by list membership alone. */
  lemma RoutingPartition(name: string)
    ensures CreateLlmForModel(name).Mistral? <==> name in MistralModels
    ensures CreateLlmForModel(name).Anthropic? <==> name in AnthropicModels
    ensures CreateLlmForModel(name).Gateway? <==> name !in MistralModels && name !in AnthropicModels
  {
    assert MistralModels !! AnthropicModels;
  }

  /** The prefixes `get_model_provider` tries, in order, after the fixed
      Claude names. */
  const ProviderPrefixes: seq<(string, string)> := [
    ("google/", "google"), ("openai/", "openai"), ("mistral", "mistral"),
    ("x-ai/", "xai"), ("deepseek/", "deepseek"), ("qwen/", "qwen"),
    ("moonshotai/", "moonshot")]

  /** The first row whose prefix the name starts with, or "unknown". */
  function PrefixProvider(name: string, rows: seq<(string, string)>): (p: string)
    ensures p == "unknown" || exists i :: 0 <= i < |rows| && p == rows[i].1
  {
    if rows == [] then "unknown"
    else if StartsWith(name, rows[0].0) then rows[0].1
    else PrefixProvider(name, rows[1..])
  }

  /** `get_model_provider` */
  function GetModelProvider(name: string): (p: string)
    ensures name in AnthropicModels ==> p == "anthropic"
    ensures p in {"anthropic", "google", "openai", "mistral", "xai", "deepseek", "qwen", "moonshot", "unknown"}
  {
    if name in AnthropicModels then "anthropic" else PrefixProvider(name, ProviderPrefixes)
  }

  /** The if/elif chain: the provider is that of the FIRST matching prefix,
      and "unknown" exactly when no prefix matches. */
  lemma {:induction false} PrefixProviderFirstMatch(name: string, rows: seq<(string, string)>)
    ensures (forall i :: 0 <= i < |rows| ==> !StartsWith(name, rows[i].0)) ==>
      PrefixProvider(name, rows) == "unknown"
    ensures forall i :: (0 <= i < |rows| && StartsWith(name, rows[i].0) &&
                         (forall j :: 0 <= j < i ==> !StartsWith(name, rows[j].0))) ==>
      PrefixProvider(name, rows) == rows[i].1
    decreases |rows|
  {
    if rows != [] {
      PrefixProviderFirstMatch(name, rows[1..]);
      forall i | 0 <= i < |rows| && StartsWith(name, rows[i].0) &&
        (forall j :: 0 <= j < i ==> !StartsWith(name, rows[j].0))
        ensures PrefixProvider(name, rows) == rows[i].1
      {
        if i > 0 {
          assert !StartsWith(name, rows[0].0);
          assert rows[1..][i - 1] == rows[i];
          forall j | 0 <= j < i - 1 ensures !StartsWith(name, rows[1..][j].0) {
            assert rows[1..][j] == rows[j + 1];
          }
        }
      }
      if forall i :: 0 <= i < |rows| ==> !StartsWith(name, rows[i].0) {
        forall j | 0 <= j < |rows| - 1 ensures !StartsWith(name, rows[1..][j].0) {
          assert rows[1..][j] == rows[j + 1];
        }
      }
    }
  }

  /** A string whose character at `k` differs from the prefix's does not
      start with it. */
  lemma DiffersAt(s: string, p: string, k: nat)
    requires k < |p| && (k >= |s| || s[k] != p[k])
    ensures !StartsWith(s, p)
  {
    if |p| <= |s| {
      assert s[..|p|][k] != p[k];
    }
  }

  /** A Mistral-routed name is reported as provider "mistral", an
      Anthropic-routed one as "anthropic", and a gateway model whose
      reasoning is switched off belongs to Google or Qwen. */
  lemma RoutingMatchesProvider(name: string)
    ensures CreateLlmForModel(name).Mistral? ==> GetModelProvider(name) == "mistral"
    ensures CreateLlmForModel(name).Anthropic? ==> GetModelProvider(name) == "anthropic"
    ensures CreateLlmForModel(name).Gateway? && !CreateLlmForModel(name).reasoningEnabled ==>
      GetModelProvider(name) in {"google", "qwen"}
  {
    if name in MistralModels {
      assert StartsWith(name, "mistral");
      assert !StartsWith(name, "google/") && !StartsWith(name, "openai/");
    } else if name in ReasoningOptional && name !in AnthropicModels {
      if name == "qwen/qwen3-235b-a22b-2507" {
        var rows := ProviderPrefixes;
        forall j | 0 <= j < 5 ensures !StartsWith(name, rows[j].0) {
          DiffersAt(name, rows[j].0, 0);
        }
        assert StartsWith(name, "qwen/");
        PrefixProviderFirstMatch(name, rows);
      } else {
        assert StartsWith(name, "google/");
      }
    }
  }

  // ---------------------------------------------------------------------
  // Reply validation (`is_valid_json_response`)
  // ---------------------------------------------------------------------

  /** The reply a judge chain returns: a dict, a message whose `.content`
      is a string, a message whose `.content` is a list of content blocks,
      a plain string, or any other object (standing for its `str()`). */
  datatype Reply =
    | DictReply(entries: seq<(string, Value)>)
    | MessageReply(content: string)
    | BlocksReply(blocks: seq<Value>)
    | TextReply(text: string)
    | OtherReply(repr: string)

  /** Why a reply passed or failed; the message texts are not modelled.
      `Raised` is the outer `except`, reached when `json.loads` is handed a
      list of content blocks and raises TypeError. */
  datatype Check = TooSlow | ValidPreference | InvalidPreference | NotStructured | Raised

  datatype Validation = Validation(valid: bool, check: Check, vote: int)

  /** The slowest reply that still counts, in seconds. */
  const TimeLimit: real := 5.0

  /** `preference in [1, 2, "1", "2"]`: list membership compares with `==`,
      so True and 1.0 count as 1. */
  predicate AcceptedPreference(p: Value) {
    EqualsInt(p, 1) || EqualsInt(p, 2) || p == VStr("1") || p == VStr("2")
  }

  /** `int(preference)` for an accepted preference, 0 otherwise. */
  function PreferenceVote(p: Value): int {
    if EqualsInt(p, 1) || p == VStr("1") then 1
    else if EqualsInt(p, 2) || p == VStr("2") then 2
    else 0
  }

  /** The check applied to a dict holding "Preference". */
  function PreferenceCheck(entries: seq<(string, Value)>): Validation {
    var p := Get(entries, "Preference");
    if AcceptedPreference(p) then Validation(true, ValidPreference, PreferenceVote(p))
    else Validation(false, InvalidPreference, 0)
  }

  /** The check applied to the outcome of `json.loads` on a reply's text. */
  function DecodedCheck(decoded: Option<Value>): Validation {
    match decoded
    case Some(VObject(es)) =>
      if "Preference" in Keys(es) then PreferenceCheck(es) else Validation(false, NotStructured, 0)
    case _ => Validation(false, NotStructured, 0)
  }

  /** The text `json.loads` is given for a reply that is not a dict with
      "Preference". */
  function ReplyText(r: Reply): string
    requires !r.DictReply? && !r.BlocksReply?
  {
    match r
    case MessageReply(c) => c
    case TextReply(t) => t
    case OtherReply(s) => s
  }

  /** `is_valid_json_response`. A dict without "Preference" is rejected
      directly: `str()` of such a dict never decodes to a dict holding that
      key, because Python writes the key with single quotes. */
  function IsValidJsonResponse(reply: Reply, elapsed: real, decode: string -> Option<Value>): (v: Validation)
    ensures v.valid <==> v.check == ValidPreference
    ensures v.valid ==> v.vote == 1 || v.vote == 2
    ensures !v.valid ==> v.vote == 0
    ensures elapsed > TimeLimit ==> v == Validation(false, TooSlow, 0)
  {
    if elapsed > TimeLimit then Validation(false, TooSlow, 0)
    else if reply.DictReply? then
      if "Preference" in Keys(reply.entries) then PreferenceCheck(reply.entries)
      else Validation(false, NotStructured, 0)
    else if reply.BlocksReply? then Validation(false, Raised, 0)
    else DecodedCheck(decode(ReplyText(reply)))
  }

  /** A timely dict reply with "Preference" is valid exactly when the
      preference is one of 1, 2, "1", "2", and its vote is then the
      integer the preference stands for. */
  lemma DictReplyVerdict(entries: seq<(string, Value)>, elapsed: real, decode: string -> Option<Value>)
    requires elapsed <= TimeLimit
    requires "Preference" in Keys(entries)
    ensures var v := IsValidJsonResponse(DictReply(entries), elapsed, decode);
      var p := Get(entries, "Preference");
      (v.valid <==> AcceptedPreference(p)) &&
      (v.valid ==> EqualsInt(p, v.vote) || p == VStr(NatToString(v.vote))) &&
      (!v.valid ==> v.check == InvalidPreference)
  {
    assert NatToString(1) == "1";
    assert NatToString(2) == "2";
  }

  /** A text reply is judged as the dict it decodes to, and a text that does
      not decode to a dict is never valid. */
  lemma TextReplyAsDecoded(reply: Reply, elapsed: real, decode: string -> Option<Value>)
    requires !reply.DictReply? && !reply.BlocksReply?
    requires elapsed <= TimeLimit
    ensures forall es :: decode(ReplyText(reply)) == Some(VObject(es)) ==>
      IsValidJsonResponse(reply, elapsed, decode) ==
      IsValidJsonResponse(DictReply(es), elapsed, decode)
    ensures !(decode(ReplyText(reply)).Some? && decode(ReplyText(reply)).value.VObject?) ==>
      IsValidJsonResponse(reply, elapsed, decode) == Validation(false, NotStructured, 0)
  {
  }

  /** A timely message whose content is a list of blocks is rejected by the
      outer `except`, whatever the blocks hold: `json.loads` raises on a
      list before looking at it. */
  lemma BlockContentRejected(blocks: seq<Value>, elapsed: real, decode: string -> Option<Value>)
    requires elapsed <= TimeLimit
    ensures IsValidJsonResponse(BlocksReply(blocks), elapsed, decode) == Validation(false, Raised, 0)
  {
  }

  // ---------------------------------------------------------------------
  // Single-model test and the round loop
  // ---------------------------------------------------------------------

  datatype Side = A | B

  /** `vote_for`: "A" for vote 1, "B" for vote 2, otherwise None. */
  function VoteFor(vote: int): Option<Side> {
    if vote == 1 then Some(A) else if vote == 2 then Some(B) else None
  }

  /** The fields of a round result the contest reads (times, previews and
      messages are not modelled). */
  datatype RoundResult = RoundResult(model: string, success: bool, preference: int, voteFor: Option<Side>)

  /** What calling the judge for one model produced. */
  datatype Attempt = Failed | Replied(reply: Reply, elapsed: real)

  /** `test_single_model`, together with the round loop's critical-error
      record: a failure leaves success False, preference 0 and no vote. */
  function TestSingleModel(model: string, attempt: Attempt, decode: string -> Option<Value>): (r: RoundResult)
    ensures r.model == model
    ensures r.voteFor == VoteFor(r.preference)
    ensures r.success ==> r.voteFor.Some?
    ensures !r.success ==> r.preference == 0 && r.voteFor.None?
    ensures attempt.Failed? ==> !r.success
    ensures attempt.Replied? ==>
      var v := IsValidJsonResponse(attempt.reply, attempt.elapsed, decode);
      r.success == v.valid && r.preference == v.vote
  {
    match attempt
    case Failed => RoundResult(model, false, 0, None)
    case Replied(reply, elapsed) =>
      var v := IsValidJsonResponse(reply, elapsed, decode);
      RoundResult(model, v.valid, v.vote, VoteFor(v.vote))
  }

  /** The results a round produces for the given models, in order. */
  function Round(models: seq<string>, attempt: string -> Attempt, decode: string -> Option<Value>): seq<RoundResult> {
    seq(|models|, i requires 0 <= i < |models| => TestSingleModel(models[i], attempt(models[i]), decode))
  }

  /** The round loop of `test_two_rounds`: one result per model, appended in
      order. */
  method RunRound(models: seq<string>, attempt: string -> Attempt, decode: string -> Option<Value>)
    returns (results: seq<RoundResult>)
    ensures |results| == |models|
    ensures forall i :: 0 <= i < |models| ==>
      results[i] == TestSingleModel(models[i], attempt(models[i]), decode)
  {
    results := [];
    for k := 0 to |models|
      invariant |results| == k
      invariant forall i :: 0 <= i < k ==>
        results[i] == TestSingleModel(models[i], attempt(models[i]), decode)
    {
      results := results + [TestSingleModel(models[k], attempt(models[k]), decode)];
    }
  }

  // ---------------------------------------------------------------------
  // Round-1 majority
  // ---------------------------------------------------------------------

  /** `[r for r in results if r["success"]]` */
  function Successful(rs: seq<RoundResult>): (out: seq<RoundResult>)
    ensures |out| <= |rs|
    ensures forall r :: r in out <==> r in rs && r.success
  {
    if rs == [] then []
    else
      var last := rs[|rs| - 1];
      Successful(rs[..|rs| - 1]) + (if last.success then [last] else [])
  }

  /** `[r for r in results if r["vote_for"] == side]` */
  function VotesFor(rs: seq<RoundResult>, side: Side): (out: seq<RoundResult>)
    ensures |out| <= |rs|
    ensures forall r :: r in out <==> r in rs && r.voteFor == Some(side)
  {
    if rs == [] then []
    else
      var last := rs[|rs| - 1];
      VotesFor(rs[..|rs| - 1], side) + (if last.voteFor == Some(side) then [last] else [])
  }

  /** `[r["model"] for r in rs]` */
  function ModelsOf(rs: seq<RoundResult>): (ms: seq<string>)
    ensures |ms| == |rs|
    ensures forall i :: 0 <= i < |rs| ==> ms[i] == rs[i].model
  {
    seq(|rs|, i requires 0 <= i < |rs| => rs[i].model)
  }

  /** The models approved for round 2: the voters of the side with more
      votes among the successful results, or every successful model on a
      tie. */
  function Approved(rs: seq<RoundResult>): (approved: seq<string>)
    ensures |approved| <= |Successful(rs)|
  {
    var successful := Successful(rs);
    var votesA := VotesFor(successful, A);
    var votesB := VotesFor(successful, B);
    if |votesA| > |votesB| then ModelsOf(votesA)
    else if |votesB| > |votesA| then ModelsOf(votesB)
    else ModelsOf(successful)
  }

  lemma ModelsOfMembership(rs: seq<RoundResult>, m: string)
    ensures m in ModelsOf(rs) <==> exists r :: r in rs && r.model == m
  {
    if m in ModelsOf(rs) {
      var i :| 0 <= i < |rs| && ModelsOf(rs)[i] == m;
      assert rs[i] in rs;
    }
    if exists r :: r in rs && r.model == m {
      var r :| r in rs && r.model == m;
      var i :| 0 <= i < |rs| && rs[i] == r;
      assert ModelsOf(rs)[i] == m;
    }
  }

  /** The majority rule of round 1: more A votes approves exactly the
      models that voted A, more B votes exactly those that voted B, and a
      tie every model that succeeded. */
  lemma MajorityApproval(rs: seq<RoundResult>, m: string)
    ensures var a := |VotesFor(Successful(rs), A)|; var b := |VotesFor(Successful(rs), B)|;
      (a > b ==> (m in Approved(rs) <==> exists r :: r in rs && r.success && r.voteFor == Some(A) && r.model == m)) &&
      (b > a ==> (m in Approved(rs) <==> exists r :: r in rs && r.success && r.voteFor == Some(B) && r.model == m)) &&
      (a == b ==> (m in Approved(rs) <==> exists r :: r in rs && r.success && r.model == m))
  {
    var successful := Successful(rs);
    var votesA := VotesFor(successful, A);
    var votesB := VotesFor(successful, B);
    ModelsOfMembership(votesA, m);
    ModelsOfMembership(votesB, m);
    ModelsOfMembership(successful, m);
  }

  /** No model is approved when none succeeded, and some model is approved
      as soon as one did: the two early exits of `test_two_rounds` fire
      together. */
  lemma ApprovedEmptyIffNoneSucceeded(rs: seq<RoundResult>)
    ensures Approved(rs) == [] <==> Successful(rs) == []
  {
    var successful := Successful(rs);
    if successful == [] {
      assert VotesFor(successful, A) == [] && VotesFor(successful, B) == [];
    }
  }

  /** With distinct model names, an approved model succeeded in round 1
      and, under a strict majority, voted with it: a model that voted for
      the minority side is eliminated. */
  lemma ApprovedVotedWithMajority(rs: seq<RoundResult>, i: nat)
    requires i < |rs|
    requires forall j, k :: 0 <= j < k < |rs| ==> rs[j].model != rs[k].model
    requires rs[i].model in Approved(rs)
    ensures rs[i].success
    ensures var a := |VotesFor(Successful(rs), A)|; var b := |VotesFor(Successful(rs), B)|;
      (a > b ==> rs[i].voteFor == Some(A)) && (b > a ==> rs[i].voteFor == Some(B))
  {
    var m := rs[i].model;
    MajorityApproval(rs, m);
    var a := |VotesFor(Successful(rs), A)|;
    var b := |VotesFor(Successful(rs), B)|;
    var r: RoundResult;
    if a > b {
      r :| r in rs && r.success && r.voteFor == Some(A) && r.model == m;
    } else if b > a {
      r :| r in rs && r.success && r.voteFor == Some(B) && r.model == m;
    } else {
      r :| r in rs && r.success && r.model == m;
    }
    var j :| 0 <= j < |rs| && rs[j] == r;
    assert j == i;
  }

  // ---------------------------------------------------------------------
  // Consolidation
  // ---------------------------------------------------------------------

  /** `check_vote_consistency`: both rounds succeeded with the same vote. */
  function CheckVoteConsistency(r1: RoundResult, r2: Option<RoundResult>): (b: bool)
    ensures b <==> r2.Some? && r1.success && r2.value.success && r1.voteFor == r2.value.voteFor
  {
    if r2.None? || !r1.success || !r2.value.success then false
    else r1.voteFor == r2.value.voteFor
  }

  /** `determine_overall_vote`: a disagreement is settled by round 2, the
      harder round. */
  function DetermineOverallVote(r1: RoundResult, r2: Option<RoundResult>): (v: Option<Side>)
    ensures !r1.success ==> v.None?
    ensures r1.success && (r2.None? || !r2.value.success) ==> v == r1.voteFor
    ensures r1.success && r2.Some? && r2.value.success ==> v == r2.value.voteFor
  {
    if !r1.success then None
    else if r2.None? || !r2.value.success then r1.voteFor
    else if r1.voteFor == r2.value.voteFor then r1.voteFor
    else r2.value.voteFor
  }

  /** A consistent model's overall vote is the vote it gave in both rounds. */
  lemma ConsistentVoteIsOverall(r1: RoundResult, r2: Option<RoundResult>)
    ensures CheckVoteConsistency(r1, r2) ==>
      DetermineOverallVote(r1, r2) == r1.voteFor == r2.value.voteFor
  {
  }

  /** One consolidated record (the average time and the message are not
      modelled). */
  datatype Consolidated = Consolidated(
    model: string, round1: RoundResult, round2: Option<RoundResult>,
    finalSuccess: bool, voteConsistency: bool, overallVote: Option<Side>,
    preference: int)

  function Consolidate(r1: RoundResult, r2: Option<RoundResult>): (c: Consolidated)
    ensures c.model == r1.model && c.round1 == r1 && c.round2 == r2
    ensures c.finalSuccess <==> r1.success && r2.Some? && r2.value.success
    ensures c.finalSuccess ==> c.overallVote == r2.value.voteFor
    ensures c.preference == r1.preference
    ensures c.voteConsistency == CheckVoteConsistency(r1, r2)
    ensures c.overallVote == DetermineOverallVote(r1, r2)
  {
    Consolidated(r1.model, r1, r2,
      r1.success && (if r2.Some? then r2.value.success else false),
      CheckVoteConsistency(r1, r2), DetermineOverallVote(r1, r2), r1.preference)
  }

  /** `{r["model"]: r for r in round2_results}`: a later result for the same
      model overwrites an earlier one. */
  function Round2Dict(rs: seq<RoundResult>): map<string, RoundResult> {
    if rs == [] then map[]
    else Round2Dict(rs[..|rs| - 1])[rs[|rs| - 1].model := rs[|rs| - 1]]
  }

  /** `round2_dict.get(model_name)` */
  function Round2Of(dict: map<string, RoundResult>, model: string): Option<RoundResult> {
    if model in dict then Some(dict[model]) else None
  }

  /** The dict holds a model exactly when some round-2 result names it, and
      then it holds the LAST such result. */
  lemma {:induction false} Round2DictLastWins(rs: seq<RoundResult>, m: string)
    ensures m in Round2Dict(rs) <==> exists i :: 0 <= i < |rs| && rs[i].model == m
    ensures m in Round2Dict(rs) ==> exists i :: (0 <= i < |rs| && Round2Dict(rs)[m] == rs[i] &&
                                                 rs[i].model == m && forall j :: i < j < |rs| ==> rs[j].model != m)
  {
    if rs != [] {
      var front := rs[..|rs| - 1];
      Round2DictLastWins(front, m);
      if exists i :: 0 <= i < |front| && front[i].model == m {
        var i :| 0 <= i < |front| && front[i].model == m;
        assert rs[i] == front[i];
      }
      if exists i :: 0 <= i < |rs| && rs[i].model == m {
        var i :| 0 <= i < |rs| && rs[i].model == m;
        if i < |rs| - 1 { assert front[i] == rs[i]; }
      }
      if m in Round2Dict(front) && rs[|rs| - 1].model != m {
        var i :| 0 <= i < |front| && Round2Dict(front)[m] == front[i] &&
          front[i].model == m && forall j :: i < j < |front| ==> front[j].model != m;
        assert rs[i] == front[i];
        forall j | i < j < |rs| ensures rs[j].model != m {
          if j < |rs| - 1 { assert rs[j] == front[j]; }
        }
      }
    }
  }

  /** The consolidated records for both rounds' results. */
  function ConsolidateSpec(r1s: seq<RoundResult>, r2s: seq<RoundResult>): seq<Consolidated> {
    seq(|r1s|, i requires 0 <= i < |r1s| => Consolidate(r1s[i], Round2Of(Round2Dict(r2s), r1s[i].model)))
  }

  /** `consolidate_results`: builds the round-2 dict, then one record per
      round-1 result, in order. */
  method ConsolidateResults(r1s: seq<RoundResult>, r2s: seq<RoundResult>) returns (out: seq<Consolidated>)
    ensures out == ConsolidateSpec(r1s, r2s)
  {
    var dict: map<string, RoundResult> := map[];
    for k := 0 to |r2s|
      invariant dict == Round2Dict(r2s[..k])
    {
      assert r2s[..k + 1][..k] == r2s[..k];
      dict := dict[r2s[k].model := r2s[k]];
    }
    assert r2s[..|r2s|] == r2s;
    out := [];
    for k := 0 to |r1s|
      invariant |out| == k
      invariant forall i :: 0 <= i < k ==> out[i] == Consolidate(r1s[i], Round2Of(dict, r1s[i].model))
    {
      out := out + [Consolidate(r1s[k], Round2Of(dict, r1s[k].model))];
    }
  }

  // ---------------------------------------------------------------------
  // The two-round contest
  // ---------------------------------------------------------------------

  /** What `test_two_rounds` returns for the given models and judge
      outcomes. */
  function TwoRoundsSpec(models: seq<string>, attempt1: string -> Attempt, attempt2: string -> Attempt,
                         decode: string -> Option<Value>): seq<Consolidated>
  {
    var r1 := Round(models, attempt1, decode);
    var approved := Approved(r1);
    ConsolidateSpec(r1, if approved == [] then [] else Round(approved, attempt2, decode))
  }

  /** `test_two_rounds`: round 1 over every model, the majority rule, round 2
      over the approved models only, and the consolidation. */
  method TwoRounds(models: seq<string>, attempt1: string -> Attempt, attempt2: string -> Attempt,
                   decode: string -> Option<Value>) returns (out: seq<Consolidated>)
    ensures out == TwoRoundsSpec(models, attempt1, attempt2, decode)
  {
    var r1 := RunRound(models, attempt1, decode);
    assert r1 == Round(models, attempt1, decode);
    ApprovedEmptyIffNoneSucceeded(r1);
    if Successful(r1) == [] {
      out := ConsolidateResults(r1, []);
      return;
    }
    var approved := Approved(r1);
    if approved == [] {
      out := ConsolidateResults(r1, []);
      return;
    }
    var r2 := RunRound(approved, attempt2, decode);
    assert r2 == Round(approved, attempt2, decode);
    out := ConsolidateResults(r1, r2);
  }

  /** Looking a model up among a round's results gives that model's own
      result, whichever duplicate the dict kept. */
  lemma RoundLookup(models: seq<string>, attempt: string -> Attempt, decode: string -> Option<Value>, m: string)
    ensures var d := Round2Dict(Round(models, attempt, decode));
      (m in d <==> m in models) &&
      (m in d ==> d[m] == TestSingleModel(m, attempt(m), decode))
  {
    var rs := Round(models, attempt, decode);
    Round2DictLastWins(rs, m);
    if m in models {
      var i :| 0 <= i < |models| && models[i] == m;
      assert rs[i].model == m;
    }
  }

  /** Every model gets one record, in order. A model has a round-2 result
      exactly when round 1 approved it, and that result is its own round-2
      test; it is a finalist exactly when it succeeded in round 1, was
      approved, and succeeded in round 2. */
  lemma TwoRoundsOutcome(models: seq<string>, attempt1: string -> Attempt, attempt2: string -> Attempt,
                         decode: string -> Option<Value>, i: nat)
    requires i < |models|
    ensures var out := TwoRoundsSpec(models, attempt1, attempt2, decode);
      var r1 := Round(models, attempt1, decode);
      var m := models[i];
      |out| == |models| && out[i].model == m && out[i].round1 == r1[i] &&
      (out[i].round2.Some? <==> m in Approved(r1)) &&
      (out[i].round2.Some? ==> out[i].round2.value == TestSingleModel(m, attempt2(m), decode)) &&
      (out[i].finalSuccess <==>
         (r1[i].success && m in Approved(r1) && TestSingleModel(m, attempt2(m), decode).success))
  {
    var r1 := Round(models, attempt1, decode);
    var approved := Approved(r1);
    var m := models[i];
    if approved != [] {
      RoundLookup(approved, attempt2, decode, m);
    }
  }

  /** With distinct model names and a strict round-1 majority, every
      finalist voted with that majority in round 1. */
  lemma FinalistsVotedWithMajority(models: seq<string>, attempt1: string -> Attempt, attempt2: string -> Attempt,
                                   decode: string -> Option<Value>, i: nat)
    requires i < |models|
    requires forall j, k :: 0 <= j < k < |models| ==> models[j] != models[k]
    requires TwoRoundsSpec(models, attempt1, attempt2, decode)[i].finalSuccess
    ensures var r1 := Round(models, attempt1, decode);
      var a := |VotesFor(Successful(r1), A)|; var b := |VotesFor(Successful(r1), B)|;
      (a > b ==> r1[i].voteFor == Some(A)) && (b > a ==> r1[i].voteFor == Some(B))
  {
    var r1 := Round(models, attempt1, decode);
    TwoRoundsOutcome(models, attempt1, attempt2, decode, i);
    forall j, k | 0 <= j < k < |r1| ensures r1[j].model != r1[k].model {
      assert r1[j].model == models[j] && r1[k].model == models[k];
    }
    ApprovedVotedWithMajority(r1, i);
  }
}

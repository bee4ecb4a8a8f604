/** The judge-response parser of the comparison workflow: it turns whatever
    the judge chain produced into exactly one verdict, "A", "B", "Empate" or
    an "ERRO - ..." message, by a layered strategy (structured Preference
    field, ordered text patterns, mention counting, recovery of the text
    embedded in an "Invalid json output:" error). */
module JudgeResponse {
  import opened PyValues

  /** The verdict carried in `better_response`. */
  datatype Verdict =
    | PreferA
    | PreferB
    | Tie
    | Error(detail: string)
    | Timeout(seconds: int)
  {
    /** The string the source stores in `better_response`. */
    function Wire(): string {
      match this
      case PreferA => "A"
      case PreferB => "B"
      case Tie => "Empate"
      case Error(d) => "ERRO - " + d
      case Timeout(n) => "TIMEOUT - Excedeu " + IntToString(n) + "s"
    }

    /** A judge decision, as opposed to an error or a timeout. */
    predicate IsDecision() {
      PreferA? || PreferB? || Tie?
    }
  }

  /** The wire form starts with "ERRO" exactly for the error verdicts, which
      is the test the batch uses to count successes. */
  lemma WireErrorPrefix(v: Verdict)
    ensures StartsWith(v.Wire(), "ERRO") <==> v.Error?
  {
    match v
    case PreferA =>
    case PreferB =>
    case Tie => assert v.Wire()[1] == 'm';
    case Error(d) => assert v.Wire()[..4] == "ERRO";
    case Timeout(n) => assert v.Wire()[0] == 'T';
  }

  /** The Python class hierarchy the handlers distinguish. */
  datatype ErrorClass = ValueErrorClass | KeyErrorClass | OtherErrorClass

  /** A raised exception: its handler class, `type(e).__name__`, the `str()`
      of each of `e.args`, and `str(e)`. */
  datatype PyException = PyException(cls: ErrorClass, typeName: string, args: seq<string>, text: string)

  /** What the judge chain handed to the parser: a JSON value (the output
      parser's result), some other object (a raw message, for one), or an
      exception raised while the parser inspected the response. */
  datatype JudgeOutput =
    | Json(v: Value)
    | Opaque
    | Raising(e: PyException)

  /** The `judge_reasoning` that accompanies a verdict. */
  datatype Reasoning =
    | Field(v: Value)                       // the judge's Reasoning/reasoning field (VNull for None)
    | Text(s: string)                       // an excerpt of the judge's text, or a fixed diagnostic
    | UnexpectedResponse(r: JudgeOutput)    // "O judge retornou uma resposta inesperada: " + str(r)
    | TimedOut(elapsed: real)               // "A comparação foi interrompida por timeout após {elapsed:.2f}s"
    | RecordRejected(v: Value)              // "Erro durante processamento da comparação: ValidationError - "
                                            // + the validation message for the rejected reasoning v

  datatype ParseResult = ParseResult(verdict: Verdict, reasoning: Reasoning)

  // ---------------------------------------------------------------------
  // Structured answers

  /** The verdict for a Preference value: 1 is A, 2 is B, anything else a tie. */
  function PreferenceVerdict(pref: Value): Verdict {
    if EqualsInt(pref, 1) then PreferA
    else if EqualsInt(pref, 2) then PreferB
    else Tie
  }

  /** `_extract_preference_from_json`: a structured answer maps Preference
      1 to A, 2 to B and every other value to a tie; its reasoning is the
      "Reasoning" field when that is truthy and the "reasoning" field (or
      None) otherwise. */
  function ExtractFromJson(fields: seq<(string, Value)>): (r: ParseResult)
    requires "Preference" in Keys(fields)
    ensures r.verdict.IsDecision()
    ensures var pref := Lookup(fields, "Preference").value;
            && (r.verdict == PreferA <==> EqualsInt(pref, 1))
            && (r.verdict == PreferB <==> EqualsInt(pref, 2))
            && (r.verdict == Tie <==> !EqualsInt(pref, 1) && !EqualsInt(pref, 2))
    ensures Truthy(Get(fields, "Reasoning")) ==> r.reasoning == Field(Get(fields, "Reasoning"))
    ensures !Truthy(Get(fields, "Reasoning")) ==> r.reasoning == Field(Get(fields, "reasoning"))
  {
    var verdict := PreferenceVerdict(Lookup(fields, "Preference").value);
    var first := Get(fields, "Reasoning");
    ParseResult(verdict, Field(if Truthy(first) then first else Get(fields, "reasoning")))
  }

  // ---------------------------------------------------------------------
  // Text patterns: the five regular expressions, as token sequences

  /** One element of a verdict pattern. */
  datatype Token =
    | Lit(w: string)              // these characters
    | AnyOf(ws: seq<string>)      // one of these literals, `(empate|tie)`
    | Space                       // `\s`
    | Spaces                      // `\s*`
    | Boundary                    // `\b`

  type Pattern = seq<Token>

  /** `\b` holds at index `i` of `t`. */
  predicate AtBoundary(t: string, i: nat)
    requires i <= |t|
  {
    (i > 0 && IsWordChar(t[i - 1])) != (i < |t| && IsWordChar(t[i]))
  }

  /** The pattern `p` matches a substring of `t` that starts at index `i`. */
  predicate MatchFrom(p: Pattern, t: string, i: nat)
    requires i <= |t|
    decreases |p|, |t| - i
  {
    if p == [] then true
    else match p[0]
      case Lit(w) => OccursAt(t, w, i) && MatchFrom(p[1..], t, i + |w|)
      case AnyOf(ws) => exists w | w in ws :: OccursAt(t, w, i) && MatchFrom(p[1..], t, i + |w|)
      case Space => i < |t| && IsSpace(t[i]) && MatchFrom(p[1..], t, i + 1)
      case Spaces => MatchFrom(p[1..], t, i) || (i < |t| && IsSpace(t[i]) && MatchFrom(p, t, i + 1))
      case Boundary => AtBoundary(t, i) && MatchFrom(p[1..], t, i)
  }

  /** `re.search(p, t)` from index `i` onward. */
  predicate SearchFrom(p: Pattern, t: string, i: nat)
    requires i <= |t|
    decreases |t| - i
  {
    MatchFrom(p, t, i) || (i < |t| && SearchFrom(p, t, i + 1))
  }

  predicate Search(p: Pattern, t: string) {
    SearchFrom(p, t, 0)
  }

  /** The scan finds a match exactly when some start index at or after `i`
      has one. */
  lemma {:induction false} SearchFromFindsAnyMatch(p: Pattern, t: string, i: nat)
    requires i <= |t|
    ensures SearchFrom(p, t, i) <==> exists j: nat | i <= j <= |t| :: MatchFrom(p, t, j)
    decreases |t| - i
  {
    if i < |t| {
      SearchFromFindsAnyMatch(p, t, i + 1);
      if SearchFrom(p, t, i) {
        if MatchFrom(p, t, i) {
          assert i <= i <= |t| && MatchFrom(p, t, i);
        } else {
          var j: nat :| i + 1 <= j <= |t| && MatchFrom(p, t, j);
          assert i <= j <= |t| && MatchFrom(p, t, j);
        }
      }
      if !MatchFrom(p, t, i) && exists j: nat | i <= j <= |t| :: MatchFrom(p, t, j) {
        var j: nat :| i <= j <= |t| && MatchFrom(p, t, j);
        assert i + 1 <= j <= |t| && MatchFrom(p, t, j);
      }
    } else {
      if MatchFrom(p, t, i) {
        assert i <= i <= |t| && MatchFrom(p, t, i);
      }
      if exists j: nat | i <= j <= |t| :: MatchFrom(p, t, j) {
        var j: nat :| i <= j <= |t| && MatchFrom(p, t, j);
        assert j == i;
      }
    }
  }

  /** `\s+` */
  const OneOrMoreSpaces: Pattern := [Space, Spaces]

  /** `\bwinner:\s*assistant\s+X\b` */
  function WinnerPattern(side: string): Pattern {
    [Boundary, Lit("winner:"), Spaces, Lit("assistant")] + OneOrMoreSpaces + [Lit(side), Boundary]
  }

  /** `\bassistant\s+X\s+is\s+better\b` */
  function BetterPattern(side: string): Pattern {
    [Boundary, Lit("assistant")] + OneOrMoreSpaces + [Lit(side)] + OneOrMoreSpaces
      + [Lit("is")] + OneOrMoreSpaces + [Lit("better"), Boundary]
  }

  /** `\b(empate|tie)\b` */
  const TiePattern: Pattern := [Boundary, AnyOf(["empate", "tie"]), Boundary]

  /** The patterns in the order they are tried, each with its verdict. */
  const Rules: seq<(Pattern, Verdict)> := [
    (WinnerPattern("a"), PreferA),
    (WinnerPattern("b"), PreferB),
    (BetterPattern("a"), PreferA),
    (BetterPattern("b"), PreferB),
    (TiePattern, Tie)
  ]

  /** The verdict of the first rule whose pattern occurs in `t`. */
  function FirstMatch(rules: seq<(Pattern, Verdict)>, t: string): (r: Option<Verdict>)
    ensures r.Some? <==> exists k | 0 <= k < |rules| :: Search(rules[k].0, t)
    ensures r.Some? ==> exists k | 0 <= k < |rules| :: Search(rules[k].0, t) && r.value == rules[k].1
                          && forall m | 0 <= m < k :: !Search(rules[m].0, t)
  {
    if rules == [] then None
    else if Search(rules[0].0, t) then Some(rules[0].1)
    else
      var r := FirstMatch(rules[1..], t);
      assert forall k | 1 <= k < |rules| :: rules[k] == rules[1..][k - 1];
      if r.Some? then
        var k :| 0 <= k < |rules| - 1 && Search(rules[1..][k].0, t) && r.value == rules[1..][k].1
                 && forall m | 0 <= m < k :: !Search(rules[1..][m].0, t);
        assert Search(rules[k + 1].0, t) && r.value == rules[k + 1].1;
        r
      else r
  }

  const MentionA: string := "assistant a"
  const MentionB: string := "assistant b"

  /** The mention-count fallback: the side named more often wins, equal counts tie. */
  function CountVerdict(lowered: string): Verdict {
    var a := Count(lowered, MentionA);
    var b := Count(lowered, MentionB);
    if a > b then PreferA else if b > a then PreferB else Tie
  }

  /** The reasoning kept for a text answer: the whole text up to 500
      characters, otherwise its first 500 characters and "...". */
  function Excerpt(text: string): (r: string)
    ensures |text| <= 500 ==> r == text
    ensures |text| > 500 ==> |r| == 503 && r[..500] == text[..500] && r[500..] == "..."
  {
    if |text| > 500 then text[..500] + "..." else text
  }

  /** `_extract_preference_from_text` */
  function ExtractFromText(text: string): (r: ParseResult)
    ensures r.verdict.IsDecision()
    ensures r.reasoning == Text(Excerpt(text))
  {
    var lowered := Lower(text);
    var verdict := match FirstMatch(Rules, lowered)
      case Some(v) => v
      case None => CountVerdict(lowered);
    ParseResult(verdict, Text(Excerpt(text)))
  }

  /** The patterns are tried in order on the lower-cased text and the first
      that occurs decides. */
  lemma FirstPatternWins(text: string, k: nat)
    requires k < |Rules|
    requires Search(Rules[k].0, Lower(text))
    requires forall m | 0 <= m < k :: !Search(Rules[m].0, Lower(text))
    ensures ExtractFromText(text).verdict == Rules[k].1
  {
    var r := FirstMatch(Rules, Lower(text));
    var j :| 0 <= j < |Rules| && Search(Rules[j].0, Lower(text)) && r.value == Rules[j].1
             && forall m | 0 <= m < j :: !Search(Rules[m].0, Lower(text));
    assert j == k;
  }

  /** When no pattern occurs, the side mentioned more often wins and equal
      counts, none at all included, give a tie. */
  lemma MentionCountDecides(text: string)
    requires forall k | 0 <= k < |Rules| :: !Search(Rules[k].0, Lower(text))
    ensures var a := Count(Lower(text), MentionA);
            var b := Count(Lower(text), MentionB);
            ExtractFromText(text).verdict == (if a > b then PreferA else if b > a then PreferB else Tie)
  {
  }

  /** In particular, a text without patterns that names only assistant A
      goes to A, and one that names neither side is a tie. */
  lemma OnlyOneSideMentioned(text: string)
    requires forall k | 0 <= k < |Rules| :: !Search(Rules[k].0, Lower(text))
    ensures Contains(Lower(text), MentionA) && !Contains(Lower(text), MentionB) ==> ExtractFromText(text).verdict == PreferA
    ensures !Contains(Lower(text), MentionA) && Contains(Lower(text), MentionB) ==> ExtractFromText(text).verdict == PreferB
    ensures !Contains(Lower(text), MentionA) && !Contains(Lower(text), MentionB) ==> ExtractFromText(text).verdict == Tie
  {
    CountPositiveIffContains(Lower(text), MentionA);
    CountPositiveIffContains(Lower(text), MentionB);
  }

  /** The text verdict ignores letter case. */
  lemma {:induction false} TextVerdictIgnoresCase(text: string)
    ensures ExtractFromText(Lower(text)).verdict == ExtractFromText(text).verdict
  {
    LowerIdempotent(text);
  }

  /** The first pattern, token by token. */
  lemma WinnerPatternTokens(side: string)
    ensures WinnerPattern(side) == [Boundary] + ([Lit("winner:")] + ([Spaces] + ([Lit("assistant")]
              + ([Space] + ([Spaces] + ([Lit(side)] + ([Boundary] + [])))))))
  {
  }

  /** One step of a match for each kind of token. */
  lemma MatchLitStep(w: string, p: Pattern, t: string, i: nat)
    requires OccursAt(t, w, i) && MatchFrom(p, t, i + |w|)
    ensures MatchFrom([Lit(w)] + p, t, i)
  {
    assert ([Lit(w)] + p)[1..] == p;
  }

  lemma MatchSpaceStep(p: Pattern, t: string, i: nat)
    requires i < |t| && IsSpace(t[i]) && MatchFrom(p, t, i + 1)
    ensures MatchFrom([Space] + p, t, i)
  {
    assert ([Space] + p)[1..] == p;
  }

  lemma MatchSkipSpaces(p: Pattern, t: string, i: nat)
    requires i <= |t| && MatchFrom(p, t, i)
    ensures MatchFrom([Spaces] + p, t, i)
  {
    assert ([Spaces] + p)[1..] == p;
  }

  lemma MatchSpacesStep(p: Pattern, t: string, i: nat)
    requires i < |t| && IsSpace(t[i]) && MatchFrom([Spaces] + p, t, i + 1)
    ensures MatchFrom([Spaces] + p, t, i)
  {
  }

  lemma MatchBoundaryStep(p: Pattern, t: string, i: nat)
    requires i <= |t| && AtBoundary(t, i) && MatchFrom(p, t, i)
    ensures MatchFrom([Boundary] + p, t, i)
  {
    assert ([Boundary] + p)[1..] == p;
  }

  /** "winner: assistant a" at index `i`, standing as whole words, is a
      match of the first pattern there. */
  lemma WinnerAMatchesAt(t: string, i: nat)
    requires OccursAt(t, "winner: assistant a", i)
    requires AtBoundary(t, i) && AtBoundary(t, i + 19)
    ensures MatchFrom(WinnerPattern("a"), t, i)
  {
    var w := "winner: assistant a";
    assert w[..7] == "winner:" && w[8..17] == "assistant" && w[18..] == "a";
    OccursWithin(t, w, i, "winner:", 0);
    OccursWithin(t, w, i, "assistant", 8);
    OccursWithin(t, w, i, "a", 18);
    assert IsSpace(t[i + 7]) && IsSpace(t[i + 17]) by {
      assert t[i + 7] == t[i..i + 19][7] == w[7];
      assert t[i + 17] == t[i..i + 19][17] == w[17];
    }
    WinnerMatchesAt(t, i, "a");
  }

  /** The first pattern matches at `i` when its pieces stand there one after
      the other, with one space after "winner:" and one before the side. */
  lemma WinnerMatchesAt(t: string, i: nat, side: string)
    requires OccursAt(t, "winner:", i) && i + 7 < |t| && IsSpace(t[i + 7])
    requires OccursAt(t, "assistant", i + 8) && i + 17 < |t| && IsSpace(t[i + 17])
    requires OccursAt(t, side, i + 18)
    requires AtBoundary(t, i) && AtBoundary(t, i + 18 + |side|)
    ensures MatchFrom(WinnerPattern(side), t, i)
  {
    var p0: Pattern := [];
    MatchBoundaryStep(p0, t, i + 18 + |side|);
    var p1 := [Boundary] + p0;
    MatchLitStep(side, p1, t, i + 18);
    var p2 := [Lit(side)] + p1;
    MatchSkipSpaces(p2, t, i + 18);
    var p3 := [Spaces] + p2;
    MatchSpaceStep(p3, t, i + 17);
    var p4 := [Space] + p3;
    MatchLitStep("assistant", p4, t, i + 8);
    var p5 := [Lit("assistant")] + p4;
    MatchSkipSpaces(p5, t, i + 8);
    MatchSpacesStep(p5, t, i + 7);
    var p6 := [Spaces] + p5;
    MatchLitStep("winner:", p6, t, i);
    var p7 := [Lit("winner:")] + p6;
    MatchBoundaryStep(p7, t, i);
    WinnerPatternTokens(side);
  }

  /** A literal "winner: assistant a" standing as whole words anywhere in the
      lower-cased text makes A the winner, whatever else the text says. */
  lemma WinnerALiteral(text: string, i: nat)
    requires OccursAt(Lower(text), "winner: assistant a", i)
    requires AtBoundary(Lower(text), i) && AtBoundary(Lower(text), i + 19)
    ensures ExtractFromText(text).verdict == PreferA
  {
    var t := Lower(text);
    WinnerAMatchesAt(t, i);
    SearchFromFindsAnyMatch(WinnerPattern("a"), t, 0);
    assert 0 <= i <= |t| && MatchFrom(WinnerPattern("a"), t, i);
    assert Search(WinnerPattern("a"), t);
    assert Rules[0].0 == WinnerPattern("a");
    FirstPatternWins(text, 0);
  }

  // ---------------------------------------------------------------------
  // The parser

  const InvalidJsonMarker: string := "Invalid json output:"

  /** The handler for ValueError and KeyError: re-parse the text after the
      "Invalid json output:" marker of the first argument, if it has one. */
  function RecoverFromError(e: PyException): ParseResult {
    if e.cls != OtherErrorClass then
      if |e.args| > 0 && Contains(e.args[0], InvalidJsonMarker) then
        ExtractFromText(Strip(AfterFirst(e.args[0], InvalidJsonMarker)))
      else ParseResult(Error("Falha no parsing"), Text(e.text))
    else
      ParseResult(Error("Falha no parsing: " + e.typeName),
                  Text("Erro ao processar resposta do judge: " + e.text))
  }

  /** `parse_judge_response`. Every parse ends in a decision or one of the
      parser's own error messages: the judge's raw output is never passed
      through as the verdict, and the parser never reports a timeout. */
  function ParseJudgeResponse(response: JudgeOutput): (r: ParseResult)
    ensures r.verdict.IsDecision() || IsParserError(r.verdict)
  {
    match response
    case Json(VObject(fields)) =>
      if "Preference" in Keys(fields) then ExtractFromJson(fields) else Malformed(response)
    case Json(VStr(text)) =>
      if text != "" then ExtractFromText(text) else Malformed(response)
    case Raising(e) => RecoverFromError(e)
    case _ => Malformed(response)
  }

  function Malformed(response: JudgeOutput): ParseResult {
    ParseResult(Error("Resposta malformada do judge"), UnexpectedResponse(response))
  }

  /** The error details the parser can produce. */
  predicate IsParserError(v: Verdict) {
    v.Error? && (v.detail == "Resposta malformada do judge" || v.detail == "Falha no parsing"
                 || StartsWith(v.detail, "Falha no parsing: "))
  }

  /** Which inputs end in a decision: a dict with Preference, a non-empty
      string, and a ValueError or KeyError whose first argument carries the
      "Invalid json output:" marker; everything else is an error. */
  lemma ParseDecidesExactly(response: JudgeOutput)
    ensures ParseJudgeResponse(response).verdict.IsDecision() <==>
      || (response.Json? && response.v.VObject? && "Preference" in Keys(response.v.entries))
      || (response.Json? && response.v.VStr? && response.v.s != "")
      || (response.Raising? && response.e.cls != OtherErrorClass && |response.e.args| > 0
          && Contains(response.e.args[0], InvalidJsonMarker))
  {
  }

  /** Input that is neither a dict with Preference nor a non-empty string
      (nor an exception) is reported as malformed. */
  lemma MalformedInput(response: JudgeOutput)
    requires !response.Raising?
    requires !(response.Json? && response.v.VObject? && "Preference" in Keys(response.v.entries))
    requires !(response.Json? && response.v.VStr? && response.v.s != "")
    ensures ParseJudgeResponse(response) == ParseResult(Error("Resposta malformada do judge"), UnexpectedResponse(response))
  {
  }

  /** The recovered text is what follows the first marker, stripped: a
      string answer with that text gets the same verdict. */
  lemma RecoveryReparsesEmbeddedText(e: PyException)
    requires e.cls != OtherErrorClass && |e.args| > 0 && Contains(e.args[0], InvalidJsonMarker)
    ensures exists i: nat :: OccursAt(e.args[0], InvalidJsonMarker, i)
              && (forall k: nat | k < i :: !OccursAt(e.args[0], InvalidJsonMarker, k))
              && ParseJudgeResponse(Raising(e)) == ExtractFromText(Strip(e.args[0][i + |InvalidJsonMarker|..]))
  {
    var i := Find(e.args[0], InvalidJsonMarker).value;
    assert OccursAt(e.args[0], InvalidJsonMarker, i);
  }
}

/**
 * The reasoning data model: propositions, syllogisms, reasoning steps and the
 * reasoning chain (the ledger of steps), with the ledger's premise lookup.
 */
module Models {
  import opened Wrappers
  import opened Text

  /**
   * The five quantifiers: A (`All`), E (`No`), I (`Some`), O (`SomeNot`, spelt
   * "Some...not" by the source) and the opaque `Statistical` one.
   */
  datatype Quantifier = All | No | Some | SomeNot | Statistical

  /** E and O propositions deny something of their subject. */
  predicate IsNegative(q: Quantifier)
  {
    q == No || q == SomeNot
  }

  /** A and E propositions speak of the whole subject class. */
  predicate IsUniversal(q: Quantifier)
  {
    q == All || q == No
  }

  /** I and O propositions speak of part of the subject class. */
  predicate IsParticular(q: Quantifier)
  {
    q == Quantifier.Some || q == SomeNot
  }

  /**
   * A quantified subject-predicate statement. `statValue` is the payload of a
   * statistical proposition, a dictionary whose values are kept as the text
   * they render to.
   */
  datatype Proposition = Proposition(
    quantifier: Quantifier,
    subject: string,
    predicateTerm: string,
    isNegated: bool,
    statValue: Option<map<string, string>>)

  /** A proposition built with the default `is_negated` and `stat_value`. */
  function Simple(q: Quantifier, subject: string, predicateTerm: string): Proposition
  {
    Proposition(q, subject, predicateTerm, false, None)
  }

  const MissingStatValueMessage := "Statistical propositions must have a stat_value."

  /**
   * The human-readable text of a proposition; a statistical proposition
   * without a payload (absent or empty) is an error.
   */
  function Render(p: Proposition): (r: Result<string, string>)
    ensures r.Failure? <==> p.quantifier == Statistical && (p.statValue.None? || p.statValue.value == map[])
    ensures r.Failure? ==> r.error == MissingStatValueMessage
    ensures r.Success? ==> |r.value| >= |p.subject| + |p.predicateTerm| + 5
    ensures r.Success? && p.quantifier == SomeNot ==> r.value == "Some " + p.subject + " are not " + p.predicateTerm
    ensures r.Success? && p.quantifier == Statistical && "value" !in p.statValue.value ==>
              r.value == "Most% of " + p.subject + " are " + p.predicateTerm
  {
    match p.quantifier
    case Statistical =>
      if p.statValue.None? || p.statValue.value == map[] then Failure(MissingStatValueMessage)
      else
        var val := if "value" in p.statValue.value then p.statValue.value["value"] else "Most";
        Success(val + "% of " + p.subject + " are " + p.predicateTerm)
    case SomeNot => Success("Some " + p.subject + " are not " + p.predicateTerm)
    case All => Success("All " + p.subject + " are " + p.predicateTerm)
    case No => Success("No " + p.subject + " are " + p.predicateTerm)
    case Some => Success("Some " + p.subject + " are " + p.predicateTerm)
  }

  /**
   * Two non-statistical propositions about the same terms render to the same
   * text only if they have the same quantifier: the text tells A, E, I and O apart.
   */
  lemma RenderDistinguishesQuantifiers(p: Proposition, q: Proposition)
    requires p.quantifier != Statistical && q.quantifier != Statistical
    requires p.subject == q.subject && p.predicateTerm == q.predicateTerm
    requires Render(p) == Render(q)
    ensures p.quantifier == q.quantifier
  {
    var n := |p.subject| + |p.predicateTerm|;
    assert p.quantifier == All ==> |Render(p).value| == n + 9;
    assert p.quantifier == No ==> |Render(p).value| == n + 8;
    assert p.quantifier == Quantifier.Some ==> |Render(p).value| == n + 10;
    assert p.quantifier == SomeNot ==> |Render(p).value| == n + 14;
  }

  /** A piece of retrieved evidence, carried as opaque data. */
  datatype RAGSource = RAGSource(sourceId: string, text: string, url: Option<string>)

  datatype ReasoningType = Deductive | Observation

  /** A major and a minor premise and the conclusion the validator derives. */
  datatype Syllogism = Syllogism(
    majorPremise: Option<Proposition>,
    minorPremise: Option<Proposition>,
    conclusion: Option<Proposition>)

  /** One entry of the ledger; the validator updates its verdict fields in place. */
  class ReasoningStep {
    var stepId: int
    var question: string
    var reasoningType: ReasoningType
    var ragSources: seq<RAGSource>
    var syllogism: Option<Syllogism>
    var mood: Option<string>
    var isValid: bool
    var confidence: real
    var summary: string

    /** A step; every field after the first three may be given and otherwise takes the source's default. */
    constructor (stepId: int, question: string, reasoningType: ReasoningType,
                 ragSources: seq<RAGSource> := [], syllogism: Option<Syllogism> := None,
                 mood: Option<string> := None, isValid: bool := false, confidence: real := 1.0,
                 summary: string := "")
      ensures this.stepId == stepId && this.question == question && this.reasoningType == reasoningType
      ensures this.ragSources == ragSources && this.syllogism == syllogism && this.mood == mood
      ensures this.isValid == isValid && this.confidence == confidence && this.summary == summary
    {
      this.stepId := stepId;
      this.question := question;
      this.reasoningType := reasoningType;
      this.ragSources := ragSources;
      this.syllogism := syllogism;
      this.mood := mood;
      this.isValid := isValid;
      this.confidence := confidence;
      this.summary := summary;
    }

    /** The step is valid and holds a conclusion, so the ledger may reuse it. */
    predicate Proven()
      reads this
    {
      isValid && syllogism.Some? && syllogism.value.conclusion.Some?
    }
  }

  /**
   * What one step yields for a lookup of `query`: its stored conclusion when
   * the conclusion's (non-empty) subject matches, else the converse of an E or
   * I conclusion whose (non-empty) predicate matches, else nothing. Terms
   * match when their `Norm` keys are equal.
   */
  function Contribution(step: ReasoningStep, query: string): (r: Option<Proposition>)
    reads step
    ensures r.Some? ==> step.Proven()
  {
    if !step.Proven() then None
    else
      var c := step.syllogism.value.conclusion.value;
      if c.subject != "" && Norm(c.subject) == Norm(query) then Option.Some(c)
      else if c.predicateTerm != "" && Norm(c.predicateTerm) == Norm(query) && (c.quantifier == No || c.quantifier == Quantifier.Some) then
        Option.Some(Simple(c.quantifier, query, c.subject))
      else None
  }

  /** The newest contribution among `steps[..n]`, scanning from `steps[n - 1]` down. */
  function ProvenPremise(steps: seq<ReasoningStep>, n: nat, query: string): Option<Proposition>
    requires n <= |steps|
    reads steps
  {
    if n == 0 then None
    else if Contribution(steps[n - 1], query).Some? then Contribution(steps[n - 1], query)
    else ProvenPremise(steps, n - 1, query)
  }

  /** The ledger of one query: steps in insertion order. */
  class ReasoningChain {
    var mainQuery: string
    var steps: seq<ReasoningStep>
    var finalConclusionSummary: Option<string>

    /** A ledger; the steps and the final summary may be given and otherwise start empty. */
    constructor (mainQuery: string, steps: seq<ReasoningStep> := [], finalConclusionSummary: Option<string> := None)
      ensures this.mainQuery == mainQuery && this.steps == steps && this.finalConclusionSummary == finalConclusionSummary
    {
      this.mainQuery := mainQuery;
      this.steps := steps;
      this.finalConclusionSummary := finalConclusionSummary;
    }

    /** Appends `step`; the steps already in the ledger stay where they are. */
    method AddStep(step: ReasoningStep)
      modifies this`steps
      ensures steps == old(steps) + [step]
      ensures forall i :: 0 <= i < |old(steps)| ==> steps[i] == old(steps)[i]
    {
      steps := steps + [step];
    }

    /**
     * Looks for an earlier conclusion to reuse as a premise about `subject`,
     * newest step first; `None` for a `None` query. Reads the ledger only.
     */
    method GetProvenPremise(subject: Option<string>) returns (r: Option<Proposition>)
      ensures r == if subject.None? then None else ProvenPremise(steps, |steps|, subject.value)
    {
      if subject.None? {
        return None;
      }
      var query := subject.value;
      var target := Norm(query);
      var i := |steps|;
      while i > 0
        invariant 0 <= i <= |steps|
        invariant ProvenPremise(steps, |steps|, query) == ProvenPremise(steps, i, query)
      {
        var step := steps[i - 1];
        i := i - 1;
        if !(step.isValid && step.syllogism.Some? && step.syllogism.value.conclusion.Some?) {
          continue;
        }
        var concl := step.syllogism.value.conclusion.value;
        if concl.subject != "" && Norm(concl.subject) == target {
          return Option.Some(concl);
        }
        if concl.predicateTerm != "" && Norm(concl.predicateTerm) == target {
          var quant := concl.quantifier;
          if quant == No {
            return Option.Some(Simple(No, query, concl.subject));
          }
          if quant == Quantifier.Some {
            return Option.Some(Simple(Quantifier.Some, query, concl.subject));
          }
          continue;
        }
      }
      return None;
    }
  }

  /** The lookup finds nothing exactly when no step of the ledger contributes. */
  lemma {:induction false} ProvenPremiseNoneIff(steps: seq<ReasoningStep>, n: nat, query: string)
    requires n <= |steps|
    ensures ProvenPremise(steps, n, query).None? <==> forall k :: 0 <= k < n ==> Contribution(steps[k], query).None?
  {
    if n > 0 {
      ProvenPremiseNoneIff(steps, n - 1, query);
      var last := Contribution(steps[n - 1], query);
      if last.None? {
        assert ProvenPremise(steps, n, query) == ProvenPremise(steps, n - 1, query);
        forall k | 0 <= k < n && (forall k' :: 0 <= k' < n - 1 ==> Contribution(steps[k'], query).None?)
          ensures Contribution(steps[k], query).None?
        {
          if k < n - 1 {
            assert Contribution(steps[k], query).None?;
          }
        }
      } else {
        assert ProvenPremise(steps, n, query) == last;
      }
    }
  }

  /** The newest contributing step decides the lookup; older steps cannot override it. */
  lemma {:induction false} ProvenPremiseIsNewestContribution(steps: seq<ReasoningStep>, n: nat, query: string, j: nat)
    requires j < n <= |steps|
    requires Contribution(steps[j], query).Some?
    requires forall k :: j < k < n ==> Contribution(steps[k], query).None?
    ensures ProvenPremise(steps, n, query) == Contribution(steps[j], query)
  {
    if j < n - 1 {
      ProvenPremiseIsNewestContribution(steps, n - 1, query, j);
    }
  }

  /**
   * Whatever the lookup returns comes from a valid step with a conclusion c:
   * either c itself, whose subject matches the query, or a converted
   * proposition: an E or I form with the raw query as subject and c's subject
   * as predicate, whose predicate matches the query and c's quantifier.
   */
  lemma {:induction false} ProvenPremiseSound(steps: seq<ReasoningStep>, n: nat, query: string)
    requires n <= |steps|
    requires ProvenPremise(steps, n, query).Some?
    ensures var p := ProvenPremise(steps, n, query).value;
      exists k :: 0 <= k < n && steps[k].Proven() &&
        var c := steps[k].syllogism.value.conclusion.value;
        (p == c && c.subject != "" && Norm(c.subject) == Norm(query)) ||
        (p == Simple(c.quantifier, query, c.subject) && (p.quantifier == No || p.quantifier == Quantifier.Some) &&
         c.predicateTerm != "" && Norm(c.predicateTerm) == Norm(query))
  {
    if Contribution(steps[n - 1], query).None? {
      ProvenPremiseSound(steps, n - 1, query);
    } else {
      assert steps[n - 1].Proven();
    }
  }

  /**
   * Within one step the subject is checked first: a conclusion whose subject
   * and predicate both match the query is returned as stored, not converted.
   */
  lemma SubjectMatchBeforePredicateMatch(step: ReasoningStep, query: string)
    requires step.Proven()
    requires var c := step.syllogism.value.conclusion.value;
      c.subject != "" && Norm(c.subject) == Norm(query) && c.predicateTerm != "" && Norm(c.predicateTerm) == Norm(query)
    ensures Contribution(step, query) == Option.Some(step.syllogism.value.conclusion.value)
  {
  }

  /**
   * A predicate match on an A, O or statistical conclusion whose subject does
   * not match is skipped: the lookup goes on to the older steps.
   */
  lemma UnconvertibleMatchIsSkipped(steps: seq<ReasoningStep>, n: nat, query: string)
    requires 0 < n <= |steps|
    requires steps[n - 1].Proven()
    requires var c := steps[n - 1].syllogism.value.conclusion.value;
      !(c.subject != "" && Norm(c.subject) == Norm(query)) &&
      c.quantifier in {All, SomeNot, Statistical}
    ensures ProvenPremise(steps, n, query) == ProvenPremise(steps, n - 1, query)
  {
  }
}

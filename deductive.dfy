/**
 * The deductive engine: an ordered table of eighteen categorical-syllogism
 * moods, one rule per mood, and the validator that updates a reasoning step
 * with the first mood whose rule fires.
 *
 * Terms: S is the conclusion's subject, P its predicate and M the middle term,
 * which both premises share and the conclusion drops.
 */
module Deductive {
  import opened Wrappers
  import opened Models

  datatype Mood =
    | Barbara | Celarent | Darii | Ferio
    | Cesare | Camestres | Festino | Baroco
    | Darapti | Felapton | Disamis | Datisi | Bocardo | Ferison
    | Baralipton | Celantes | Dabitis | Fapesmo

  /** The mood table in registration order, which is the order the validator tries the rules in. */
  const MoodTable: seq<Mood> := [
    Barbara, Celarent, Darii, Ferio,
    Cesare, Camestres, Festino, Baroco,
    Darapti, Felapton, Disamis, Datisi, Bocardo, Ferison,
    Baralipton, Celantes, Dabitis, Fapesmo]

  /** The name a validated step records as its mood. */
  function MoodName(m: Mood): string
  {
    match m
    case Barbara => "Barbara"
    case Celarent => "Celarent"
    case Darii => "Darii"
    case Ferio => "Ferio"
    case Cesare => "Cesare"
    case Camestres => "Camestres"
    case Festino => "Festino"
    case Baroco => "Baroco"
    case Darapti => "Darapti"
    case Felapton => "Felapton"
    case Disamis => "Disamis"
    case Datisi => "Datisi"
    case Bocardo => "Bocardo"
    case Ferison => "Ferison"
    case Baralipton => "Baralipton"
    case Celantes => "Celantes"
    case Dabitis => "Dabitis"
    case Fapesmo => "Fapesmo"
  }

  /** The position of a mood in the table. */
  function TableIndex(m: Mood): (i: nat)
    ensures i < |MoodTable| && MoodTable[i] == m
  {
    match m
    case Barbara => 0
    case Celarent => 1
    case Darii => 2
    case Ferio => 3
    case Cesare => 4
    case Camestres => 5
    case Festino => 6
    case Baroco => 7
    case Darapti => 8
    case Felapton => 9
    case Disamis => 10
    case Datisi => 11
    case Bocardo => 12
    case Ferison => 13
    case Baralipton => 14
    case Celantes => 15
    case Dabitis => 16
    case Fapesmo => 17
  }

  /** The table holds every mood exactly once, under pairwise distinct names. */
  lemma MoodTableListsEveryMoodOnce()
    ensures |MoodTable| == 18
    ensures forall m :: m in MoodTable
    ensures forall i, j :: 0 <= i < j < |MoodTable| ==> MoodTable[i] != MoodTable[j]
    ensures forall m, m' :: MoodName(m) == MoodName(m') ==> m == m'
  {
    forall m ensures m in MoodTable {
      assert MoodTable[TableIndex(m)] == m;
    }
  }

  /**
   * The traditional code of a mood: the letters of its major premise, minor
   * premise and conclusion (A, E, I, O) and its figure, which fixes where the
   * middle term stands.
   */
  datatype MoodCode = MoodCode(major: Letter, minor: Letter, conclusion: Letter, figure: Figure)

  /** The four letters of the traditional codes: A (All), E (No), I (Some) and O (Some...not). */
  datatype Letter = A | E | I | O

  /** The four figures. */
  type Figure = f: nat | 1 <= f <= 4 witness 1

  function Code(m: Mood): MoodCode
  {
    match m
    case Barbara => MoodCode(A, A, A, 1)
    case Celarent => MoodCode(E, A, E, 1)
    case Darii => MoodCode(A, I, I, 1)
    case Ferio => MoodCode(E, I, O, 1)
    case Cesare => MoodCode(E, A, E, 2)
    case Camestres => MoodCode(A, E, E, 2)
    case Festino => MoodCode(E, I, O, 2)
    case Baroco => MoodCode(A, O, O, 2)
    case Darapti => MoodCode(A, A, I, 3)
    case Felapton => MoodCode(E, A, O, 3)
    case Disamis => MoodCode(I, A, I, 3)
    case Datisi => MoodCode(A, I, I, 3)
    case Bocardo => MoodCode(O, A, O, 3)
    case Ferison => MoodCode(E, I, O, 3)
    case Baralipton => MoodCode(A, A, I, 4)
    case Celantes => MoodCode(E, A, E, 4)
    case Dabitis => MoodCode(I, A, I, 4)
    // The rule tests a particular affirmative minor premise, so the code is EIO.
    case Fapesmo => MoodCode(E, I, O, 4)
  }

  /** The quantifier a code letter stands for. */
  function QuantifierOf(l: Letter): Quantifier
  {
    match l
    case A => All
    case E => No
    case I => Quantifier.Some
    case O => SomeNot
  }

  /**
   * The middle term is shared as the figure demands: M-P, S-M (figure 1);
   * P-M, S-M (2); M-P, M-S (3); P-M, M-S (4).
   */
  predicate MiddleShared(figure: nat, major: Proposition, minor: Proposition)
  {
    match figure
    case 1 => major.subject == minor.predicateTerm
    case 2 => major.predicateTerm == minor.predicateTerm
    case 3 => major.subject == minor.subject
    case _ => major.predicateTerm == minor.subject
  }

  /** The conclusion's subject S: the minor premise's other term. */
  function ConclusionSubject(figure: nat, minor: Proposition): string
  {
    if figure <= 2 then minor.subject else minor.predicateTerm
  }

  /** The conclusion's predicate P: the major premise's other term. */
  function ConclusionPredicate(figure: nat, major: Proposition): string
  {
    if figure == 1 || figure == 3 then major.predicateTerm else major.subject
  }

  /**
   * A syllogistic form read off its code: it applies when the premises carry
   * the code's first two quantifiers and share the middle term as the figure
   * says, and it concludes "S-P" with the code's third quantifier.
   */
  function FormRule(c: MoodCode, major: Proposition, minor: Proposition): Option<Proposition>
  {
    if major.quantifier == QuantifierOf(c.major) && minor.quantifier == QuantifierOf(c.minor)
       && MiddleShared(c.figure, major, minor)
    then Option.Some(Simple(QuantifierOf(c.conclusion), ConclusionSubject(c.figure, minor), ConclusionPredicate(c.figure, major)))
    else None
  }

  /** Mood `m` as its traditional code describes it. */
  function CodeRule(m: Mood, major: Proposition, minor: Proposition): Option<Proposition>
  {
    FormRule(Code(m), major, minor)
  }

  // --- Figure 1: M-P, S-M ---

  function ValidateBarbara(major: Proposition, minor: Proposition): (r: Option<Proposition>)
    ensures r == CodeRule(Barbara, major, minor)
  {
    if major.quantifier == All && minor.quantifier == All && major.subject == minor.predicateTerm
    then Option.Some(Simple(All, minor.subject, major.predicateTerm))
    else None
  }

  function ValidateCelarent(major: Proposition, minor: Proposition): (r: Option<Proposition>)
    ensures r == CodeRule(Celarent, major, minor)
  {
    if major.quantifier == No && minor.quantifier == All && major.subject == minor.predicateTerm
    then Option.Some(Simple(No, minor.subject, major.predicateTerm))
    else None
  }

  function ValidateDarii(major: Proposition, minor: Proposition): (r: Option<Proposition>)
    ensures r == CodeRule(Darii, major, minor)
  {
    if major.quantifier == All && minor.quantifier == Quantifier.Some && major.subject == minor.predicateTerm
    then Option.Some(Simple(Quantifier.Some, minor.subject, major.predicateTerm))
    else None
  }

  function ValidateFerio(major: Proposition, minor: Proposition): (r: Option<Proposition>)
    ensures r == CodeRule(Ferio, major, minor)
  {
    if major.quantifier == No && minor.quantifier == Quantifier.Some && major.subject == minor.predicateTerm
    then Option.Some(Simple(SomeNot, minor.subject, major.predicateTerm))
    else None
  }

  // --- Figure 2: P-M, S-M ---

  function ValidateCesare(major: Proposition, minor: Proposition): (r: Option<Proposition>)
    ensures r == CodeRule(Cesare, major, minor)
  {
    if major.quantifier == No && minor.quantifier == All && major.predicateTerm == minor.predicateTerm
    then Option.Some(Simple(No, minor.subject, major.subject))
    else None
  }

  function ValidateCamestres(major: Proposition, minor: Proposition): (r: Option<Proposition>)
    ensures r == CodeRule(Camestres, major, minor)
  {
    if major.quantifier == All && minor.quantifier == No && major.predicateTerm == minor.predicateTerm
    then Option.Some(Simple(No, minor.subject, major.subject))
    else None
  }

  function ValidateFestino(major: Proposition, minor: Proposition): (r: Option<Proposition>)
    ensures r == CodeRule(Festino, major, minor)
  {
    if major.quantifier == No && minor.quantifier == Quantifier.Some && major.predicateTerm == minor.predicateTerm
    then Option.Some(Simple(SomeNot, minor.subject, major.subject))
    else None
  }

  function ValidateBaroco(major: Proposition, minor: Proposition): (r: Option<Proposition>)
    ensures r == CodeRule(Baroco, major, minor)
  {
    if major.quantifier == All && minor.quantifier == SomeNot && major.predicateTerm == minor.predicateTerm
    then Option.Some(Simple(SomeNot, minor.subject, major.subject))
    else None
  }

  // --- Figure 3: M-P, M-S ---

  function ValidateDarapti(major: Proposition, minor: Proposition): (r: Option<Proposition>)
    ensures r == CodeRule(Darapti, major, minor)
  {
    if major.quantifier == All && minor.quantifier == All && major.subject == minor.subject
    then Option.Some(Simple(Quantifier.Some, minor.predicateTerm, major.predicateTerm))
    else None
  }

  function ValidateFelapton(major: Proposition, minor: Proposition): (r: Option<Proposition>)
    ensures r == CodeRule(Felapton, major, minor)
  {
    if major.quantifier == No && minor.quantifier == All && major.subject == minor.subject
    then Option.Some(Simple(SomeNot, minor.predicateTerm, major.predicateTerm))
    else None
  }

  function ValidateDisamis(major: Proposition, minor: Proposition): (r: Option<Proposition>)
    ensures r == CodeRule(Disamis, major, minor)
  {
    if major.quantifier == Quantifier.Some && minor.quantifier == All && major.subject == minor.subject
    then Option.Some(Simple(Quantifier.Some, minor.predicateTerm, major.predicateTerm))
    else None
  }

  function ValidateDatisi(major: Proposition, minor: Proposition): (r: Option<Proposition>)
    ensures r == CodeRule(Datisi, major, minor)
  {
    if major.quantifier == All && minor.quantifier == Quantifier.Some && major.subject == minor.subject
    then Option.Some(Simple(Quantifier.Some, minor.predicateTerm, major.predicateTerm))
    else None
  }

  function ValidateBocardo(major: Proposition, minor: Proposition): (r: Option<Proposition>)
    ensures r == CodeRule(Bocardo, major, minor)
  {
    if major.quantifier == SomeNot && minor.quantifier == All && major.subject == minor.subject
    then Option.Some(Simple(SomeNot, minor.predicateTerm, major.predicateTerm))
    else None
  }

  function ValidateFerison(major: Proposition, minor: Proposition): (r: Option<Proposition>)
    ensures r == CodeRule(Ferison, major, minor)
  {
    if major.quantifier == No && minor.quantifier == Quantifier.Some && major.subject == minor.subject
    then Option.Some(Simple(SomeNot, minor.predicateTerm, major.predicateTerm))
    else None
  }

  // --- Figure 4: P-M, M-S ---

  function ValidateBaralipton(major: Proposition, minor: Proposition): (r: Option<Proposition>)
    ensures r == CodeRule(Baralipton, major, minor)
  {
    if major.quantifier == All && minor.quantifier == All && major.predicateTerm == minor.subject
    then Option.Some(Simple(Quantifier.Some, minor.predicateTerm, major.subject))
    else None
  }

  function ValidateCelantes(major: Proposition, minor: Proposition): (r: Option<Proposition>)
    ensures r == CodeRule(Celantes, major, minor)
  {
    if major.quantifier == No && minor.quantifier == All && major.predicateTerm == minor.subject
    then Option.Some(Simple(No, minor.predicateTerm, major.subject))
    else None
  }

  function ValidateDabitis(major: Proposition, minor: Proposition): (r: Option<Proposition>)
    ensures r == CodeRule(Dabitis, major, minor)
  {
    if major.quantifier == Quantifier.Some && minor.quantifier == All && major.predicateTerm == minor.subject
    then Option.Some(Simple(Quantifier.Some, minor.predicateTerm, major.subject))
    else None
  }

  function ValidateFapesmo(major: Proposition, minor: Proposition): (r: Option<Proposition>)
    ensures r == CodeRule(Fapesmo, major, minor)
  {
    if major.quantifier == No && minor.quantifier == Quantifier.Some && major.predicateTerm == minor.subject
    then Option.Some(Simple(SomeNot, minor.predicateTerm, major.subject))
    else None
  }

  /** The rule registered under mood `m`. */
  function Rule(m: Mood, major: Proposition, minor: Proposition): Option<Proposition>
  {
    match m
    case Barbara => ValidateBarbara(major, minor)
    case Celarent => ValidateCelarent(major, minor)
    case Darii => ValidateDarii(major, minor)
    case Ferio => ValidateFerio(major, minor)
    case Cesare => ValidateCesare(major, minor)
    case Camestres => ValidateCamestres(major, minor)
    case Festino => ValidateFestino(major, minor)
    case Baroco => ValidateBaroco(major, minor)
    case Darapti => ValidateDarapti(major, minor)
    case Felapton => ValidateFelapton(major, minor)
    case Disamis => ValidateDisamis(major, minor)
    case Datisi => ValidateDatisi(major, minor)
    case Bocardo => ValidateBocardo(major, minor)
    case Ferison => ValidateFerison(major, minor)
    case Baralipton => ValidateBaralipton(major, minor)
    case Celantes => ValidateCelantes(major, minor)
    case Dabitis => ValidateDabitis(major, minor)
    case Fapesmo => ValidateFapesmo(major, minor)
  }

  /** A mood whose rule fired, with the conclusion it derived. */
  datatype Match = Match(mood: Mood, conclusion: Proposition)

  /** The first mood of `moods` whose rule fires on the premises. */
  function FirstMatchIn(moods: seq<Mood>, major: Proposition, minor: Proposition): Option<Match>
  {
    if moods == [] then None
    else if Rule(moods[0], major, minor).Some? then Option.Some(Match(moods[0], Rule(moods[0], major, minor).value))
    else FirstMatchIn(moods[1..], major, minor)
  }

  /** The match the validator reports: the first in table order. */
  function FirstMatch(major: Proposition, minor: Proposition): Option<Match>
  {
    FirstMatchIn(MoodTable, major, minor)
  }

  /** No mood of the list matches exactly when none of their rules fires. */
  lemma {:induction false} FirstMatchInNoneIff(moods: seq<Mood>, major: Proposition, minor: Proposition)
    ensures FirstMatchIn(moods, major, minor).None? <==> forall i :: 0 <= i < |moods| ==> Rule(moods[i], major, minor).None?
  {
    if moods != [] {
      FirstMatchInNoneIff(moods[1..], major, minor);
      assert forall i :: 1 <= i < |moods| ==> moods[i] == moods[1..][i - 1];
    }
  }

  /** The earliest mood of the list whose rule fires is the one reported, with that rule's conclusion. */
  lemma {:induction false} FirstMatchInIsEarliest(moods: seq<Mood>, major: Proposition, minor: Proposition, i: nat)
    requires i < |moods| && Rule(moods[i], major, minor).Some?
    requires forall j :: 0 <= j < i ==> Rule(moods[j], major, minor).None?
    ensures FirstMatchIn(moods, major, minor) == Option.Some(Match(moods[i], Rule(moods[i], major, minor).value))
  {
    if i > 0 {
      assert Rule(moods[0], major, minor).None?;
      assert forall j :: 0 <= j < i - 1 ==> moods[1..][j] == moods[j + 1];
      FirstMatchInIsEarliest(moods[1..], major, minor, i - 1);
    }
  }

  /**
   * A reported match names a mood of the list whose rule fires with the
   * reported conclusion, and no rule listed before that mood fires.
   */
  lemma {:induction false} FirstMatchInFires(moods: seq<Mood>, major: Proposition, minor: Proposition)
    requires FirstMatchIn(moods, major, minor).Some?
    ensures var r := FirstMatchIn(moods, major, minor).value;
      r.mood in moods && Rule(r.mood, major, minor) == Option.Some(r.conclusion)
    ensures var r := FirstMatchIn(moods, major, minor).value;
      exists k :: 0 <= k < |moods| && moods[k] == r.mood && forall j :: 0 <= j < k ==> Rule(moods[j], major, minor).None?
  {
    var r := FirstMatchIn(moods, major, minor).value;
    if Rule(moods[0], major, minor).None? {
      var rest := moods[1..];
      FirstMatchInFires(rest, major, minor);
      var k' :| 0 <= k' < |rest| && rest[k'] == r.mood && forall j :: 0 <= j < k' ==> Rule(rest[j], major, minor).None?;
      assert moods[k' + 1] == r.mood;
      forall j | 0 <= j < k' + 1
        ensures Rule(moods[j], major, minor).None?
      {
        if j > 0 {
          assert moods[j] == rest[j - 1];
        }
      }
    } else {
      assert moods[0] == r.mood;
    }
  }

  /** The validator finds no mood exactly when no rule of the eighteen fires. */
  lemma FirstMatchNoneIff(major: Proposition, minor: Proposition)
    ensures FirstMatch(major, minor).None? <==> forall m :: Rule(m, major, minor).None?
  {
    MoodTableListsEveryMoodOnce();
    FirstMatchInNoneIff(MoodTable, major, minor);
    if FirstMatch(major, minor).None? {
      forall m ensures Rule(m, major, minor).None? {
        assert MoodTable[TableIndex(m)] == m;
      }
    }
  }

  /**
   * `All X are Y` with `All Y are X` fires both Barbara and Baralipton, with
   * different conclusions; Barbara comes first in the table and wins.
   */
  lemma BarbaraShadowsBaralipton(x: string, y: string)
    ensures Rule(Baralipton, Simple(All, x, y), Simple(All, y, x)) == Option.Some(Simple(Quantifier.Some, x, x))
    ensures FirstMatch(Simple(All, x, y), Simple(All, y, x)) == Option.Some(Match(Barbara, Simple(All, y, y)))
  {
  }

  /**
   * `No X are Y` with `All Y are X` fires both Celarent and Celantes;
   * Celarent comes first in the table and wins.
   */
  lemma CelarentShadowsCelantes(x: string, y: string)
    ensures Rule(Celantes, Simple(No, x, y), Simple(All, y, x)) == Option.Some(Simple(No, x, x))
    ensures FirstMatch(Simple(No, x, y), Simple(All, y, x)) == Option.Some(Match(Celarent, Simple(No, y, y)))
  {
    FirstMatchInIsEarliest(MoodTable, Simple(No, x, y), Simple(All, y, x), 1);
  }

  /**
   * `No X are Y` with `All X are Y` fires both Cesare and Felapton; Cesare
   * comes first and wins (with X = Y, Celarent would win instead).
   */
  lemma CesareShadowsFelapton(x: string, y: string)
    requires x != y
    ensures Rule(Felapton, Simple(No, x, y), Simple(All, x, y)) == Option.Some(Simple(SomeNot, y, y))
    ensures FirstMatch(Simple(No, x, y), Simple(All, x, y)) == Option.Some(Match(Cesare, Simple(No, x, x)))
  {
    FirstMatchInIsEarliest(MoodTable, Simple(No, x, y), Simple(All, x, y), 4);
  }

  /** `No X are Y` with `Some Y are X` fires both Ferio and Fapesmo; Ferio comes first and wins. */
  lemma FerioShadowsFapesmo(x: string, y: string)
    ensures Rule(Fapesmo, Simple(No, x, y), Simple(Quantifier.Some, y, x)) == Option.Some(Simple(SomeNot, x, x))
    ensures FirstMatch(Simple(No, x, y), Simple(Quantifier.Some, y, x)) == Option.Some(Match(Ferio, Simple(SomeNot, y, y)))
  {
    FirstMatchInIsEarliest(MoodTable, Simple(No, x, y), Simple(Quantifier.Some, y, x), 3);
  }

  /**
   * `No X are Y` with `Some X are Y` fires both Festino and Ferison; Festino
   * comes first and wins (with X = Y, Ferio would win instead).
   */
  lemma FestinoShadowsFerison(x: string, y: string)
    requires x != y
    ensures Rule(Ferison, Simple(No, x, y), Simple(Quantifier.Some, x, y)) == Option.Some(Simple(SomeNot, y, y))
    ensures FirstMatch(Simple(No, x, y), Simple(Quantifier.Some, x, y)) == Option.Some(Match(Festino, Simple(SomeNot, x, x)))
  {
    FirstMatchInIsEarliest(MoodTable, Simple(No, x, y), Simple(Quantifier.Some, x, y), 6);
  }

  /** Every rule derives its conclusion from the premise terms the figure designates, with the default flags. */
  lemma RuleConclusionTerms(m: Mood, major: Proposition, minor: Proposition)
    requires Rule(m, major, minor).Some?
    ensures var c := Rule(m, major, minor).value;
      && c.subject == (if Code(m).figure <= 2 then minor.subject else minor.predicateTerm)
      && c.predicateTerm == (if Code(m).figure in {1, 3} then major.predicateTerm else major.subject)
      && c.quantifier != Statistical && !c.isNegated && c.statValue.None?
  {
    RuleIsCodeRule(m, major, minor);
  }

  lemma RuleIsCodeRule(m: Mood, major: Proposition, minor: Proposition)
    ensures Rule(m, major, minor) == CodeRule(m, major, minor)
  {
    match m
    case Barbara => case Celarent => case Darii => case Ferio =>
    case Cesare => case Camestres => case Festino => case Baroco =>
    case Darapti => case Felapton => case Disamis => case Datisi => case Bocardo => case Ferison =>
    case Baralipton => case Celantes => case Dabitis => case Fapesmo =>
  }

  /**
   * No rule fires on two negative premises or on a statistical one: every
   * rule wants one fixed pair of A/E/I/O quantifiers with at most one negative.
   */
  lemma NoRuleFiresOnStatisticalOrTwoNegatives(major: Proposition, minor: Proposition)
    requires major.quantifier == Statistical || minor.quantifier == Statistical
             || (IsNegative(major.quantifier) && IsNegative(minor.quantifier))
    ensures forall m :: Rule(m, major, minor).None?
    ensures FirstMatch(major, minor).None?
  {
    forall m ensures Rule(m, major, minor).None? {
      RuleIsCodeRule(m, major, minor);
    }
    FirstMatchNoneIff(major, minor);
  }

  /**
   * The conclusion is negative exactly when a premise is; it is universal
   * only for Barbara, Celarent, Cesare, Camestres and Celantes; a particular
   * premise always yields a particular conclusion.
   */
  lemma RuleConclusionQuality(m: Mood, major: Proposition, minor: Proposition)
    requires Rule(m, major, minor).Some?
    ensures var c := Rule(m, major, minor).value;
      && (IsNegative(c.quantifier) <==> IsNegative(major.quantifier) || IsNegative(minor.quantifier))
      && (IsUniversal(c.quantifier) <==> m in {Barbara, Celarent, Cesare, Camestres, Celantes})
      && (IsParticular(major.quantifier) || IsParticular(minor.quantifier) ==> IsParticular(c.quantifier))
  {
    RuleIsCodeRule(m, major, minor);
  }

  /** The canonical premises of a code: its quantifiers over the terms "M", "S" and "P", placed as its figure says. */
  function CanonicalMajorOf(c: MoodCode): Proposition
  {
    if c.figure == 1 || c.figure == 3 then Simple(QuantifierOf(c.major), "M", "P")
    else Simple(QuantifierOf(c.major), "P", "M")
  }

  function CanonicalMinorOf(c: MoodCode): Proposition
  {
    if c.figure <= 2 then Simple(QuantifierOf(c.minor), "S", "M")
    else Simple(QuantifierOf(c.minor), "M", "S")
  }

  function CanonicalMajor(m: Mood): Proposition
  {
    CanonicalMajorOf(Code(m))
  }

  function CanonicalMinor(m: Mood): Proposition
  {
    CanonicalMinorOf(Code(m))
  }

  /** A mood is determined by its premise quantifiers and its figure: no two rows of the table share them. */
  lemma CodeSignatureDeterminesMood(m: Mood, m': Mood)
    requires Code(m).figure == Code(m').figure
    requires Code(m).major == Code(m').major && Code(m).minor == Code(m').minor
    ensures m == m'
  {
  }

  /** Different letters stand for different quantifiers. */
  lemma QuantifierOfInjective(a: Letter, b: Letter)
    requires QuantifierOf(a) == QuantifierOf(b)
    ensures a == b
  {
  }

  /**
   * On the canonical premises of code `c` the form of code `c'` applies
   * exactly when both codes have the same premise letters and figure, and
   * it then concludes "S-P".
   */
  lemma FormRuleOnCanonicalPremises(c: MoodCode, c': MoodCode)
    ensures var r := FormRule(c', CanonicalMajorOf(c), CanonicalMinorOf(c));
      && (r.Some? <==> c'.major == c.major && c'.minor == c.minor && c'.figure == c.figure)
      && (r.Some? ==> r.value == Simple(QuantifierOf(c'.conclusion), "S", "P"))
  {
    assert "M" != "P" && "M" != "S" && "S" != "P" by {
      assert "M"[0] != "P"[0] && "M"[0] != "S"[0] && "S"[0] != "P"[0];
    }
    var major, minor := CanonicalMajorOf(c), CanonicalMinorOf(c);
    if FormRule(c', major, minor).Some? {
      QuantifierOfInjective(c'.major, c.major);
      QuantifierOfInjective(c'.minor, c.minor);
    }
  }

  /** On a mood's canonical premises the rule of that mood fires, and no other. */
  lemma CanonicalPremisesFireOnlyTheirMood(m: Mood, m': Mood)
    ensures Rule(m', CanonicalMajor(m), CanonicalMinor(m)).Some? <==> m' == m
  {
    RuleIsCodeRule(m', CanonicalMajor(m), CanonicalMinor(m));
    FormRuleOnCanonicalPremises(Code(m), Code(m'));
    if Rule(m', CanonicalMajor(m), CanonicalMinor(m)).Some? {
      CodeSignatureDeterminesMood(m, m');
    }
  }

  /** On its canonical premises every mood is the one reported, concluding "S-P" with its code's third quantifier. */
  lemma CanonicalPremisesSelectTheirMood(m: Mood)
    ensures FirstMatch(CanonicalMajor(m), CanonicalMinor(m))
            == Option.Some(Match(m, Simple(QuantifierOf(Code(m).conclusion), "S", "P")))
  {
    var major, minor := CanonicalMajor(m), CanonicalMinor(m);
    var i := TableIndex(m);
    forall j | 0 <= j < i
      ensures Rule(MoodTable[j], major, minor).None?
    {
      MoodTableListsEveryMoodOnce();
      CanonicalPremisesFireOnlyTheirMood(m, MoodTable[j]);
    }
    CanonicalPremisesFireOnlyTheirMood(m, m);
    RuleIsCodeRule(m, major, minor);
    FormRuleOnCanonicalPremises(Code(m), Code(m));
    FirstMatchInIsEarliest(MoodTable, major, minor, i);
  }

  /** The part of a reasoning step the validator reads and writes. */
  datatype StepVerdict = StepVerdict(
    syllogism: Option<Syllogism>,
    mood: Option<string>,
    isValid: bool,
    confidence: real,
    summary: string)

  function VerdictOf(step: ReasoningStep): StepVerdict
    reads step
  {
    StepVerdict(step.syllogism, step.mood, step.isValid, step.confidence, step.summary)
  }

  const MissingPremisesMarker := " [EngineError: Missing one or more premises]"
  const NoKnownSyllogismMarker := " [EngineError: Premises do not form a valid known syllogism]"

  predicate HasPremises(v: StepVerdict)
  {
    v.syllogism.Some? && v.syllogism.value.majorPremise.Some? && v.syllogism.value.minorPremise.Some?
  }

  /**
   * The verdict after validation: a step without both premises is marked
   * invalid with the missing-premises marker appended; otherwise the first
   * match in table order sets validity, conclusion, mood name and confidence
   * 1.0; with no match the step is marked invalid with the other marker.
   * Fields not mentioned keep their values.
   */
  function ValidateVerdict(v: StepVerdict): StepVerdict
  {
    if !HasPremises(v) then
      v.(isValid := false, summary := v.summary + MissingPremisesMarker)
    else
      var found := FirstMatch(v.syllogism.value.majorPremise.value, v.syllogism.value.minorPremise.value);
      if found.Some? then
        v.(isValid := true,
           syllogism := Option.Some(v.syllogism.value.(conclusion := Option.Some(found.value.conclusion))),
           mood := Option.Some(MoodName(found.value.mood)),
           confidence := 1.0)
      else
        v.(isValid := false, summary := v.summary + NoKnownSyllogismMarker)
  }

  /**
   * A step without a syllogism, or whose syllogism lacks either premise, is
   * marked invalid and gets the missing-premises marker; its syllogism, mood
   * and confidence stay as they were.
   */
  lemma MissingPremisesAreRejected(v: StepVerdict)
    requires !HasPremises(v)
    ensures var r := ValidateVerdict(v);
      && !r.isValid && r.summary == v.summary + MissingPremisesMarker
      && r.syllogism == v.syllogism && r.mood == v.mood && r.confidence == v.confidence
  {
  }

  /**
   * A step with both premises on which no rule fires is marked invalid and
   * gets the no-known-syllogism marker; nothing else changes.
   */
  lemma NoFiringMoodIsRejected(v: StepVerdict)
    requires HasPremises(v)
    requires forall m :: Rule(m, v.syllogism.value.majorPremise.value, v.syllogism.value.minorPremise.value).None?
    ensures ValidateVerdict(v) == v.(isValid := false, summary := v.summary + NoKnownSyllogismMarker)
  {
    FirstMatchNoneIff(v.syllogism.value.majorPremise.value, v.syllogism.value.minorPremise.value);
  }

  /**
   * An accepted step had both premises, and records a mood whose rule fires
   * on them, the conclusion that rule derives and confidence 1.0; no mood
   * before it in the table fires. Its premises and summary are kept.
   */
  lemma AcceptedStepRecordsFirstFiringMood(v: StepVerdict)
    requires ValidateVerdict(v).isValid
    ensures HasPremises(v)
    ensures var major, minor := v.syllogism.value.majorPremise.value, v.syllogism.value.minorPremise.value;
      var r := ValidateVerdict(v);
      && r.confidence == 1.0 && r.summary == v.summary
      && exists m ::
           && r.mood == Option.Some(MoodName(m))
           && Rule(m, major, minor).Some?
           && r.syllogism == Option.Some(v.syllogism.value.(conclusion := Rule(m, major, minor)))
           && forall j :: 0 <= j < TableIndex(m) ==> Rule(MoodTable[j], major, minor).None?
  {
    var major, minor := v.syllogism.value.majorPremise.value, v.syllogism.value.minorPremise.value;
    FirstMatchInFires(MoodTable, major, minor);
    var found := FirstMatch(major, minor).value;
    var k :| 0 <= k < |MoodTable| && MoodTable[k] == found.mood
             && forall j :: 0 <= j < k ==> Rule(MoodTable[j], major, minor).None?;
    MoodTableListsEveryMoodOnce();
    assert TableIndex(found.mood) == k;
  }

  /**
   * Validating a step that validation accepted once more changes nothing:
   * the premises are untouched, so the same mood and conclusion come out
   * and no marker is added.
   */
  lemma RevalidateAcceptedIsStable(v: StepVerdict)
    requires ValidateVerdict(v).isValid
    ensures ValidateVerdict(ValidateVerdict(v)) == ValidateVerdict(v)
  {
  }

  /** Validating a rejected step once more appends its marker again. */
  lemma RevalidateRejectedAppendsMarkerAgain(v: StepVerdict)
    requires !ValidateVerdict(v).isValid
    ensures var once := ValidateVerdict(v);
      var marker := if HasPremises(v) then NoKnownSyllogismMarker else MissingPremisesMarker;
      ValidateVerdict(once) == once.(summary := once.summary + marker)
  {
  }

  /** A step holding a mood's canonical premises is accepted under that mood's name. */
  lemma CanonicalStepIsAccepted(m: Mood, v: StepVerdict)
    requires v.syllogism.Some?
    requires v.syllogism.value.majorPremise == Option.Some(CanonicalMajor(m))
    requires v.syllogism.value.minorPremise == Option.Some(CanonicalMinor(m))
    ensures var r := ValidateVerdict(v);
      && r.isValid && r.mood == Option.Some(MoodName(m)) && r.confidence == 1.0 && r.summary == v.summary
      && r.syllogism.value.conclusion == Option.Some(Simple(QuantifierOf(Code(m).conclusion), "S", "P"))
  {
    CanonicalPremisesSelectTheirMood(m);
  }

  /** Premises with no term in common, such as `All X are Y` and `All A are B`, are rejected. */
  lemma UnrelatedPremisesAreRejected(v: StepVerdict, major: Proposition, minor: Proposition)
    requires v.syllogism.Some?
    requires v.syllogism.value.majorPremise == Option.Some(major)
    requires v.syllogism.value.minorPremise == Option.Some(minor)
    requires major.subject != minor.subject && major.subject != minor.predicateTerm
    requires major.predicateTerm != minor.subject && major.predicateTerm != minor.predicateTerm
    ensures ValidateVerdict(v) == v.(isValid := false, summary := v.summary + NoKnownSyllogismMarker)
  {
    forall m ensures Rule(m, major, minor).None? {
      RuleIsCodeRule(m, major, minor);
    }
    FirstMatchNoneIff(major, minor);
  }

  /**
   * The validator: updates `step` in place as `ValidateVerdict` describes,
   * trying the moods in table order and stopping at the first that fires,
   * and returns the same step.
   */
  method Validate(step: ReasoningStep) returns (validated: ReasoningStep)
    modifies step`isValid, step`summary, step`syllogism, step`mood, step`confidence
    ensures validated == step
    ensures VerdictOf(step) == ValidateVerdict(old(VerdictOf(step)))
  {
    if step.syllogism.None? || step.syllogism.value.majorPremise.None? || step.syllogism.value.minorPremise.None? {
      step.isValid := false;
      step.summary := step.summary + MissingPremisesMarker;
      return step;
    }
    var major := step.syllogism.value.majorPremise.value;
    var minor := step.syllogism.value.minorPremise.value;
    var i := 0;
    while i < |MoodTable|
      invariant 0 <= i <= |MoodTable|
      invariant FirstMatch(major, minor) == FirstMatchIn(MoodTable[i..], major, minor)
      invariant VerdictOf(step) == old(VerdictOf(step))
    {
      var mood := MoodTable[i];
      var conclusion := Rule(mood, major, minor);
      if conclusion.Some? {
        step.isValid := true;
        step.syllogism := Option.Some(step.syllogism.value.(conclusion := conclusion));
        step.mood := Option.Some(MoodName(mood));
        step.confidence := 1.0;
        return step;
      }
      assert MoodTable[i..][1..] == MoodTable[i + 1..];
      i := i + 1;
    }
    step.isValid := false;
    step.summary := step.summary + NoKnownSyllogismMarker;
    return step;
  }
}

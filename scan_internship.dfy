/**
 * The internship scam scanner: a four-step intake wizard whose third step
 * runs a fixed rubric over five questionnaire answers and the recruiter's
 * email address, scores the red flags with a random jitter and sorts the
 * score into a Low, Medium or High risk tier.
 *
 * The random draws of one analysis arrive as a `Draws` value.
 */
module ScanInternship {
  import opened JsStrings
  import opened Ui

  // ---------------------------------------------------------------------------
  // The rubric
  // ---------------------------------------------------------------------------

  /** The flags the analysis can raise. */
  datatype Flag =
    | MoneyRequested | PersonalEmailId | NotOnWebsite | MassMessaging | PressureTactics
    | PersonalDomainUsed | ProfessionalDomain

  /** The message the page shows for a flag. */
  function Message(f: Flag): string {
    match f
    case MoneyRequested => "Money requested (Major red flag)"
    case PersonalEmailId => "Using personal email domain"
    case NotOnWebsite => "Not found on company website"
    case MassMessaging => "Generic/mass messaging detected"
    case PressureTactics => "Pressure tactics used"
    case PersonalDomainUsed => "Personal email domain used"
    case ProfessionalDomain => "Professional email domain"
  }

  /** Distinct flags show distinct messages, so the flag values lose nothing the page shows. */
  lemma MessagesDistinct(f: Flag, g: Flag)
    ensures Message(f) == Message(g) ==> f == g
  {
    if f != g {
      assert |Message(f)| != |Message(g)|;
    }
  }

  /** The questionnaire has five questions. */
  const QUESTION_COUNT := 5

  /** The radio options the questionnaire offers for every question. */
  const ANSWER_OPTIONS: seq<string> := ["Yes", "No", "Not Sure"]

  /** Every red flag the analysis can raise, in the order it raises them. */
  const ALL_RED_FLAGS: seq<Flag> :=
    [MoneyRequested, PersonalEmailId, NotOnWebsite, MassMessaging, PressureTactics, PersonalDomainUsed]

  /** The fragment of the lower-cased answer that makes question k raise its flag. */
  function Trigger(k: nat): string {
    if k == 2 then "no" else "yes"
  }

  /** Question k's rule fires on `answer`. */
  predicate Trips(k: nat, answer: string) {
    Includes(ToLower(answer), Trigger(k))
  }

  /** The question a flag belongs to, or -1 for the email flags. */
  function QuestionOf(f: Flag): int {
    match f
    case MoneyRequested => 0
    case PersonalEmailId => 1
    case NotOnWebsite => 2
    case MassMessaging => 3
    case PressureTactics => 4
    case _ => -1
  }

  /** Question k's flag. */
  function QuestionFlag(k: nat): (f: Flag)
    requires k < QUESTION_COUNT
    ensures QuestionOf(f) == k
    ensures f == ALL_RED_FLAGS[k]
  {
    if k == 0 then MoneyRequested
    else if k == 1 then PersonalEmailId
    else if k == 2 then NotOnWebsite
    else if k == 3 then MassMessaging
    else PressureTactics
  }

  /** Which of the five rules fire on the answers, in question order. */
  function Tripped(answers: seq<string>): (fires: seq<bool>)
    requires |answers| == QUESTION_COUNT
    ensures |fires| == QUESTION_COUNT
    ensures forall k :: 0 <= k < QUESTION_COUNT ==> fires[k] == Trips(k, answers[k])
  {
    [Trips(0, answers[0]), Trips(1, answers[1]), Trips(2, answers[2]), Trips(3, answers[3]), Trips(4, answers[4])]
  }

  /** What question k contributes: its flag when its rule fires, nothing otherwise. */
  function Piece(fires: seq<bool>, k: nat): seq<Flag>
    requires |fires| == QUESTION_COUNT && k < QUESTION_COUNT
  {
    if fires[k] then [QuestionFlag(k)] else []
  }

  /** The flags of questions k..4 whose rules fire, in question order. */
  function QuestionFlags(fires: seq<bool>, k: nat): seq<Flag>
    requires |fires| == QUESTION_COUNT && k <= QUESTION_COUNT
    decreases QUESTION_COUNT - k
  {
    if k == QUESTION_COUNT then [] else Piece(fires, k) + QuestionFlags(fires, k + 1)
  }

  /** The email check that raises a red flag (case-sensitive, as written). */
  predicate EmailRaisesRedFlag(email: string) {
    Includes(email, "@gmail.com") || Includes(email, "@yahoo.com")
  }

  /** The email check that raises the green flag, reached only when the red check fails. */
  predicate EmailRaisesGreenFlag(email: string) {
    !EmailRaisesRedFlag(email) && Includes(email, ".com") && !Includes(email, "gmail")
  }

  /**
   * The red flags of an analysis: the questionnaire's, then the email's.
   * Each question raises its flag exactly when its rule fires on its answer,
   * and the webmail flag is raised exactly when the email check fires.
   */
  function RedFlags(answers: seq<string>, email: string): (red: seq<Flag>)
    requires |answers| == QUESTION_COUNT
    ensures forall k :: 0 <= k < QUESTION_COUNT ==> (QuestionFlag(k) in red <==> Trips(k, answers[k]))
    ensures PersonalDomainUsed in red <==> EmailRaisesRedFlag(email)
  {
    var fires := Tripped(answers);
    QuestionFlagsIff(fires);
    QuestionFlagsRange(fires, 0);
    QuestionFlags(fires, 0) + (if EmailRaisesRedFlag(email) then [PersonalDomainUsed] else [])
  }

  /** The green flags of an analysis: at most the one, raised exactly when its email check fires. */
  function GreenFlags(email: string): (green: seq<Flag>)
    ensures green == [] || green == [ProfessionalDomain]
    ensures ProfessionalDomain in green <==> EmailRaisesGreenFlag(email)
  {
    if EmailRaisesGreenFlag(email) then [ProfessionalDomain] else []
  }

  // ---------------------------------------------------------------------------
  // Score and tier
  // ---------------------------------------------------------------------------

  datatype RiskLevel = Low | Medium | High

  /** `Math.min(100, redCount * 20 + jitter)` with `jitter = Math.floor(Math.random() * 10)`. */
  function RiskScore(redCount: nat, jitter: nat): (score: nat)
    requires jitter < 10
    ensures score <= 100
    ensures redCount >= 5 ==> score == 100
    ensures redCount < 5 ==> 20 * redCount <= score < 20 * redCount + 10
  {
    if redCount * 20 + jitter < 100 then redCount * 20 + jitter else 100
  }

  /** The tier a score falls into. */
  function Tier(score: int): (level: RiskLevel)
    ensures level == High <==> score > 60
    ensures level == Medium <==> 30 < score <= 60
    ensures level == Low <==> score <= 30
  {
    if score > 60 then High
    else if score > 30 then Medium
    else Low
  }

  /** The tier's name as the page shows it. */
  function LevelName(level: RiskLevel): string {
    match level
    case Low => "Low"
    case Medium => "Medium"
    case High => "High"
  }

  /** Distinct tiers show distinct names. */
  lemma LevelNamesDistinct(l1: RiskLevel, l2: RiskLevel)
    ensures LevelName(l1) == LevelName(l2) ==> l1 == l2
  {
    if l1 != l2 {
      assert LevelName(l1)[0] != LevelName(l2)[0];
    }
  }

  /** The text colour class the page shows the tier in. */
  function TierColor(level: RiskLevel): string {
    match level
    case Low => "text-green-600"
    case Medium => "text-orange-600"
    case High => "text-red-600"
  }

  /** Position of a tier in Low < Medium < High. */
  function Rank(level: RiskLevel): nat {
    match level
    case Low => 0
    case Medium => 1
    case High => 2
  }

  /** A higher score never lands in a lower tier. */
  lemma TierMonotone(s1: int, s2: int)
    requires s1 <= s2
    ensures Rank(Tier(s1)) <= Rank(Tier(s2))
  {
  }

  /** The tier each red-flag count reaches, whatever the jitter. */
  lemma TierByRedCount(redCount: nat, jitter: nat)
    requires jitter < 10
    ensures redCount <= 1 ==> Tier(RiskScore(redCount, jitter)) == Low
    ensures redCount == 2 ==> Tier(RiskScore(redCount, jitter)) == Medium
    ensures redCount == 3 ==> (Tier(RiskScore(redCount, jitter)) == Medium <==> jitter == 0)
    ensures redCount == 3 ==> Tier(RiskScore(redCount, jitter)) != Low
    ensures redCount >= 4 ==> Tier(RiskScore(redCount, jitter)) == High
  {
  }

  // ---------------------------------------------------------------------------
  // The assessment
  // ---------------------------------------------------------------------------

  /** The random draws of one analysis. */
  datatype Draws = Draws(jitter: nat, companyVerified: bool, communityReports: nat, similarScams: nat)

  /** The ranges `Math.floor(Math.random() * n)` yields for the three counters. */
  predicate ValidDraws(d: Draws) {
    d.jitter < 10 && d.communityReports < 5 && d.similarScams < 3
  }

  datatype ScanResult = ScanResult(
    riskScore: nat,
    riskLevel: RiskLevel,
    riskColor: string,
    redFlags: seq<Flag>,
    greenFlags: seq<Flag>,
    companyVerified: bool,
    communityReports: nat,
    similarScams: nat)

  /** The result the analysis produces from the answers, the email and the draws. */
  function Assess(answers: seq<string>, email: string, d: Draws): (r: ScanResult)
    requires |answers| == QUESTION_COUNT && ValidDraws(d)
    ensures Consistent(r)
  {
    FlagCounts(answers, email);
    RedFlagsInOrder(answers, email);
    EmailFlags(answers, email);
    var red := RedFlags(answers, email);
    var score := RiskScore(|red|, d.jitter);
    ScanResult(score, Tier(score), TierColor(Tier(score)), red, GreenFlags(email),
               d.companyVerified, d.communityReports, d.similarScams)
  }

  /** What holds of every result the analysis can produce. */
  predicate Consistent(r: ScanResult) {
    && r.riskScore <= 100
    && |r.redFlags| <= 6
    && |r.greenFlags| <= 1
    && IsSubsequence(r.redFlags, ALL_RED_FLAGS)
    && (r.greenFlags == [] || r.greenFlags == [ProfessionalDomain])
    && (PersonalDomainUsed in r.redFlags ==> r.greenFlags == [])
    && (|r.redFlags| >= 5 ==> r.riskScore == 100)
    && (|r.redFlags| < 5 ==> 20 * |r.redFlags| <= r.riskScore < 20 * |r.redFlags| + 10)
    && r.riskLevel == Tier(r.riskScore)
    && r.riskColor == TierColor(r.riskLevel)
    && r.communityReports < 5
    && r.similarScams < 3
  }

  /**
   * The first half of performScamAnalysis: pushes the red and green flags one
   * check at a time, the five questions first and the email last.
   */
  method CollectFlags(answers: seq<string>, recruiterEmail: string)
    returns (redFlags: seq<Flag>, greenFlags: seq<Flag>)
    requires |answers| == QUESTION_COUNT
    ensures redFlags == RedFlags(answers, recruiterEmail)
    ensures greenFlags == GreenFlags(recruiterEmail)
  {
    redFlags := CheckQuestions(answers);
    redFlags, greenFlags := CheckEmail(redFlags, [], recruiterEmail);
  }

  /** The five questionnaire checks, one after the other, from no flags. */
  method CheckQuestions(answers: seq<string>) returns (redFlags: seq<Flag>)
    requires |answers| == QUESTION_COUNT
    ensures redFlags == QuestionFlags(Tripped(answers), 0)
  {
    ghost var fires := Tripped(answers);
    var after0 := CheckAnswer([], answers, fires, 0);
    var after1 := CheckAnswer(after0, answers, fires, 1);
    var after2 := CheckAnswer(after1, answers, fires, 2);
    var after3 := CheckAnswer(after2, answers, fires, 3);
    redFlags := CheckAnswer(after3, answers, fires, 4);
    FiveChecks(fires, after0, after1, after2, after3, redFlags);
  }

  /**
   * The email checks: a webmail domain pushes the red flag; otherwise a
   * ".com" address without "gmail" pushes the green flag.
   */
  method CheckEmail(redFlags: seq<Flag>, greenFlags: seq<Flag>, recruiterEmail: string)
    returns (red: seq<Flag>, green: seq<Flag>)
    ensures red == redFlags + (if EmailRaisesRedFlag(recruiterEmail) then [PersonalDomainUsed] else [])
    ensures green == greenFlags + GreenFlags(recruiterEmail)
  {
    red, green := redFlags, greenFlags;
    if Includes(recruiterEmail, "@gmail.com") || Includes(recruiterEmail, "@yahoo.com") {
      red := red + [PersonalDomainUsed];
    } else if Includes(recruiterEmail, ".com") && !Includes(recruiterEmail, "gmail") {
      green := green + [ProfessionalDomain];
    }
  }

  /**
   * The second half of performScamAnalysis: the capped score, then the level
   * and colour reassigned from their "Low" defaults.
   */
  method ScoreAndTier(redCount: nat, jitter: nat)
    returns (riskScore: nat, riskLevel: RiskLevel, riskColor: string)
    requires jitter < 10
    ensures riskScore == RiskScore(redCount, jitter)
    ensures riskLevel == Tier(riskScore) && riskColor == TierColor(riskLevel)
  {
    var uncapped := redCount * 20 + jitter;
    riskScore := if 100 < uncapped then 100 else uncapped;

    riskLevel := Low;
    riskColor := "text-green-600";
    if riskScore > 60 {
      riskLevel := High;
      riskColor := "text-red-600";
    } else if riskScore > 30 {
      riskLevel := Medium;
      riskColor := "text-orange-600";
    }
  }

  /** performScamAnalysis: the flags, the score and tier, and the random extras, as one result. */
  method PerformScamAnalysis(answers: seq<string>, recruiterEmail: string, draws: Draws)
    returns (result: ScanResult)
    requires |answers| == QUESTION_COUNT && ValidDraws(draws)
    ensures result == Assess(answers, recruiterEmail, draws)
    ensures Consistent(result)
  {
    var redFlags, greenFlags := CollectFlags(answers, recruiterEmail);
    var riskScore, riskLevel, riskColor := ScoreAndTier(|redFlags|, draws.jitter);
    result := ScanResult(riskScore, riskLevel, riskColor, redFlags, greenFlags,
                         draws.companyVerified, draws.communityReports, draws.similarScams);
  }

  /**
   * One questionnaire check: push question k's flag when the lower-cased
   * answer includes the question's trigger.
   */
  method CheckAnswer(redFlags: seq<Flag>, answers: seq<string>, ghost fires: seq<bool>, k: nat)
    returns (pushed: seq<Flag>)
    requires |answers| == QUESTION_COUNT && |fires| == QUESTION_COUNT && k < QUESTION_COUNT
    requires fires[k] == Trips(k, answers[k])
    ensures pushed == redFlags + Piece(fires, k)
  {
    pushed := redFlags;
    if Includes(ToLower(answers[k]), Trigger(k)) {
      pushed := pushed + [QuestionFlag(k)];
    }
  }

  /** The five checks, each appending its question's piece, build the rubric's flags. */
  lemma FiveChecks(fires: seq<bool>, after0: seq<Flag>, after1: seq<Flag>, after2: seq<Flag>,
                   after3: seq<Flag>, after4: seq<Flag>)
    requires |fires| == QUESTION_COUNT
    requires after0 == [] + Piece(fires, 0) && after1 == after0 + Piece(fires, 1)
    requires after2 == after1 + Piece(fires, 2) && after3 == after2 + Piece(fires, 3)
    requires after4 == after3 + Piece(fires, 4)
    ensures after4 == QuestionFlags(fires, 0)
  {
    QuestionFlagsUnrolled(fires);
  }

  /** The recursive rubric, written out as the five checks one after the other. */
  lemma QuestionFlagsUnrolled(fires: seq<bool>)
    requires |fires| == QUESTION_COUNT
    ensures QuestionFlags(fires, 0) ==
      Piece(fires, 0) + (Piece(fires, 1) + (Piece(fires, 2) + (Piece(fires, 3) + Piece(fires, 4))))
  {
    assert QuestionFlags(fires, 4) == Piece(fires, 4) + QuestionFlags(fires, 5);
    assert QuestionFlags(fires, 3) == Piece(fires, 3) + QuestionFlags(fires, 4);
    assert QuestionFlags(fires, 2) == Piece(fires, 2) + QuestionFlags(fires, 3);
    assert QuestionFlags(fires, 1) == Piece(fires, 1) + QuestionFlags(fires, 2);
  }

  // ---------------------------------------------------------------------------
  // Properties of the rubric
  // ---------------------------------------------------------------------------

  /** Questions k..4 raise at most one flag each, and only flags of those questions. */
  lemma {:induction false} QuestionFlagsRange(fires: seq<bool>, k: nat)
    requires |fires| == QUESTION_COUNT && k <= QUESTION_COUNT
    ensures |QuestionFlags(fires, k)| <= QUESTION_COUNT - k
    ensures forall x :: x in QuestionFlags(fires, k) ==> k <= QuestionOf(x) < QUESTION_COUNT
    decreases QUESTION_COUNT - k
  {
    if k < QUESTION_COUNT {
      QuestionFlagsRange(fires, k + 1);
      assert QuestionFlags(fires, k) == Piece(fires, k) + QuestionFlags(fires, k + 1);
    }
  }

  /**
   * The flags of questions k..4, followed by the email's red flag or by
   * nothing, keep the fixed order from position k on.
   */
  lemma {:induction false} QuestionFlagsOrdered(fires: seq<bool>, k: nat, tail: seq<Flag>)
    requires |fires| == QUESTION_COUNT && k <= QUESTION_COUNT
    requires tail == [] || tail == [PersonalDomainUsed]
    ensures IsSubsequence(QuestionFlags(fires, k) + tail, ALL_RED_FLAGS[k..])
    decreases QUESTION_COUNT - k
  {
    if k == QUESTION_COUNT {
      assert QuestionFlags(fires, k) + tail == tail;
      assert ALL_RED_FLAGS[k..] == [PersonalDomainUsed];
    } else {
      QuestionFlagsOrdered(fires, k + 1, tail);
      if fires[k] {
        OrderedWhenFiring(fires, k, tail);
      } else {
        OrderedWhenSilent(fires, k, tail);
      }
    }
  }

  /** A question whose rule fires puts its flag in front, matching its own place in the order. */
  lemma OrderedWhenFiring(fires: seq<bool>, k: nat, tail: seq<Flag>)
    requires |fires| == QUESTION_COUNT && k < QUESTION_COUNT && fires[k]
    requires IsSubsequence(QuestionFlags(fires, k + 1) + tail, ALL_RED_FLAGS[k + 1..])
    ensures IsSubsequence(QuestionFlags(fires, k) + tail, ALL_RED_FLAGS[k..])
  {
    var rest := QuestionFlags(fires, k + 1);
    assert ALL_RED_FLAGS[k..] == [QuestionFlag(k)] + ALL_RED_FLAGS[k + 1..];
    assert QuestionFlags(fires, k) + tail == [QuestionFlag(k)] + (rest + tail);
    SubsequenceCons(QuestionFlag(k), rest + tail, ALL_RED_FLAGS[k + 1..]);
  }

  /** A question whose rule does not fire skips its place in the order. */
  lemma OrderedWhenSilent(fires: seq<bool>, k: nat, tail: seq<Flag>)
    requires |fires| == QUESTION_COUNT && k < QUESTION_COUNT && !fires[k]
    requires tail == [] || tail == [PersonalDomainUsed]
    requires IsSubsequence(QuestionFlags(fires, k + 1) + tail, ALL_RED_FLAGS[k + 1..])
    ensures IsSubsequence(QuestionFlags(fires, k) + tail, ALL_RED_FLAGS[k..])
  {
    QuestionFlagsRange(fires, k + 1);
    var rest := QuestionFlags(fires, k + 1);
    var all := ALL_RED_FLAGS[k..];
    assert all[0] == QuestionFlag(k) && all[1..] == ALL_RED_FLAGS[k + 1..];
    var a := rest + tail;
    assert QuestionFlags(fires, k) + tail == a;
    if a != [] {
      assert a[0] in rest || a[0] in tail;
      assert QuestionOf(a[0]) != k;
    }
    SubsequenceSkip(a, all);
  }

  /** At most six red flags and at most one green flag. */
  lemma FlagCounts(answers: seq<string>, email: string)
    requires |answers| == QUESTION_COUNT
    ensures |RedFlags(answers, email)| <= 6
    ensures |GreenFlags(email)| <= 1
  {
    QuestionFlagsRange(Tripped(answers), 0);
  }

  /** The red flags follow the fixed order: questions 0 to 4, then the email. */
  lemma RedFlagsInOrder(answers: seq<string>, email: string)
    requires |answers| == QUESTION_COUNT
    ensures IsSubsequence(RedFlags(answers, email), ALL_RED_FLAGS)
  {
    var tail := if EmailRaisesRedFlag(email) then [PersonalDomainUsed] else [];
    QuestionFlagsOrdered(Tripped(answers), 0, tail);
    assert ALL_RED_FLAGS[0..] == ALL_RED_FLAGS;
  }

  /** Question k's flag appears among questions m..4's flags exactly when m <= k and its rule fires. */
  lemma {:induction false} QuestionFlagIffFrom(fires: seq<bool>, m: nat, k: nat)
    requires |fires| == QUESTION_COUNT && m <= QUESTION_COUNT && k < QUESTION_COUNT
    ensures QuestionFlag(k) in QuestionFlags(fires, m) <==> m <= k && fires[k]
    decreases QUESTION_COUNT - m
  {
    if m < QUESTION_COUNT {
      QuestionFlagIffFrom(fires, m + 1, k);
    }
  }

  /** Each question's flag is among the questionnaire's flags exactly when its rule fires. */
  lemma QuestionFlagsIff(fires: seq<bool>)
    requires |fires| == QUESTION_COUNT
    ensures forall k :: 0 <= k < QUESTION_COUNT ==> (QuestionFlag(k) in QuestionFlags(fires, 0) <==> fires[k])
  {
    forall k | 0 <= k < QUESTION_COUNT
      ensures QuestionFlag(k) in QuestionFlags(fires, 0) <==> fires[k]
    {
      QuestionFlagIffFrom(fires, 0, k);
    }
  }

  /**
   * The email's red flag is raised exactly on "@gmail.com" or "@yahoo.com",
   * its green flag exactly on ".com" without "gmail" otherwise, and never both.
   */
  lemma EmailFlags(answers: seq<string>, email: string)
    requires |answers| == QUESTION_COUNT
    ensures PersonalDomainUsed in RedFlags(answers, email) <==> EmailRaisesRedFlag(email)
    ensures ProfessionalDomain in GreenFlags(email) <==>
              !EmailRaisesRedFlag(email) && Includes(email, ".com") && !Includes(email, "gmail")
    ensures !(PersonalDomainUsed in RedFlags(answers, email) && ProfessionalDomain in GreenFlags(email))
  {
    QuestionFlagsRange(Tripped(answers), 0);
  }

  // ---------------------------------------------------------------------------
  // The answer options against the rubric
  // ---------------------------------------------------------------------------

  /** "Yes" lower-cases to "yes", which holds "yes" and not "no". */
  lemma YesOption()
    ensures Includes(ToLower("Yes"), "yes") && !Includes(ToLower("Yes"), "no")
  {
    var lower := ToLower("Yes");
    assert lower == "yes";
    assert OccursAt(lower, "yes", 0);
    assert 'n' !in lower;
    MissingCharExcludes(lower, "no", 0);
  }

  /** "No" lower-cases to "no", which holds "no" and not "yes". */
  lemma NoOption()
    ensures Includes(ToLower("No"), "no") && !Includes(ToLower("No"), "yes")
  {
    var lower := ToLower("No");
    assert lower == "no";
    assert OccursAt(lower, "no", 0);
  }

  /** "Not Sure" lower-cases to "not sure", which holds "no" (its first two letters) and not "yes". */
  lemma NotSureOption()
    ensures Includes(ToLower("Not Sure"), "no") && !Includes(ToLower("Not Sure"), "yes")
  {
    var lower := ToLower("Not Sure");
    assert lower == "not sure";
    assert OccursAt(lower, "no", 0);
    assert 'y' !in lower;
    MissingCharExcludes(lower, "yes", 0);
  }

  /**
   * With the three radio options, questions 0, 1, 3 and 4 fire only on "Yes",
   * and question 2 fires on "No" and on "Not Sure", since "not sure" contains "no".
   */
  lemma OptionsAgainstRules(k: nat, option: string)
    requires k < QUESTION_COUNT && option in ANSWER_OPTIONS
    ensures k != 2 ==> (Trips(k, option) <==> option == "Yes")
    ensures k == 2 ==> (Trips(k, option) <==> option == "No" || option == "Not Sure")
  {
    YesOption();
    NoOption();
    NotSureOption();
  }

  /** Answering every question with its risky option gives the top score and the High tier. */
  lemma AllRiskyAnswersAreHigh(email: string, d: Draws)
    requires ValidDraws(d)
    ensures var r := Assess(["Yes", "Yes", "No", "Yes", "Yes"], email, d);
            |r.redFlags| >= 5 && r.riskScore == 100 && r.riskLevel == High
  {
    var answers := ["Yes", "Yes", "No", "Yes", "Yes"];
    YesOption();
    NoOption();
    assert forall k :: 0 <= k < 5 ==> Trips(k, answers[k]);
    QuestionFlagsUnrolled(Tripped(answers));
  }

  /** Answering every question with its safe option and a non-webmail address gives no red flag and Low. */
  lemma SafeAnswersAreLow(email: string, d: Draws)
    requires ValidDraws(d) && !EmailRaisesRedFlag(email)
    ensures var r := Assess(["No", "No", "Yes", "No", "No"], email, d);
            r.redFlags == [] && r.riskScore < 10 && r.riskLevel == Low
  {
    var answers := ["No", "No", "Yes", "No", "No"];
    YesOption();
    NoOption();
    assert forall k :: 0 <= k < 5 ==> !Trips(k, answers[k]);
    QuestionFlagsUnrolled(Tripped(answers));
  }

  /**
   * Answers [Yes, No, Yes, No, No] with "hr@gmail.com" raise the money flag
   * and the webmail flag only, so the score is 40 to 49 and the tier Medium.
   */
  lemma MoneyAndGmailExample(d: Draws)
    requires ValidDraws(d)
    ensures var r := Assess(["Yes", "No", "Yes", "No", "No"], "hr@gmail.com", d);
            r.redFlags == [MoneyRequested, PersonalDomainUsed] && r.greenFlags == []
            && 40 <= r.riskScore < 50 && r.riskLevel == Medium
  {
    OnlyMoneyTrips();
    GmailIsWebmail();
  }

  /** Of the answers [Yes, No, Yes, No, No], only question 0's rule fires. */
  lemma OnlyMoneyTrips()
    ensures QuestionFlags(Tripped(["Yes", "No", "Yes", "No", "No"]), 0) == [MoneyRequested]
  {
    var answers := ["Yes", "No", "Yes", "No", "No"];
    YesOption();
    NoOption();
    assert forall k :: 0 <= k < 5 ==> (Trips(k, answers[k]) <==> k == 0);
    var fires := Tripped(answers);
    assert fires == [true, false, false, false, false];
    QuestionFlagsUnrolled(fires);
  }

  /** "hr@gmail.com" raises the webmail red flag. */
  lemma GmailIsWebmail()
    ensures EmailRaisesRedFlag("hr@gmail.com")
  {
    assert "hr@gmail.com" == "hr" + "@gmail.com";
    IncludesSuffix("hr", "@gmail.com");
  }

  /**
   * The email checks are case-sensitive: "hr@Gmail.com" is not taken for
   * webmail and earns the "Professional email domain" green flag.
   */
  lemma MixedCaseWebmailLooksProfessional()
    ensures !EmailRaisesRedFlag("hr@Gmail.com")
    ensures EmailRaisesGreenFlag("hr@Gmail.com")
  {
    var email := "hr@Gmail.com";
    assert 'g' !in email && 'y' !in email;
    MissingCharExcludes(email, "@gmail.com", 1);
    MissingCharExcludes(email, "@yahoo.com", 1);
    MissingCharExcludes(email, "gmail", 0);
    assert email[8..12] == ".com";
    assert OccursAt(email, ".com", 8);
  }

  // ---------------------------------------------------------------------------
  // The wizard
  // ---------------------------------------------------------------------------

  /** The text fields of the form (the offer-letter upload is not modelled). */
  datatype ScanForm = ScanForm(
    internshipText: string,
    companyName: string,
    recruiterEmail: string,
    recruiterPhone: string,
    recruiterName: string)
  {
    function Get(field: FormField): string {
      match field
      case InternshipText => internshipText
      case CompanyName => companyName
      case RecruiterEmail => recruiterEmail
      case RecruiterPhone => recruiterPhone
      case RecruiterName => recruiterName
    }
  }

  /** The keys `handleInputChange` is called with. */
  datatype FormField = InternshipText | CompanyName | RecruiterEmail | RecruiterPhone | RecruiterName

  const EMPTY_FORM := ScanForm("", "", "", "", "")

  const DETAILS_MISSING := "Please provide internship details"
  const CONTACT_MISSING := "Please provide company name and recruiter email"
  const ANSWERS_MISSING := "Please answer all AI questions"
  const ANALYZING := "Analyzing your submission..."

  /** No answer is blank after trimming: the `unanswered` filter comes back empty. */
  predicate AllAnswered(answers: seq<string>) {
    forall i :: 0 <= i < |answers| ==> !IsBlank(answers[i])
  }

  class ScanWizard {
    var step: int
    var formData: ScanForm
    /** The answers of the five questions, updated in place. */
    const answers: array<string>
    var scanResults: Option<ScanResult>

    ghost predicate Valid()
      reads this
    {
      && answers.Length == QUESTION_COUNT
      && 1 <= step <= 4
      && (step == 4 ==> scanResults.Some?)
      && (scanResults.Some? ==> Consistent(scanResults.value))
    }

    constructor ()
      ensures Valid() && fresh(answers)
      ensures step == 1 && formData == EMPTY_FORM && scanResults == None
      ensures answers[..] == ["", "", "", "", ""]
    {
      step := 1;
      formData := EMPTY_FORM;
      answers := new string[5](_ => "");
      scanResults := None;
    }

    /** handleInputChange: one form field takes the raw value. */
    method HandleInputChange(field: FormField, value: string)
      requires Valid()
      modifies this
      ensures Valid()
      ensures formData.Get(field) == value
      ensures forall f :: f != field ==> formData.Get(f) == old(formData).Get(f)
      ensures step == old(step) && scanResults == old(scanResults)
    {
      formData := match field
        case InternshipText => formData.(internshipText := value)
        case CompanyName => formData.(companyName := value)
        case RecruiterEmail => formData.(recruiterEmail := value)
        case RecruiterPhone => formData.(recruiterPhone := value)
        case RecruiterName => formData.(recruiterName := value);
    }

    /** handleAIQuestionAnswer: only the answer at `index` changes. */
    method HandleAIQuestionAnswer(index: nat, answer: string)
      requires Valid() && index < answers.Length
      modifies answers
      ensures Valid()
      ensures answers[..] == old(answers[..])[index := answer]
    {
      answers[index] := answer;
    }

    /**
     * handleNext: advance one step when the current step's fields are filled
     * in. On step 3 the delayed analysis and the move to step 4 happen as one
     * transition.
     */
    method HandleNext(draws: Draws) returns (toast: Toast)
      requires Valid() && ValidDraws(draws)
      modifies this
      ensures Valid()
      ensures formData == old(formData) && answers[..] == old(answers[..])
      ensures old(step) == 1 ==>
        if IsBlank(formData.internshipText)
        then step == 1 && scanResults == old(scanResults) && toast == Error(DETAILS_MISSING)
        else step == 2 && scanResults == old(scanResults) && toast == NoToast
      ensures old(step) == 2 ==>
        if IsBlank(formData.companyName) || IsBlank(formData.recruiterEmail)
        then step == 2 && scanResults == old(scanResults) && toast == Error(CONTACT_MISSING)
        else step == 3 && scanResults == old(scanResults) && toast == NoToast
      ensures old(step) == 3 ==>
        if !AllAnswered(answers[..])
        then step == 3 && scanResults == old(scanResults) && toast == Error(ANSWERS_MISSING)
        else step == 4 && scanResults == Some(Assess(answers[..], formData.recruiterEmail, draws))
             && toast == Info(ANALYZING)
      ensures old(step) == 4 ==> step == 4 && scanResults == old(scanResults) && toast == NoToast
    {
      toast := NoToast;
      if step == 1 {
        if IsBlank(formData.internshipText) {
          toast := Error(DETAILS_MISSING);
          return;
        }
        step := 2;
      } else if step == 2 {
        if IsBlank(formData.companyName) || IsBlank(formData.recruiterEmail) {
          toast := Error(CONTACT_MISSING);
          return;
        }
        step := 3;
      } else if step == 3 {
        if !AllAnswered(answers[..]) {
          toast := Error(ANSWERS_MISSING);
          return;
        }
        toast := Info(ANALYZING);
        var result := PerformScamAnalysis(answers[..], formData.recruiterEmail, draws);
        scanResults := Some(result);
        step := 4;
      }
    }

    /** handleBack: one step back, or leave for the home page from step 1. */
    method HandleBack() returns (navigateTo: Option<string>)
      requires Valid()
      modifies this
      ensures Valid()
      ensures old(step) > 1 ==> step == old(step) - 1 && navigateTo == None
      ensures old(step) == 1 ==> step == 1 && navigateTo == Some("/")
      ensures formData == old(formData) && scanResults == old(scanResults)
    {
      if step > 1 {
        step := step - 1;
        navigateTo := None;
      } else {
        navigateTo := Some("/");
      }
    }

    /** restartScan: back to step 1 with an empty form and no result; the answers stay. */
    method RestartScan()
      requires Valid()
      modifies this
      ensures Valid()
      ensures step == 1 && formData == EMPTY_FORM && scanResults == None
      ensures answers[..] == old(answers[..])
    {
      step := 1;
      formData := EMPTY_FORM;
      scanResults := None;
    }
  }
}

/** The derived-metric calculators: health score, BMI status, education
    stage milestones, education progress and the overall life score. */
module Metrics {
  import opened Common

  function Clamp(x: int, lo: int, hi: int): (r: int)
    requires lo <= hi
    ensures lo <= r <= hi
    ensures lo <= x <= hi ==> r == x
  {
    if x < lo then lo else if x > hi then hi else x
  }

  // ---------------------------------------------------------------------
  // Health score

  /** Points the BMI band costs: nothing on [20, 25], 10 just outside it,
      20 below 18.5 or above 30. */
  function BmiPenalty(bmi: real): (p: int)
    ensures p == 0 <==> 20.0 <= bmi <= 25.0
    ensures p == 10 <==> (18.5 <= bmi < 20.0 || 25.0 < bmi <= 30.0)
    ensures p == 20 <==> (bmi < 18.5 || bmi > 30.0)
  {
    if bmi < 18.5 || bmi > 30.0 then 20
    else if bmi < 20.0 || bmi > 25.0 then 10
    else 0
  }

  /** The exercise-frequency table of the health score. */
  const ExerciseScores: map<string, int> :=
    map["从不" := -20, "偶尔(每月1-2次)" := -10, "每周1-2次" := 0, "每周3-4次" := 5, "每天" := 10]

  /** Signed adjustment for an exercise frequency; a frequency missing from
      the table adjusts nothing. */
  function ExerciseAdjust(freq: string): (a: int)
    ensures -20 <= a <= 10
    ensures freq !in ExerciseScores ==> a == 0
    ensures a == -20 <==> freq == "从不"
    ensures a == 10 <==> freq == "每天"
  {
    if freq in ExerciseScores then ExerciseScores[freq] else 0
  }

  /** Points the sleep duration costs: nothing on [7, 8], 5 just outside it,
      10 below 6 or above 9 hours. */
  function SleepPenalty(hours: real): (p: int)
    ensures p == 0 <==> 7.0 <= hours <= 8.0
    ensures p == 5 <==> (6.0 <= hours < 7.0 || 8.0 < hours <= 9.0)
    ensures p == 10 <==> (hours < 6.0 || hours > 9.0)
  {
    if hours < 6.0 || hours > 9.0 then 10
    else if hours < 7.0 || hours > 8.0 then 5
    else 0
  }

  /** Signed age adjustment: -5 over 60, +5 under 25. */
  function AgeAdjust(age: int): (a: int)
    ensures a == -5 <==> age > 60
    ensures a == 5 <==> age < 25
    ensures a == 0 <==> 25 <= age <= 60
  {
    if age > 60 then -5 else if age < 25 then 5 else 0
  }

  /** The score before clamping: 100 minus every penalty, plus every bonus. */
  function RawHealthScore(age: int, bmi: real, exerciseFreq: string, sleepHours: real, noSmoke: bool): int {
    100 - BmiPenalty(bmi) + ExerciseAdjust(exerciseFreq) - SleepPenalty(sleepHours)
        - (if noSmoke then 0 else 15) + AgeAdjust(age)
  }

  /** `calculate_health_score`: the raw score clamped to [0, 100].  The
      lower clamp never binds: the worst case is 100-20-20-10-15-5 = 30, so
      the score is the raw score capped at 100. */
  function HealthScore(age: int, bmi: real, exerciseFreq: string, sleepHours: real, noSmoke: bool): (r: int)
    ensures 30 <= r <= 100
    ensures r == 100 || r == RawHealthScore(age, bmi, exerciseFreq, sleepHours, noSmoke)
    ensures r == 100 <==> RawHealthScore(age, bmi, exerciseFreq, sleepHours, noSmoke) >= 100
  {
    Clamp(RawHealthScore(age, bmi, exerciseFreq, sleepHours, noSmoke), 0, 100)
  }

  /** Holding the other inputs fixed, moving the BMI further away from the
      band [20, 25] on either side never raises the health score. */
  lemma HealthScoreFallsAwayFromBand(age: int, b1: real, b2: real, exerciseFreq: string, sleepHours: real, noSmoke: bool)
    requires (25.0 <= b1 <= b2) || (b2 <= b1 <= 20.0)
    ensures HealthScore(age, b2, exerciseFreq, sleepHours, noSmoke) <= HealthScore(age, b1, exerciseFreq, sleepHours, noSmoke)
  {
  }

  // ---------------------------------------------------------------------
  // BMI status

  datatype BmiStatus = Underweight | Normal | Overweight | Obese {
    /** The label the health page shows. */
    function Label(): string {
      match this
      case Underweight => "偏瘦"
      case Normal => "正常"
      case Overweight => "偏胖"
      case Obese => "肥胖"
    }
  }

  /** `get_bmi_status`: cut-offs 18.5, 24 and 28, each band closed below. */
  function BmiStatusOf(bmi: real): (s: BmiStatus)
    ensures s == Underweight <==> bmi < 18.5
    ensures s == Normal <==> 18.5 <= bmi < 24.0
    ensures s == Overweight <==> 24.0 <= bmi < 28.0
    ensures s == Obese <==> 28.0 <= bmi
  {
    if bmi < 18.5 then Underweight
    else if 18.5 <= bmi < 24.0 then Normal
    else if 24.0 <= bmi < 28.0 then Overweight
    else Obese
  }

  /** The text `get_bmi_status` returns for each band. */
  lemma BmiStatusLabels(bmi: real)
    ensures BmiStatusOf(bmi).Label() == "偏瘦" <==> bmi < 18.5
    ensures BmiStatusOf(bmi).Label() == "正常" <==> 18.5 <= bmi < 24.0
    ensures BmiStatusOf(bmi).Label() == "偏胖" <==> 24.0 <= bmi < 28.0
    ensures BmiStatusOf(bmi).Label() == "肥胖" <==> 28.0 <= bmi
  {
  }

  // ---------------------------------------------------------------------
  // Education stages and progress

  /** The five grades the stage table knows. */
  const StageGrades: set<string> := {"幼儿园", "小学", "初中", "高中", "大学"}

  /** Milestones of each known stage. */
  const Stages: map<string, seq<string>> := map[
    "幼儿园" := ["语言发展", "社交能力", "基础认知"],
    "小学" := ["基础学科", "兴趣培养", "学习习惯"],
    "初中" := ["学科深化", "青春期引导", "中考准备"],
    "高中" := ["高考准备", "专业选择", "综合素质"],
    "大学" := ["专业学习", "实习就业", "人生规划"]
  ]

  /** `get_education_stage_progress`: the number of milestones of a grade's
      stage; every known stage has three, and any other grade (including
      "其他") has none. */
  function StageMilestones(grade: string): (n: nat)
    ensures n == (if grade in StageGrades then 3 else 0)
  {
    if grade in Stages then |Stages[grade]| else 0
  }

  /** The grade-to-progress table of `calculate_education_progress`. */
  const GradeProgressTable: map<string, int> :=
    map["幼儿园" := 20, "小学" := 40, "初中" := 60, "高中" := 80, "大学" := 95, "其他" := 50]

  /** Progress percentage of one grade; an unknown grade counts as 0. */
  function GradeProgress(grade: string): (p: int)
    ensures 0 <= p <= 95
    ensures grade !in GradeProgressTable ==> p == 0
    ensures p == 95 <==> grade == "大学"
  {
    if grade in GradeProgressTable then GradeProgressTable[grade] else 0
  }

  /** Sum of the grade progress of the children, accumulated left to right. */
  function TotalProgress(children: seq<Child>): (t: int)
    ensures 0 <= t <= 95 * |children|
  {
    if |children| == 0 then 0
    else TotalProgress(children[..|children| - 1]) + GradeProgress(children[|children| - 1].grade)
  }

  /** `calculate_education_progress` as a value: 0 without children,
      otherwise the mean progress truncated toward zero. */
  function EducationProgress(children: seq<Child>): (p: int)
    ensures 0 <= p <= 95
    ensures |children| == 0 ==> p == 0
  {
    if |children| == 0 then 0 else TotalProgress(children) / |children|
  }

  /** `calculate_education_progress`: sums the grade table over the
      children in one pass, then takes the truncated mean. */
  method CalculateEducationProgress(children: seq<Child>) returns (p: int)
    ensures p == EducationProgress(children)
    ensures 0 <= p <= 95
  {
    if |children| == 0 {
      return 0;
    }
    var total := 0;
    var i := 0;
    while i < |children|
      invariant 0 <= i <= |children|
      invariant total == TotalProgress(children[..i])
    {
      assert children[..i + 1][..i] == children[..i];
      total := total + GradeProgress(children[i].grade);
      i := i + 1;
    }
    assert children[..i] == children;
    p := total / |children|;
  }

  /** One child in primary school and one at university: (40 + 95) / 2
      truncates to 67. */
  lemma PrimaryAndUniversityExample(a: Child, b: Child)
    requires a.grade == "小学" && b.grade == "大学"
    ensures EducationProgress([a, b]) == 67
  {
    assert [a, b][..1] == [a];
    assert [a][..0] == [];
    assert TotalProgress([a]) == 40;
    assert TotalProgress([a, b]) == 135;
  }

  // ---------------------------------------------------------------------
  // Life score

  const WealthScoreKey: Key := Col("wealth_score")
  const TotalAssetsKey: Key := Col("total_assets")
  const HealthScoreKey: Key := Col("health_score")
  const EducationProgressKey: Key := Col("education_progress")

  /** A stored value used in arithmetic: numbers as they are, booleans as
      1 and 0; text and None make Python raise a TypeError. */
  function AsNumber(v: Value): Option<real> {
    match v
    case Num(x) => Some(x)
    case Flag(b) => Some(if b then 1.0 else 0.0)
    case _ => None
  }

  /** The wealth input: the stored `wealth_score`, or else 70 when
      `total_assets` is present and truthy and 50 otherwise. */
  function WealthInput(record: Row): Value {
    if WealthScoreKey in record then record[WealthScoreKey]
    else if TotalAssetsKey in record && Truthy(record[TotalAssetsKey]) then Num(70.0)
    else Num(50.0)
  }

  /** The 40/30/30 weighting, in exact arithmetic. */
  function Weighted(wealth: real, health: real, education: real): real {
    (4.0 * wealth + 3.0 * health + 3.0 * education) / 10.0
  }

  /** The weighted score clamped to [0, 100] and truncated: the largest
      whole score not above the weighted value, within [0, 100]. */
  function ScoreOf(wealth: real, health: real, education: real): (r: int)
    ensures 0 <= r <= 100
    ensures 0.0 <= Weighted(wealth, health, education) <= 100.0 ==>
              r as real <= Weighted(wealth, health, education) < r as real + 1.0
    ensures Weighted(wealth, health, education) >= 100.0 ==> r == 100
    ensures Weighted(wealth, health, education) < 1.0 ==> r == 0
  {
    var w := Weighted(wealth, health, education);
    if w < 0.0 then 0 else if w > 100.0 then 100 else w.Floor
  }

  /** `calculate_life_score`: `None` stands for the TypeError Python raises
      when one of the three inputs is not a number. */
  function LifeScore(record: Row): (r: Option<int>)
    ensures r.Some? <==> AsNumber(WealthInput(record)).Some?
                         && AsNumber(Get(record, HealthScoreKey, Num(50.0))).Some?
                         && AsNumber(Get(record, EducationProgressKey, Num(50.0))).Some?
    ensures r.Some? ==> 0 <= r.value <= 100
  {
    var w := AsNumber(WealthInput(record));
    var h := AsNumber(Get(record, HealthScoreKey, Num(50.0)));
    var e := AsNumber(Get(record, EducationProgressKey, Num(50.0)));
    if w.Some? && h.Some? && e.Some? then Some(ScoreOf(w.value, h.value, e.value)) else None
  }

  /** The defaults: an empty record scores 50; a record with only nonzero
      total assets scores 0.4 * 70 + 0.3 * 50 + 0.3 * 50 = 58. */
  lemma LifeScoreDefaults(assets: real)
    requires assets != 0.0
    ensures LifeScore(map[]) == Some(50)
    ensures LifeScore(map[TotalAssetsKey := Num(assets)]) == Some(58)
    ensures LifeScore(map[TotalAssetsKey := Num(0.0)]) == Some(50)
  {
    assert Weighted(50.0, 50.0, 50.0) == 50.0;
    assert Weighted(70.0, 50.0, 50.0) == 58.0;
  }

  /** Wealth 70, health 85, education 75: 28 + 25.5 + 22.5 = 76. */
  lemma LifeScoreExample()
    ensures LifeScore(map[WealthScoreKey := Num(70.0), HealthScoreKey := Num(85.0), EducationProgressKey := Num(75.0)]) == Some(76)
  {
    assert Weighted(70.0, 85.0, 75.0) == 76.0;
  }
}

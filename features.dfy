/**
 * The feature table `asthma_features`: one SELECT over every generated row that
 * keeps the clinical columns, adds a 0/1 smoker flag and a BMI category, and
 * drops `pets` and `trigger`. The same BMI CASE also groups the rows of the
 * bmi-by-control report.
 */
module Features {
  import opened Wrappers
  import opened Synth

  datatype BmiCategory = Underweight | Normal | Overweight | Obese

  /** Position of a category on the BMI scale. */
  function Rank(c: BmiCategory): nat {
    match c
    case Underweight => 0
    case Normal => 1
    case Overweight => 2
    case Obese => 3
  }

  /**
   * The CASE on `bmi` (held in tenths): the first WHEN that holds decides, and
   * ELSE catches the rest, so every bmi falls in exactly one half-open band.
   */
  function BmiCategoryOf(bmi: int): (c: BmiCategory)
    ensures c == Underweight <==> bmi < 185
    ensures c == Normal <==> 185 <= bmi < 250
    ensures c == Overweight <==> 250 <= bmi < 300
    ensures c == Obese <==> 300 <= bmi
  {
    if bmi < 185 then Underweight
    else if bmi < 250 then Normal
    else if bmi < 300 then Overweight
    else Obese
  }

  /** A higher bmi never falls in a lower category. */
  lemma BmiCategoryMonotone(a: int, b: int)
    requires a <= b
    ensures Rank(BmiCategoryOf(a)) <= Rank(BmiCategoryOf(b))
  {
  }

  /**
   * The generator's bmi risk indicator (strictly above 30) implies "Obese", but
   * not conversely: a bmi of exactly 30.0 is "Obese" without raising the indicator.
   */
  lemma BmiIndicatorImpliesObese(bmi: int)
    ensures Indicator(bmi > 300) == 1 ==> BmiCategoryOf(bmi) == Obese
    ensures BmiCategoryOf(300) == Obese && Indicator(300 > 300) == 0
  {
  }

  /** `(smoking_status != 'Never')::INT`. */
  function SmokerFlag(s: Smoking): (flag: nat)
    ensures flag <= 1
    ensures flag == 0 <==> s == Never
  {
    if s != Never then 1 else 0
  }

  /** One row of `asthma_features`, columns in SELECT order. */
  datatype FeatureRow = FeatureRow(
    patientId: string,
    age: int,
    gender: Gender,
    bmi: int,                 // tenths
    smokingStatus: Smoking,
    smokerFlag: nat,
    activityLevel: Activity,
    environment: Environment,
    comorbidity: Option<Comorbidity>,
    eosinophils: int,         // hundredths
    erVisits: int,
    fev1: int,                // hundredths
    riskScore: int,           // hundredths
    controlStatus: Option<Control>,
    bmiCategory: BmiCategory,
    year: nat,
    month: nat
  )

  /** The selected columns of `f` are those of `r`, unchanged. */
  predicate CopiesColumns(f: FeatureRow, r: Record) {
    && f.patientId == r.patientId
    && f.age == r.age
    && f.gender == r.gender
    && f.bmi == r.bmi
    && f.smokingStatus == r.smokingStatus
    && f.activityLevel == r.activityLevel
    && f.environment == r.environment
    && f.comorbidity == r.comorbidity
    && f.eosinophils == r.eosinophils
    && f.erVisits == r.erVisits
    && f.fev1 == r.fev1
    && f.riskScore == r.riskScore
    && f.controlStatus == r.controlStatus
    && f.year == r.year
    && f.month == r.month
  }

  /** The SELECT list applied to one row. */
  function DeriveRow(r: Record): (f: FeatureRow)
    ensures CopiesColumns(f, r)
    ensures f.smokerFlag == SmokerFlag(r.smokingStatus)
    ensures f.bmiCategory == BmiCategoryOf(r.bmi)
  {
    FeatureRow(r.patientId, r.age, r.gender, r.bmi, r.smokingStatus, SmokerFlag(r.smokingStatus),
               r.activityLevel, r.environment, r.comorbidity, r.eosinophils, r.erVisits,
               r.fev1, r.riskScore, r.controlStatus, BmiCategoryOf(r.bmi), r.year, r.month)
  }

  /** The whole table: one feature row per input row, each derived from its own row. */
  function DeriveFeatures(recs: seq<Record>): (table: seq<FeatureRow>)
    ensures |table| == |recs|
    ensures forall i :: 0 <= i < |recs| ==>
      && CopiesColumns(table[i], recs[i])
      && table[i].smokerFlag == SmokerFlag(recs[i].smokingStatus)
      && table[i].bmiCategory == BmiCategoryOf(recs[i].bmi)
  {
    seq(|recs|, i requires 0 <= i < |recs| => DeriveRow(recs[i]))
  }
}

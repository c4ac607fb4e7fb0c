/**
 * The chunk synthesiser `synth_chunk` of the generator: one batch of synthetic
 * asthma-patient records. The random source is not modelled; each row's draws
 * come in as an explicit `RowDraw`, after which every field is a deterministic
 * function of the draws and of the row's sequence number.
 *
 * Units: `bmi` is held in tenths, `fev1`, `eosinophils` and `riskScore` in
 * hundredths, so the rounding at one and two decimals is exact.
 */
module Synth {
  import opened Wrappers
  import opened Digits
  import opened Seqs

  // The categorical columns. The source keeps them as strings (with None for
  // "no trigger", "no comorbidity" and "unknown control status"); here each
  // vocabulary is closed as a datatype and the absent value is `None`.
  datatype Gender = Male | Female
  datatype Smoking = Never | Former | Current
  datatype Trigger = Dust | Pollen | Multiple
  datatype Activity = Sedentary | Moderate | Active
  datatype Environment = Indoor | Outdoor
  datatype Comorbidity = Diabetes | Hypertension | Both
  datatype Control = WellControlled | PartlyControlled | PoorlyControlled

  // The arrays the draws choose from, in the order the source lists them.
  const GENDERS: seq<Gender> := [Male, Female]
  const SMOKING: seq<Smoking> := [Never, Former, Current]
  const TRIGGERS: seq<Option<Trigger>> := [None, Some(Dust), Some(Pollen), Some(Multiple)]
  const ACTIVITY: seq<Activity> := [Sedentary, Moderate, Active]
  const ENV: seq<Environment> := [Indoor, Outdoor]
  const COMORB: seq<Option<Comorbidity>> := [None, Some(Diabetes), Some(Hypertension), Some(Both)]
  const YEARS: seq<int> := [2023, 2024, 2025]

  /** Fraction of rows whose control status is blanked out. */
  const MASK_RATE: real := 0.08

  /** One row's draws from the random source, as NumPy returns them. */
  datatype RowDraw = RowDraw(
    age: int,           // integers(5, 90)
    gender: nat,        // choice index into GENDERS
    bmi: real,          // normal(27.5, 5.0)
    smoking: nat,       // choice index into SMOKING
    pets: int,          // integers(0, 4)
    trigger: nat,       // choice index into TRIGGERS
    activity: nat,      // choice index into ACTIVITY
    environment: nat,   // choice index into ENV
    comorbidity: nat,   // choice index into COMORB
    fev1: real,         // normal(3.2, 0.8)
    eosinophils: real,  // normal(0.35, 0.15)
    erVisits: int,      // poisson(0.4)
    mask: real,         // random(), uniform on [0, 1)
    year: nat,          // choice index into YEARS
    month: int          // integers(1, 13)
  )

  /** What NumPy guarantees of a draw: integers inside their half-open ranges, choice indices inside their arrays. */
  predicate WellFormed(d: RowDraw) {
    && 5 <= d.age < 90
    && d.gender < |GENDERS|
    && d.smoking < |SMOKING|
    && 0 <= d.pets < 4
    && d.trigger < |TRIGGERS|
    && d.activity < |ACTIVITY|
    && d.environment < |ENV|
    && d.comorbidity < |COMORB|
    && d.year < |YEARS|
    && 1 <= d.month < 13
  }

  /** One output row, with the columns of the generated table in their order. */
  datatype Record = Record(
    patientId: string,
    age: int,
    gender: Gender,
    bmi: int,                 // tenths
    smokingStatus: Smoking,
    pets: int,
    trigger: Option<Trigger>,
    activityLevel: Activity,
    environment: Environment,
    comorbidity: Option<Comorbidity>,
    eosinophils: int,         // hundredths
    erVisits: int,
    fev1: int,                // hundredths
    riskScore: int,           // hundredths
    controlStatus: Option<Control>,
    year: nat,
    month: nat
  )

  /**
   * Every numeric column inside its clipped or drawn range. (The categorical
   * columns are closed datatypes, so they cannot leave their vocabularies.)
   */
  predicate InVocabulary(r: Record) {
    && 5 <= r.age <= 89
    && 140 <= r.bmi <= 550
    && 0 <= r.pets <= 3
    && 50 <= r.fev1 <= 600
    && 5 <= r.eosinophils <= 200
    && 0 <= r.erVisits <= 10
    && 0 <= r.riskScore <= 100
    && 2023 <= r.year <= 2025
    && 1 <= r.month <= 12
  }

  // ---------------------------------------------------------------------------
  // Patient identifiers

  /** `f"ASTH{n:06d}"`: the prefix `ASTH`, then at least six digits. */
  function PatientId(n: nat): (id: string)
    ensures |id| >= 10 && id[..4] == "ASTH" && AllDigits(id[4..])
  {
    var id := "ASTH" + ZeroPad(n, 6);
    assert id[4..] == ZeroPad(n, 6);
    id
  }

  /** Below one million the identifier is "ASTH" and exactly six digits that spell `n`. */
  lemma PatientIdFormat(n: nat)
    requires n < 1000000
    ensures |PatientId(n)| == 10
    ensures AllDigits(PatientId(n)[4..]) && Value(PatientId(n)[4..]) == n
  {
    assert PatientId(n)[4..] == ZeroPad(n, 6);
    assert Pow10(6) == 1000000;
    ZeroPadExactWidth(n, 6);
    ZeroPadRoundTrip(n, 6);
  }

  /** Distinct sequence numbers give distinct identifiers, at any size. */
  lemma PatientIdInjective(a: nat, b: nat)
    requires PatientId(a) == PatientId(b)
    ensures a == b
  {
    assert PatientId(a)[4..] == ZeroPad(a, 6);
    assert PatientId(b)[4..] == ZeroPad(b, 6);
    ZeroPadInjective(a, 6, b, 6);
  }

  // ---------------------------------------------------------------------------
  // Clipping and rounding

  function Dist(a: real, b: real): (d: real)
    ensures d >= 0.0
  {
    if a < b then b - a else a - b
  }

  function DistInt(a: int, b: int): (d: nat) {
    if a < b then b - a else a - b
  }

  /** `x.clip(lo, hi)` on a float draw: the point of [lo, hi] nearest to x. */
  function Clip(x: real, lo: real, hi: real): (r: real)
    requires lo <= hi
    ensures lo <= r <= hi
    ensures lo <= x <= hi ==> r == x
    ensures forall y :: lo <= y <= hi ==> Dist(r, x) <= Dist(y, x)
  {
    if x < lo then lo else if x > hi then hi else x
  }

  /** `x.clip(lo, hi)` on an integer draw: the point of [lo, hi] nearest to x. */
  function ClipInt(x: int, lo: int, hi: int): (r: int)
    requires lo <= hi
    ensures lo <= r <= hi
    ensures lo <= x <= hi ==> r == x
    ensures forall y :: lo <= y <= hi ==> DistInt(r, x) <= DistInt(y, x)
  {
    if x < lo then lo else if x > hi then hi else x
  }

  lemma ClipIdempotent(x: real, lo: real, hi: real)
    requires lo <= hi
    ensures Clip(Clip(x, lo, hi), lo, hi) == Clip(x, lo, hi)
  {
  }

  lemma ClipIntIdempotent(x: int, lo: int, hi: int)
    requires lo <= hi
    ensures ClipInt(ClipInt(x, lo, hi), lo, hi) == ClipInt(x, lo, hi)
  {
  }

  /** The rounding of `np.round`: to the nearest integer, ties to the even one. */
  function RoundHalfEven(x: real): (r: int)
    ensures Dist(r as real, x) <= 0.5
    ensures Dist(r as real, x) == 0.5 ==> r % 2 == 0
  {
    var f := x.Floor;
    var frac := x - f as real;
    if frac < 0.5 then f
    else if frac > 0.5 then f + 1
    else if f % 2 == 0 then f
    else f + 1
  }

  /** `np.round(x.clip(lo, hi), 1)` in tenths; `lo` and `hi` are given in tenths. */
  function ClipRoundTenths(x: real, lo: int, hi: int): (r: int)
    requires lo <= hi
    ensures lo <= r <= hi
  {
    RoundHalfEven(Clip(x, lo as real / 10.0, hi as real / 10.0) * 10.0)
  }

  /** `np.round(x.clip(lo, hi), 2)` in hundredths; `lo` and `hi` are given in hundredths. */
  function ClipRoundHundredths(x: real, lo: int, hi: int): (r: int)
    requires lo <= hi
    ensures lo <= r <= hi
  {
    RoundHalfEven(Clip(x, lo as real / 100.0, hi as real / 100.0) * 100.0)
  }

  // ---------------------------------------------------------------------------
  // Risk score and control status

  function Indicator(b: bool): (v: nat)
    ensures v <= 1
    ensures v == 1 <==> b
  {
    if b then 1 else 0
  }

  /** The sums the four weighted indicators can reach, in hundredths. */
  const RISK_LEVELS: set<int> := {0, 20, 25, 30, 45, 50, 55, 70, 75, 80, 100}

  /**
   * The weighted indicator sum in hundredths: 0.20 for bmi above 30, 0.25 for a
   * current smoker, 0.25 for eosinophils above 0.5, 0.30 for two or more ER visits.
   */
  function RiskScore(bmi: int, smoking: Smoking, eosinophils: int, erVisits: int): (r: int)
    ensures 0 <= r <= 100
    ensures r in RISK_LEVELS
  {
    20 * Indicator(bmi > 300) + 25 * Indicator(smoking == Current)
    + 25 * Indicator(eosinophils > 50) + 30 * Indicator(erVisits >= 2)
  }

  function IndicatorCount(bmi: int, smoking: Smoking, eosinophils: int, erVisits: int): (n: nat)
    ensures n <= 4
  {
    Indicator(bmi > 300) + Indicator(smoking == Current)
    + Indicator(eosinophils > 50) + Indicator(erVisits >= 2)
  }

  /** The nested `np.where`: above 0.6 poorly, above 0.35 partly, otherwise well controlled. */
  function ControlLabel(risk: int): (status: Control)
    ensures status == PoorlyControlled <==> risk > 60
    ensures status == PartlyControlled <==> 35 < risk <= 60
    ensures status == WellControlled <==> risk <= 35
  {
    if risk > 60 then PoorlyControlled else if risk > 35 then PartlyControlled else WellControlled
  }

  /** Severity order of the control statuses. */
  function Severity(c: Control): nat {
    match c
    case WellControlled => 0
    case PartlyControlled => 1
    case PoorlyControlled => 2
  }

  /** A higher risk score never gives a better-controlled status. */
  lemma ControlLabelMonotone(r1: int, r2: int)
    requires r1 <= r2
    ensures Severity(ControlLabel(r1)) <= Severity(ControlLabel(r2))
  {
  }

  /**
   * The thresholds count indicators: three or more give "Poorly Controlled",
   * exactly two "Partly Controlled", and one alone (at most 0.30) never
   * leaves "Well Controlled".
   */
  lemma ControlByIndicatorCount(bmi: int, smoking: Smoking, eosinophils: int, erVisits: int)
    ensures var n := IndicatorCount(bmi, smoking, eosinophils, erVisits);
            var status := ControlLabel(RiskScore(bmi, smoking, eosinophils, erVisits));
            && (status == PoorlyControlled <==> n >= 3)
            && (status == PartlyControlled <==> n == 2)
            && (status == WellControlled <==> n <= 1)
  {
  }

  /** A uniform draw below 0.08 blanks the row's control status. */
  predicate Masked(d: RowDraw) {
    d.mask < MASK_RATE
  }

  /** `np.where(mask_none, None, control_status)`: a masked row loses its label, any other keeps it. */
  function MaskedStatus(d: RowDraw, risk: int): (status: Option<Control>)
    ensures status == None <==> Masked(d)
    ensures status != None ==> status == Some(ControlLabel(risk))
  {
    if Masked(d) then None else Some(ControlLabel(risk))
  }

  /** risk_score is the indicator sum of the row's own bmi, smoking, eosinophils and ER visits. */
  predicate RiskConsistent(r: Record) {
    r.riskScore == RiskScore(r.bmi, r.smokingStatus, r.eosinophils, r.erVisits)
  }

  // ---------------------------------------------------------------------------
  // Rows and chunks

  /** Row number `n` of the run, built from its draws. */
  function SynthRow(n: nat, d: RowDraw): (r: Record)
    requires WellFormed(d)
    ensures r.patientId == PatientId(n)
    ensures InVocabulary(r)
    ensures RiskConsistent(r)
    ensures r.controlStatus == (if Masked(d) then None else Some(ControlLabel(r.riskScore)))
  {
    var bmi := ClipRoundTenths(d.bmi, 140, 550);
    var smoking := SMOKING[d.smoking];
    var fev1 := ClipRoundHundredths(d.fev1, 50, 600);
    var eos := ClipRoundHundredths(d.eosinophils, 5, 200);
    var er := ClipInt(d.erVisits, 0, 10);
    var risk := RiskScore(bmi, smoking, eos, er);
    var control := MaskedStatus(d, risk);
    Record(
      PatientId(n), d.age, GENDERS[d.gender], bmi, smoking, d.pets, TRIGGERS[d.trigger],
      ACTIVITY[d.activity], ENV[d.environment], COMORB[d.comorbidity], eos, er, fev1,
      risk, control, YEARS[d.year], d.month)
  }

  /** Every draw of the stream is one NumPy can return. */
  predicate AllWellFormed(draws: seq<RowDraw>) {
    forall i :: 0 <= i < |draws| ==> WellFormed(draws[i])
  }

  /** Row n of the run is built from draw n of the stream and numbered n. */
  function RunRows(draws: seq<RowDraw>): (rows: seq<Record>)
    requires AllWellFormed(draws)
    ensures |rows| == |draws|
  {
    seq(|draws|, n requires 0 <= n < |draws| => SynthRow(n, draws[n]))
  }

  /**
   * `synth_chunk(start_id, rows)`: rows `startId` to `startId + rows - 1` of the
   * run. The column arrays are drawn together and zipped, so the chunk is its
   * rows in order.
   */
  function SynthChunk(draws: seq<RowDraw>, startId: nat, rows: nat): (recs: seq<Record>)
    requires AllWellFormed(draws) && startId + rows <= |draws|
    ensures |recs| == rows
  {
    RunRows(draws)[startId..startId + rows]
  }

  /** Row i of a chunk is row number `startId + i` of the run, built from draw `startId + i`. */
  lemma SynthChunkRow(draws: seq<RowDraw>, startId: nat, rows: nat, i: nat)
    requires AllWellFormed(draws) && startId + rows <= |draws|
    requires i < rows
    ensures SynthChunk(draws, startId, rows)[i] == SynthRow(startId + i, draws[startId + i])
  {
  }

  /**
   * Row n of the run is numbered n, has its columns in range, carries the risk
   * score of its own columns, and is labelled from that score unless masked.
   */
  lemma RunRowFacts(draws: seq<RowDraw>, n: nat)
    requires AllWellFormed(draws) && n < |draws|
    ensures var r := RunRows(draws)[n];
      && r.patientId == PatientId(n)
      && InVocabulary(r)
      && RiskConsistent(r)
      && r.controlStatus == (if Masked(draws[n]) then None else Some(ControlLabel(r.riskScore)))
  {
  }

  /** No two rows of a run share an identifier. */
  lemma RunIdsDistinct(draws: seq<RowDraw>, i: nat, j: nat)
    requires AllWellFormed(draws) && i < j < |draws|
    ensures RunRows(draws)[i].patientId != RunRows(draws)[j].patientId
  {
    RunRowFacts(draws, i);
    RunRowFacts(draws, j);
    if PatientId(i) == PatientId(j) {
      PatientIdInjective(i, j);
    }
  }

  /**
   * Any rearrangement of the first `rows` rows of a run, such as the rows of all
   * the files `main` writes, carries `rows` distinct identifiers: every row's id
   * is `PatientId(n)` for some n below `rows`, and no two rows share an id.
   */
  lemma RearrangedIdsDistinct(draws: seq<RowDraw>, rows: nat, out: seq<Record>)
    requires AllWellFormed(draws) && rows <= |draws|
    requires multiset(out) == multiset(SynthChunk(draws, 0, rows))
    ensures forall i :: 0 <= i < |out| ==> exists n :: 0 <= n < rows && out[i].patientId == PatientId(n)
    ensures forall i, j :: 0 <= i < j < |out| ==> out[i].patientId != out[j].patientId
  {
    var src := SynthChunk(draws, 0, rows);
    forall i | 0 <= i < |out|
      ensures exists n :: 0 <= n < rows && out[i].patientId == PatientId(n)
    {
      assert out[i] in multiset(src);
      var n :| 0 <= n < rows && src[n] == out[i];
      RunRowFacts(draws, n);
    }
    forall a, b | 0 <= a < b < |src|
      ensures src[a].patientId != src[b].patientId
    {
      RunIdsDistinct(draws, a, b);
    }
    RearrangedKeysDistinct(src, out, (r: Record) => r.patientId);
  }
}

/**
 * The loader's column-name clean-up, `c.strip().lower().replace(" ", "_")` on
 * each CSV header, and the two indexes it creates when the cleaned names
 * include `patient_id` or `visit_date`. Characters follow Python's ASCII
 * rules: whitespace is what `str.isspace` accepts below 128, and only `A`-`Z`
 * have lower-case forms.
 */
module ColumnNames {
  import opened Wrappers

  /** `str.isspace` on ASCII: tab, line feed, vertical tab, form feed, carriage return, the four separators 28-31, space. */
  predicate IsSpace(c: char): (space: bool)
    ensures c == ' ' || c == '\t' || c == '\n' || c == '\r' ==> space
    ensures space ==> c < '!'
  {
    9 <= c as int <= 13 || 28 <= c as int <= 32
  }

  predicate IsUpper(c: char) {
    'A' <= c <= 'Z'
  }

  predicate NoUpper(s: string) {
    forall i :: 0 <= i < |s| ==> !IsUpper(s[i])
  }

  /** No whitespace at either end. */
  predicate Trimmed(s: string) {
    s == [] || (!IsSpace(s[0]) && !IsSpace(s[|s| - 1]))
  }

  /** `lstrip()`: drops the leading run of whitespace and nothing else. */
  function StripStart(s: string): (t: string)
    ensures |t| <= |s| && t == s[|s| - |t|..]
    ensures forall i :: 0 <= i < |s| - |t| ==> IsSpace(s[i])
    ensures t == [] || !IsSpace(t[0])
  {
    if s != [] && IsSpace(s[0]) then StripStart(s[1..]) else s
  }

  /** `rstrip()`: drops the trailing run of whitespace and nothing else. */
  function StripEnd(s: string): (t: string)
    ensures |t| <= |s| && t == s[..|t|]
    ensures forall i :: |t| <= i < |s| ==> IsSpace(s[i])
    ensures t == [] || !IsSpace(t[|t| - 1])
  {
    if s != [] && IsSpace(s[|s| - 1]) then StripEnd(s[..|s| - 1]) else s
  }

  /**
   * `strip()`: the part of `s` left after removing its leading and its trailing
   * runs of whitespace, and nothing else.
   */
  function Strip(s: string): (t: string)
    ensures |t| <= |s|
    ensures exists i :: StrippedAt(s, t, i)
    ensures Trimmed(t)
  {
    var u := StripStart(s);
    var t := StripEnd(u);
    assert t != [] ==> t[0] == u[0];
    StripBoth(s, u, t);
    t
  }

  /** Removing a whitespace prefix and then a whitespace suffix leaves a slice of `s` with whitespace around it. */
  lemma StripBoth(s: string, u: string, t: string)
    requires |u| <= |s| && u == s[|s| - |u|..] && forall j :: 0 <= j < |s| - |u| ==> IsSpace(s[j])
    requires |t| <= |u| && t == u[..|t|] && forall k :: |t| <= k < |u| ==> IsSpace(u[k])
    ensures StrippedAt(s, t, |s| - |u|)
  {
    var i := |s| - |u|;
    assert t == s[i..][..|t|];
    assert t == s[i..i + |t|];
    forall j | i + |t| <= j < |s|
      ensures IsSpace(s[j])
    {
      assert s[j] == u[j - i];
    }
  }

  /** `t` is `s` from index `i` on, and every character of `s` around it is whitespace. */
  predicate StrippedAt(s: string, t: string, i: nat) {
    && i + |t| <= |s|
    && t == s[i..i + |t|]
    && (forall j :: 0 <= j < i ==> IsSpace(s[j]))
    && (forall j :: i + |t| <= j < |s| ==> IsSpace(s[j]))
  }

  function LowerChar(c: char): (d: char)
    ensures !IsUpper(d)
    ensures IsUpper(c) ==> d as int == c as int + 32
    ensures !IsUpper(c) ==> d == c
  {
    if IsUpper(c) then (c as int + 32) as char else c
  }

  /** `lower()`: each upper-case letter replaced by its lower-case form, in place. */
  function Lower(s: string): (t: string)
    ensures |t| == |s| && NoUpper(t)
    ensures forall i :: 0 <= i < |s| ==> t[i] == LowerChar(s[i])
  {
    seq(|s|, i requires 0 <= i < |s| => LowerChar(s[i]))
  }

  /** `replace(" ", "_")`: every space becomes an underscore, in place. */
  function Underscores(s: string): (t: string)
    ensures |t| == |s| && ' ' !in t
    ensures forall i :: 0 <= i < |s| ==> t[i] == (if s[i] == ' ' then '_' else s[i])
  {
    seq(|s|, i requires 0 <= i < |s| => if s[i] == ' ' then '_' else s[i])
  }

  /** The cleaned name of one column. */
  function Normalize(c: string): (n: string)
    ensures ' ' !in n
    ensures NoUpper(n)
    ensures Trimmed(n)
  {
    var l := Lower(Strip(c));
    CleanEdges(Strip(c));
    Underscores(l)
  }

  /** Neither lowering nor replacing spaces puts whitespace at an end that had none. */
  lemma CleanEdges(s: string)
    requires Trimmed(s)
    ensures Trimmed(Lower(s)) && Trimmed(Underscores(Lower(s)))
  {
  }

  lemma StripTrimmed(s: string)
    requires Trimmed(s)
    ensures Strip(s) == s
  {
  }

  lemma {:induction false} LowerNoUpper(s: string)
    requires NoUpper(s)
    ensures Lower(s) == s
  {
    assert forall i :: 0 <= i < |s| ==> Lower(s)[i] == s[i];
  }

  lemma UnderscoresNoSpace(s: string)
    requires ' ' !in s
    ensures Underscores(s) == s
  {
    assert forall i :: 0 <= i < |s| ==> Underscores(s)[i] == s[i];
  }

  /** A name that is already clean is left as it is. */
  lemma NormalizeFixed(s: string)
    requires Trimmed(s) && NoUpper(s) && ' ' !in s
    ensures Normalize(s) == s
  {
    StripTrimmed(s);
    LowerNoUpper(s);
    UnderscoresNoSpace(s);
  }

  /** Cleaning a cleaned name changes nothing. */
  lemma NormalizeIdempotent(c: string)
    ensures Normalize(Normalize(c)) == Normalize(c)
  {
    NormalizeFixed(Normalize(c));
  }

  /** The new header row: one cleaned name per column, in the original order. */
  function NormalizeColumns(cols: seq<string>): (names: seq<string>)
    ensures |names| == |cols|
    ensures forall i :: 0 <= i < |cols| ==> names[i] == Normalize(cols[i])
  {
    seq(|cols|, i requires 0 <= i < |cols| => Normalize(cols[i]))
  }

  /** Two different headers can clean to the same name, so cleaned headers may collide. */
  lemma NormalizeNotInjective()
    ensures "Visit Date" != "visit_date"
    ensures Normalize("Visit Date") == Normalize("visit_date") == "visit_date"
  {
    NormalizeFixed("visit_date");
    SpacedHeaderNormalizes();
  }

  lemma SpacedHeaderNormalizes()
    ensures Normalize("Visit Date") == "visit_date"
  {
    StripTrimmed("Visit Date");
    VisitDateCleans();
    CleanStripped("Visit Date", "Visit Date", "visit date", "visit_date");
  }

  lemma VisitDateCleans()
    ensures Lower("Visit Date") == "visit date" && Underscores("visit date") == "visit_date"
  {
    assert Lower("Visit Date") == "visit date";
    assert Underscores("visit date") == "visit_date";
  }

  /** A header whose stripped, lowered and underscored forms are known cleans to the last of them. */
  lemma CleanStripped(c: string, s: string, l: string, n: string)
    requires Strip(c) == s && Lower(s) == l && Underscores(l) == n
    ensures Normalize(c) == n
  {
  }

  /** An index the loader creates on `asthma_records`. */
  datatype Index = Index(name: string, column: string)

  const PATIENT_ID_INDEX: Index := Index("idx_patient_id", "patient_id")
  const VISIT_DATE_INDEX: Index := Index("idx_visit_date", "visit_date")

  /** The indexes created for a table with the given column names, in creation order. */
  function Indexes(names: seq<string>): (idx: seq<Index>)
    ensures PATIENT_ID_INDEX in idx <==> "patient_id" in names
    ensures VISIT_DATE_INDEX in idx <==> "visit_date" in names
    ensures forall i :: 0 <= i < |idx| ==> idx[i] == PATIENT_ID_INDEX || idx[i] == VISIT_DATE_INDEX
    ensures |idx| <= 2 && (|idx| == 2 ==> idx[0] == PATIENT_ID_INDEX)
  {
    (if "patient_id" in names then [PATIENT_ID_INDEX] else [])
    + (if "visit_date" in names then [VISIT_DATE_INDEX] else [])
  }

  /** No two columns share a name. */
  predicate Distinct(names: seq<string>) {
    forall i, j :: 0 <= i < j < |names| ==> names[i] != names[j]
  }

  /**
   * Saving the table and then creating the indexes. `to_sql` refuses a frame
   * whose cleaned names repeat, before any index statement runs (`None`);
   * otherwise the indexes follow the cleaned names.
   */
  function LoadIndexes(cols: seq<string>): (idx: Option<seq<Index>>)
    ensures idx == None <==> !Distinct(NormalizeColumns(cols))
    ensures idx != None ==> idx == Some(Indexes(NormalizeColumns(cols)))
  {
    var names := NormalizeColumns(cols);
    if Distinct(names) then Some(Indexes(names)) else None
  }

  /**
   * The patient-id index is created exactly when the cleaned names do not
   * collide and some raw header cleans to `patient_id`; likewise the
   * visit-date index and `visit_date`.
   */
  lemma IndexesOfRawHeaders(cols: seq<string>)
    ensures (LoadIndexes(cols) != None && PATIENT_ID_INDEX in LoadIndexes(cols).value)
            <==> Distinct(NormalizeColumns(cols)) && exists i :: 0 <= i < |cols| && Normalize(cols[i]) == "patient_id"
    ensures (LoadIndexes(cols) != None && VISIT_DATE_INDEX in LoadIndexes(cols).value)
            <==> Distinct(NormalizeColumns(cols)) && exists i :: 0 <= i < |cols| && Normalize(cols[i]) == "visit_date"
  {
    CleanedName(cols, "patient_id");
    CleanedName(cols, "visit_date");
  }

  /** A name is among the cleaned names exactly when some raw header cleans to it. */
  lemma CleanedName(cols: seq<string>, name: string)
    ensures name in NormalizeColumns(cols) <==> exists i :: 0 <= i < |cols| && Normalize(cols[i]) == name
  {
    var names := NormalizeColumns(cols);
    if name in names {
      var i :| 0 <= i < |names| && names[i] == name;
      assert Normalize(cols[i]) == name;
    }
  }

  /** Two headers that clean to the same name stop the load before any index is made. */
  lemma CollisionFailsLoad(cols: seq<string>, i: nat, j: nat)
    requires i < j < |cols| && Normalize(cols[i]) == Normalize(cols[j])
    ensures LoadIndexes(cols) == None
  {
    var names := NormalizeColumns(cols);
    assert names[i] == names[j];
  }

  /** Leading whitespace is dropped one character at a time. */
  lemma StripLeadingSpace(s: string)
    requires s != [] && IsSpace(s[0])
    ensures Strip(s) == Strip(s[1..])
  {
  }

  /** A header with a leading space and capitals, " Patient ID", cleans to `patient_id`... */
  lemma PaddedHeaderNormalizes()
    ensures Normalize(" Patient ID") == "patient_id"
  {
    StripLeadingSpace(" Patient ID");
    assert " Patient ID"[1..] == "Patient ID";
    StripTrimmed("Patient ID");
    PatientIdCleans();
    CleanStripped(" Patient ID", "Patient ID", "patient id", "patient_id");
  }

  lemma PatientIdCleans()
    ensures Lower("Patient ID") == "patient id" && Underscores("patient id") == "patient_id"
  {
    assert Lower("Patient ID") == "patient id";
    assert Underscores("patient id") == "patient_id";
  }

  /** ... and so a table whose only header it is gets the patient-id index and no other. */
  lemma PaddedHeaderGetsIndex()
    ensures LoadIndexes([" Patient ID"]) == Some([PATIENT_ID_INDEX])
  {
    PaddedHeaderNormalizes();
    PatientIdOnly(" Patient ID");
  }

  /** A table whose only header cleans to `patient_id` gets that index and no other. */
  lemma PatientIdOnly(c: string)
    requires Normalize(c) == "patient_id"
    ensures LoadIndexes([c]) == Some([PATIENT_ID_INDEX])
  {
    var names := NormalizeColumns([c]);
    assert names == ["patient_id"];
    assert "visit_date" !in names by { assert "visit_date"[0] != "patient_id"[0]; }
    assert Distinct(names);
    assert Indexes(names) == [PATIENT_ID_INDEX];
  }
}

/**
 * The age-distribution report: a CASE that puts each age into one of five
 * labelled bins, grouped and ordered by the label text.
 */
module AgeBins {

  /** The CASE on `age`: the first WHEN that holds decides, ELSE is the open top bin. */
  function AgeGroup(age: int): (group: string)
    ensures group == "0-18" <==> age <= 18
    ensures group == "19-35" <==> 19 <= age <= 35
    ensures group == "36-50" <==> 36 <= age <= 50
    ensures group == "51-70" <==> 51 <= age <= 70
    ensures group == "71+" <==> 71 <= age
  {
    if age <= 18 then "0-18"
    else if age <= 35 then "19-35"
    else if age <= 50 then "36-50"
    else if age <= 70 then "51-70"
    else "71+"
  }

  /** The labels in the order of the ages they cover. */
  const AGE_GROUPS: seq<string> := ["0-18", "19-35", "36-50", "51-70", "71+"]

  /** Every age gets one of the five labels. */
  lemma AgeGroupTotal(age: int)
    ensures AgeGroup(age) in AGE_GROUPS
  {
  }

  /** Text order, character by character, a proper prefix first: how `ORDER BY` compares labels. */
  predicate TextLess(s: string, t: string): (less: bool)
    ensures less ==> s != t
    ensures |s| < |t| && s == t[..|s|] ==> less
  {
    if t == [] then false
    else if s == [] then true
    else if s[0] != t[0] then s[0] < t[0]
    else TextLess(s[1..], t[1..])
  }

  /**
   * Sorting by label sorts by age: one label comes before another exactly when
   * the two ages fall in different bins and the first is the younger.
   */
  lemma AgeGroupOrder(a: int, b: int)
    ensures TextLess(AgeGroup(a), AgeGroup(b)) <==> AgeGroup(a) != AgeGroup(b) && a < b
  {
    var s, t := AgeGroup(a), AgeGroup(b);
    assert s[0] == (if a <= 18 then '0' else if a <= 35 then '1' else if a <= 50 then '3' else if a <= 70 then '5' else '7');
    assert t[0] == (if b <= 18 then '0' else if b <= 35 then '1' else if b <= 50 then '3' else if b <= 70 then '5' else '7');
  }

  /** An older age never gets a label that sorts before a younger age's label. */
  lemma AgeGroupMonotone(a: int, b: int)
    requires a <= b
    ensures !TextLess(AgeGroup(b), AgeGroup(a))
  {
    AgeGroupOrder(b, a);
  }
}

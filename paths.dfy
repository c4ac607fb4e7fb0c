/**
 * The layout of the generator's output tree: for each chunk and each
 * (year, month) present in it, the file
 * `<out>/year=<Y>/month=<MM>/part-<NNNNNNN>.parquet`, built with `os.path.join`.
 */
module Paths {
  import opened Digits
  import opened Seqs

  /** A partition key: the (year, month) pair a chunk is grouped by. */
  datatype Key = Key(year: nat, month: nat)

  /** Keys the layout renders at fixed width: four-digit years and months 1 to 12. */
  predicate ValidKey(k: Key) {
    1000 <= k.year <= 9999 && 1 <= k.month <= 12
  }

  /** `os.path.join(a, b)` on POSIX. */
  function JoinPath(a: string, b: string): (p: string)
    ensures b != [] && b[0] != '/' ==> p == Separated(a) + b
  {
    if b != [] && b[0] == '/' then b
    else if a == [] || a[|a| - 1] == '/' then a + b
    else a + "/" + b
  }

  /** What `os.path.join(a, ...)` writes before a relative component. */
  function Separated(a: string): (s: string)
    ensures |s| >= |a| && s[..|a|] == a
  {
    if a == [] || a[|a| - 1] == '/' then a else a + "/"
  }

  /** The directory name `f"year={y}"`: the prefix `year=`, then `str(y)`, whose digits spell y. */
  function YearName(y: nat): (name: string)
    ensures |name| == 5 + |Decimal(y)| && name[..5] == "year="
    ensures AllDigits(name[5..]) && IsDigit(name[|name| - 1])
    ensures Value(name[5..]) == y
  {
    var name := "year=" + Decimal(y);
    assert name[5..] == Decimal(y);
    ValueOfDecimal(y);
    name
  }

  /** The directory name `f"month={m:02d}"`: the prefix `month=`, then at least two digits spelling m. */
  function MonthName(m: nat): (name: string)
    ensures |name| >= 8 && name[..6] == "month="
    ensures AllDigits(name[6..]) && IsDigit(name[|name| - 1])
    ensures Value(name[6..]) == m
  {
    var name := "month=" + ZeroPad(m, 2);
    assert name[6..] == ZeroPad(m, 2);
    ZeroPadRoundTrip(m, 2);
    name
  }

  /** The file name `f"part-{next_id:07d}.parquet"`: `part-`, at least seven digits spelling the part number, `.parquet`. */
  function PartName(part: nat): (name: string)
    ensures |name| >= 20 && name[..5] == "part-" && name[|name| - 8..] == ".parquet"
    ensures AllDigits(name[5..|name| - 8]) && Value(name[5..|name| - 8]) == part
  {
    var name := "part-" + ZeroPad(part, 7) + ".parquet";
    assert name[5..|name| - 8] == ZeroPad(part, 7);
    ZeroPadRoundTrip(part, 7);
    name
  }

  /** After a part that does not end in a separator, a relative name is joined with exactly one `/`. */
  lemma JoinAfter(d: string, a: string, b: string)
    requires a != [] && a[|a| - 1] != '/'
    requires b != [] && b[0] != '/'
    ensures JoinPath(d + a, b) == d + a + "/" + b
  {
    assert (d + a)[|d + a| - 1] == a[|a| - 1];
  }

  /** Joining two relative names that do not end in a separator puts exactly one `/` between the parts. */
  lemma JoinTwo(root: string, a: string, b: string)
    requires a != [] && a[0] != '/' && a[|a| - 1] != '/'
    requires b != [] && b[0] != '/'
    ensures JoinPath(JoinPath(root, a), b) == Separated(root) + a + "/" + b
  {
    JoinAfter(Separated(root), a, b);
  }

  /** `os.path.join(out, f"year={y}", f"month={m:02d}")`: both names below the root, one separator apart. */
  function PartitionDir(root: string, k: Key): (dir: string)
    ensures dir == Separated(root) + YearName(k.year) + "/" + MonthName(k.month)
  {
    JoinTwo(root, YearName(k.year), MonthName(k.month));
    JoinPath(JoinPath(root, YearName(k.year)), MonthName(k.month))
  }

  /** `os.path.join(out_dir, f"part-{next_id:07d}.parquet")`: the file sits directly in its partition directory. */
  function PartPath(root: string, k: Key, part: nat): (path: string)
    ensures path == PartitionDir(root, k) + "/" + PartName(part)
  {
    JoinAfter(Separated(root) + YearName(k.year) + "/", MonthName(k.month), PartName(part));
    JoinPath(PartitionDir(root, k), PartName(part))
  }

  /** The names parse back: each one determines the number it was made from. */
  lemma YearNameInjective(a: nat, b: nat)
    requires YearName(a) == YearName(b)
    ensures a == b
  {
    assert YearName(a)[5..] == Decimal(a);
    assert YearName(b)[5..] == Decimal(b);
    ValueOfDecimal(a);
    ValueOfDecimal(b);
  }

  lemma MonthNameInjective(a: nat, b: nat)
    requires MonthName(a) == MonthName(b)
    ensures a == b
  {
    assert MonthName(a)[6..] == ZeroPad(a, 2);
    assert MonthName(b)[6..] == ZeroPad(b, 2);
    ZeroPadInjective(a, 2, b, 2);
  }

  lemma PartNameInjective(a: nat, b: nat)
    requires PartName(a) == PartName(b)
    ensures a == b
  {
    var s, t := PartName(a), PartName(b);
    assert s[5..|s| - 8] == ZeroPad(a, 7);
    assert t[5..|t| - 8] == ZeroPad(b, 7);
    ZeroPadInjective(a, 7, b, 7);
  }

  /** For a valid key the two directory names have fixed widths: four year digits and two month digits. */
  lemma PartitionDirShape(k: Key)
    requires ValidKey(k)
    ensures |YearName(k.year)| == 9 && |MonthName(k.month)| == 8
  {
    assert Pow10(3) == 1000 && Pow10(4) == 10000 && Pow10(2) == 100;
    DecimalWidth(k.year, 4);
    ZeroPadExactWidth(k.month, 2);
    assert MonthName(k.month)[6..] == ZeroPad(k.month, 2);
  }

  /** Distinct keys give distinct directories. */
  lemma PartitionDirInjective(root: string, k1: Key, k2: Key)
    requires ValidKey(k1) && ValidKey(k2)
    ensures PartitionDir(root, k1) == PartitionDir(root, k2) ==> k1 == k2
  {
    if PartitionDir(root, k1) == PartitionDir(root, k2) {
      PartitionDirShape(k1);
      PartitionDirShape(k2);
      FourPieces(Separated(root), YearName(k1.year), "/", MonthName(k1.month));
      FourPieces(Separated(root), YearName(k2.year), "/", MonthName(k2.month));
      YearNameInjective(k1.year, k2.year);
      MonthNameInjective(k1.month, k2.month);
    }
  }

  /** A file path determines both its partition key and its part number. */
  lemma PartPathInjective(root: string, k1: Key, p1: nat, k2: Key, p2: nat)
    requires ValidKey(k1) && ValidKey(k2)
    ensures PartPath(root, k1, p1) == PartPath(root, k2, p2) ==> k1 == k2 && p1 == p2
  {
    if PartPath(root, k1, p1) == PartPath(root, k2, p2) {
      PartitionDirShape(k1);
      PartitionDirShape(k2);
      var d1, d2 := PartitionDir(root, k1), PartitionDir(root, k2);
      SameSplit(d1 + "/", PartName(p1), d2 + "/", PartName(p2));
      SameSplit(d1, "/", d2, "/");
      PartitionDirInjective(root, k1, k2);
      PartNameInjective(p1, p2);
    }
  }

}

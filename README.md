# Synthetic asthma dataset generator, modelled in Dafny

This project models the synthetic asthma-patient dataset generator of the
personalized-healthcare-assistant repository. It also models the small
classification and renaming rules of the SQL scripts that consume its output.

- **Synth** (`synth.dfy`) is the chunk synthesiser `synth_chunk`. Each row's
  random draws are an explicit `RowDraw`. Given the draws, every column is a
  deterministic function:
  - patient ids `ASTH` followed by six zero-padded digits;
  - `bmi`, `fev1` and `eosinophils` clipped and then rounded half-to-even;
  - the weighted `risk_score`;
  - the threshold rule for `control_status`, then the 8% "unknown" mask.

  `bmi` is held in integer tenths. `fev1`, `eosinophils` and `risk_score` are
  held in integer hundredths, so every comparison the source makes after
  rounding is exact.
- **Digits** and **Paths** (`digits.dfy`, `paths.dfy`) cover the output layout:
  - `str(n)` and `f"{n:0Wd}"` rendering, and the parse that inverts them;
  - the POSIX `os.path.join` rules;
  - the names `year=Y`, `month=MM` and `part-NNNNNNN.parquet`;
  - proofs that a file path determines its partition key and part number.
- **Driver** (`driver.dfy`) is the `main` loop as imperative Dafny. A `while`
  loop keeps `written` and `next_id` in step and takes chunks of
  `min(chunk, rows - written)` rows. An inner loop over the (year, month) groups
  of each chunk writes one file per group.
  - The output tree is a map from a file's place in the layout (key, part
    number) to its rows. `PathOf` renders that place as the `to_parquet` file
    name, and distinct places render to distinct paths.
  - Every `to_parquet` call is logged as a `FileWrite`.
  - `Layout(run, sizes)` is the tree the chunk sizes `sizes` produce: chunk j
    is rows `Sum(sizes[..j])` onwards, and each of its (year, month) groups is
    the file at (key, `Sum(sizes[..j])`). `Generate` ends with exactly these
    files written over the ones already there.
- **Features** (`features.dfy`) is the `asthma_features` SELECT:
  - the `smoker_flag` cast;
  - the BMI `CASE`, which the bmi-by-control report uses word for word;
  - the row-wise copy of the other columns.
- **AgeBins** (`age_bins.dfy`) is the age-group `CASE` and the text order its
  labels sort in.
- **ColumnNames** (`column_names.dfy`) covers the loader's header clean-up
  `strip().lower().replace(" ", "_")` and the two indexes created on the
  cleaned names.
- **Wrappers**, **Seqs** and **Maps** are an `Option` type and a few generic
  sequence and map facts.

Two behaviours of the code that a reader might not expect, which the model keeps:

- **Argument checks.** `rows` and `chunk` are not checked before the loop.
  - `chunk == 0` fails at the `math.ceil` line before anything is written, even
    when `rows <= 0`.
  - A negative `chunk` with `rows > 0` fails inside the first `synth_chunk`
    call, whose draws are asked for a negative size. Nothing has been written
    by then.
  - `rows <= 0` with a non-zero `chunk` writes nothing and succeeds.
- **Overwrites.** `to_parquet` replaces a file that already exists at the same
  path. So a run into a non-empty root can overwrite earlier runs' files,
  rather than only adding new ones. `Driver.Generate` states exactly which
  files change and which are left as they were.

## Model

| member | source | states |
|---|---|---|
| Digits.Decimal | src/sql/generate_synthetic_asthma.py:97 | `str(y)` has at least one digit, all decimal, and starts with `0` exactly when y is 0 |
| Digits.ZeroPad | src/sql/generate_synthetic_asthma.py:51 | `f"{n:0Wd}"` is all digits, at least W long, and has no leading zero when it is longer than W |
| Digits.ZeroPadRoundTrip | src/sql/generate_synthetic_asthma.py:51 | parsing a zero-padded rendering gives the number back, at any width |
| Digits.ZeroPadInjective | src/sql/generate_synthetic_asthma.py:100 | distinct numbers never share a padded rendering, even at different widths |
| Digits.ZeroPadExactWidth | src/sql/generate_synthetic_asthma.py:97 | the padded rendering is exactly W characters wide if and only if n < 10^W |
| Digits.ValueOfDecimal | src/sql/generate_synthetic_asthma.py:97 | parsing `str(n)` gives n |
| Digits.DecimalWidth | src/sql/generate_synthetic_asthma.py:97 | `str(n)` has exactly k digits when 10^(k-1) <= n < 10^k |
| Paths.JoinPath | src/sql/generate_synthetic_asthma.py:97 | `os.path.join` of a relative component is the first part, a separator unless one is already there, then the component |
| Paths.JoinTwo | src/sql/generate_synthetic_asthma.py:97 | joining two plain components onto the root puts one separator after the root (unless it ends in one) and one between them |
| Paths.JoinAfter | src/sql/generate_synthetic_asthma.py:100 | joining a file name onto a directory that does not end in a separator inserts exactly one `/` |
| Paths.YearName | src/sql/generate_synthetic_asthma.py:97 | `year=Y` is `year=` followed by as many digits as `str(Y)`, and those digits spell Y |
| Paths.MonthName | src/sql/generate_synthetic_asthma.py:97 | `month=MM` is `month=` followed by at least two digits that spell the month |
| Paths.PartName | src/sql/generate_synthetic_asthma.py:100 | `part-NNNNNNN.parquet` is `part-`, at least seven digits that spell the part number, then `.parquet` |
| Paths.PartitionDir | src/sql/generate_synthetic_asthma.py:97 | the partition directory is the root, a separator, the year name, `/`, the month name |
| Paths.PartPath | src/sql/generate_synthetic_asthma.py:100 | the file path is its partition directory, `/`, and its part name |
| Paths.PartitionDirShape | src/sql/generate_synthetic_asthma.py:97 | for a valid key the `year=` name is 9 characters (four year digits) and the `month=` name 8 (two month digits) |
| Paths.YearNameInjective | src/sql/generate_synthetic_asthma.py:97 | the `year=` name determines the year |
| Paths.MonthNameInjective | src/sql/generate_synthetic_asthma.py:97 | the `month=` name determines the month |
| Paths.PartNameInjective | src/sql/generate_synthetic_asthma.py:100 | the `part-` name determines the part number |
| Paths.PartitionDirInjective | src/sql/generate_synthetic_asthma.py:97 | distinct valid keys give distinct directories |
| Paths.PartPathInjective | src/sql/generate_synthetic_asthma.py:97-100 | a file path determines both its partition key and its part number |
| Synth.PatientIdFormat | src/sql/generate_synthetic_asthma.py:51 | below one million the id is `ASTH` and exactly six digits that spell the sequence number |
| Synth.PatientIdInjective | src/sql/generate_synthetic_asthma.py:51 | distinct sequence numbers give distinct ids, at any size |
| Synth.PatientId | src/sql/generate_synthetic_asthma.py:51 | an id is `ASTH` followed by at least six digits |
| Synth.ControlLabel | src/sql/generate_synthetic_asthma.py:42-44 | Poorly above 0.60, Partly above 0.35 up to 0.60, Well at 0.35 and below, each band in both directions |
| Synth.MaskedStatus | src/sql/generate_synthetic_asthma.py:46-47 | the status is None exactly when the row is masked, and the threshold label otherwise |
| Synth.Clip | src/sql/generate_synthetic_asthma.py:22 | the clipped value lies in [lo, hi], equals x when x is in range, and is the point of the range nearest to x |
| Synth.ClipInt | src/sql/generate_synthetic_asthma.py:33 | the same for the integer ER-visit draw |
| Synth.ClipIdempotent | src/sql/generate_synthetic_asthma.py:31-32 | clipping twice is clipping once |
| Synth.ClipIntIdempotent | src/sql/generate_synthetic_asthma.py:33 | clipping an integer twice is clipping it once |
| Synth.RoundHalfEven | src/sql/generate_synthetic_asthma.py:22 | `np.round` gives an integer within one half of x, and the even one on a tie |
| Synth.ClipRoundTenths | src/sql/generate_synthetic_asthma.py:22 | the stored bmi in tenths lies within the clip bounds 14.0 to 55.0 |
| Synth.ClipRoundHundredths | src/sql/generate_synthetic_asthma.py:31-32 | the stored fev1 and eosinophils in hundredths lie within their clip bounds |
| Synth.Indicator | src/sql/generate_synthetic_asthma.py:37-40 | `astype(int)` of a condition is 1 exactly when the condition holds, else 0 |
| Synth.RiskScore | src/sql/generate_synthetic_asthma.py:36-41 | the weighted indicator sum lies in [0, 100] hundredths and is one of the eleven attainable sums |
| Synth.ControlLabelMonotone | src/sql/generate_synthetic_asthma.py:42-44 | a higher risk score never gives a better-controlled status |
| Synth.ControlByIndicatorCount | src/sql/generate_synthetic_asthma.py:36-44 | three or more indicators give Poorly, exactly two give Partly, and one alone leaves Well Controlled |
| Synth.SynthRow | src/sql/generate_synthetic_asthma.py:18-75 | row n has id `ASTH` + pad6(n), every column in range, the risk score of its own columns, and the threshold label unless masked (then None) |
| Synth.RunRows | src/sql/generate_synthetic_asthma.py:50-51 | the run has one row per draw |
| Synth.SynthChunk | src/sql/generate_synthetic_asthma.py:18 | `synth_chunk(start_id, rows)` returns exactly `rows` records |
| Synth.SynthChunkRow | src/sql/generate_synthetic_asthma.py:50-51 | record i of a chunk is row `start_id + i` of the run, built from that row's draws |
| Synth.RunRowFacts | src/sql/generate_synthetic_asthma.py:36-54 | row n of the run is numbered n, in range and risk-consistent, and labelled from its score unless masked |
| Synth.RunIdsDistinct | src/sql/generate_synthetic_asthma.py:51 | no two rows of a run share a patient id |
| Synth.RearrangedIdsDistinct | src/sql/generate_synthetic_asthma.py:51 | any rearrangement of the first `rows` rows, such as all the rows `Driver.Generate` writes, has pairwise distinct patient ids, each `PatientId(n)` for some n below `rows` |
| Driver.Group | src/sql/generate_synthetic_asthma.py:96 | a row is in a key's group exactly when it is in the chunk and carries that key, and the group is no longer than the chunk |
| Driver.AmongSplit | src/sql/generate_synthetic_asthma.py:96 | taking one key's group out of the rows still pending splits them without loss or duplication |
| Driver.AmongSplitStep | src/sql/generate_synthetic_asthma.py:96 | the split of the rows after the first extends to the whole chunk, whichever way the first row's key falls |
| Driver.AmongAll | src/sql/generate_synthetic_asthma.py:96 | before any group is taken, every row of the chunk is pending |
| Driver.AmongNone | src/sql/generate_synthetic_asthma.py:96 | after every group is taken, no row is pending |
| Driver.PresentKey | src/sql/generate_synthetic_asthma.py:96 | a key `groupby` yields is renderable and its group is not empty |
| Driver.GroupWriteStep | src/sql/generate_synthetic_asthma.py:96-101 | adding one group's file keeps the writes one per group, each with its group's rows |
| Driver.GroupLoopStep | src/sql/generate_synthetic_asthma.py:96-101 | one pass of the group loop keeps the tree, the writes and the pending rows in step |
| Driver.WriteChunk | src/sql/generate_synthetic_asthma.py:96-101 | one file per (year, month) group, named after the chunk's first id. Each file holds its whole group, and the files hold the chunk's rows exactly once |
| Driver.GroupLoopDone | src/sql/generate_synthetic_asthma.py:96-101 | once no group is pending, the writes are one per key of the chunk with its group, and the tree is the old one plus the chunk's files |
| Driver.ChunkWritesSome | src/sql/generate_synthetic_asthma.py:96-101 | a chunk with rows writes at least one file |
| Driver.KeysValidSlice | src/sql/generate_synthetic_asthma.py:92 | a chunk of a run whose keys render has keys that render |
| Driver.ChunkFilesAt | src/sql/generate_synthetic_asthma.py:96-101 | a chunk has a file at (k, part) exactly when k occurs in it, and that file holds k's group |
| Driver.ChunkFilesPart | src/sql/generate_synthetic_asthma.py:100 | every file of a chunk is named after that chunk's part number |
| Driver.ChunkApplied | src/sql/generate_synthetic_asthma.py:96-101 | one write per group of the chunk leaves the tree as the old one with the chunk's files laid over it |
| Driver.ApplySnoc | src/sql/generate_synthetic_asthma.py:101 | one more `to_parquet` call updates one file of the tree |
| Driver.ApplyAppend | src/sql/generate_synthetic_asthma.py:101 | writing two batches in turn is writing them as one batch |
| Driver.FlattenAppend | src/sql/generate_synthetic_asthma.py:101 | the rows of two batches of writes are the rows of the first, then of the second |
| Driver.ApplyDistinct | src/sql/generate_synthetic_asthma.py:101 | when no two writes share a place, each written file holds its write's rows and every other file is as it was |
| Driver.DistinctFilesDistinctPaths | src/sql/generate_synthetic_asthma.py:97-100 | writes with distinct (key, part) pairs pass distinct file names to `to_parquet` |
| Driver.PathOf | src/sql/generate_synthetic_asthma.py:97-100 | the path of a write is its partition directory, `/`, and the name of its part number |
| Driver.KeysOf | src/sql/generate_synthetic_asthma.py:96 | every write's key is among the keys written |
| Driver.LocationsOf | src/sql/generate_synthetic_asthma.py:101 | every write's place is among the places written |
| Driver.KeysOfMember | src/sql/generate_synthetic_asthma.py:96 | a key among the keys written is the key of some write |
| Driver.LocationsOfMember | src/sql/generate_synthetic_asthma.py:101 | a place among the places written is the place of some write |
| Driver.LocationsOfAppend | src/sql/generate_synthetic_asthma.py:101 | the places of two batches of writes are the places of each |
| Driver.Apply | src/sql/generate_synthetic_asthma.py:101 | after the writes the tree has the files it had plus one at every place written |
| Driver.ChunkCountOfSizes | src/sql/generate_synthetic_asthma.py:90-91 | full chunks followed by one chunk of 1 to `chunk` rows number exactly the chunk count of their total |
| Driver.FullChunks | src/sql/generate_synthetic_asthma.py:91 | after full chunks, a last chunk of 1 to `chunk` rows adds exactly one to the count |
| Driver.ChunkCount | src/sql/generate_synthetic_asthma.py:87 | for positive rows the count q is the least with q * chunk >= rows (`math.ceil(rows / chunk)`); no chunks otherwise |
| Driver.PrefixSums | src/sql/generate_synthetic_asthma.py:90-92 | chunk j starts where the chunks before it end and ends within the run |
| Driver.LayoutAt | src/sql/generate_synthetic_asthma.py:96-101 | every key of chunk j has a file named after the chunk's first row number, holding the key's group of that chunk |
| Driver.LayoutOnly | src/sql/generate_synthetic_asthma.py:96-101 | every file of the layout belongs to a key present in some chunk j and is named after that chunk's first row number |
| Driver.LayoutLast | src/sql/generate_synthetic_asthma.py:90-103 | the layout of a non-empty list of chunks is that of all but the last with the last chunk's files laid over it |
| Driver.LayoutSnoc | src/sql/generate_synthetic_asthma.py:90-103 | one more chunk of n rows lays its files over the layout of the chunks before it |
| Driver.LayoutStep | src/sql/generate_synthetic_asthma.py:102-103 | writing the next chunk's files keeps the tree equal to the old tree plus the layout, and the places written equal the layout's |
| Driver.SizesStep | src/sql/generate_synthetic_asthma.py:91 | a chunk of `min(chunk, rows - written)` rows keeps the sizes full except possibly the last one |
| Driver.FilesStep | src/sql/generate_synthetic_asthma.py:96-103 | one chunk's files keep the log's places distinct and account for the rows written so far, exactly once |
| Driver.RunKeysValid | src/sql/generate_synthetic_asthma.py:53-54 | every generated row has a renderable partition key: a four-digit year and a month in 1..12 |
| Driver.ChunkStep | src/sql/generate_synthetic_asthma.py:90-103 | writing the next chunk's files keeps the sizes, the write log and the layout of `main` in step |
| Driver.WriteFromChunk | src/sql/generate_synthetic_asthma.py:96-101 | in a log laid out as `sizes`, each write is the file of a key of some chunk j, numbered from that chunk's first row and holding that key's group of chunk j |
| Driver.ChunkHasWrite | src/sql/generate_synthetic_asthma.py:96-101 | in such a log, each key of chunk j has a write of that form |
| Driver.WritesFromChunks | src/sql/generate_synthetic_asthma.py:90-103 | every write of such a log comes from some chunk in that way |
| Driver.ChunksHaveWrites | src/sql/generate_synthetic_asthma.py:90-103 | every key of every chunk has its write in such a log |
| Driver.WriteNextChunk | src/sql/generate_synthetic_asthma.py:90-103 | one pass of the loop advances `written` by `min(chunk, rows - written)`, appends a non-empty batch of writes to the log, and keeps `Progress`: the tree is the old tree plus the layout of the chunks so far, now one longer |
| Driver.WriteRun | src/sql/generate_synthetic_asthma.py:85-104 | `chunk == 0` fails and a negative chunk fails when rows > 0, with nothing written. Otherwise the chunk sizes total `rows`, are all `chunk` but possibly the last, number ceil(rows/chunk), and `Progress` holds: the log accounts for the first `rows` rows exactly once, no place is written twice, and the tree is the old tree plus the layout of those sizes |
| Driver.Generate | src/sql/generate_synthetic_asthma.py:77-109 | `main`: the same outcome and sizes, no two writes share a path, each file holds its write's rows, untouched files are unchanged, the files hold exactly the first `rows` synthesised rows, the tree is the old tree plus the layout of the sizes, and write i is the file of a key of some chunk j (part number `Sum(sizes[..j])`, that key's group of chunk j) while every key of every chunk has its write |
| Features.BmiCategoryOf | src/sql/derive_features.py:24-29 | every bmi gets one category by half-open bands: below 18.5 Underweight, 18.5 to 25 Normal, 25 to 30 Overweight, 30 and up Obese |
| Features.BmiCategoryMonotone | src/sql/derive_features.py:24-29 | a higher bmi never gets a lower category |
| Features.BmiIndicatorImpliesObese | src/sql/derive_features.py:28 | the generator's bmi > 30 indicator implies Obese, and bmi exactly 30.0 is Obese without the indicator |
| Features.SmokerFlag | src/sql/derive_features.py:15 | the flag is 0 exactly for Never smokers and 1 otherwise |
| Features.DeriveRow | src/sql/derive_features.py:9-30 | a feature row copies the selected columns unchanged and adds the flag and category of its own row |
| Features.DeriveFeatures | src/sql/derive_features.py:7-31 | one feature row per input row, each derived from its own row |
| AgeBins.AgeGroup | src/sql/duck_age_bins.py:7-13 | each age gets exactly one label: <=18, 19-35, 36-50, 51-70, >=71 (18/19, 35/36, 50/51 and 70/71 are the boundaries) |
| AgeBins.AgeGroupTotal | src/sql/duck_age_bins.py:7-13 | every label is one of the five |
| AgeBins.TextLess | src/sql/duck_age_bins.py:16 | text order is strict, and a proper prefix sorts first |
| AgeBins.AgeGroupOrder | src/sql/duck_age_bins.py:16 | one label sorts before another exactly when the ages are in different bins and the first is younger |
| AgeBins.AgeGroupMonotone | src/sql/duck_age_bins.py:7-16 | an older age never gets a label that sorts before a younger age's label |
| ColumnNames.StripStart | src/sql/load_to_sqlite.py:20 | removes exactly the leading run of whitespace |
| ColumnNames.StripEnd | src/sql/load_to_sqlite.py:20 | removes exactly the trailing run of whitespace |
| ColumnNames.Strip | src/sql/load_to_sqlite.py:20 | the result is a slice of the header with only whitespace before and after it, and has no whitespace at either end: exactly the leading and trailing runs are removed |
| ColumnNames.StripBoth | src/sql/load_to_sqlite.py:20 | removing a whitespace prefix and then a whitespace suffix leaves a slice with only whitespace around it |
| ColumnNames.LowerChar | src/sql/load_to_sqlite.py:20 | upper-case letters map to their lower-case forms and every other character is kept |
| ColumnNames.Lower | src/sql/load_to_sqlite.py:20 | same length, no upper-case letters, each character lowered in place |
| ColumnNames.Underscores | src/sql/load_to_sqlite.py:20 | same length, no spaces, each space replaced by `_` in place |
| ColumnNames.Normalize | src/sql/load_to_sqlite.py:20 | a cleaned name has no spaces, no upper-case letters and no whitespace at either end |
| ColumnNames.CleanEdges | src/sql/load_to_sqlite.py:20 | lowering and replacing spaces put no whitespace at a trimmed end |
| ColumnNames.StripTrimmed | src/sql/load_to_sqlite.py:20 | stripping a trimmed string changes nothing |
| ColumnNames.LowerNoUpper | src/sql/load_to_sqlite.py:20 | lowering a string without capitals changes nothing |
| ColumnNames.UnderscoresNoSpace | src/sql/load_to_sqlite.py:20 | replacing spaces in a string without spaces changes nothing |
| ColumnNames.StripLeadingSpace | src/sql/load_to_sqlite.py:20 | a leading whitespace character is stripped away |
| ColumnNames.IsSpace | src/sql/load_to_sqlite.py:20 | space, tab, newline and carriage return are whitespace, and every whitespace character is a control or space character |
| ColumnNames.NormalizeFixed | src/sql/load_to_sqlite.py:20 | a name that is already clean is left as it is |
| ColumnNames.NormalizeIdempotent | src/sql/load_to_sqlite.py:20 | cleaning twice is cleaning once |
| ColumnNames.NormalizeColumns | src/sql/load_to_sqlite.py:20 | the number and order of columns are kept, and name i comes from header i |
| ColumnNames.NormalizeNotInjective | src/sql/load_to_sqlite.py:20 | "Visit Date" and "visit_date" are different headers that both clean to `visit_date`, so with `CollisionFailsLoad` such a table does not load |
| ColumnNames.SpacedHeaderNormalizes | src/sql/load_to_sqlite.py:20 | "Visit Date" cleans to `visit_date` |
| ColumnNames.PaddedHeaderNormalizes | src/sql/load_to_sqlite.py:20 | " Patient ID" cleans to `patient_id` |
| ColumnNames.CleanStripped | src/sql/load_to_sqlite.py:20 | the cleaned name is the stripped header lowered and with spaces replaced, in that order |
| ColumnNames.VisitDateCleans | src/sql/load_to_sqlite.py:20 | "Visit Date" lowers to "visit date", which becomes `visit_date` |
| ColumnNames.PatientIdCleans | src/sql/load_to_sqlite.py:20 | "Patient ID" lowers to "patient id", which becomes `patient_id` |
| ColumnNames.Indexes | src/sql/load_to_sqlite.py:34-37 | the patient-id index is created iff `patient_id` is a column, likewise for visit_date, patient id first |
| ColumnNames.LoadIndexes | src/sql/load_to_sqlite.py:29-37 | the load fails before any index exactly when two cleaned names collide; otherwise the indexes follow the cleaned names |
| ColumnNames.CleanedName | src/sql/load_to_sqlite.py:20 | a name is among the cleaned names exactly when some raw header cleans to it |
| ColumnNames.CollisionFailsLoad | src/sql/load_to_sqlite.py:20-29 | two headers that clean to the same name stop the load, so no index is made |
| ColumnNames.IndexesOfRawHeaders | src/sql/load_to_sqlite.py:29-37 | each index is created exactly when the cleaned names do not collide and some raw header cleans to its column name |
| ColumnNames.PaddedHeaderGetsIndex | src/sql/load_to_sqlite.py:34-35 | a table whose only header is " Patient ID" loads and gets the patient-id index and no other |
| ColumnNames.PatientIdOnly | src/sql/load_to_sqlite.py:29-37 | a table whose only header cleans to `patient_id` loads and gets that index alone |

## Left out

- Random draws. The seed, the distributions, the 8% mask rate, and the order
  in which NumPy fills the column arrays are not modelled. Row n's draws are
  an explicit `RowDraw`. Every column array is drawn per chunk, so the real
  values depend on the chunk size, which the model does not capture. The model
  does capture that chunk i + 1 continues chunk i's row numbering.
- Floating point. Clipping and half-even rounding are exact on `real`. bmi,
  fev1, eosinophils and risk_score are integer tenths or hundredths. Binary
  float representation error is not modelled.
- I/O and process output: parquet serialisation, `os.makedirs`, the progress
  and banner prints, the printed `total_chunks` estimate, and argparse with
  its defaults. The file system is an in-memory map.
- The order in which `groupby` yields groups. The inner loop takes groups in
  any order, and pandas' sorted order is one instance of that.
- Driver.PathOf is not the key of the output tree. Files are keyed by
  (key, part), and `Paths.PartPathInjective` shows this matches path keying
  for files written by the generator. Files outside the layout are not
  modelled.
- Negative numbers in the `:0Wd` and `:02d` formats. Every value the
  generator formats is a natural number.
- SQL NULLs. The generator never emits NULL in `bmi`, `age` or
  `smoking_status`, so the NULL branches of the CASEs and of the cast are not
  modelled.
- Row order of `asthma_features`. The SELECT has no ORDER BY; the model keeps
  the input order.
- The GROUP BY / COUNT aggregation and the CSV output of the age and
  bmi-by-control reports. Only their CASE expressions and the label order are
  modelled.
- ColumnNames.Normalize: ASCII only. Python's `strip` and `lower` also act on
  non-ASCII whitespace and letters; here those characters pass through
  unchanged.
- The SQLite and DuckDB connections, `read_csv`, executing the index
  statements, and the row counts printed by the loader.
- ColumnNames.LoadIndexes: of `to_sql` only the refusal of a frame with
  repeated column names is modelled, as a load that makes no index. The
  exception it raises, and any table left from an earlier run, are not.
- Not part of this model: train_baseline.py (scikit-learn training on
  floats), duck_kpis.py and duck_bmi_control.py (aggregation and CSV output),
  check_db.py and quick_preview.py (read and print only).

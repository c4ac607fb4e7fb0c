/**
 * The driver `main` of the generator: synthesise `rows` records in chunks of at
 * most `chunk`, split each chunk by (year, month) and write one file per group.
 * Each `to_parquet` call is recorded as a `FileWrite`, in call order. The output
 * tree is a map from a file's place in the layout (its key and part number) to
 * the rows stored there; `PathOf` renders the place as the path `main` builds,
 * and distinct places with renderable keys render to distinct paths
 * (`Paths.PartPathInjective`).
 */
module Driver {
  import opened Synth
  import opened Paths
  import opened Seqs
  import opened Maps

  /** A file's place in the layout: the directory of its key, the name of its part number. */
  datatype Location = Location(key: Key, part: nat)

  type Files = map<Location, seq<Record>>

  /** One `to_parquet` call: the group's key, the chunk's first sequence number and the rows. */
  datatype FileWrite = FileWrite(key: Key, part: nat, rows: seq<Record>)

  /** How a run ends: normally, or with the exception the source raises. */
  datatype Outcome = Done | Failed(reason: Failure)

  datatype Failure =
    | ZeroDivision   // math.ceil(rows / chunk) with chunk == 0
    | NegativeSize   // synth_chunk asked for a negative number of rows

  function LocationOf(w: FileWrite): Location {
    Location(w.key, w.part)
  }

  /** The file name `main` passes to `to_parquet` for a write: its part's name inside its key's directory. */
  function PathOf(root: string, w: FileWrite): (path: string)
    ensures path == PartitionDir(root, w.key) + "/" + PartName(w.part)
  {
    PartPath(root, w.key, w.part)
  }

  function KeyOf(r: Record): Key {
    Key(r.year, r.month)
  }

  /** The (year, month) pairs present in a chunk: the groups `groupby` yields. */
  function KeySet(recs: seq<Record>): set<Key> {
    set r | r in recs :: KeyOf(r)
  }

  /** Rows whose partition keys the layout can render. */
  predicate KeysValid(recs: seq<Record>) {
    forall r :: r in recs ==> ValidKey(KeyOf(r))
  }

  /** The keys of the writes. */
  function KeysOf(writes: seq<FileWrite>): (ks: set<Key>)
    ensures forall i :: 0 <= i < |writes| ==> writes[i].key in ks
  {
    if writes == [] then {} else KeysOf(writes[..|writes| - 1]) + {writes[|writes| - 1].key}
  }

  /** The places the writes go to. */
  function LocationsOf(writes: seq<FileWrite>): (ls: set<Location>)
    ensures forall i :: 0 <= i < |writes| ==> LocationOf(writes[i]) in ls
  {
    if writes == [] then {} else LocationsOf(writes[..|writes| - 1]) + {LocationOf(writes[|writes| - 1])}
  }

  lemma {:induction false} KeysOfMember(writes: seq<FileWrite>, k: Key)
    requires k in KeysOf(writes)
    ensures exists i :: 0 <= i < |writes| && writes[i].key == k
  {
    var init := writes[..|writes| - 1];
    if k in KeysOf(init) {
      KeysOfMember(init, k);
      var i :| 0 <= i < |init| && init[i].key == k;
      assert writes[i] == init[i];
    }
  }

  lemma {:induction false} LocationsOfMember(writes: seq<FileWrite>, l: Location)
    requires l in LocationsOf(writes)
    ensures exists i :: 0 <= i < |writes| && LocationOf(writes[i]) == l
  {
    var init := writes[..|writes| - 1];
    if l in LocationsOf(init) {
      LocationsOfMember(init, l);
      var i :| 0 <= i < |init| && LocationOf(init[i]) == l;
      assert writes[i] == init[i];
    }
  }

  lemma {:induction false} LocationsOfAppend(a: seq<FileWrite>, b: seq<FileWrite>)
    ensures LocationsOf(a + b) == LocationsOf(a) + LocationsOf(b)
    decreases |b|
  {
    if b != [] {
      assert (a + b)[..|a + b| - 1] == a + b[..|b| - 1];
      LocationsOfAppend(a, b[..|b| - 1]);
    } else {
      assert a + b == a;
    }
  }

  /** The group of one key: the chunk's rows carrying that key. */
  function Group(recs: seq<Record>, k: Key): (g: seq<Record>)
    ensures |g| <= |recs|
    ensures forall r :: r in g <==> r in recs && KeyOf(r) == k
  {
    if recs == [] then []
    else (if KeyOf(recs[0]) == k then [recs[0]] else []) + Group(recs[1..], k)
  }

  /** The rows whose key is one of `ks`. */
  function Among(recs: seq<Record>, ks: set<Key>): seq<Record> {
    if recs == [] then []
    else (if KeyOf(recs[0]) in ks then [recs[0]] else []) + Among(recs[1..], ks)
  }

  lemma {:induction false} AmongSplit(recs: seq<Record>, ks: set<Key>, k: Key)
    requires k in ks
    ensures multiset(Among(recs, ks)) == multiset(Group(recs, k)) + multiset(Among(recs, ks - {k}))
  {
    if recs != [] {
      AmongSplit(recs[1..], ks, k);
      AmongSplitStep(recs, ks, k);
    }
  }

  /** The split of the rows after the first extends to the whole chunk. */
  lemma AmongSplitStep(recs: seq<Record>, ks: set<Key>, k: Key)
    requires k in ks && recs != []
    requires multiset(Among(recs[1..], ks)) == multiset(Group(recs[1..], k)) + multiset(Among(recs[1..], ks - {k}))
    ensures multiset(Among(recs, ks)) == multiset(Group(recs, k)) + multiset(Among(recs, ks - {k}))
  {
    var x, rest, others := recs[0], recs[1..], ks - {k};
    if KeyOf(x) == k {
      assert Among(recs, ks) == [x] + Among(rest, ks);
      assert Group(recs, k) == [x] + Group(rest, k);
      assert Among(recs, others) == Among(rest, others);
      ConsToPart(x, Among(rest, ks), Group(rest, k), Among(rest, others));
    } else if KeyOf(x) in ks {
      assert Among(recs, ks) == [x] + Among(rest, ks);
      assert Group(recs, k) == Group(rest, k);
      assert Among(recs, others) == [x] + Among(rest, others);
      ConsToPart(x, Among(rest, ks), Among(rest, others), Group(rest, k));
    } else {
      assert Among(recs, ks) == Among(rest, ks);
      assert Group(recs, k) == Group(rest, k);
      assert Among(recs, others) == Among(rest, others);
    }
  }

  lemma {:induction false} AmongAll(recs: seq<Record>, ks: set<Key>)
    requires forall r :: r in recs ==> KeyOf(r) in ks
    ensures Among(recs, ks) == recs
  {
    if recs != [] {
      AmongAll(recs[1..], ks);
    }
  }

  lemma {:induction false} AmongNone(recs: seq<Record>)
    ensures Among(recs, {}) == []
  {
    if recs != [] {
      AmongNone(recs[1..]);
    }
  }

  /** Every row of the writes, in write order. */
  function Flatten(writes: seq<FileWrite>): seq<Record> {
    if writes == [] then [] else Flatten(writes[..|writes| - 1]) + writes[|writes| - 1].rows
  }

  /** The output tree after the writes, in order; a later write to a file replaces an earlier one. */
  function Apply(fs: Files, writes: seq<FileWrite>): (after: Files)
    ensures after.Keys == fs.Keys + LocationsOf(writes)
  {
    if writes == [] then fs
    else
      var w := writes[|writes| - 1];
      Apply(fs, writes[..|writes| - 1])[LocationOf(w) := w.rows]
  }

  lemma ApplySnoc(fs: Files, writes: seq<FileWrite>, w: FileWrite)
    ensures Apply(fs, writes + [w]) == Apply(fs, writes)[LocationOf(w) := w.rows]
  {
    SnocPrefix(writes, w);
  }

  lemma {:induction false} FlattenAppend(a: seq<FileWrite>, b: seq<FileWrite>)
    ensures Flatten(a + b) == Flatten(a) + Flatten(b)
    decreases |b|
  {
    if b != [] {
      assert (a + b)[..|a + b| - 1] == a + b[..|b| - 1];
      FlattenAppend(a, b[..|b| - 1]);
    } else {
      assert a + b == a;
    }
  }

  lemma {:induction false} ApplyAppend(fs: Files, a: seq<FileWrite>, b: seq<FileWrite>)
    ensures Apply(fs, a + b) == Apply(Apply(fs, a), b)
    decreases |b|
  {
    if b != [] {
      assert (a + b)[..|a + b| - 1] == a + b[..|b| - 1];
      ApplyAppend(fs, a, b[..|b| - 1]);
    } else {
      assert a + b == a;
    }
  }

  /** No two writes go to the same place. */
  predicate DistinctFiles(writes: seq<FileWrite>) {
    forall i, j :: 0 <= i < j < |writes| ==> LocationOf(writes[i]) != LocationOf(writes[j])
  }

  /** No two writes go to the same path. */
  predicate DistinctPaths(root: string, writes: seq<FileWrite>) {
    forall i, j :: 0 <= i < j < |writes| ==> PathOf(root, writes[i]) != PathOf(root, writes[j])
  }

  /** Writes with renderable keys and distinct places go to distinct paths. */
  lemma DistinctFilesDistinctPaths(root: string, writes: seq<FileWrite>)
    requires forall i :: 0 <= i < |writes| ==> ValidKey(writes[i].key)
    requires DistinctFiles(writes)
    ensures DistinctPaths(root, writes)
  {
    forall i, j | 0 <= i < j < |writes|
      ensures PathOf(root, writes[i]) != PathOf(root, writes[j])
    {
      if PathOf(root, writes[i]) == PathOf(root, writes[j]) {
        PartPathInjective(root, writes[i].key, writes[i].part, writes[j].key, writes[j].part);
      }
    }
  }

  /**
   * When no two writes share a place, nothing a write stores is replaced later:
   * each written file holds its write's rows, and every other file is as it was.
   */
  lemma {:induction false} ApplyDistinct(fs: Files, writes: seq<FileWrite>)
    requires DistinctFiles(writes)
    ensures Apply(fs, writes).Keys == fs.Keys + LocationsOf(writes)
    ensures forall i :: 0 <= i < |writes| ==> Apply(fs, writes)[LocationOf(writes[i])] == writes[i].rows
    ensures forall l :: l in fs && l !in LocationsOf(writes) ==> Apply(fs, writes)[l] == fs[l]
    decreases |writes|
  {
    if writes != [] {
      var init := writes[..|writes| - 1];
      ApplyDistinct(fs, init);
    }
  }

  /** A write holds a non-empty group of rows that all carry its key, and the key is renderable. */
  predicate OfKey(w: FileWrite) {
    && ValidKey(w.key)
    && |w.rows| > 0
    && forall r :: r in w.rows ==> KeyOf(r) == w.key
  }

  /** `writes` are the files of the groups `done` of the chunk numbered `part`, one per group. */
  predicate WritesOfGroups(recs: seq<Record>, part: nat, writes: seq<FileWrite>, done: set<Key>) {
    && KeysOf(writes) == done
    && (forall i :: 0 <= i < |writes| ==>
         OfKey(writes[i]) && writes[i].part == part && writes[i].rows == Group(recs, writes[i].key))
    && (forall i, j :: 0 <= i < j < |writes| ==> writes[i].key != writes[j].key)
  }

  lemma GroupWriteStep(recs: seq<Record>, part: nat, writes: seq<FileWrite>, done: set<Key>, w: FileWrite)
    requires KeysValid(recs)
    requires WritesOfGroups(recs, part, writes, done)
    requires w.key in KeySet(recs) && w.key !in done
    requires w.part == part && w.rows == Group(recs, w.key)
    ensures WritesOfGroups(recs, part, writes + [w], done + {w.key})
  {
    PresentKey(recs, w.key);
    var all := writes + [w];
    SnocPrefix(writes, w);
    assert KeysOf(all) == done + {w.key};
    forall i | 0 <= i < |all|
      ensures OfKey(all[i]) && all[i].part == part && all[i].rows == Group(recs, all[i].key)
    {
      if i < |writes| { assert all[i] == writes[i]; }
    }
    forall i, j | 0 <= i < j < |all|
      ensures all[i].key != all[j].key
    {
      if j == |writes| { assert all[i] == writes[i]; assert writes[i].key in done; }
    }
  }

  /** A key `groupby` yields is renderable and its group is not empty. */
  lemma PresentKey(recs: seq<Record>, k: Key)
    requires KeysValid(recs) && k in KeySet(recs)
    ensures ValidKey(k) && |Group(recs, k)| > 0
  {
    var r :| r in recs && KeyOf(r) == k;
    assert r in Group(recs, k);
  }

  /** The state of the inner loop: the groups not in `pending` are written, and their rows are accounted for. */
  predicate GroupLoop(recs: seq<Record>, part: nat, fs: Files,
                      files: Files, writes: seq<FileWrite>, pending: set<Key>)
  {
    && pending <= KeySet(recs)
    && WritesOfGroups(recs, part, writes, KeySet(recs) - pending)
    && multiset(Flatten(writes)) + multiset(Among(recs, pending)) == multiset(recs)
    && files == Apply(fs, writes)
  }

  lemma GroupLoopStep(recs: seq<Record>, part: nat, fs: Files,
                      files: Files, writes: seq<FileWrite>, pending: set<Key>, w: FileWrite,
                      files': Files, writes': seq<FileWrite>, pending': set<Key>)
    requires KeysValid(recs)
    requires GroupLoop(recs, part, fs, files, writes, pending)
    requires w.key in pending && w.part == part && w.rows == Group(recs, w.key)
    requires files' == files[LocationOf(w) := w.rows] && writes' == writes + [w] && pending' == pending - {w.key}
    ensures GroupLoop(recs, part, fs, files', writes', pending')
  {
    var k := w.key;
    GroupWriteStep(recs, part, writes, KeySet(recs) - pending, w);
    ApplySnoc(fs, writes, w);
    AmongSplit(recs, pending, k);
    SnocPrefix(writes, w);
    assert KeySet(recs) - pending + {k} == KeySet(recs) - (pending - {k});
  }

  /**
   * The inner loop of `main`: one file per (year, month) group of the chunk,
   * named after the chunk's first sequence number `part`. The groups are
   * taken in any order.
   */
  method WriteChunk(recs: seq<Record>, part: nat, fs: Files)
    returns (files: Files, writes: seq<FileWrite>)
    requires KeysValid(recs)
    ensures files == Apply(fs, writes)
    ensures KeysOf(writes) == KeySet(recs)
    ensures forall i :: 0 <= i < |writes| ==>
      && writes[i].part == part
      && OfKey(writes[i])
      && writes[i].rows == Group(recs, writes[i].key)
    ensures forall i, j :: 0 <= i < j < |writes| ==> writes[i].key != writes[j].key
    ensures multiset(Flatten(writes)) == multiset(recs)
    ensures LocationsOf(writes) == ChunkFiles(recs, part).Keys
    ensures files == fs + ChunkFiles(recs, part)
  {
    files, writes := fs, [];
    var pending := KeySet(recs);
    AmongAll(recs, pending);
    while pending != {}
      invariant GroupLoop(recs, part, fs, files, writes, pending)
      decreases pending
    {
      var k :| k in pending;
      var w := FileWrite(k, part, Group(recs, k));
      var files', writes', pending' := files[LocationOf(w) := w.rows], writes + [w], pending - {k};
      GroupLoopStep(recs, part, fs, files, writes, pending, w, files', writes', pending');
      files, writes, pending := files', writes', pending';
    }
    GroupLoopDone(recs, part, fs, files, writes);
  }

  /** Once no group is pending, the writes are the chunk's files and hold exactly its rows. */
  lemma GroupLoopDone(recs: seq<Record>, part: nat, fs: Files, files: Files, writes: seq<FileWrite>)
    requires GroupLoop(recs, part, fs, files, writes, {})
    ensures files == Apply(fs, writes)
    ensures KeysOf(writes) == KeySet(recs)
    ensures forall i :: 0 <= i < |writes| ==>
      && writes[i].part == part
      && OfKey(writes[i])
      && writes[i].rows == Group(recs, writes[i].key)
    ensures forall i, j :: 0 <= i < j < |writes| ==> writes[i].key != writes[j].key
    ensures multiset(Flatten(writes)) == multiset(recs)
    ensures LocationsOf(writes) == ChunkFiles(recs, part).Keys
    ensures files == fs + ChunkFiles(recs, part)
  {
    AmongNone(recs);
    ChunkApplied(recs, part, fs, writes);
  }

  /** A chunk with rows writes at least one file. */
  lemma ChunkWritesSome(recs: seq<Record>, part: nat, writes: seq<FileWrite>)
    requires recs != [] && LocationsOf(writes) == ChunkFiles(recs, part).Keys
    ensures writes != []
  {
    assert Location(KeyOf(recs[0]), part) in ChunkFiles(recs, part);
  }

  /** A chunk of rows with renderable keys has only rows with renderable keys. */
  lemma KeysValidSlice(run: seq<Record>, lo: nat, hi: nat)
    requires KeysValid(run) && lo <= hi <= |run|
    ensures KeysValid(run[lo..hi])
  {
    forall r | r in run[lo..hi]
      ensures ValidKey(KeyOf(r))
    {
      var i :| lo <= i < hi && run[i] == r;
    }
  }

  /** The files of the chunk numbered `part`: one per key present in it, holding that key's group. */
  function ChunkFiles(recs: seq<Record>, part: nat): Files {
    if recs == [] then map[]
    else ChunkFiles(recs[1..], part)[Location(KeyOf(recs[0]), part) := Group(recs, KeyOf(recs[0]))]
  }

  lemma KeySetCons(recs: seq<Record>)
    requires recs != []
    ensures KeySet(recs) == {KeyOf(recs[0])} + KeySet(recs[1..])
  {
    assert recs == [recs[0]] + recs[1..];
  }

  /** A chunk has a file for exactly the keys present in it, each holding its group. */
  lemma {:induction false} ChunkFilesAt(recs: seq<Record>, part: nat, k: Key)
    ensures Location(k, part) in ChunkFiles(recs, part) <==> k in KeySet(recs)
    ensures k in KeySet(recs) ==> ChunkFiles(recs, part)[Location(k, part)] == Group(recs, k)
  {
    if recs != [] {
      KeySetCons(recs);
      ChunkFilesAt(recs[1..], part, k);
    }
  }

  /** Every file of a chunk is named after the chunk. */
  lemma {:induction false} ChunkFilesPart(recs: seq<Record>, part: nat, l: Location)
    requires l in ChunkFiles(recs, part)
    ensures l.part == part
  {
    if recs != [] && l != Location(KeyOf(recs[0]), part) {
      ChunkFilesPart(recs[1..], part, l);
    }
  }

  /**
   * One file per group of a chunk, in any order, leaves the old tree
   * overwritten by the chunk's files: the written places are exactly the
   * chunk's, each holds its group, and every other file is as it was.
   */
  lemma ChunkApplied(recs: seq<Record>, part: nat, fs: Files, writes: seq<FileWrite>)
    requires WritesOfGroups(recs, part, writes, KeySet(recs))
    ensures LocationsOf(writes) == ChunkFiles(recs, part).Keys
    ensures Apply(fs, writes) == fs + ChunkFiles(recs, part)
  {
    var cf := ChunkFiles(recs, part);
    ApplyDistinct(fs, writes);
    forall l | l in LocationsOf(writes)
      ensures l in cf
    {
      LocationsOfMember(writes, l);
      var i :| 0 <= i < |writes| && LocationOf(writes[i]) == l;
      assert writes[i].key in KeysOf(writes);
      ChunkFilesAt(recs, part, writes[i].key);
    }
    forall l | l in cf
      ensures l in LocationsOf(writes) && Apply(fs, writes)[l] == cf[l]
    {
      var k := l.key;
      ChunkFilesPart(recs, part, l);
      ChunkFilesAt(recs, part, k);
      KeysOfMember(writes, k);
      var i :| 0 <= i < |writes| && writes[i].key == k;
      assert LocationOf(writes[i]) == l;
    }
    Extensional(Apply(fs, writes), fs + cf);
  }

  /** Sum of chunk sizes. */
  function Sum(s: seq<nat>): nat {
    if s == [] then 0 else Sum(s[..|s| - 1]) + s[|s| - 1]
  }

  /** The number of chunks the loop takes for `rows` rows: none when rows is not positive. */
  /** For positive `rows` this is `math.ceil(rows / chunk)`: the least q with q * chunk >= rows. */
  function ChunkCount(rows: int, chunk: int): (q: nat)
    requires chunk > 0
    ensures rows <= 0 ==> q == 0
    ensures rows > 0 ==> (q - 1) * chunk < rows <= q * chunk
    decreases rows
  {
    if rows <= 0 then 0 else 1 + ChunkCount(rows - chunk, chunk)
  }

  /** Full chunks followed by one chunk of 1 to `chunk` rows: their number is the chunk count of their total. */
  lemma {:induction false} ChunkCountOfSizes(sizes: seq<nat>, chunk: int)
    requires chunk > 0
    requires forall j :: 0 <= j < |sizes| ==> 1 <= sizes[j] <= chunk
    requires forall j :: 0 <= j < |sizes| - 1 ==> sizes[j] == chunk
    ensures ChunkCount(Sum(sizes), chunk) == |sizes|
    decreases |sizes|
  {
    if sizes != [] {
      var init := sizes[..|sizes| - 1];
      ChunkCountOfSizes(init, chunk);
      if init != [] {
        FullChunks(init, chunk, sizes[|sizes| - 1]);
      }
    }
  }

  /** After full chunks, a last chunk of 1 to `chunk` rows adds exactly one to the count. */
  lemma {:induction false} FullChunks(sizes: seq<nat>, chunk: int, n: int)
    requires chunk > 0 && 1 <= n <= chunk
    requires forall j :: 0 <= j < |sizes| ==> sizes[j] == chunk
    ensures ChunkCount(Sum(sizes) + n, chunk) == |sizes| + 1
    decreases |sizes|
  {
    if sizes != [] {
      var init := sizes[..|sizes| - 1];
      FullChunks(init, chunk, n);
      assert Sum(sizes) + n - chunk == Sum(init) + n;
    }
  }

  function Min(a: int, b: int): int {
    if a < b then a else b
  }

  function Max0(n: int): nat {
    if n > 0 then n else 0
  }

  /** The chunk sizes after `written` rows: full chunks, then at most one short one at the end. */
  predicate SizesSoFar(rows: int, chunk: int, written: nat, sizes: seq<nat>) {
    && (rows > 0 ==> written <= rows)
    && Sum(sizes) == written
    && (forall j :: 0 <= j < |sizes| ==> 1 <= sizes[j] <= chunk)
    && (forall j :: 0 <= j < |sizes| - 1 ==> sizes[j] == chunk)
    && (written < rows ==> forall j :: 0 <= j < |sizes| ==> sizes[j] == chunk)
  }

  lemma SizesStep(rows: int, chunk: int, written: nat, sizes: seq<nat>, n: nat)
    requires SizesSoFar(rows, chunk, written, sizes)
    requires chunk > 0 && written < rows && n == Min(chunk, rows - written)
    ensures SizesSoFar(rows, chunk, written + n, sizes + [n])
  {
    SnocPrefix(sizes, n);
  }

  /** Chunk sizes are positive. */
  predicate Positive(sizes: seq<nat>) {
    forall j :: 0 <= j < |sizes| ==> sizes[j] >= 1
  }

  /** Chunk j starts where the chunks before it end, and ends no later than the last chunk. */
  lemma {:induction false} PrefixSums(sizes: seq<nat>, j: nat)
    requires j < |sizes|
    ensures Sum(sizes[..j]) + sizes[j] == Sum(sizes[..j + 1]) <= Sum(sizes)
    decreases |sizes|
  {
    var init := sizes[..|sizes| - 1];
    assert sizes[..j + 1][..j] == sizes[..j];
    if j < |init| {
      PrefixSums(init, j);
      assert init[..j] == sizes[..j] && init[..j + 1] == sizes[..j + 1];
    } else {
      assert sizes[..j + 1] == sizes;
    }
  }

  /** Chunk j of the run: the `sizes[j]` rows numbered from `Sum(sizes[..j])`. */
  function Chunk(run: seq<Record>, sizes: seq<nat>, j: nat): seq<Record>
    requires Sum(sizes) <= |run| && j < |sizes|
  {
    PrefixSums(sizes, j);
    run[Sum(sizes[..j])..Sum(sizes[..j + 1])]
  }

  /** Dropping the last chunk size leaves the earlier chunks where they were. */
  lemma InitChunk(run: seq<Record>, sizes: seq<nat>, j: nat)
    requires Sum(sizes) <= |run| && j + 1 < |sizes|
    ensures Sum(sizes[..|sizes| - 1]) <= |run|
    ensures Sum(sizes[..|sizes| - 1][..j]) == Sum(sizes[..j])
    ensures Chunk(run, sizes[..|sizes| - 1], j) == Chunk(run, sizes, j)
  {
    var init := sizes[..|sizes| - 1];
    assert init[..j] == sizes[..j] && init[..j + 1] == sizes[..j + 1];
  }

  /**
   * The files a run cut into chunks of `sizes` leaves behind: each chunk adds
   * its files, named after its first row number, over those of the earlier chunks.
   */
  function Layout(run: seq<Record>, sizes: seq<nat>): Files
    requires Sum(sizes) <= |run|
    decreases |sizes|
  {
    if sizes == [] then map[]
    else
      var init := sizes[..|sizes| - 1];
      Layout(run, init) + ChunkFiles(run[Sum(init)..Sum(sizes)], Sum(init))
  }

  /**
   * Every key present in chunk j has a file named after the chunk's first row
   * number, holding that key's group of the chunk; no later chunk replaces it.
   */
  lemma {:induction false} LayoutAt(run: seq<Record>, sizes: seq<nat>, j: nat, k: Key)
    requires Sum(sizes) <= |run| && j < |sizes| && Positive(sizes)
    requires k in KeySet(Chunk(run, sizes, j))
    ensures Location(k, Sum(sizes[..j])) in Layout(run, sizes)
    ensures Layout(run, sizes)[Location(k, Sum(sizes[..j]))] == Group(Chunk(run, sizes, j), k)
    decreases |sizes|
  {
    var init := sizes[..|sizes| - 1];
    PrefixSums(sizes, j);
    var last := run[Sum(init)..Sum(sizes)];
    if j == |init| {
      assert sizes[..j] == init && sizes[..j + 1] == sizes;
      ChunkFilesAt(last, Sum(init), k);
    } else {
      InitChunk(run, sizes, j);
      LayoutAt(run, init, j, k);
      PrefixSums(init, j);
      if Location(k, Sum(sizes[..j])) in ChunkFiles(last, Sum(init)) {
        ChunkFilesPart(last, Sum(init), Location(k, Sum(sizes[..j])));
      }
    }
  }

  /** Every file of the layout is the file of a key present in some chunk, named after that chunk's first row number. */
  lemma {:induction false} LayoutOnly(run: seq<Record>, sizes: seq<nat>, l: Location)
    requires Sum(sizes) <= |run| && l in Layout(run, sizes)
    ensures exists j :: 0 <= j < |sizes| && l.part == Sum(sizes[..j]) && l.key in KeySet(Chunk(run, sizes, j))
    decreases |sizes|
  {
    var init := sizes[..|sizes| - 1];
    var j := |init|;
    PrefixSums(sizes, j);
    assert sizes[..j] == init && sizes[..j + 1] == sizes;
    var last := run[Sum(init)..Sum(sizes)];
    if l in ChunkFiles(last, Sum(init)) {
      ChunkFilesPart(last, Sum(init), l);
      ChunkFilesAt(last, Sum(init), l.key);
      assert Chunk(run, sizes, j) == last;
    } else {
      LayoutOnly(run, init, l);
      var i :| 0 <= i < |init| && l.part == Sum(init[..i]) && l.key in KeySet(Chunk(run, init, i));
      InitChunk(run, sizes, i);
    }
  }

  /** A last chunk of `n` rows adds its files over those of the chunks before it. */
  lemma LayoutSnoc(run: seq<Record>, sizes: seq<nat>, n: nat, more: seq<nat>)
    requires Sum(sizes) + n <= |run| && more == sizes + [n]
    ensures Sum(more) == Sum(sizes) + n
    ensures Layout(run, more) == Layout(run, sizes) + ChunkFiles(run[Sum(sizes)..Sum(sizes) + n], Sum(sizes))
  {
    assert more[..|more| - 1] == sizes;
    LayoutLast(run, more, sizes);
  }

  /** The layout of a non-empty list of chunks: that of all but the last, plus the files of the last. */
  lemma LayoutLast(run: seq<Record>, sizes: seq<nat>, init: seq<nat>)
    requires sizes != [] && Sum(sizes) <= |run| && init == sizes[..|sizes| - 1]
    ensures Sum(sizes) == Sum(init) + sizes[|sizes| - 1]
    ensures Layout(run, sizes) == Layout(run, init) + ChunkFiles(run[Sum(init)..Sum(sizes)], Sum(init))
  {
  }

  /** One more chunk of `n` rows from `written` on adds its files over the layout so far. */
  lemma LayoutStep(run: seq<Record>, fs: Files, sizes: seq<nat>, written: nat, n: nat, more: seq<nat>,
                   recs: seq<Record>, files: Files, log: seq<FileWrite>, files': Files, log': seq<FileWrite>)
    requires Sum(sizes) == written && written + n <= |run| && more == sizes + [n]
    requires recs == run[written..written + n]
    requires files == fs + Layout(run, sizes) && LocationsOf(log) == Layout(run, sizes).Keys
    requires files' == files + ChunkFiles(recs, written)
    requires LocationsOf(log') == LocationsOf(log) + ChunkFiles(recs, written).Keys
    ensures Sum(more) == written + n
    ensures files' == fs + Layout(run, more)
    ensures LocationsOf(log') == Layout(run, more).Keys
  {
    LayoutSnoc(run, sizes, n, more);
    UnionAssoc(fs, Layout(run, sizes), ChunkFiles(recs, written));
  }

  /** The files and the write log after the chunks that hold the first `written` rows of the run. */
  predicate FilesSoFar(run: seq<Record>, fs: Files, written: nat, files: Files, log: seq<FileWrite>)
  {
    && written <= |run|
    && files == Apply(fs, log)
    && DistinctFiles(log)
    && (forall i :: 0 <= i < |log| ==> OfKey(log[i]) && log[i].part < written)
    && multiset(Flatten(log)) == multiset(run[..written])
  }

  lemma FilesStep(run: seq<Record>, fs: Files, written: nat, files: Files, log: seq<FileWrite>,
                  files': Files, writes: seq<FileWrite>, written': nat, log': seq<FileWrite>)
    requires FilesSoFar(run, fs, written, files, log)
    requires written < written' <= |run| && log' == log + writes
    requires files' == Apply(files, writes)
    requires forall i :: 0 <= i < |writes| ==> writes[i].part == written && OfKey(writes[i])
    requires forall i, j :: 0 <= i < j < |writes| ==> writes[i].key != writes[j].key
    requires multiset(Flatten(writes)) == multiset(run[written..written'])
    ensures FilesSoFar(run, fs, written', files', log')
  {
    AdjacentSlices(run, 0, written, written');
    assert run[0..written] == run[..written] && run[0..written'] == run[..written'];
    FlattenAppend(log, writes);
    ApplyAppend(fs, log, writes);
    ConcatPermutations(Flatten(log), Flatten(writes), run[..written], run[written..written']);
    forall i, j | 0 <= i < j < |log'|
      ensures LocationOf(log'[i]) != LocationOf(log'[j])
    {
      if j < |log| {
        assert log'[i] == log[i] && log'[j] == log[j];
      } else if i < |log| {
        assert log'[i] == log[i] && log'[j] == writes[j - |log|];
      } else {
        assert log'[i] == writes[i - |log|] && log'[j] == writes[j - |log|];
      }
    }
    assert forall i :: 0 <= i < |log'| ==> OfKey(log'[i]) && log'[i].part < written' by {
      forall i | 0 <= i < |log'|
        ensures OfKey(log'[i]) && log'[i].part < written'
      {
        if i < |log| { assert log'[i] == log[i]; } else { assert log'[i] == writes[i - |log|]; }
      }
    }
  }

  /** Every synthesised row carries a valid partition key. */
  lemma RunKeysValid(draws: seq<RowDraw>)
    requires AllWellFormed(draws)
    ensures KeysValid(RunRows(draws))
  {
    var run := RunRows(draws);
    forall r | r in run
      ensures ValidKey(KeyOf(r))
    {
      var i :| 0 <= i < |run| && run[i] == r;
      RunRowFacts(draws, i);
    }
  }

  /** `w` is the file of a key present in the chunk `recs` numbered `part`, holding that key's group. */
  predicate WriteOfChunk(w: FileWrite, recs: seq<Record>, part: nat) {
    w.part == part && w.key in KeySet(recs) && w.rows == Group(recs, w.key)
  }

  /** A log laid out as the chunks `sizes`: the files it writes are the layout's, and none is written twice. */
  predicate LaidOut(run: seq<Record>, fs: Files, sizes: seq<nat>, files: Files, log: seq<FileWrite>)
    requires Sum(sizes) <= |run|
  {
    && DistinctFiles(log)
    && files == Apply(fs, log)
    && files == fs + Layout(run, sizes)
    && LocationsOf(log) == Layout(run, sizes).Keys
  }

  /** Each write of such a log is the file of a key of some chunk j, named after the chunk's first row number. */
  lemma WriteFromChunk(run: seq<Record>, fs: Files, sizes: seq<nat>, files: Files, log: seq<FileWrite>, i: nat)
    requires Sum(sizes) <= |run| && Positive(sizes) && LaidOut(run, fs, sizes, files, log)
    requires i < |log|
    ensures exists j :: 0 <= j < |sizes| && WriteOfChunk(log[i], Chunk(run, sizes, j), Sum(sizes[..j]))
  {
    ApplyDistinct(fs, log);
    var l := LocationOf(log[i]);
    LayoutOnly(run, sizes, l);
    var j :| 0 <= j < |sizes| && l.part == Sum(sizes[..j]) && l.key in KeySet(Chunk(run, sizes, j));
    LayoutAt(run, sizes, j, l.key);
    assert WriteOfChunk(log[i], Chunk(run, sizes, j), Sum(sizes[..j]));
  }

  /** Each key of each chunk j has its write in such a log. */
  lemma ChunkHasWrite(run: seq<Record>, fs: Files, sizes: seq<nat>, files: Files, log: seq<FileWrite>, j: nat, k: Key)
    requires Sum(sizes) <= |run| && Positive(sizes) && LaidOut(run, fs, sizes, files, log)
    requires j < |sizes| && k in KeySet(Chunk(run, sizes, j))
    ensures exists i :: 0 <= i < |log| && log[i].key == k && WriteOfChunk(log[i], Chunk(run, sizes, j), Sum(sizes[..j]))
  {
    ApplyDistinct(fs, log);
    LayoutAt(run, sizes, j, k);
    var l := Location(k, Sum(sizes[..j]));
    LocationsOfMember(log, l);
    var i :| 0 <= i < |log| && LocationOf(log[i]) == l;
    assert WriteOfChunk(log[i], Chunk(run, sizes, j), Sum(sizes[..j]));
  }

  /** Every write of a log laid out as the chunks `sizes` is the file of a key of some chunk. */
  lemma WritesFromChunks(run: seq<Record>, fs: Files, sizes: seq<nat>, files: Files, log: seq<FileWrite>)
    requires Sum(sizes) <= |run| && Positive(sizes) && LaidOut(run, fs, sizes, files, log)
    ensures forall i :: 0 <= i < |log| ==>
      exists j :: 0 <= j < |sizes| && WriteOfChunk(log[i], Chunk(run, sizes, j), Sum(sizes[..j]))
  {
    forall i | 0 <= i < |log|
      ensures exists j :: 0 <= j < |sizes| && WriteOfChunk(log[i], Chunk(run, sizes, j), Sum(sizes[..j]))
    {
      WriteFromChunk(run, fs, sizes, files, log, i);
    }
  }

  /** Every key of every chunk has its write in a log laid out as the chunks `sizes`. */
  lemma ChunksHaveWrites(run: seq<Record>, fs: Files, sizes: seq<nat>, files: Files, log: seq<FileWrite>)
    requires Sum(sizes) <= |run| && Positive(sizes) && LaidOut(run, fs, sizes, files, log)
    ensures forall j, k :: 0 <= j < |sizes| && k in KeySet(Chunk(run, sizes, j)) ==>
      exists i :: 0 <= i < |log| && log[i].key == k && WriteOfChunk(log[i], Chunk(run, sizes, j), Sum(sizes[..j]))
  {
    forall j, k | 0 <= j < |sizes| && k in KeySet(Chunk(run, sizes, j))
      ensures exists i :: 0 <= i < |log| && log[i].key == k && WriteOfChunk(log[i], Chunk(run, sizes, j), Sum(sizes[..j]))
    {
      ChunkHasWrite(run, fs, sizes, files, log, j, k);
    }
  }

  /** The state of `main` after the chunks `sizes`, which hold the first `written` rows of the run. */
  predicate Progress(rows: int, chunk: int, run: seq<Record>, fs: Files, written: nat, sizes: seq<nat>,
                     files: Files, log: seq<FileWrite>)
  {
    && SizesSoFar(rows, chunk, written, sizes)
    && FilesSoFar(run, fs, written, files, log)
    && files == fs + Layout(run, sizes)
    && LocationsOf(log) == Layout(run, sizes).Keys
  }

  /** Writing the files of the next chunk, `recs`, keeps `Progress` with one more chunk size. */
  lemma ChunkStep(rows: int, chunk: int, run: seq<Record>, fs: Files, written: nat, sizes: seq<nat>,
                  files: Files, log: seq<FileWrite>, n: nat, recs: seq<Record>,
                  written': nat, sizes': seq<nat>, files': Files, writes: seq<FileWrite>, log': seq<FileWrite>)
    requires Progress(rows, chunk, run, fs, written, sizes, files, log)
    requires chunk > 0 && written < rows && n == Min(chunk, rows - written)
    requires written' == written + n <= |run| && recs == run[written..written']
    requires sizes' == sizes + [n] && log' == log + writes
    requires files' == Apply(files, writes)
    requires forall i :: 0 <= i < |writes| ==>
      && writes[i].part == written
      && OfKey(writes[i])
      && writes[i].rows == Group(recs, writes[i].key)
    requires forall i, j :: 0 <= i < j < |writes| ==> writes[i].key != writes[j].key
    requires multiset(Flatten(writes)) == multiset(recs)
    requires LocationsOf(writes) == ChunkFiles(recs, written).Keys
    requires files' == files + ChunkFiles(recs, written)
    ensures Progress(rows, chunk, run, fs, written', sizes', files', log')
  {
    SizesStep(rows, chunk, written, sizes, n);
    FilesStep(run, fs, written, files, log, files', writes, written', log');
    LocationsOfAppend(log, writes);
    LayoutStep(run, fs, sizes, written, n, sizes', recs, files, log, files', log');
  }

  /**
   * One pass of the loop of `main`: take the next `min(chunk, rows - written)`
   * rows, numbered from `written` (what `synth_chunk(start_id=next_id, rows=n)`
   * returns), and write one file per (year, month) group of them.
   */
  method WriteNextChunk(rows: int, chunk: int, run: seq<Record>, fs: Files, written: nat, sizes: seq<nat>,
                        files: Files, log: seq<FileWrite>)
    returns (files': Files, log': seq<FileWrite>, written': nat, sizes': seq<nat>, writes: seq<FileWrite>)
    requires KeysValid(run) && rows <= |run| && chunk > 0 && written < rows
    requires Progress(rows, chunk, run, fs, written, sizes, files, log)
    ensures written' == written + Min(chunk, rows - written)
    ensures writes != [] && log' == log + writes
    ensures Progress(rows, chunk, run, fs, written', sizes', files', log')
  {
    var n := Min(chunk, rows - written);
    written' := written + n;
    var recs := run[written..written'];
    KeysValidSlice(run, written, written');
    files', writes := WriteChunk(recs, written, files);
    ChunkWritesSome(recs, written, writes);
    log' := log + writes;
    sizes' := sizes + [n];
    ChunkStep(rows, chunk, run, fs, written, sizes, files, log, n, recs, written', sizes', files', writes, log');
  }

  /**
   * The loop of `main`: chunks of at most `chunk` rows of the run, in order,
   * each split into one file per (year, month) group.
   */
  method WriteRun(rows: int, chunk: int, run: seq<Record>, fs: Files)
    returns (outcome: Outcome, files: Files, log: seq<FileWrite>, sizes: seq<nat>)
    requires rows <= |run|
    requires KeysValid(run)
    ensures chunk == 0 ==> outcome == Failed(ZeroDivision)
    ensures chunk < 0 && rows > 0 ==> outcome == Failed(NegativeSize)
    ensures outcome == Done <==> chunk > 0 || (chunk < 0 && rows <= 0)
    ensures outcome.Failed? || rows <= 0 ==> files == fs && log == [] && sizes == []
    ensures Progress(rows, chunk, run, fs, Sum(sizes), sizes, files, log)
    ensures outcome == Done ==> Sum(sizes) == Max0(rows)
    ensures chunk > 0 ==> |sizes| == ChunkCount(rows, chunk)
  {
    files, log, sizes := fs, [], [];
    if chunk == 0 {
      return Failed(ZeroDivision), files, log, sizes;
    }
    var written: nat, nextId: nat := 0, 0;
    while written < rows
      invariant written == nextId
      invariant Progress(rows, chunk, run, fs, written, sizes, files, log)
      invariant rows <= 0 || chunk < 0 ==> written == 0 && log == [] && sizes == [] && files == fs
      decreases rows - written
    {
      var n := Min(chunk, rows - written);
      if n < 0 {
        return Failed(NegativeSize), files, log, sizes;
      }
      var writes;
      files, log, written, sizes, writes := WriteNextChunk(rows, chunk, run, fs, nextId, sizes, files, log);
      nextId := nextId + n;
    }
    assert written == Max0(rows);
    if chunk > 0 {
      ChunkCountOfSizes(sizes, chunk);
    }
    outcome := Done;
  }

  /**
   * `main` after argument parsing. `draws` stands for the random source: row n
   * of the run is built from `draws[n]`, so every chunk `synth_chunk` returns
   * is a slice of `RunRows(draws)`. No file is written twice, every file holds
   * its group's rows, and together the files hold the first `rows` rows.
   */
  method Generate(root: string, rows: int, chunk: int, draws: seq<RowDraw>, fs: Files)
    returns (outcome: Outcome, files: Files, log: seq<FileWrite>, sizes: seq<nat>)
    requires rows <= |draws|
    requires AllWellFormed(draws)
    ensures chunk == 0 ==> outcome == Failed(ZeroDivision)
    ensures chunk < 0 && rows > 0 ==> outcome == Failed(NegativeSize)
    ensures outcome == Done <==> chunk > 0 || (chunk < 0 && rows <= 0)
    ensures outcome.Failed? || rows <= 0 ==> files == fs && log == [] && sizes == []
    ensures DistinctPaths(root, log)
    ensures forall i :: 0 <= i < |log| ==> OfKey(log[i])
    ensures files.Keys == fs.Keys + LocationsOf(log)
    ensures forall i :: 0 <= i < |log| ==> files[LocationOf(log[i])] == log[i].rows
    ensures forall l :: l in fs && l !in LocationsOf(log) ==> files[l] == fs[l]
    ensures outcome == Done ==> multiset(Flatten(log)) == multiset(SynthChunk(draws, 0, Max0(rows)))
    ensures outcome == Done ==> Sum(sizes) == Max0(rows)
    ensures forall j :: 0 <= j < |sizes| ==> 1 <= sizes[j] <= chunk
    ensures forall j :: 0 <= j < |sizes| - 1 ==> sizes[j] == chunk
    ensures chunk > 0 ==> |sizes| == ChunkCount(rows, chunk)
    ensures Sum(sizes) <= |draws|
    ensures files == fs + Layout(RunRows(draws), sizes)
    ensures LocationsOf(log) == Layout(RunRows(draws), sizes).Keys
    ensures forall i :: 0 <= i < |log| ==>
      exists j :: 0 <= j < |sizes| && WriteOfChunk(log[i], Chunk(RunRows(draws), sizes, j), Sum(sizes[..j]))
    ensures forall j, k :: 0 <= j < |sizes| && k in KeySet(Chunk(RunRows(draws), sizes, j)) ==>
      exists i :: 0 <= i < |log| && log[i].key == k && WriteOfChunk(log[i], Chunk(RunRows(draws), sizes, j), Sum(sizes[..j]))
  {
    var run := RunRows(draws);
    RunKeysValid(draws);
    outcome, files, log, sizes := WriteRun(rows, chunk, run, fs);
    DistinctFilesDistinctPaths(root, log);
    ApplyDistinct(fs, log);
    assert SynthChunk(draws, 0, Max0(rows)) == run[..Max0(rows)];
    WritesFromChunks(run, fs, sizes, files, log);
    ChunksHaveWrites(run, fs, sizes, files, log);  }
}

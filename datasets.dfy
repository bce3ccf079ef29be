/**
  The two audio datasets: how their constructors collect `(path, filename,
  label)` entries from the directory tree, shuffle them, optionally keep a
  prefix, and unpack them into the parallel `fileList` and `labels` lists;
  and what `__getitem__` returns for an index.

  The directory tree is a `FileSystem` value.  The shuffle is given as the
  permutation `order` that `random.shuffle` applied (entry `i` of the result
  is entry `order[i]` of the collected list), and the fraction as the number
  of entries it keeps (`int(len(data) * fraction)`), or `None` when the
  constructor does not slice.
*/
module Datasets {
  import opened Common
  import opened FileTree
  import opened Waveform

  /** One `(path, filename, label)` element of `self.data`. */
  datatype Item = Item(dir: string, filename: string, target: int)

  /** What `__getitem__` returns without its LFCC features: the fixed-length
      waveform and the label, together with the path the audio was loaded from. */
  datatype Sample = Sample(audioPath: string, waveform: seq<seq<real>>, target: real)

  const AugmentProb: real := 0.20

  /** The class folders of the raw loader, in the order they are scanned. */
  const ClassNames: seq<string> := ["Real", "Fake"]

  function ClassLabel(className: string): (value: int)
    ensures value == 0 || value == 1
    ensures value == 0 <==> className == "Real"
  {
    if className == "Real" then 0 else 1
  }

  // ---------------------------------------------------------------------
  // Shuffle, slice and unpack (shared by both constructors)
  // ---------------------------------------------------------------------

  /** `order` is a permutation of `0 .. n-1`, as `random.shuffle` produces. */
  predicate IsShuffleOrder(order: seq<nat>, n: nat) {
    && |order| == n
    && (forall i :: 0 <= i < n ==> order[i] < n)
    && (forall i, j :: 0 <= i < j < n ==> order[i] != order[j])
    && (forall j :: 0 <= j < n ==> j in order)
  }

  function Shuffle(s: seq<Item>, order: seq<nat>): (r: seq<Item>)
    requires IsShuffleOrder(order, |s|)
    ensures |r| == |s|
    ensures forall i :: 0 <= i < |s| ==> r[i] == s[order[i]]
  {
    seq(|s|, i requires 0 <= i < |s| => s[order[i]])
  }

  /** The first `n - 1` positions of `order` with position `order[n - 1]`
      removed from the numbering. */
  function Renumber(order: seq<nat>, n: nat): (order': seq<nat>)
    requires 0 < n <= |order|
    ensures |order'| == n - 1
  {
    var p := order[n - 1];
    seq(n - 1, i requires 0 <= i < n - 1 => if order[i] > p then order[i] - 1 else order[i])
  }

  lemma RenumberIsShuffleOrder(order: seq<nat>, n: nat)
    requires 0 < n && IsShuffleOrder(order, n)
    ensures IsShuffleOrder(Renumber(order, n), n - 1)
  {
    var p := order[n - 1];
    var order' := Renumber(order, n);
    forall i | 0 <= i < n - 1 ensures order'[i] < n - 1 {
      assert order[i] != order[n - 1];
    }
    forall i, j | 0 <= i < j < n - 1 ensures order'[i] != order'[j] {
      assert order[i] != order[j] && order[i] != p && order[j] != p;
    }
    forall j | 0 <= j < n - 1 ensures j in order' {
      var j' := if j >= p then j + 1 else j;
      assert j' in order;
      var i :| 0 <= i < n && order[i] == j';
      assert i != n - 1;
      assert order'[i] == j;
    }
  }

  /** Shuffling `s` without the entry the last position takes gives the
      shuffle of `s` without its last entry. */
  lemma ShuffleWithoutLast(s: seq<Item>, order: seq<nat>)
    requires |s| > 0 && IsShuffleOrder(order, |s|)
    ensures var p := order[|s| - 1];
            IsShuffleOrder(Renumber(order, |s|), |s| - 1)
            && Shuffle(s[..p] + s[p + 1..], Renumber(order, |s|)) == Shuffle(s, order)[..|s| - 1]
  {
    var n := |s|;
    var p := order[n - 1];
    var s' := s[..p] + s[p + 1..];
    var order' := Renumber(order, n);
    RenumberIsShuffleOrder(order, n);
    var r := Shuffle(s, order);
    forall i | 0 <= i < n - 1 ensures Shuffle(s', order')[i] == r[i] {
      assert order[i] != p by { assert order[i] != order[n - 1]; }
      if order[i] > p {
        assert s'[order[i] - 1] == s[order[i]];
      } else {
        assert s'[order[i]] == s[order[i]];
      }
    }
  }

  lemma MultisetWithout(s: seq<Item>, p: nat)
    requires p < |s|
    ensures multiset(s) == multiset(s[..p] + s[p + 1..]) + multiset{s[p]}
  {
    assert s == s[..p] + [s[p]] + s[p + 1..];
  }

  lemma MultisetSnoc(r: seq<Item>)
    requires |r| > 0
    ensures multiset(r) == multiset(r[..|r| - 1]) + multiset{r[|r| - 1]}
  {
    assert r == r[..|r| - 1] + [r[|r| - 1]];
  }

  /** The shuffle is a permutation: it keeps every entry as often as it occurs. */
  lemma {:induction false} ShufflePermutes(s: seq<Item>, order: seq<nat>)
    requires IsShuffleOrder(order, |s|)
    ensures multiset(Shuffle(s, order)) == multiset(s)
    decreases |s|
  {
    if |s| > 0 {
      var n := |s|;
      var p := order[n - 1];
      var r := Shuffle(s, order);
      ShuffleWithoutLast(s, order);
      ShufflePermutes(s[..p] + s[p + 1..], Renumber(order, n));
      MultisetSnoc(r);
      MultisetWithout(s, p);
      assert r[n - 1] == s[p];
    }
  }

  /** `self.data[:keep]` when the constructor slices, `self.data` otherwise. */
  function Kept(s: seq<Item>, keep: Option<int>): seq<Item> {
    if keep.Some? then PrefixSlice(s, keep.value) else s
  }

  function FileListOf(data: seq<Item>): (fileList: seq<(string, string)>)
    ensures |fileList| == |data|
    ensures forall i :: 0 <= i < |data| ==> fileList[i] == (data[i].dir, data[i].filename)
  {
    seq(|data|, i requires 0 <= i < |data| => (data[i].dir, data[i].filename))
  }

  function LabelsOf(data: seq<Item>): (labels: seq<int>)
    ensures |labels| == |data|
    ensures forall i :: 0 <= i < |data| ==> labels[i] == data[i].target
  {
    seq(|data|, i requires 0 <= i < |data| => data[i].target)
  }

  /** The constructor keeps a sub-multiset of the collected entries, and all of
      them when it does not slice. */
  lemma KeptEntriesAreCollected(s: seq<Item>, order: seq<nat>, keep: Option<int>)
    requires IsShuffleOrder(order, |s|)
    ensures multiset(Kept(Shuffle(s, order), keep)) <= multiset(s)
    ensures keep.None? ==> multiset(Kept(Shuffle(s, order), keep)) == multiset(s)
    ensures forall e :: e in Kept(Shuffle(s, order), keep) ==> e in s
  {
    var r := Shuffle(s, order);
    ShufflePermutes(s, order);
    var kept := Kept(r, keep);
    assert r == kept + r[|kept|..];
    assert multiset(kept) <= multiset(r);
    forall e | e in kept ensures e in s {
      assert e in multiset(kept);
    }
  }

  /** `__getitem__` after loading: the audio path, the padded or truncated
      waveform, and the label as a float tensor. */
  function LoadSample(audioPath: string, target: int, waveform: seq<seq<real>>, numSamples: nat, expected: nat): (s: Sample)
    requires HasShape(waveform, numSamples)
    ensures s.audioPath == audioPath && s.target == target as real
    ensures |s.waveform| == |waveform| && HasShape(s.waveform, expected)
    ensures s.waveform == FixLength(waveform, numSamples, expected)
  {
    Sample(audioPath, FixLength(waveform, numSamples, expected), target as real)
  }

  /** Python's `xs[idx]` position for `-len(xs) <= idx < len(xs)`. */
  function PyIndex(idx: int, n: nat): (i: nat)
    requires 0 <= idx + n && idx < n
    ensures i < n
    ensures i - idx == 0 || i - idx == n
  {
    if idx < 0 then idx + n else idx
  }

  // ---------------------------------------------------------------------
  // RawAudioDatasetLoader: <root>/<Real|Fake>/<source>/<type>.csv rows
  // ---------------------------------------------------------------------

  /** The label of CSV row `i`: its last column, or the class label when the
      CSV has a single column. */
  function CsvLabel(csv: Entry, i: nat, classLabel: int): int
    requires csv.CsvFile? && i < |csv.rows|
  {
    if csv.numColumns > 1 then csv.rows[i].last else classLabel
  }

  /** No CSV in the tree has more than one column. */
  predicate OneColumnCsvs(fs: FileSystem) {
    forall p :: p in fs.entries && fs.entries[p].CsvFile? ==> fs.entries[p].numColumns <= 1
  }

  /** The entries contributed by the first `n` rows of one CSV: a row is kept
      exactly when its audio file exists next to the CSV. */
  function RowItems(fs: FileSystem, dirPath: string, csv: Entry, classLabel: int, n: nat): (r: seq<Item>)
    requires csv.CsvFile? && n <= |csv.rows|
    ensures |r| <= n
    ensures forall k :: 0 <= k < |r| ==> r[k].dir == dirPath && Exists(fs, Join(dirPath, r[k].filename))
    ensures forall k :: 0 <= k < |r| ==>
              exists i :: 0 <= i < n && r[k].filename == csv.rows[i].filename && r[k].target == CsvLabel(csv, i, classLabel)
    ensures forall i :: 0 <= i < n && Exists(fs, Join(dirPath, csv.rows[i].filename)) ==>
              Item(dirPath, csv.rows[i].filename, CsvLabel(csv, i, classLabel)) in r
  {
    if n == 0 then []
    else
      var filename := csv.rows[n - 1].filename;
      var before := RowItems(fs, dirPath, csv, classLabel, n - 1);
      var here := if Exists(fs, Join(dirPath, filename)) then [Item(dirPath, filename, CsvLabel(csv, n - 1, classLabel))] else [];
      assert forall k :: 0 <= k < |before| ==> (before + here)[k] == before[k];
      before + here
  }

  function CsvPath(sourcePath: string, datasetType: string): string {
    Join(sourcePath, datasetType + ".csv")
  }

  /** `pd.read_csv` succeeds wherever the raw loader calls it under `sourcePath`. */
  predicate SourceReadable(fs: FileSystem, sourcePath: string, datasetType: string) {
    IsDir(fs, sourcePath) && Exists(fs, CsvPath(sourcePath, datasetType)) ==> IsCsv(fs, CsvPath(sourcePath, datasetType))
  }

  /** The entries of one source folder: the rows of its `<type>.csv` whose audio
      file exists in its `<type>` sub-folder. */
  function SourceItems(fs: FileSystem, classPath: string, datasetType: string, classLabel: int, folder: string): (r: seq<Item>)
    requires SourceReadable(fs, Join(classPath, folder), datasetType)
    ensures forall k :: 0 <= k < |r| ==>
              r[k].dir == Join(Join(classPath, folder), datasetType) && Exists(fs, Join(r[k].dir, r[k].filename))
    ensures forall k :: 0 <= k < |r| && OneColumnCsvs(fs) ==> r[k].target == classLabel
  {
    var sourcePath := Join(classPath, folder);
    var csvPath := CsvPath(sourcePath, datasetType);
    if IsDir(fs, sourcePath) && Exists(fs, csvPath) then
      var csv := fs.entries[csvPath];
      RowItems(fs, Join(sourcePath, datasetType), csv, classLabel, |csv.rows|)
    else
      []
  }

  /** The entries of the first `n` source folders of a class folder. */
  function FolderItems(fs: FileSystem, classPath: string, datasetType: string, classLabel: int, folders: seq<string>, n: nat): (r: seq<Item>)
    requires n <= |folders|
    requires forall f :: f in folders ==> SourceReadable(fs, Join(classPath, f), datasetType)
    ensures forall k :: 0 <= k < |r| ==> classPath + "/" <= r[k].dir && Exists(fs, Join(r[k].dir, r[k].filename))
    ensures forall k :: 0 <= k < |r| && OneColumnCsvs(fs) ==> r[k].target == classLabel
  {
    if n == 0 then []
    else
      var before := FolderItems(fs, classPath, datasetType, classLabel, folders, n - 1);
      var here := SourceItems(fs, classPath, datasetType, classLabel, folders[n - 1]);
      assert forall k :: 0 <= k < |here| ==> classPath + "/" <= here[k].dir by {
        forall k | 0 <= k < |here| ensures classPath + "/" <= here[k].dir {
          var sourcePath := Join(classPath, folders[n - 1]);
          assert here[k].dir[..|classPath| + 1] == sourcePath[..|classPath| + 1];
        }
      }
      before + here
  }

  /** A class folder that exists is a directory whose source folders are readable. */
  predicate ClassReadable(fs: FileSystem, classPath: string, datasetType: string) {
    Exists(fs, classPath) ==>
      IsDir(fs, classPath)
      && forall f :: f in Listing(fs, classPath) ==> SourceReadable(fs, Join(classPath, f), datasetType)
  }

  /** The entries under `<root>/<className>`; none when that folder is missing. */
  function ClassItems(fs: FileSystem, rootDir: string, datasetType: string, className: string): (r: seq<Item>)
    requires ClassReadable(fs, Join(rootDir, className), datasetType)
    ensures forall k :: 0 <= k < |r| ==>
              Join(rootDir, className) + "/" <= r[k].dir && Exists(fs, Join(r[k].dir, r[k].filename))
    ensures forall k :: 0 <= k < |r| && OneColumnCsvs(fs) ==> r[k].target == ClassLabel(className)
    ensures !Exists(fs, Join(rootDir, className)) ==> r == []
  {
    var classPath := Join(rootDir, className);
    if !Exists(fs, classPath) then []
    else
      var folders := Listing(fs, classPath);
      FolderItems(fs, classPath, datasetType, ClassLabel(className), folders, |folders|)
  }

  predicate RawReadable(fs: FileSystem, rootDir: string, datasetType: string) {
    forall c :: 0 <= c < |ClassNames| ==> ClassReadable(fs, Join(rootDir, ClassNames[c]), datasetType)
  }

  /** The entries of the first `n` class folders. */
  function ClassesItems(fs: FileSystem, rootDir: string, datasetType: string, n: nat): (r: seq<Item>)
    requires n <= |ClassNames| && RawReadable(fs, rootDir, datasetType)
    ensures forall k :: 0 <= k < |r| ==> Exists(fs, Join(r[k].dir, r[k].filename))
  {
    if n == 0 then []
    else ClassesItems(fs, rootDir, datasetType, n - 1) + ClassItems(fs, rootDir, datasetType, ClassNames[n - 1])
  }

  /** `self.data` of the raw loader before the shuffle. */
  function RawItems(fs: FileSystem, rootDir: string, datasetType: string): seq<Item>
    requires RawReadable(fs, rootDir, datasetType)
  {
    ClassesItems(fs, rootDir, datasetType, |ClassNames|)
  }

  /** With single-column CSVs the label is the class folder's: every entry under
      `Real` comes first and is labelled 0, every entry under `Fake` follows and is
      labelled 1. */
  lemma RawLabelsFollowClassFolders(fs: FileSystem, rootDir: string, datasetType: string)
    requires RawReadable(fs, rootDir, datasetType) && OneColumnCsvs(fs)
    ensures var reals := ClassItems(fs, rootDir, datasetType, ClassNames[0]);
            var fake := ClassItems(fs, rootDir, datasetType, ClassNames[1]);
            && RawItems(fs, rootDir, datasetType) == reals + fake
            && (forall k :: 0 <= k < |reals| ==> reals[k].target == 0 && Join(rootDir, "Real") + "/" <= reals[k].dir)
            && (forall k :: 0 <= k < |fake| ==> fake[k].target == 1 && Join(rootDir, "Fake") + "/" <= fake[k].dir)
  {
    assert ClassNames[0] == "Real" && ClassNames[1] == "Fake";
    var reals := ClassItems(fs, rootDir, datasetType, ClassNames[0]);
    assert ClassesItems(fs, rootDir, datasetType, 1) == [] + reals == reals;
  }

  /** Every entry of a constructed raw loader names an audio file that exists. */
  lemma RawEntriesExist(fs: FileSystem, rootDir: string, datasetType: string, order: seq<nat>, keep: Option<int>)
    requires RawReadable(fs, rootDir, datasetType)
    requires IsShuffleOrder(order, |RawItems(fs, rootDir, datasetType)|)
    ensures forall e :: e in Kept(Shuffle(RawItems(fs, rootDir, datasetType), order), keep) ==>
              Exists(fs, Join(e.dir, e.filename))
  {
    KeptEntriesAreCollected(RawItems(fs, rootDir, datasetType), order, keep);
  }

  /** The rows of one CSV, as the inner loop of the constructor appends them. */
  method ReadCsvRows(fs: FileSystem, dirPath: string, csv: Entry, classLabel: int) returns (items: seq<Item>)
    requires csv.CsvFile?
    ensures items == RowItems(fs, dirPath, csv, classLabel, |csv.rows|)
  {
    var labels := if csv.numColumns > 1 then seq(|csv.rows|, i requires 0 <= i < |csv.rows| => csv.rows[i].last)
                  else seq(|csv.rows|, _ => classLabel);
    items := [];
    for i := 0 to |csv.rows|
      invariant items == RowItems(fs, dirPath, csv, classLabel, i)
    {
      var filename := csv.rows[i].filename;
      if Exists(fs, Join(dirPath, filename)) {
        items := items + [Item(dirPath, filename, labels[i])];
      }
    }
  }

  /** The loop over the source folders of one class folder. */
  method ScanClassFolder(fs: FileSystem, classPath: string, datasetType: string, classLabel: int) returns (items: seq<Item>)
    requires IsDir(fs, classPath)
    requires forall f :: f in Listing(fs, classPath) ==> SourceReadable(fs, Join(classPath, f), datasetType)
    ensures items == FolderItems(fs, classPath, datasetType, classLabel, Listing(fs, classPath), |Listing(fs, classPath)|)
  {
    var folders := Listing(fs, classPath);
    items := [];
    for j := 0 to |folders|
      invariant items == FolderItems(fs, classPath, datasetType, classLabel, folders, j)
    {
      var sourcePath := Join(classPath, folders[j]);
      if IsDir(fs, sourcePath) {
        var csvPath := CsvPath(sourcePath, datasetType);
        if Exists(fs, csvPath) {
          var rows := ReadCsvRows(fs, Join(sourcePath, datasetType), fs.entries[csvPath], classLabel);
          items := items + rows;
        }
      }
    }
  }

  class RawAudioDatasetLoader {
    const augmentProb: real := AugmentProb
    const sampleRate: nat := SampleRate
    const expectedLength: nat := ExpectedLength
    const datasetType: string
    var data: seq<Item>
    var fileList: seq<(string, string)>
    var labels: seq<int>

    /** `fileList` and `labels` are the two projections of `data`. */
    ghost predicate Valid()
      reads this
    {
      fileList == FileListOf(data) && labels == LabelsOf(data)
    }

    constructor (fs: FileSystem, rootDir: string, order: seq<nat>, datasetType: string := "Train", keep: Option<int> := None)
      requires RawReadable(fs, rootDir, datasetType)
      requires IsShuffleOrder(order, |RawItems(fs, rootDir, datasetType)|)
      ensures this.datasetType == datasetType
      ensures data == Kept(Shuffle(RawItems(fs, rootDir, datasetType), order), keep)
      ensures Valid()
    {
      var collected: seq<Item> := [];
      for c := 0 to |ClassNames|
        invariant collected == ClassesItems(fs, rootDir, datasetType, c)
      {
        var className := ClassNames[c];
        var classPath := Join(rootDir, className);
        if !Exists(fs, classPath) {
          continue;
        }
        var found := ScanClassFolder(fs, classPath, datasetType, ClassLabel(className));
        collected := collected + found;
      }
      this.datasetType := datasetType;
      var shuffled := Shuffle(collected, order);
      var kept := if keep.Some? then PrefixSlice(shuffled, keep.value) else shuffled;
      data := kept;
      fileList := FileListOf(kept);
      labels := LabelsOf(kept);
    }

    /** `__len__`. */
    function Length(): (n: nat)
      reads this
      requires Valid()
      ensures n == |data| == |labels|
    {
      |fileList|
    }

    /** `__getitem__` for a waveform of `numSamples` samples per channel as loaded
        (and, for training, possibly augmented). */
    function GetItem(idx: int, waveform: seq<seq<real>>, numSamples: nat): (s: Sample)
      reads this
      requires Valid()
      requires -|fileList| <= idx < |fileList|
      requires HasShape(waveform, numSamples)
      ensures var e := data[PyIndex(idx, |data|)];
              s.audioPath == Join(e.dir, e.filename) && s.target == e.target as real
      ensures |s.waveform| == |waveform| && HasShape(s.waveform, ExpectedLength)
      ensures s.waveform == FixLength(waveform, numSamples, ExpectedLength)
    {
      var i := PyIndex(idx, |fileList|);
      LoadSample(Join(fileList[i].0, fileList[i].1), labels[i], waveform, numSamples, expectedLength)
    }
  }

  // ---------------------------------------------------------------------
  // RecursiveFakeAudioDataset: <root>/<language>/<technique>/<file>.wav
  // ---------------------------------------------------------------------

  /** The `.wav` names among the first `n` names of a technique folder, in
      listing order, each labelled 1. */
  function WavItems(techniquePath: string, names: seq<string>, n: nat): (r: seq<Item>)
    requires n <= |names|
    ensures |r| <= n
    ensures forall k :: 0 <= k < |r| ==>
              r[k].dir == techniquePath && r[k].target == 1 && EndsWith(r[k].filename, ".wav") && r[k].filename in names
    ensures forall i :: 0 <= i < n && EndsWith(names[i], ".wav") ==> Item(techniquePath, names[i], 1) in r
  {
    if n == 0 then []
    else
      var before := WavItems(techniquePath, names, n - 1);
      var here := if EndsWith(names[n - 1], ".wav") then [Item(techniquePath, names[n - 1], 1)] else [];
      assert forall k :: 0 <= k < |before| ==> (before + here)[k] == before[k];
      before + here
  }

  /** A sound fake entry: a `.wav` file listed in its technique directory, labelled 1. */
  predicate FakeEntry(fs: FileSystem, e: Item) {
    IsDir(fs, e.dir) && e.filename in Listing(fs, e.dir) && EndsWith(e.filename, ".wav") && e.target == 1
  }

  /** The entries from the first `n` technique folders of a language folder. */
  function TechniqueItems(fs: FileSystem, langPath: string, names: seq<string>, n: nat): (r: seq<Item>)
    requires n <= |names|
    ensures forall k :: 0 <= k < |r| ==> FakeEntry(fs, r[k]) && langPath + "/" <= r[k].dir
  {
    if n == 0 then []
    else
      var before := TechniqueItems(fs, langPath, names, n - 1);
      var techniquePath := Join(langPath, names[n - 1]);
      if IsDir(fs, techniquePath) then
        var files := Listing(fs, techniquePath);
        before + WavItems(techniquePath, files, |files|)
      else
        before
  }

  /** The entries from the first `n` language folders of the root. */
  function LanguageItems(fs: FileSystem, rootDir: string, names: seq<string>, n: nat): (r: seq<Item>)
    requires n <= |names|
    ensures forall k :: 0 <= k < |r| ==> FakeEntry(fs, r[k]) && rootDir + "/" <= r[k].dir
  {
    if n == 0 then []
    else
      var before := LanguageItems(fs, rootDir, names, n - 1);
      var langPath := Join(rootDir, names[n - 1]);
      if IsDir(fs, langPath) then
        var techniques := Listing(fs, langPath);
        var here := TechniqueItems(fs, langPath, techniques, |techniques|);
        assert forall k :: 0 <= k < |here| ==> rootDir + "/" <= here[k].dir by {
          forall k | 0 <= k < |here| ensures rootDir + "/" <= here[k].dir {
            assert here[k].dir[..|rootDir| + 1] == langPath[..|rootDir| + 1];
          }
        }
        before + here
      else
        before
  }

  /** `self.data` of the fake dataset before the shuffle. */
  function FakeItems(fs: FileSystem, rootDir: string): seq<Item>
    requires IsDir(fs, rootDir)
  {
    var languages := Listing(fs, rootDir);
    LanguageItems(fs, rootDir, languages, |languages|)
  }

  /** Every entry of a constructed fake dataset is a listed `.wav` file labelled 1. */
  lemma FakeEntriesSound(fs: FileSystem, rootDir: string, order: seq<nat>, keep: Option<int>)
    requires IsDir(fs, rootDir)
    requires IsShuffleOrder(order, |FakeItems(fs, rootDir)|)
    ensures forall e :: e in Kept(Shuffle(FakeItems(fs, rootDir), order), keep) ==> FakeEntry(fs, e)
  {
    KeptEntriesAreCollected(FakeItems(fs, rootDir), order, keep);
  }

  /** The loop over the files of one technique folder. */
  method ScanTechniqueFolder(fs: FileSystem, techniquePath: string) returns (items: seq<Item>)
    requires IsDir(fs, techniquePath)
    ensures items == WavItems(techniquePath, Listing(fs, techniquePath), |Listing(fs, techniquePath)|)
  {
    var files := Listing(fs, techniquePath);
    items := [];
    for j := 0 to |files|
      invariant items == WavItems(techniquePath, files, j)
    {
      var file := files[j];
      if EndsWith(file, ".wav") {
        items := items + [Item(techniquePath, file, 1)];
      }
    }
  }

  /** The loop over the technique folders of one language folder. */
  method ScanLanguageFolder(fs: FileSystem, langPath: string) returns (items: seq<Item>)
    requires IsDir(fs, langPath)
    ensures items == TechniqueItems(fs, langPath, Listing(fs, langPath), |Listing(fs, langPath)|)
  {
    var techniques := Listing(fs, langPath);
    items := [];
    for j := 0 to |techniques|
      invariant items == TechniqueItems(fs, langPath, techniques, j)
    {
      var techniquePath := Join(langPath, techniques[j]);
      if !IsDir(fs, techniquePath) {
        continue;
      }
      var found := ScanTechniqueFolder(fs, techniquePath);
      items := items + found;
    }
  }

  class RecursiveFakeAudioDataset {
    const augmentProb: real := AugmentProb
    const sampleRate: nat := SampleRate
    const expectedLength: nat := ExpectedLength
    const datasetType: string
    var data: seq<Item>
    var fileList: seq<(string, string)>
    var labels: seq<int>

    /** `fileList` and `labels` are the two projections of `data`. */
    ghost predicate Valid()
      reads this
    {
      fileList == FileListOf(data) && labels == LabelsOf(data)
    }

    /** `keep` is `Some(int(len(data) * fraction))` when `fraction` is a float
        strictly between 0 and 1, and `None` otherwise. */
    constructor (fs: FileSystem, rootDir: string, order: seq<nat>, datasetType: string := "Fake", keep: Option<int> := None)
      requires IsDir(fs, rootDir)
      requires IsShuffleOrder(order, |FakeItems(fs, rootDir)|)
      requires keep.Some? ==> 0 <= keep.value <= |FakeItems(fs, rootDir)|
      ensures this.datasetType == datasetType
      ensures data == Kept(Shuffle(FakeItems(fs, rootDir), order), keep)
      ensures Valid()
    {
      var languages := Listing(fs, rootDir);
      var collected: seq<Item> := [];
      for j := 0 to |languages|
        invariant collected == LanguageItems(fs, rootDir, languages, j)
      {
        var langPath := Join(rootDir, languages[j]);
        if !IsDir(fs, langPath) {
          continue;
        }
        var found := ScanLanguageFolder(fs, langPath);
        collected := collected + found;
      }
      this.datasetType := datasetType;
      var shuffled := Shuffle(collected, order);
      var kept := if keep.Some? then shuffled[..keep.value] else shuffled;
      data := kept;
      fileList := FileListOf(kept);
      labels := LabelsOf(kept);
    }

    /** `__len__`. */
    function Length(): (n: nat)
      reads this
      requires Valid()
      ensures n == |data| == |labels|
    {
      |fileList|
    }

    /** `__getitem__`, as for the raw loader. */
    function GetItem(idx: int, waveform: seq<seq<real>>, numSamples: nat): (s: Sample)
      reads this
      requires Valid()
      requires -|fileList| <= idx < |fileList|
      requires HasShape(waveform, numSamples)
      ensures var e := data[PyIndex(idx, |data|)];
              s.audioPath == Join(e.dir, e.filename) && s.target == e.target as real
      ensures |s.waveform| == |waveform| && HasShape(s.waveform, ExpectedLength)
      ensures s.waveform == FixLength(waveform, numSamples, ExpectedLength)
    {
      var i := PyIndex(idx, |fileList|);
      LoadSample(Join(fileList[i].0, fileList[i].1), labels[i], waveform, numSamples, expectedLength)
    }
  }
}

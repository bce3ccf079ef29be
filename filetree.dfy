/**
  The part of the file system the dataset constructors look at, as a value.

  Every path the constructors build is a key of `entries` or absent.  A
  directory holds its `os.listdir` result in listing order; a CSV file holds
  what `pd.read_csv` returns as far as the loaders use it: the number of
  columns and, per row, the first column (the audio file name) and the last
  column (the label); any other file is an audio file.
*/
module FileTree {

  datatype CsvRow = CsvRow(filename: string, last: int)

  datatype Entry =
    | Dir(listing: seq<string>)
    | CsvFile(numColumns: nat, rows: seq<CsvRow>)
    | AudioFile

  datatype FileSystem = FileSystem(entries: map<string, Entry>)

  /** `os.path.join(a, b)` for a relative component `b`. */
  function Join(a: string, b: string): (p: string)
    ensures |p| == |a| + 1 + |b|
    ensures a + "/" <= p
  {
    a + "/" + b
  }

  /** `os.path.exists`. */
  predicate Exists(fs: FileSystem, p: string) {
    p in fs.entries
  }

  /** `os.path.isdir`. */
  predicate IsDir(fs: FileSystem, p: string) {
    p in fs.entries && fs.entries[p].Dir?
  }

  /** `pd.read_csv` succeeds on `p` and yields at least one column. */
  predicate IsCsv(fs: FileSystem, p: string) {
    p in fs.entries && fs.entries[p].CsvFile? && fs.entries[p].numColumns >= 1
  }

  /** `os.listdir`, which only a directory supports. */
  function Listing(fs: FileSystem, p: string): seq<string>
    requires IsDir(fs, p)
  {
    fs.entries[p].listing
  }
}

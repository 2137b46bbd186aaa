/**
 * The file record that the processors build, the context manager batches and
 * the analysis service passes around: a dictionary with a fixed set of keys.
 */
module Records {
  import opened Wrappers

  /** The keys `_truncate_file_content` adds to its copy. */
  datatype Truncation = Truncation(originalLines: nat, truncatedLines: nat)

  /**
   * `path`, `absolute_path`, `name`, `extension`, `content`, `size` and
   * `lines`; `language` only on records the analysis service converts, and
   * `truncation` (the keys `truncated`, `original_lines`, `truncated_lines`)
   * only on truncated copies.
   */
  datatype FileRecord = FileRecord(
    path: string,
    absolutePath: string,
    name: string,
    extension: string,
    content: string,
    size: nat,
    lines: nat,
    language: Option<string>,
    truncation: Option<Truncation>)

  /** A record without the optional keys. */
  function Plain(path: string, absolutePath: string, name: string, extension: string,
                 content: string, size: nat, lines: nat): (f: FileRecord)
    ensures f.language.None? && f.truncation.None?
    ensures f.path == path && f.name == name && f.content == content && f.lines == lines
  {
    FileRecord(path, absolutePath, name, extension, content, size, lines, None, None)
  }

  /** `sum(f["lines"] for f in files)`. */
  function SumLines(files: seq<FileRecord>): (n: nat)
    ensures forall j :: 0 <= j < |files| ==> files[j].lines <= n
  {
    if files == [] then 0
    else
      assert forall j :: 1 <= j < |files| ==> files[j] == files[1..][j - 1];
      files[0].lines + SumLines(files[1..])
  }

  /** `sum(f["size"] for f in files)`. */
  function SumSize(files: seq<FileRecord>): (n: nat)
    ensures forall j :: 0 <= j < |files| ==> files[j].size <= n
  {
    if files == [] then 0
    else
      assert forall j :: 1 <= j < |files| ==> files[j] == files[1..][j - 1];
      files[0].size + SumSize(files[1..])
  }

  /** Appending a record adds its lines and size to the sums. */
  lemma {:induction false} SumsSnoc(files: seq<FileRecord>, f: FileRecord)
    ensures SumLines(files + [f]) == SumLines(files) + f.lines
    ensures SumSize(files + [f]) == SumSize(files) + f.size
  {
    if files != [] {
      assert (files + [f])[1..] == files[1..] + [f];
      SumsSnoc(files[1..], f);
    }
  }
}

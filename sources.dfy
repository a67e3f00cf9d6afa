/**
 * The records the browsers receive from the source loader: a source file, its
 * tagged lines and the libraries whose files can be browsed. Reading files and
 * scanning them for tags happen in the loader, which is not modelled; the file
 * system appears as a function from path to contents.
 */
module Sources {

  /** A source file: where it was read from and its text. */
  datatype Source = Source(sourcePath: string, sourceCode: string)

  /** A tag found in a source file, with the 0-based line it was found on. */
  datatype LineWithTag = LineWithTag(lineNumber: nat, tag: string)

  /** A source file with its tags, in the order the loader found them. */
  datatype AnnotatedSource = AnnotatedSource(source: Source, linesWithTags: seq<LineWithTag>)

  /** A library whose files can be browsed: `sourcePaths` are relative to `path`. */
  datatype Library = Library(name: string, url: string, shortDoc: string, path: string, sourcePaths: seq<string>)

  /** ReadSource, with the file system given as `contents`. */
  function ReadSource(path: string, contents: string -> string): Source
  {
    Source(path, contents(path))
  }
}

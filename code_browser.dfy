/**
 * What the code-browser windows of both programs have in common: loading an
 * annotated source into the editor, the demo-tag panel, the doc-header panel,
 * the "view on GitHub" link and the choice of a library file. Each panel is a
 * procedure that takes the editor it drives; the windows of each program call
 * them.
 */
module CodeBrowser {
  import opened Fplus
  import opened TextEditor
  import opened Sources

  /** The demo-tag panel lists nothing until its filter holds this many characters (bytes in the program). */
  const MinFilterLength: nat := 3

  /** A jump to a tag asks the editor to show its line this many rows below the top. */
  const JumpLineOnPage: nat := 3

  const ImGuiRepoUrl: string := "https://github.com/pthom/imgui/blob/DemoCode/"

  /**
   * strlen: the number of characters before the first NUL, or all of them if
   * there is none. Each character stands for one byte of the C++ buffer;
   * UTF-8 is not decoded.
   */
  function Strlen(buf: string): (n: nat)
    ensures n <= |buf|
    ensures forall k :: 0 <= k < n ==> buf[k] != '\0'
    ensures n < |buf| ==> buf[n] == '\0'
  {
    if buf == [] || buf[0] == '\0' then 0 else 1 + Strlen(buf[1..])
  }

  // ----- Breakpoints from tags -----

  /** The lines that carry at least one tag. */
  function TagLineNumbers(tags: seq<LineWithTag>): (lineNumbers: set<int>)
    ensures forall k :: 0 <= k < |tags| ==> tags[k].lineNumber in lineNumbers
  {
    set t | t in tags :: t.lineNumber
  }

  /** A line is marked exactly when some tag sits on it. */
  lemma TagLineNumbersAreTaggedLines(tags: seq<LineWithTag>, n: int)
    ensures n in TagLineNumbers(tags) <==> exists k :: 0 <= k < |tags| && tags[k].lineNumber == n
  {
    if n in TagLineNumbers(tags) {
      var t :| t in tags && t.lineNumber == n;
      var k :| 0 <= k < |tags| && tags[k] == t;
    }
  }

  /**
   * setEditorAnnotatedSource: the editor shows the source code, and its
   * breakpoint markers are the lines of the tags.
   */
  method SetEditorAnnotatedSource(editor: Editor, annotatedSource: AnnotatedSource)
    modifies editor
    ensures editor.Valid()
    ensures editor.lines == Split('\n', annotatedSource.source.sourceCode)
    ensures editor.GetText() == annotatedSource.source.sourceCode
    ensures editor.breakpoints == TagLineNumbers(annotatedSource.linesWithTags)
    ensures editor.cursor == Coordinates(0, 0) && editor.cursorLineOnPage == old(editor.cursorLineOnPage)
    ensures editor.readOnly == old(editor.readOnly)
  {
    editor.SetText(annotatedSource.source.sourceCode);
    var tags := annotatedSource.linesWithTags;
    var lineNumbers: set<int> := {};
    for i := 0 to |tags|
      invariant lineNumbers == TagLineNumbers(tags[..i])
    {
      assert tags[..i + 1] == tags[..i] + [tags[i]];
      lineNumbers := lineNumbers + {tags[i].lineNumber};
    }
    assert tags[..|tags|] == tags;
    editor.SetBreakpoints(lineNumbers);
  }

  // ----- The demo-tag panel -----

  /** The tags whose label passes the filter, in their original order. */
  function ListedTags(pass: string -> bool, tags: seq<LineWithTag>): (listed: seq<LineWithTag>)
    ensures |listed| <= |tags|
    ensures forall k :: 0 <= k < |listed| ==> pass(listed[k].tag)
  {
    if tags == [] then []
    else
      var last := tags[|tags| - 1];
      ListedTags(pass, tags[..|tags| - 1]) + (if pass(last.tag) then [last] else [])
  }

  /** The filter lifted from labels to tags. */
  function TagPasses(pass: string -> bool): LineWithTag -> bool
  {
    (t: LineWithTag) => pass(t.tag)
  }

  /**
   * The listed tags are the tags at the passing positions, taken in
   * ascending order of position: order is kept and duplicates are kept.
   */
  lemma {:induction false} ListedTagsAreMatchingPositions(pass: string -> bool, tags: seq<LineWithTag>)
    ensures |ListedTags(pass, tags)| == |FindAllIdxsBy(TagPasses(pass), tags)|
    ensures forall k :: 0 <= k < |ListedTags(pass, tags)| ==>
              ListedTags(pass, tags)[k] == tags[FindAllIdxsBy(TagPasses(pass), tags)[k]]
  {
    if tags != [] {
      var init := tags[..|tags| - 1];
      ListedTagsAreMatchingPositions(pass, init);
      assert TagPasses(pass)(tags[|tags| - 1]) == pass(tags[|tags| - 1].tag);
      var idxs := FindAllIdxsBy(TagPasses(pass), init);
      forall k | 0 <= k < |idxs| ensures tags[idxs[k]] == init[idxs[k]] { }
    }
  }

  /** A tag is listed exactly when it is one of the tags and its label passes. */
  lemma {:induction false} ListedTagsMembers(pass: string -> bool, tags: seq<LineWithTag>, t: LineWithTag)
    ensures t in ListedTags(pass, tags) <==> t in tags && pass(t.tag)
  {
    if tags != [] {
      var init := tags[..|tags| - 1];
      ListedTagsMembers(pass, init, t);
      assert tags == init + [tags[|tags| - 1]];
    }
  }

  /** Each passing tag is listed as many times as it occurs; the others not at all. */
  lemma {:induction false} ListedTagsKeepDuplicates(pass: string -> bool, tags: seq<LineWithTag>, t: LineWithTag)
    ensures multiset(ListedTags(pass, tags))[t] == if pass(t.tag) then multiset(tags)[t] else 0
  {
    if tags != [] {
      var init := tags[..|tags| - 1];
      var last := tags[|tags| - 1];
      ListedTagsKeepDuplicates(pass, init, t);
      assert tags == init + [last];
      assert multiset(tags) == multiset(init) + multiset([last]);
    }
  }

  /** When every label passes, every tag is listed. */
  lemma {:induction false} ListedTagsOfPassingTags(pass: string -> bool, tags: seq<LineWithTag>)
    requires forall k :: 0 <= k < |tags| ==> pass(tags[k].tag)
    ensures ListedTags(pass, tags) == tags
  {
    if tags != [] {
      ListedTagsOfPassingTags(pass, tags[..|tags| - 1]);
      assert tags == tags[..|tags| - 1] + [tags[|tags| - 1]];
    }
  }

  /** Filtering twice with the same filter lists what filtering once does. */
  lemma ListedTagsIdempotent(pass: string -> bool, tags: seq<LineWithTag>)
    ensures ListedTags(pass, ListedTags(pass, tags)) == ListedTags(pass, tags)
  {
    ListedTagsOfPassingTags(pass, ListedTags(pass, tags));
  }

  /**
   * guiDemoCodeTags: below the minimum filter length nothing is listed;
   * otherwise one button per passing tag, in order. A click on the button of
   * tag `click` jumps the cursor to the start of that tag's line.
   */
  method DemoCodeTagsPanel(editor: Editor, linesWithTags: seq<LineWithTag>, inputBuf: string,
                           pass: string -> bool, click: Maybe<nat>)
    returns (listed: seq<LineWithTag>)
    modifies editor
    ensures listed == if Strlen(inputBuf) >= MinFilterLength then ListedTags(pass, linesWithTags) else []
    ensures if Strlen(inputBuf) >= MinFilterLength && click.Just? && click.value < |linesWithTags|
               && pass(linesWithTags[click.value].tag)
            then editor.cursor == Coordinates(linesWithTags[click.value].lineNumber, 0)
                 && editor.cursorLineOnPage == Just(JumpLineOnPage)
            else editor.cursor == old(editor.cursor) && editor.cursorLineOnPage == old(editor.cursorLineOnPage)
    ensures editor.lines == old(editor.lines) && editor.breakpoints == old(editor.breakpoints)
    ensures editor.readOnly == old(editor.readOnly)
  {
    listed := [];
    if Strlen(inputBuf) >= MinFilterLength {
      for i := 0 to |linesWithTags|
        invariant listed == ListedTags(pass, linesWithTags[..i])
        invariant if click.Just? && click.value < i && pass(linesWithTags[click.value].tag)
                  then editor.cursor == Coordinates(linesWithTags[click.value].lineNumber, 0)
                       && editor.cursorLineOnPage == Just(JumpLineOnPage)
                  else editor.cursor == old(editor.cursor) && editor.cursorLineOnPage == old(editor.cursorLineOnPage)
        invariant editor.lines == old(editor.lines) && editor.breakpoints == old(editor.breakpoints)
        invariant editor.readOnly == old(editor.readOnly)
      {
        var lineWithNote := linesWithTags[i];
        assert linesWithTags[..i + 1][..i] == linesWithTags[..i];
        if pass(lineWithNote.tag) {
          listed := listed + [lineWithNote];
          if click == Just(i) {
            editor.SetCursorPosition(Coordinates(lineWithNote.lineNumber, 0), Just(JumpLineOnPage));
          }
        }
      }
      assert linesWithTags[..|linesWithTags|] == linesWithTags;
    }
  }

  // ----- The doc-header panel -----

  /** A doc tag is a top-level header when its first three characters are "H1 ". */
  function IsHeader1(tag: string): (b: bool)
    ensures b <==> "H1 " <= tag
  {
    Take(3, tag) == "H1 "
  }

  /** The titles the doc-header panel shows: each top-level header without its prefix. */
  function HeaderTitles(tags: seq<LineWithTag>): (titles: seq<string>)
    ensures |titles| <= |tags|
  {
    if tags == [] then []
    else
      var last := tags[|tags| - 1];
      HeaderTitles(tags[..|tags| - 1]) + (if IsHeader1(last.tag) then [Drop(3, last.tag)] else [])
  }

  /**
   * There is one title per top-level header tag, in order, and putting the
   * "H1 " prefix back in front of a title gives its tag.
   */
  lemma {:induction false} HeaderTitlesAreHeaderTags(tags: seq<LineWithTag>)
    ensures |HeaderTitles(tags)| == |ListedTags(IsHeader1, tags)|
    ensures forall k :: 0 <= k < |HeaderTitles(tags)| ==>
              "H1 " + HeaderTitles(tags)[k] == ListedTags(IsHeader1, tags)[k].tag
  {
    if tags != [] {
      var last := tags[|tags| - 1];
      HeaderTitlesAreHeaderTags(tags[..|tags| - 1]);
      if IsHeader1(last.tag) {
        TakeDrop(3, last.tag);
      }
    }
  }

  /**
   * guiTags: one clickable title per top-level header tag; a click on the
   * title of tag `click` jumps the cursor to the start of that tag's line.
   */
  method DocHeadersPanel(editor: Editor, linesWithTags: seq<LineWithTag>, click: Maybe<nat>)
    returns (titles: seq<string>)
    modifies editor
    ensures titles == HeaderTitles(linesWithTags)
    ensures if click.Just? && click.value < |linesWithTags| && IsHeader1(linesWithTags[click.value].tag)
            then editor.cursor == Coordinates(linesWithTags[click.value].lineNumber, 0)
                 && editor.cursorLineOnPage == Just(JumpLineOnPage)
            else editor.cursor == old(editor.cursor) && editor.cursorLineOnPage == old(editor.cursorLineOnPage)
    ensures editor.lines == old(editor.lines) && editor.breakpoints == old(editor.breakpoints)
    ensures editor.readOnly == old(editor.readOnly)
  {
    titles := [];
    for i := 0 to |linesWithTags|
      invariant titles == HeaderTitles(linesWithTags[..i])
      invariant if click.Just? && click.value < i && IsHeader1(linesWithTags[click.value].tag)
                then editor.cursor == Coordinates(linesWithTags[click.value].lineNumber, 0)
                     && editor.cursorLineOnPage == Just(JumpLineOnPage)
                else editor.cursor == old(editor.cursor) && editor.cursorLineOnPage == old(editor.cursorLineOnPage)
      invariant editor.lines == old(editor.lines) && editor.breakpoints == old(editor.breakpoints)
      invariant editor.readOnly == old(editor.readOnly)
    {
      var lineWithTag := linesWithTags[i];
      assert linesWithTags[..i + 1][..i] == linesWithTags[..i];
      var title := Drop(3, lineWithTag.tag);
      var isHeader1 := Take(3, lineWithTag.tag) == "H1 ";
      if isHeader1 {
        titles := titles + [title];
        if click == Just(i) {
          editor.SetCursorPosition(Coordinates(lineWithTag.lineNumber, 0), Just(JumpLineOnPage));
        }
      }
    }
    assert linesWithTags[..|linesWithTags|] == linesWithTags;
  }

  // ----- The "view on GitHub" link -----

  function DigitChar(d: nat): char
    requires d < 10
  {
    ('0' as int + d) as char
  }

  predicate IsDigits(s: string)
  {
    forall k :: 0 <= k < |s| ==> '0' <= s[k] <= '9'
  }

  /** std::to_string of a non-negative number: its decimal digits, without leading zeros. */
  function DecimalString(n: nat): (s: string)
    ensures |s| >= 1 && IsDigits(s)
    ensures |s| == 1 <==> n < 10
    ensures s[0] == '0' <==> n == 0
  {
    if n < 10 then [DigitChar(n)] else DecimalString(n / 10) + [DigitChar(n % 10)]
  }

  /** The number a string of decimal digits stands for. */
  function DecimalValue(s: string): nat
    requires IsDigits(s)
  {
    if s == [] then 0 else DecimalValue(s[..|s| - 1]) * 10 + (s[|s| - 1] as int - '0' as int)
  }

  /** Reading back the decimal digits of a number gives the number. */
  lemma {:induction false} DecimalRoundTrip(n: nat)
    ensures DecimalValue(DecimalString(n)) == n
  {
    if n >= 10 {
      DecimalRoundTrip(n / 10);
      var s := DecimalString(n);
      assert s[..|s| - 1] == DecimalString(n / 10);
    }
  }

  /** guiGithubButton: the address of `file` in the repository, anchored at line `line`. */
  function GithubUrl(file: string, line: nat): (url: string)
    ensures ImGuiRepoUrl + file + "#L" <= url
    ensures |url| > |ImGuiRepoUrl + file + "#L"|
  {
    ImGuiRepoUrl + file + "#L" + DecimalString(line)
  }

  /** The link is the file's address, then "#L", then the digits of the line and nothing else. */
  lemma GithubUrlNamesLine(file: string, line: nat)
    ensures ImGuiRepoUrl + file + "#L" <= GithubUrl(file, line)
    ensures var anchor := GithubUrl(file, line)[|ImGuiRepoUrl + file + "#L"|..];
            IsDigits(anchor) && DecimalValue(anchor) == line
  {
    var head := ImGuiRepoUrl + file + "#L";
    assert GithubUrl(file, line)[|head|..] == DecimalString(line);
    DecimalRoundTrip(line);
  }

  /** The status line shows the cursor line counted from 1. */
  function DisplayedLine(cursorLine: nat): (n: nat)
    ensures n >= 1
  {
    cursorLine + 1
  }

  /**
   * With the cursor on the first line (shown as line 1), the link as written
   * points at "#L0", which names no line of a GitHub page.
   */
  lemma GithubUrlAtFirstLine(file: string)
    ensures DisplayedLine(0) == 1
    ensures GithubUrl(file, 0) == ImGuiRepoUrl + file + "#L0"
  {
  }

  /** The link anchored at the line the status line shows. */
  function GithubUrlAtDisplayedLine(file: string, cursorLine: nat): (url: string)
    ensures ImGuiRepoUrl + file + "#L" <= url
  {
    GithubUrl(file, DisplayedLine(cursorLine))
  }

  /** The corrected link names the line the status line shows, which is never 0. */
  lemma GithubUrlAtDisplayedLineNamesShownLine(file: string, cursorLine: nat)
    ensures var url := GithubUrlAtDisplayedLine(file, cursorLine);
            var anchor := url[|ImGuiRepoUrl + file + "#L"|..];
            IsDigits(anchor) && DecimalValue(anchor) == DisplayedLine(cursorLine) && DecimalValue(anchor) >= 1
  {
    GithubUrlNamesLine(file, DisplayedLine(cursorLine));
  }

  // ----- Choosing a library file -----

  /** A file entry of the library list: a library and a file of it, by position. */
  datatype LibraryEntry = LibraryEntry(library: nat, source: nat)

  /** The path of file `source` of `library`. */
  function EntryPath(library: Library, source: string): (entryPath: string)
    ensures library.path + "/" <= entryPath && entryPath[|library.path| + 1..] == source
  {
    library.path + "/" + source
  }

  /** An entry is shown as selected when its path is the current source path. */
  predicate IsSelected(library: Library, source: string, currentPath: string)
  {
    EntryPath(library, source) == currentPath
  }

  /**
   * An entry is selected exactly when the current path is the library path,
   * a '/', and then the file; so at most one file of a library is selected.
   */
  lemma SelectedEntryIsCurrentFile(library: Library, source: string, currentPath: string)
    ensures IsSelected(library, source, currentPath) <==>
            library.path + "/" <= currentPath && currentPath[|library.path| + 1..] == source
  {
    var head := library.path + "/";
    if IsSelected(library, source, currentPath) {
      assert currentPath == head + source;
      assert currentPath[|head|..] == source;
    }
    if head <= currentPath && currentPath[|head|..] == source {
      assert currentPath == currentPath[..|head|] + currentPath[|head|..];
    }
  }

  predicate ValidEntry(libraries: seq<Library>, entry: LibraryEntry)
  {
    entry.library < |libraries| && entry.source < |libraries[entry.library].sourcePaths|
  }

  function EntryPathAt(libraries: seq<Library>, entry: LibraryEntry): string
    requires ValidEntry(libraries, entry)
  {
    EntryPath(libraries[entry.library], libraries[entry.library].sourcePaths[entry.source])
  }

  /** A click switches the source only when it is on an existing entry that is not the selected one. */
  predicate SwitchesSource(libraries: seq<Library>, click: Maybe<LibraryEntry>, currentPath: string)
  {
    click.Just? && ValidEntry(libraries, click.value) && EntryPathAt(libraries, click.value) != currentPath
  }

  /**
   * guiSelectLibrarySource: the selected entry is shown disabled, every other
   * entry is a button; a click on a button reads that file, which becomes the
   * current source, and reports a change.
   */
  method SelectLibrarySource(libraries: seq<Library>, current: Source, click: Maybe<LibraryEntry>,
                             contents: string -> string)
    returns (changed: bool, selected: Source)
    ensures changed == SwitchesSource(libraries, click, current.sourcePath)
    ensures changed ==> selected.sourcePath == EntryPathAt(libraries, click.value)
                        && selected.sourcePath != current.sourcePath
                        && selected.sourceCode == contents(selected.sourcePath)
    ensures !changed ==> selected == current
  {
    changed := false;
    selected := current;
    for i := 0 to |libraries|
      invariant changed == (SwitchesSource(libraries, click, current.sourcePath) && click.value.library < i)
      invariant selected == if changed then ReadSource(EntryPathAt(libraries, click.value), contents) else current
    {
      var librarySource := libraries[i];
      for j := 0 to |librarySource.sourcePaths|
        invariant changed == (SwitchesSource(libraries, click, current.sourcePath)
                              && (click.value.library < i || (click.value.library == i && click.value.source < j)))
        invariant selected == if changed then ReadSource(EntryPathAt(libraries, click.value), contents) else current
      {
        var source := librarySource.sourcePaths[j];
        var currentSourcePath := librarySource.path + "/" + source;
        var isSelected := currentSourcePath == selected.sourcePath;
        if isSelected {
        } else if click == Just(LibraryEntry(i, j)) {
          selected := ReadSource(currentSourcePath, contents);
          changed := true;
        }
      }
    }
  }

  /** What a library browser shows for its current source. */
  datatype View = MarkdownView(markdown: string) | EditorView(filename: string)

  /** A ".md" file is rendered as markdown; any other file goes to the editor. */
  function ViewOf(source: Source): (view: View)
    ensures view.MarkdownView? <==> exists stem :: stem + ".md" == source.sourcePath
    ensures view.MarkdownView? ==> view.markdown == source.sourceCode
    ensures view.EditorView? ==> view.filename == source.sourcePath
  {
    IsSuffixOfMeansEndsWith(".md", source.sourcePath);
    if IsSuffixOf(".md", source.sourcePath) then MarkdownView(source.sourceCode) else EditorView(source.sourcePath)
  }
}

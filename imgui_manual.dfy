/**
 * The code-browser windows of the manual program: a window that owns a
 * read-only editor with a search box and an icon bar, the browser of the
 * demo code with its tag panel, the browser of the documentation inside
 * imgui.cpp with its header panel, and the browser of library files.
 * Each browser holds its window (the C++ classes derive from it).
 */
module ImGuiManual {
  import opened Fplus
  import opened TextEditor
  import opened Sources
  import opened CodeBrowser
  import opened Find

  /**
   * The callback the demo window calls with the line of a demo: the demo
   * code editor jumps to the start of that line, shown a few rows below the top.
   */
  method DemoCallback(demoEditor: Editor, lineNumber: nat)
    modifies demoEditor
    ensures demoEditor.cursor == Coordinates(lineNumber, 0)
    ensures demoEditor.cursorLineOnPage == Just(JumpLineOnPage)
    ensures demoEditor.lines == old(demoEditor.lines) && demoEditor.breakpoints == old(demoEditor.breakpoints)
    ensures demoEditor.readOnly == old(demoEditor.readOnly)
  {
    var cursorLineOnPage := JumpLineOnPage;
    demoEditor.SetCursorPosition(Coordinates(lineNumber, 0), Just(cursorLineOnPage));
  }

  /** Which buttons of the icon bar are enabled. */
  datatype IconBarButtons = IconBarButtons(undo: bool, redo: bool, copy: bool, cut: bool, paste: bool)

  /**
   * guiIconBar's enable conditions, from the "can write" checkbox and what
   * the editor and the clipboard hold.
   */
  function IconBarEnabled(canWrite: bool, canUndo: bool, canRedo: bool, hasSelection: bool,
                          clipboardHasText: bool): IconBarButtons
  {
    IconBarButtons(canUndo && canWrite, canRedo && canWrite, hasSelection,
                   hasSelection && canWrite, clipboardHasText && canWrite)
  }

  /**
   * Every button that changes the text needs writing switched on, and then
   * needs exactly what it acts on; copy needs only a selection.
   */
  lemma IconBarEditingNeedsWrite(canWrite: bool, canUndo: bool, canRedo: bool, hasSelection: bool,
                                 clipboardHasText: bool)
    ensures var b := IconBarEnabled(canWrite, canUndo, canRedo, hasSelection, clipboardHasText);
            && (!canWrite ==> !b.undo && !b.redo && !b.cut && !b.paste)
            && (canWrite ==> b.undo == canUndo && b.redo == canRedo && b.cut == hasSelection
                             && b.paste == clipboardHasText)
            && b.copy == hasSelection
  {
  }

  /** WindowWithEditor: an editor window with a search box over its lines. */
  class WindowWithEditor {
    const editor: Editor
    /** The number of lines that passed the filter when it last changed. */
    var nbFindMatches: int

    ghost predicate Valid()
      reads this, editor
    {
      editor.Valid()
    }

    /** A new window's editor is empty, read-only and without markers; no matches are counted. */
    constructor ()
      ensures Valid() && fresh(editor)
      ensures editor.lines == [""] && editor.cursor == Coordinates(0, 0) && editor.cursorLineOnPage == Nothing
      ensures editor.breakpoints == {} && editor.readOnly
      ensures nbFindMatches == 0
    {
      var e := new Editor();
      e.SetReadOnly(true);
      editor := e;
      nbFindMatches := 0;
    }

    /** setEditorAnnotatedSource: the editor shows the source, with a marker on each tagged line. */
    method SetEditorAnnotatedSource(annotatedSource: AnnotatedSource)
      requires Valid()
      modifies editor
      ensures Valid()
      ensures editor.GetText() == annotatedSource.source.sourceCode
      ensures editor.lines == Split('\n', annotatedSource.source.sourceCode)
      ensures editor.breakpoints == TagLineNumbers(annotatedSource.linesWithTags)
      ensures editor.cursor == Coordinates(0, 0) && editor.cursorLineOnPage == old(editor.cursorLineOnPage)
      ensures editor.readOnly == old(editor.readOnly)
    {
      CodeBrowser.SetEditorAnnotatedSource(editor, annotatedSource);
    }

    /** The "can write" checkbox of the icon bar: the editor is read-only exactly when writing is off. */
    method SetCanWrite(canWrite: bool)
      requires Valid()
      modifies editor
      ensures Valid()
      ensures editor.readOnly == !canWrite
      ensures editor.lines == old(editor.lines) && editor.cursor == old(editor.cursor)
      ensures editor.cursorLineOnPage == old(editor.cursorLineOnPage)
      ensures editor.breakpoints == old(editor.breakpoints)
    {
      editor.SetReadOnly(!canWrite);
    }

    /**
     * guiFind: when the filter has changed the passing lines are counted
     * again; the indicator shows where the cursor line stands among them;
     * then the up and down buttons move the cursor to the nearest passing
     * line above or below the line the cursor was on. Down is applied after
     * up, so it wins when both are pressed and both find a line; a search
     * that finds nothing leaves the cursor where it was.
     */
    method GuiFind(pass: string -> bool, filterChanged: bool, searchDown: bool, searchUp: bool)
      returns (status: FindStatus)
      requires Valid()
      modifies this, editor
      ensures Valid()
      ensures editor.lines == old(editor.lines) && editor.breakpoints == old(editor.breakpoints)
      ensures editor.readOnly == old(editor.readOnly)
      ensures nbFindMatches == if filterChanged then CountIf(pass, editor.lines) else old(nbFindMatches)
      ensures status == FindStatusOf(pass, editor.lines, old(editor.CursorLine()), nbFindMatches)
      ensures status != Bug
      ensures var currentLine := old(editor.CursorLine());
              var down := SearchDown(pass, editor.lines, currentLine);
              var up := SearchUp(pass, editor.lines, currentLine);
              if searchDown && down.Just? then
                editor.cursor == Coordinates(down.value, 0) && editor.cursorLineOnPage == Nothing
              else if searchUp && up.Just? then
                editor.cursor == Coordinates(up.value, 0) && editor.cursorLineOnPage == Nothing
              else
                editor.cursor == old(editor.cursor) && editor.cursorLineOnPage == old(editor.cursorLineOnPage)
    {
      if filterChanged {
        nbFindMatches := CountIf(pass, editor.lines);
      }
      var currentLine := editor.CursorLine();
      status := FindStatusOf(pass, editor.lines, currentLine, nbFindMatches);
      HoustonUnreachable(pass, editor.lines, currentLine, nbFindMatches);
      if searchUp {
        var lineIdx := FindLastIdxBy(pass, GetSegment(0, currentLine, editor.lines));
        if lineIdx.Just? {
          editor.SetCursorPosition(Coordinates(lineIdx.value, 0), Nothing);
        }
      }
      if searchDown {
        var lineIdx := FindFirstIdxBy(pass, GetSegment(currentLine + 1, |editor.lines|, editor.lines));
        if lineIdx.Just? {
          editor.SetCursorPosition(Coordinates(lineIdx.value + currentLine + 1, 0), Nothing);
        }
      }
    }
  }

  /** ImGuiDemoBrowser: the code of the demo, with the demo-tag panel. */
  class ImGuiDemoBrowser {
    const window: WindowWithEditor
    const annotatedSource: AnnotatedSource

    ghost predicate Valid()
      reads this, window, window.editor
    {
      window.Valid()
    }

    /** The editor shows the annotated demo code, read from the demo file by the caller. */
    constructor (annotatedSource: AnnotatedSource)
      ensures Valid() && fresh(window) && fresh(window.editor)
      ensures this.annotatedSource == annotatedSource
      ensures window.editor.GetText() == annotatedSource.source.sourceCode
      ensures window.editor.breakpoints == TagLineNumbers(annotatedSource.linesWithTags)
      ensures window.editor.cursor == Coordinates(0, 0) && window.editor.readOnly
      ensures window.nbFindMatches == 0
    {
      var w := new WindowWithEditor();
      w.SetEditorAnnotatedSource(annotatedSource);
      window := w;
      this.annotatedSource := annotatedSource;
    }

    /** guiDemoCodeTags, over the tags of the demo code. */
    method GuiDemoCodeTags(inputBuf: string, pass: string -> bool, click: Maybe<nat>)
      returns (listed: seq<LineWithTag>)
      requires Valid()
      modifies window.editor
      ensures Valid()
      ensures listed == if Strlen(inputBuf) >= MinFilterLength then ListedTags(pass, annotatedSource.linesWithTags) else []
      ensures var tags := annotatedSource.linesWithTags;
              if Strlen(inputBuf) >= MinFilterLength && click.Just? && click.value < |tags| && pass(tags[click.value].tag)
              then window.editor.cursor == Coordinates(tags[click.value].lineNumber, 0)
                   && window.editor.cursorLineOnPage == Just(JumpLineOnPage)
              else window.editor.cursor == old(window.editor.cursor)
                   && window.editor.cursorLineOnPage == old(window.editor.cursorLineOnPage)
      ensures window.editor.lines == old(window.editor.lines)
      ensures window.editor.breakpoints == old(window.editor.breakpoints)
      ensures window.editor.readOnly == old(window.editor.readOnly)
    {
      listed := DemoCodeTagsPanel(window.editor, annotatedSource.linesWithTags, inputBuf, pass, click);
    }

    /** guiGithubButton: when pressed, the link to the demo file at the cursor line. */
    method GuiGithubButton(pressed: bool) returns (url: Maybe<string>)
      requires Valid()
      ensures url == if pressed then Just(GithubUrl("imgui_demo.cpp", window.editor.CursorLine())) else Nothing
    {
      url := Nothing;
      if pressed {
        url := Just(GithubUrl("imgui_demo.cpp", window.editor.CursorLine()));
      }
    }
  }

  /** ImGuiCppDocBrowser: the documentation inside imgui.cpp, with the header panel. */
  class ImGuiCppDocBrowser {
    const window: WindowWithEditor
    const annotatedSource: AnnotatedSource

    ghost predicate Valid()
      reads this, window, window.editor
    {
      window.Valid()
    }

    /** The editor shows imgui.cpp with its header tags, read by the caller. */
    constructor (annotatedSource: AnnotatedSource)
      ensures Valid() && fresh(window) && fresh(window.editor)
      ensures this.annotatedSource == annotatedSource
      ensures window.editor.GetText() == annotatedSource.source.sourceCode
      ensures window.editor.breakpoints == TagLineNumbers(annotatedSource.linesWithTags)
      ensures window.editor.cursor == Coordinates(0, 0) && window.editor.readOnly
      ensures window.nbFindMatches == 0
    {
      var w := new WindowWithEditor();
      w.SetEditorAnnotatedSource(annotatedSource);
      window := w;
      this.annotatedSource := annotatedSource;
    }

    /** guiTags, over the header tags of imgui.cpp. */
    method GuiTags(click: Maybe<nat>) returns (titles: seq<string>)
      requires Valid()
      modifies window.editor
      ensures Valid()
      ensures titles == HeaderTitles(annotatedSource.linesWithTags)
      ensures var tags := annotatedSource.linesWithTags;
              if click.Just? && click.value < |tags| && IsHeader1(tags[click.value].tag)
              then window.editor.cursor == Coordinates(tags[click.value].lineNumber, 0)
                   && window.editor.cursorLineOnPage == Just(JumpLineOnPage)
              else window.editor.cursor == old(window.editor.cursor)
                   && window.editor.cursorLineOnPage == old(window.editor.cursorLineOnPage)
      ensures window.editor.lines == old(window.editor.lines)
      ensures window.editor.breakpoints == old(window.editor.breakpoints)
      ensures window.editor.readOnly == old(window.editor.readOnly)
    {
      titles := DocHeadersPanel(window.editor, annotatedSource.linesWithTags, click);
    }

    /** guiGithubButton: when pressed, the link to imgui.cpp at the cursor line. */
    method GuiGithubButton(pressed: bool) returns (url: Maybe<string>)
      requires Valid()
      ensures url == if pressed then Just(GithubUrl("imgui.cpp", window.editor.CursorLine())) else Nothing
    {
      url := Nothing;
      if pressed {
        url := Just(GithubUrl("imgui.cpp", window.editor.CursorLine()));
      }
    }
  }

  /** LibrariesCodeBrowser: the files of some libraries, one of which is shown. */
  class LibrariesCodeBrowser {
    const window: WindowWithEditor
    const librarySources: seq<Library>
    var currentSource: Source

    /** The editor holds the text of the current source. */
    ghost predicate Valid()
      reads this, window, window.editor
    {
      window.Valid() && window.editor.GetText() == currentSource.sourceCode
    }

    /** The browser starts on the file at `currentSourcePath`, read through `contents`. */
    constructor (librarySources: seq<Library>, currentSourcePath: string, contents: string -> string)
      ensures Valid() && fresh(window) && fresh(window.editor)
      ensures this.librarySources == librarySources
      ensures currentSource == ReadSource(currentSourcePath, contents)
      ensures window.editor.cursor == Coordinates(0, 0) && window.editor.readOnly
    {
      var w := new WindowWithEditor();
      var source := ReadSource(currentSourcePath, contents);
      w.editor.SetText(source.sourceCode);
      window := w;
      this.librarySources := librarySources;
      currentSource := source;
    }

    /**
     * gui: a click on a file that is not the current one makes it current
     * and loads it into the editor; the current file is then shown as
     * markdown when it is a ".md" file and in the editor otherwise.
     */
    method Gui(click: Maybe<LibraryEntry>, contents: string -> string) returns (view: View)
      requires Valid()
      modifies this, window.editor
      ensures Valid()
      ensures var switches := SwitchesSource(librarySources, click, old(currentSource.sourcePath));
              && (switches ==> currentSource == ReadSource(EntryPathAt(librarySources, click.value), contents)
                               && window.editor.lines == Split('\n', currentSource.sourceCode)
                               && window.editor.cursor == Coordinates(0, 0))
              && (!switches ==> currentSource == old(currentSource)
                                && window.editor.lines == old(window.editor.lines)
                                && window.editor.cursor == old(window.editor.cursor))
      ensures view == ViewOf(currentSource)
      ensures window.editor.cursorLineOnPage == old(window.editor.cursorLineOnPage)
      ensures window.editor.breakpoints == old(window.editor.breakpoints)
      ensures window.editor.readOnly == old(window.editor.readOnly)
    {
      var changed, selected := SelectLibrarySource(librarySources, currentSource, click, contents);
      currentSource := selected;
      if changed {
        window.editor.SetText(currentSource.sourceCode);
      }
      view := ViewOf(currentSource);
    }
  }
}

/**
 * The code-browser windows of the earlier demo program. They do what the
 * manual's windows do, except that the editor window has neither a search
 * box nor an icon bar and its editor is left writable.
 */
module ImGuiHelloDemo {
  import opened Fplus
  import opened TextEditor
  import opened Sources
  import opened CodeBrowser

  /** The callback the demo window calls with the line of a demo. */
  method DemoCallback(demoEditor: Editor, lineNumber: nat)
    modifies demoEditor
    ensures demoEditor.cursor == Coordinates(lineNumber, 0)
    ensures demoEditor.cursorLineOnPage == Just(JumpLineOnPage)
    ensures demoEditor.lines == old(demoEditor.lines) && demoEditor.breakpoints == old(demoEditor.breakpoints)
    ensures demoEditor.readOnly == old(demoEditor.readOnly)
  {
    var cursorLineOnPage := JumpLineOnPage;
    demoEditor.SetCursorPosition(Coordinates(lineNumber, 0), Just(cursorLineOnPage));
  }

  /** WindowWithEditor: a window that owns an editor. */
  class WindowWithEditor {
    const editor: Editor

    ghost predicate Valid()
      reads this, editor
    {
      editor.Valid()
    }

    /** A new window's editor is empty and writable. */
    constructor ()
      ensures Valid() && fresh(editor)
      ensures editor.lines == [""] && editor.cursor == Coordinates(0, 0) && editor.cursorLineOnPage == Nothing
      ensures editor.breakpoints == {} && !editor.readOnly
    {
      editor := new Editor();
    }

    /** setEditorAnnotatedSource: the editor shows the source, with a marker on each tagged line. */
    method SetEditorAnnotatedSource(annotatedSource: AnnotatedSource)
      requires Valid()
      modifies editor
      ensures Valid()
      ensures editor.GetText() == annotatedSource.source.sourceCode
      ensures editor.lines == Split('\n', annotatedSource.source.sourceCode)
      ensures editor.breakpoints == TagLineNumbers(annotatedSource.linesWithTags)
      ensures editor.cursor == Coordinates(0, 0) && editor.cursorLineOnPage == old(editor.cursorLineOnPage)
      ensures editor.readOnly == old(editor.readOnly)
    {
      CodeBrowser.SetEditorAnnotatedSource(editor, annotatedSource);
    }
  }

  /** ImGuiDemoBrowser: the code of the demo, with the demo-tag panel. */
  class ImGuiDemoBrowser {
    const window: WindowWithEditor
    const annotatedSource: AnnotatedSource

    ghost predicate Valid()
      reads this, window, window.editor
    {
      window.Valid()
    }

    /** The editor shows the annotated demo code, read from the demo file by the caller. */
    constructor (annotatedSource: AnnotatedSource)
      ensures Valid() && fresh(window) && fresh(window.editor)
      ensures this.annotatedSource == annotatedSource
      ensures window.editor.GetText() == annotatedSource.source.sourceCode
      ensures window.editor.breakpoints == TagLineNumbers(annotatedSource.linesWithTags)
      ensures window.editor.cursor == Coordinates(0, 0) && !window.editor.readOnly
    {
      var w := new WindowWithEditor();
      w.SetEditorAnnotatedSource(annotatedSource);
      window := w;
      this.annotatedSource := annotatedSource;
    }

    /** guiDemoCodeTags, over the tags of the demo code. */
    method GuiDemoCodeTags(inputBuf: string, pass: string -> bool, click: Maybe<nat>)
      returns (listed: seq<LineWithTag>)
      requires Valid()
      modifies window.editor
      ensures Valid()
      ensures listed == if Strlen(inputBuf) >= MinFilterLength then ListedTags(pass, annotatedSource.linesWithTags) else []
      ensures var tags := annotatedSource.linesWithTags;
              if Strlen(inputBuf) >= MinFilterLength && click.Just? && click.value < |tags| && pass(tags[click.value].tag)
              then window.editor.cursor == Coordinates(tags[click.value].lineNumber, 0)
                   && window.editor.cursorLineOnPage == Just(JumpLineOnPage)
              else window.editor.cursor == old(window.editor.cursor)
                   && window.editor.cursorLineOnPage == old(window.editor.cursorLineOnPage)
      ensures window.editor.lines == old(window.editor.lines)
      ensures window.editor.breakpoints == old(window.editor.breakpoints)
      ensures window.editor.readOnly == old(window.editor.readOnly)
    {
      listed := DemoCodeTagsPanel(window.editor, annotatedSource.linesWithTags, inputBuf, pass, click);
    }

    /** guiGithubButton: when pressed, the link to the demo file at the cursor line. */
    method GuiGithubButton(pressed: bool) returns (url: Maybe<string>)
      requires Valid()
      ensures url == if pressed then Just(GithubUrl("imgui_demo.cpp", window.editor.CursorLine())) else Nothing
    {
      url := Nothing;
      if pressed {
        url := Just(GithubUrl("imgui_demo.cpp", window.editor.CursorLine()));
      }
    }
  }

  /** ImGuiCppDocBrowser: the documentation inside imgui.cpp, with the header panel. */
  class ImGuiCppDocBrowser {
    const window: WindowWithEditor
    const annotatedSource: AnnotatedSource

    ghost predicate Valid()
      reads this, window, window.editor
    {
      window.Valid()
    }

    /** The editor shows imgui.cpp with its header tags, read by the caller. */
    constructor (annotatedSource: AnnotatedSource)
      ensures Valid() && fresh(window) && fresh(window.editor)
      ensures this.annotatedSource == annotatedSource
      ensures window.editor.GetText() == annotatedSource.source.sourceCode
      ensures window.editor.breakpoints == TagLineNumbers(annotatedSource.linesWithTags)
      ensures window.editor.cursor == Coordinates(0, 0) && !window.editor.readOnly
    {
      var w := new WindowWithEditor();
      w.SetEditorAnnotatedSource(annotatedSource);
      window := w;
      this.annotatedSource := annotatedSource;
    }

    /** guiTags, over the header tags of imgui.cpp. */
    method GuiTags(click: Maybe<nat>) returns (titles: seq<string>)
      requires Valid()
      modifies window.editor
      ensures Valid()
      ensures titles == HeaderTitles(annotatedSource.linesWithTags)
      ensures var tags := annotatedSource.linesWithTags;
              if click.Just? && click.value < |tags| && IsHeader1(tags[click.value].tag)
              then window.editor.cursor == Coordinates(tags[click.value].lineNumber, 0)
                   && window.editor.cursorLineOnPage == Just(JumpLineOnPage)
              else window.editor.cursor == old(window.editor.cursor)
                   && window.editor.cursorLineOnPage == old(window.editor.cursorLineOnPage)
      ensures window.editor.lines == old(window.editor.lines)
      ensures window.editor.breakpoints == old(window.editor.breakpoints)
      ensures window.editor.readOnly == old(window.editor.readOnly)
    {
      titles := DocHeadersPanel(window.editor, annotatedSource.linesWithTags, click);
    }

    /** guiGithubButton: when pressed, the link to imgui.cpp at the cursor line. */
    method GuiGithubButton(pressed: bool) returns (url: Maybe<string>)
      requires Valid()
      ensures url == if pressed then Just(GithubUrl("imgui.cpp", window.editor.CursorLine())) else Nothing
    {
      url := Nothing;
      if pressed {
        url := Just(GithubUrl("imgui.cpp", window.editor.CursorLine()));
      }
    }
  }

  /** LibrariesCodeBrowser: the files of some libraries, one of which is shown. */
  class LibrariesCodeBrowser {
    const window: WindowWithEditor
    const librarySources: seq<Library>
    var currentSource: Source

    /** The editor holds the text of the current source. */
    ghost predicate Valid()
      reads this, window, window.editor
    {
      window.Valid() && window.editor.GetText() == currentSource.sourceCode
    }

    /** The browser starts on the file at `currentSourcePath`, read through `contents`. */
    constructor (librarySources: seq<Library>, currentSourcePath: string, contents: string -> string)
      ensures Valid() && fresh(window) && fresh(window.editor)
      ensures this.librarySources == librarySources
      ensures currentSource == ReadSource(currentSourcePath, contents)
      ensures window.editor.cursor == Coordinates(0, 0) && !window.editor.readOnly
    {
      var w := new WindowWithEditor();
      var source := ReadSource(currentSourcePath, contents);
      w.editor.SetText(source.sourceCode);
      window := w;
      this.librarySources := librarySources;
      currentSource := source;
    }

    /**
     * gui: a click on a file that is not the current one makes it current
     * and loads it into the editor; the current file is then shown as
     * markdown when it is a ".md" file and in the editor otherwise.
     */
    method Gui(click: Maybe<LibraryEntry>, contents: string -> string) returns (view: View)
      requires Valid()
      modifies this, window.editor
      ensures Valid()
      ensures var switches := SwitchesSource(librarySources, click, old(currentSource.sourcePath));
              && (switches ==> currentSource == ReadSource(EntryPathAt(librarySources, click.value), contents)
                               && window.editor.lines == Split('\n', currentSource.sourceCode)
                               && window.editor.cursor == Coordinates(0, 0))
              && (!switches ==> currentSource == old(currentSource)
                                && window.editor.lines == old(window.editor.lines)
                                && window.editor.cursor == old(window.editor.cursor))
      ensures view == ViewOf(currentSource)
      ensures window.editor.cursorLineOnPage == old(window.editor.cursorLineOnPage)
      ensures window.editor.breakpoints == old(window.editor.breakpoints)
      ensures window.editor.readOnly == old(window.editor.readOnly)
    {
      var changed, selected := SelectLibrarySource(librarySources, currentSource, click, contents);
      currentSource := selected;
      if changed {
        window.editor.SetText(currentSource.sourceCode);
      }
      view := ViewOf(currentSource);
    }
  }
}

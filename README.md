# Source navigation in the ImGui manual code browsers

This project models the source-navigation logic of the code-browser windows in
the interactive ImGui manual (`src/ImGuiManual.cpp`) and in the earlier demo
program (`src/ImGuiHelloDemo.cpp`), and proves what that logic promises.

Each browser window owns a text editor. The model keeps the part of the editor
state the windows read and write: its lines, its cursor, the screen row asked
for the cursor line, its breakpoint markers and its read-only flag. On that
state the model covers:

- loading an annotated source, where the text is replaced and the markers become
  the tagged lines;
- the search box of the manual's editor window: the match count, the "k/n"
  indicator, and the search-up and search-down buttons;
- the demo-tag panel, which shows nothing under a filter of fewer than 3
  characters (one character per byte of the C++ buffer), lists the
  passing tags in order, and jumps to a tag's line with 3 rows of context;
- the same jump made from the demo window's callback;
- the doc-header panel, which lists the "H1 " tags without that prefix;
- the "view on GitHub" link;
- the choice of a file in the library browser, and the markdown/editor
  dispatch on ".md";
- the enable conditions of the icon bar.

Modules:

- `Fplus`: the FunctionalPlus helpers the code calls (count, index searches,
  segment, take, drop, suffix test), each with its meaning. It also holds the
  split and join of a sequence at a delimiter. The editor uses them to cut its
  text into lines and read it back, and the filter uses them to cut its input
  into terms.
- `TextEditor`: the editor state as a class, with the operations the browsers
  call.
- `Sources`: the loader's records. The file system appears as a function from
  path to contents.
- `Find`: the search box as functions over the lines, with the lemmas about
  them.
- `CodeBrowser`: the panels the two programs share. Each panel is a procedure
  that takes the editor it drives, proved against a specification function.
- `TextFilter`: a concrete filter following the grammar in the tag panel's
  tooltip.
- `ImGuiManual` and `ImGuiHelloDemo`: the window classes of each program. In
  C++ each browser derives from the editor window; here each browser holds its
  window.

The filter is a parameter `pass: string -> bool` throughout. Its real
implementation (ImGuiTextFilter) is not part of this model. `TextFilter` gives
one instance that reads the tooltip's grammar literally: case-sensitive, with
no trimming of terms.

## Model

| member | source | states |
|---|---|---|
| Fplus.CountIf | src/ImGuiManual.cpp:101 | the count is at most the length; it is 0 iff no element passes, and the full length iff every element passes |
| Fplus.FindAllIdxsBy | src/ImGuiManual.cpp:114-119 | the result is strictly ascending in-range positions of passing elements, and it contains every passing position |
| Fplus.FindFirstIdx | src/ImGuiManual.cpp:120-122 | a found position holds the value and no earlier one does; Nothing means the value does not occur |
| Fplus.FindFirstIdxBy | src/ImGuiManual.cpp:156-160 | a found position passes and no earlier one does; Nothing means no element passes |
| Fplus.FindLastIdxBy | src/ImGuiManual.cpp:144-148 | a found position passes and no later one does; Nothing means no element passes |
| Fplus.GetSegment | src/ImGuiManual.cpp:143 | the segment is the elements from the begin index up to the end index, with the end cut to the size; it is empty when the end is not after the begin |
| Fplus.Take | src/ImGuiManual.cpp:398 | the result is a prefix of length min(n, size) |
| Fplus.Drop | src/ImGuiManual.cpp:397 | the result is what follows the first min(n, size) elements |
| Fplus.TakeDrop | src/ImGuiManual.cpp:397-398 | the taken prefix followed by the dropped rest is the whole tag |
| Fplus.IsSuffixOf | src/ImGuiManual.cpp:222 | is_suffix_of: the last elements of the path are the suffix |
| Fplus.IsSuffixOfMeansEndsWith | src/ImGuiManual.cpp:222 | is_suffix_of holds iff the path is some stem followed by the suffix |
| Fplus.CountIfIsNumberOfIdxs | src/ImGuiManual.cpp:101-119 | the match count equals the number of matching positions |
| Fplus.Split | src/ImGuiManual.cpp:56 | the buffer has at least one line, and no line contains the delimiter |
| Fplus.JoinSplit | src/ImGuiManual.cpp:56 | joining the lines of a text gives the text back |
| Fplus.SplitJoin | src/ImGuiManual.cpp:332-336 | splitting the comma-join of comma-free terms gives back the terms |
| TextEditor.Editor.constructor | src/ImGuiManual.cpp:198 | a new editor holds one empty line, with the cursor at (0, 0), no markers, and writing allowed |
| TextEditor.Editor.GetText | src/ImGuiManual.cpp:304 | the text of the buffer is its lines joined with line breaks, and it splits back into those lines |
| TextEditor.Editor.CursorLine | src/ImGuiManual.cpp:139 | the cursor line read back lies in the buffer, and it is the stored line whenever that line exists |
| TextEditor.Editor.SetText | src/ImGuiManual.cpp:56 | the text read back is the text set; the cursor returns to the start; the markers and the read-only flag are kept |
| TextEditor.Editor.SetCursorPosition | src/ImGuiManual.cpp:21 | the cursor and the requested screen row become the arguments, and nothing else changes |
| TextEditor.Editor.SetBreakpoints | src/ImGuiManual.cpp:60 | the markers become exactly the given set, and nothing else changes |
| TextEditor.Editor.SetReadOnly | src/ImGuiManual.cpp:51 | the read-only flag becomes the argument, and nothing else changes |
| CodeBrowser.Strlen | src/ImGuiManual.cpp:344 | the length counts the characters before the first NUL, or the whole buffer when there is none; each character stands for one byte of the C++ buffer |
| CodeBrowser.TagLineNumbers | src/ImGuiManual.cpp:57-59 | the set holds the line number of every tag |
| CodeBrowser.TagLineNumbersAreTaggedLines | src/ImGuiManual.cpp:57-59 | a line number is in the marker set iff some tag carries it |
| CodeBrowser.SetEditorAnnotatedSource | src/ImGuiManual.cpp:54-61 | the editor's text is the source code, and its markers are exactly the tag line numbers |
| CodeBrowser.ListedTags | src/ImGuiManual.cpp:346-349 | no more tags are listed than exist, and every listed tag passes the filter |
| CodeBrowser.ListedTagsAreMatchingPositions | src/ImGuiManual.cpp:346-349 | the listed tags are the tags at the passing positions, in ascending order |
| CodeBrowser.ListedTagsMembers | src/ImGuiManual.cpp:346-349 | a tag is listed iff it is one of the tags and passes the filter |
| CodeBrowser.ListedTagsKeepDuplicates | src/ImGuiManual.cpp:346-349 | a passing tag is listed as many times as it occurs, and a failing tag never is |
| CodeBrowser.ListedTagsOfPassingTags | src/ImGuiManual.cpp:346-349 | when every tag passes, the listing is the whole tag sequence |
| CodeBrowser.ListedTagsIdempotent | src/ImGuiManual.cpp:346-349 | filtering the listing again with the same filter changes nothing |
| CodeBrowser.DemoCodeTagsPanel | src/ImGuiManual.cpp:342-356 | under 3 characters of filter (each standing for one byte) nothing is listed; otherwise the passing tags are listed in order; a click on a listed tag jumps to (its line, 0) with 3 rows of context, and any other click leaves the cursor alone |
| CodeBrowser.IsHeader1 | src/ImGuiManual.cpp:398 | a tag is a header iff it starts with "H1 " |
| CodeBrowser.HeaderTitles | src/ImGuiManual.cpp:394-399 | there are no more titles than tags |
| CodeBrowser.HeaderTitlesAreHeaderTags | src/ImGuiManual.cpp:394-399 | there is one title per "H1 " tag, in order, and "H1 " followed by the title is the tag |
| CodeBrowser.DocHeadersPanel | src/ImGuiManual.cpp:392-405 | the titles are those of the "H1 " tags; a click on one jumps to (its line, 0) with 3 rows of context, and any other click leaves the cursor alone |
| CodeBrowser.DecimalString | src/ImGuiManual.cpp:313 | to_string gives decimal digits with no leading zero, one digit exactly below 10 |
| CodeBrowser.DecimalRoundTrip | src/ImGuiManual.cpp:313 | reading the digits back gives the number |
| CodeBrowser.GithubUrl | src/ImGuiManual.cpp:312-313 | the link starts with the repository address, the file and "#L", and has at least one more character |
| CodeBrowser.GithubUrlNamesLine | src/ImGuiManual.cpp:312-313 | the link is the repository address, the file and "#L", followed by digits that read back as the cursor line |
| CodeBrowser.DisplayedLine | src/ImGuiManual.cpp:77 | the status line counts lines from 1 |
| CodeBrowser.GithubUrlAtFirstLine | src/ImGuiManual.cpp:312-313 | with the cursor on the first line, shown as line 1, the link ends in "#L0" |
| CodeBrowser.GithubUrlAtDisplayedLine | src/ImGuiManual.cpp:77 | the corrected link: the same address, anchored at the line the status line shows |
| CodeBrowser.GithubUrlAtDisplayedLineNamesShownLine | src/ImGuiManual.cpp:77 | the corrected link names the line the status line shows, which is at least 1 |
| CodeBrowser.EntryPath | src/ImGuiManual.cpp:239 | the entry's path is the library path, then "/", then the file |
| CodeBrowser.IsSelected | src/ImGuiManual.cpp:240 | an entry is selected when its path equals the current source path |
| CodeBrowser.SelectedEntryIsCurrentFile | src/ImGuiManual.cpp:239-240 | an entry is selected iff the current path is the library path, then "/", then the file |
| CodeBrowser.SwitchesSource | src/ImGuiManual.cpp:242-248 | a click switches the source when it is on an existing entry that is not selected |
| CodeBrowser.SelectLibrarySource | src/ImGuiManual.cpp:228-255 | a change is reported iff the click is on an existing entry other than the current file; the clicked file is then read and becomes current; otherwise the current source stays |
| CodeBrowser.ViewOf | src/ImGuiManual.cpp:222-225 | a ".md" path is shown as markdown of its code; any other path goes to the editor under its own name |
| Find.SearchUp | src/ImGuiManual.cpp:140-150 | a line found by search up lies above the cursor line, in the buffer, and passes |
| Find.SearchDown | src/ImGuiManual.cpp:152-163 | a line found by search down lies below the cursor line, in the buffer, and passes; the segment index is shifted by the cursor line + 1 |
| Find.FindStatusOf | src/ImGuiManual.cpp:104-132 | nothing is shown iff the count is not positive; "---/n" iff there are matches and the cursor line fails; a shown ordinal is at least 1, next to the stored count |
| Find.SearchDownFindsNextMatch | src/ImGuiManual.cpp:152-163 | search down finds a line iff some line below the cursor passes; it finds the nearest such line, the segment index shifted back by the cursor line + 1 |
| Find.SearchUpFindsPreviousMatch | src/ImGuiManual.cpp:140-151 | search up finds a line iff some line above the cursor passes, and it finds the nearest one |
| Find.SearchStopsAtBufferEnds | src/ImGuiManual.cpp:140-163 | on the first line search up finds nothing; on the last line search down finds nothing |
| Find.CurrentLineMatchNumber | src/ImGuiManual.cpp:109-122 | a passing cursor line occurs among the matching lines, at the position equal to the number of passing lines above it, which is below the total count |
| Find.HoustonUnreachable | src/ImGuiManual.cpp:106-126 | the "Houston, we have a bug" branch is never taken, whatever the stored count; a passing cursor line shows as match (passing lines above + 1) |
| Find.FreshCountOrdinal | src/ImGuiManual.cpp:98-124 | with an up-to-date count, a passing cursor line shows k/n with 1 <= k <= n; a line that does not pass shows "---/n" when n > 0, and nothing when n is 0 |
| Find.StaleCountCanBeExceeded | src/ImGuiManual.cpp:98-102 | the count is refreshed only when the filter changes; once the text changes under the same filter, the ordinal shown can exceed the count. A library browser that switches file (src/ImGuiManual.cpp:219-220) changes the text and leaves `nbFindMatches` as it was, since `LibrariesCodeBrowser.Gui` does not modify its window |
| TextFilter.PassFilter | src/ImGuiManual.cpp:332-336 | an item passes when there is no include term or it contains one, and it contains no exclude term |
| TextFilter.MissingFirstCharNotContained | src/ImGuiManual.cpp:335 | a text without the needle's first character does not contain the needle |
| TextFilter.EmptyFilterPassesAll | src/ImGuiManual.cpp:333 | the empty filter passes every item, as the tooltip's "" display all says; in the panel itself the 3-character gate (src/ImGuiManual.cpp:344) overrides this and nothing is listed |
| TextFilter.IncludeTermPasses | src/ImGuiManual.cpp:334 | "xxx" shows exactly the items containing xxx |
| TextFilter.TwoIncludeTermsPass | src/ImGuiManual.cpp:335 | "xxx,yyy" shows exactly the items containing xxx or yyy |
| TextFilter.ExcludeTermPasses | src/ImGuiManual.cpp:336 | "-xxx" shows exactly the items not containing xxx |
| TextFilter.ExcludeOfAbsentTermListsAll | src/ImGuiManual.cpp:336 | "-xxx" over tags none of which contains xxx lists every tag, unchanged |
| TextFilter.ListedTagsOfPair | src/ImGuiManual.cpp:346-349 | the listing of two tags keeps, in order, each one that passes |
| TextFilter.IncludeSetupScenario | src/ImGuiManual.cpp:334 | over tags "setup" (line 0) and "teardown" (line 2), the filter "setup" lists only the setup tag |
| TextFilter.ExcludeSetupScenario | src/ImGuiManual.cpp:336 | over the same tags, the filter "-setup" lists only the teardown tag |
| ImGuiManual.DemoCallback | src/ImGuiManual.cpp:18-22 | the demo editor jumps to (line, 0) with 3 rows of context; its text, markers and read-only flag are kept |
| ImGuiManual.IconBarEnabled | src/ImGuiManual.cpp:175-184 | the enable condition of each icon-bar button |
| ImGuiManual.IconBarEditingNeedsWrite | src/ImGuiManual.cpp:175-184 | with writing off, undo, redo, cut and paste are disabled; with writing on, each needs exactly what it acts on; copy needs only a selection |
| ImGuiManual.WindowWithEditor.constructor | src/ImGuiManual.cpp:47-53 | a new window's editor is empty and read-only, and no matches are counted |
| ImGuiManual.WindowWithEditor.SetEditorAnnotatedSource | src/ImGuiManual.cpp:54-61 | the text is the source code, and the markers are exactly the tag line numbers |
| ImGuiManual.WindowWithEditor.SetCanWrite | src/ImGuiManual.cpp:172-173 | the editor is read-only exactly when writing is unchecked |
| ImGuiManual.WindowWithEditor.GuiFind | src/ImGuiManual.cpp:83-167 | on a filter change the count becomes the number of passing lines; the indicator is never the bug text; down moves to the nearest passing line below, else up to the nearest above, else the cursor stays; the text is not touched |
| ImGuiManual.ImGuiDemoBrowser.constructor | src/ImGuiManual.cpp:266-271 | the editor shows the demo code, with markers on its tagged lines |
| ImGuiManual.ImGuiDemoBrowser.GuiDemoCodeTags | src/ImGuiManual.cpp:319-357 | the demo-tag panel over the demo's tags: 3-character gate, passing tags in order, a jump to (line, 0) with 3 rows of context |
| ImGuiManual.ImGuiDemoBrowser.GuiGithubButton | src/ImGuiManual.cpp:308-316 | when pressed, the link to imgui_demo.cpp at the cursor line |
| ImGuiManual.ImGuiCppDocBrowser.constructor | src/ImGuiManual.cpp:379-384 | the editor shows imgui.cpp, with markers on its tagged lines |
| ImGuiManual.ImGuiCppDocBrowser.GuiTags | src/ImGuiManual.cpp:392-405 | the "H1 " titles; a click jumps to the header's line |
| ImGuiManual.ImGuiCppDocBrowser.GuiGithubButton | src/ImGuiManual.cpp:406-414 | when pressed, the link to imgui.cpp at the cursor line |
| ImGuiManual.LibrariesCodeBrowser.constructor | src/ImGuiManual.cpp:206-215 | the browser starts on the given file, and the editor holds its text |
| ImGuiManual.LibrariesCodeBrowser.Gui | src/ImGuiManual.cpp:217-226 | a click on another file makes it current and loads it into the editor; otherwise nothing changes; ".md" files are shown as markdown |
| ImGuiHelloDemo.DemoCallback | src/ImGuiHelloDemo.cpp:15-19 | the demo editor jumps to (line, 0) with 3 rows of context |
| ImGuiHelloDemo.WindowWithEditor.constructor | src/ImGuiHelloDemo.cpp:44-49 | a new window's editor is empty and writable |
| ImGuiHelloDemo.WindowWithEditor.SetEditorAnnotatedSource | src/ImGuiHelloDemo.cpp:50-57 | the text is the source code, and the markers are exactly the tag line numbers |
| ImGuiHelloDemo.ImGuiDemoBrowser.constructor | src/ImGuiHelloDemo.cpp:126-131 | the editor shows the demo code, with markers on its tagged lines |
| ImGuiHelloDemo.ImGuiDemoBrowser.GuiDemoCodeTags | src/ImGuiHelloDemo.cpp:158-196 | 3-character gate, passing tags in order, a jump to (line, 0) with 3 rows of context |
| ImGuiHelloDemo.ImGuiDemoBrowser.GuiGithubButton | src/ImGuiHelloDemo.cpp:147-155 | when pressed, the link to imgui_demo.cpp at the 0-based cursor line |
| ImGuiHelloDemo.ImGuiCppDocBrowser.constructor | src/ImGuiHelloDemo.cpp:218-223 | the editor shows imgui.cpp, with markers on its tagged lines |
| ImGuiHelloDemo.ImGuiCppDocBrowser.GuiTags | src/ImGuiHelloDemo.cpp:232-245 | only "H1 " tags are listed, titled without the prefix; a click jumps to the header's line |
| ImGuiHelloDemo.ImGuiCppDocBrowser.GuiGithubButton | src/ImGuiHelloDemo.cpp:246-254 | when pressed, the link to imgui.cpp at the 0-based cursor line |
| ImGuiHelloDemo.LibrariesCodeBrowser.constructor | src/ImGuiHelloDemo.cpp:67-76 | the browser starts on the given file, and the editor holds its text |
| ImGuiHelloDemo.LibrariesCodeBrowser.Gui | src/ImGuiHelloDemo.cpp:78-115 | a non-selected entry that is clicked becomes the current source, is loaded, and reports a change; otherwise nothing changes; ".md" files are shown as markdown |

## Left out

- TextEditor internals are not modelled: undo/redo stacks, the clipboard,
  rendering, palettes, the language definition and user edits. The editor state
  holds only what the browsers read and write. Because no edit is modelled, the
  library browser's invariant that the editor holds the current source's text
  ignores edits made with writing switched on.
- TextEditor.Editor.SetText: the TextEditor source is not part of this model.
  The reset of the cursor to (0, 0) is an assumption about that editor.
  Lines are split at '\n' only; '\r' is not treated specially.
- TextEditor.Editor.CursorLine: the stored line is brought back into the buffer
  when read. The column is not sanitized, because no modelled operation reads it.
- Find.FindStatusOf: the line text the indicator tests (GetCurrentLineText) is
  taken to be the line GetCursorPosition reports, the stored line brought
  into the buffer. The TextEditor source is not part of this model. If that
  call read a stored line past the end as "", a filter passing "" could reach
  the "Houston, we have a bug" branch; HoustonUnreachable does not cover that
  reading.
- CodeBrowser.Strlen: each char of a model string stands for one byte of the
  C++ `char` buffer; UTF-8 is not decoded. A multi-byte character therefore
  counts once: the filter "éé" is 4 bytes in the program and passes the gate,
  but is 2 characters here and lists nothing.
- CodeBrowser.DemoCodeTagsPanel: the 3-byte gate is checked against the
  character count of `Strlen`, with the same limit for multi-byte characters.
- Integer width: the `(int)` casts and `int` additions at
  src/ImGuiManual.cpp:101, 124, 155 and 162 are unbounded in the model; no
  overflow or truncation is modelled.
- Negative line numbers: C++ `int` lines are natural numbers here, since tags
  and cursor positions are never negative in the code.
- ImGuiTextFilter's real matching is not modelled (trimming of terms, case
  handling, what a lone "-" means). The filter is a parameter; `TextFilter` is
  one reading of the tooltip's grammar.
- Input events: one click per frame is assumed. A click is given by the
  position of the clicked entry, and the buttons' pressed state is a parameter.
- I/O and foreign calls become parameters or are left out:
  - Sources::ReadSource, ReadImGuiDemoCode and ReadImGuiCppDoc are not modelled;
    file contents are a function from path to text;
  - the tag scanner that produces the tags is not modelled;
  - the save to disk in guiSave is not modelled;
  - OpenUrl is not modelled: the button returns the link it would open;
  - Markdown rendering is not modelled: the library browser returns what it
    would show.
- The global registry of editors, the palette menu, and the global pointer
  that wires the demo callback are not modelled. The callback takes its editor
  as a parameter.
- The function-local `static` toggles are not modelled (showHelp, the
  "canWrite" checkbox state, the demo panel's static filter). The checkbox's
  effect on the editor is `SetCanWrite`; its state is a parameter of
  `IconBarEnabled`.
- The per-frame `gui()` drivers of the demo and doc browsers, the status line
  text and all layout calls are widget composition and are not modelled. The
  ImGuiCodeBrowser and Acknowledgments windows only wrap a library browser and
  help text. The same holds for the AboutThisDemo window
  (src/ImGuiHelloDemo.cpp:260-275), a library browser with a help text, and
  for the AppState struct (src/ImGuiHelloDemo.cpp:279-287), which only owns
  the browsers and the show flags.

## Findings

| source | as written | input that shows it | evidently intended | confidence | as-written member | corrected member |
|---|---|---|---|---|---|---|
| src/ImGuiManual.cpp:312-313 (also src/ImGuiHelloDemo.cpp:151-152, 250-251) | the link anchors "#L" at the editor's 0-based cursor line | cursor on the first line, shown as line 1 by the status line (src/ImGuiManual.cpp:77), gives "...imgui_demo.cpp#L0"; GitHub numbers lines from 1, so every link points one line above the cursor | anchor at cursor line + 1, the line number the status line shows | medium, not executed | CodeBrowser.GithubUrlAtFirstLine | CodeBrowser.GithubUrlAtDisplayedLineNamesShownLine |

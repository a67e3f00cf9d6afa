/**
 * The part of the text-editor widget's state that the code browsers read and
 * write: its lines, its cursor, its breakpoint markers and its read-only flag.
 * The widget is a foreign library; only the operations the browsers call are
 * modelled, with the behaviour they rely on.
 */
module TextEditor {
  import opened Fplus

  /** A cursor position: 0-based line and column. */
  datatype Coordinates = Coordinates(line: nat, column: nat)

  class Editor {
    var lines: seq<string>
    /** The position as last set; reads go through CursorLine(). */
    var cursor: Coordinates
    /** The screen row requested for the cursor line by the last cursor move, if any. */
    var cursorLineOnPage: Maybe<nat>
    var breakpoints: set<int>
    var readOnly: bool

    /** The buffer has at least one line, and no line holds a line break. */
    ghost predicate Valid()
      reads this
    {
      |lines| >= 1 && forall k :: 0 <= k < |lines| ==> '\n' !in lines[k]
    }

    /** A new editor holds one empty line, with the cursor at its start. */
    constructor ()
      ensures Valid()
      ensures lines == [""] && cursor == Coordinates(0, 0) && cursorLineOnPage == Nothing
      ensures breakpoints == {} && !readOnly
    {
      lines := [""];
      cursor := Coordinates(0, 0);
      cursorLineOnPage := Nothing;
      breakpoints := {};
      readOnly := false;
    }

    /** GetText: the whole text of the buffer, which splits back into its lines. */
    function GetText(): (text: string)
      reads this
      requires Valid()
      ensures Split('\n', text) == lines
    {
      SplitJoin('\n', lines);
      Join('\n', lines)
    }

    /**
     * The line of GetCursorPosition: the stored line, brought back onto the
     * last line of the buffer when it lies past the end.
     */
    function CursorLine(): (line: nat)
      reads this
      requires Valid()
      ensures line < |lines|
      ensures cursor.line < |lines| ==> line == cursor.line
    {
      if cursor.line < |lines| then cursor.line else |lines| - 1
    }

    /** SetText: the buffer takes the new text, and the cursor goes back to the start. */
    method SetText(text: string)
      modifies this
      ensures Valid()
      ensures lines == Split('\n', text) && GetText() == text
      ensures cursor == Coordinates(0, 0)
      ensures cursorLineOnPage == old(cursorLineOnPage)
      ensures breakpoints == old(breakpoints) && readOnly == old(readOnly)
    {
      lines := Split('\n', text);
      cursor := Coordinates(0, 0);
      JoinSplit('\n', text);
    }

    /** SetCursorPosition: moves the cursor, with the screen row wanted for it if one is given. */
    method SetCursorPosition(position: Coordinates, lineOnPage: Maybe<nat>)
      modifies this
      ensures cursor == position && cursorLineOnPage == lineOnPage
      ensures lines == old(lines) && breakpoints == old(breakpoints) && readOnly == old(readOnly)
    {
      cursor := position;
      cursorLineOnPage := lineOnPage;
    }

    /** SetBreakpoints: the marked lines become exactly `markers`. */
    method SetBreakpoints(markers: set<int>)
      modifies this
      ensures breakpoints == markers
      ensures lines == old(lines) && cursor == old(cursor) && cursorLineOnPage == old(cursorLineOnPage)
      ensures readOnly == old(readOnly)
    {
      breakpoints := markers;
    }

    /** SetReadOnly: switches editing off or on. */
    method SetReadOnly(value: bool)
      modifies this
      ensures readOnly == value
      ensures lines == old(lines) && cursor == old(cursor) && cursorLineOnPage == old(cursorLineOnPage)
      ensures breakpoints == old(breakpoints)
    {
      readOnly := value;
    }
  }
}

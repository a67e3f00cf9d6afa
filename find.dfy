/**
 * The search box of an editor window: counting the lines that pass the
 * filter, the "match k of n" indicator, and the search-up and search-down
 * buttons. The filter is any predicate on a line.
 */
module Find {
  import opened Fplus

  /** Search up: the last passing line strictly above `currentLine`. */
  function SearchUp(pass: string -> bool, lines: seq<string>, currentLine: nat): (r: Maybe<nat>)
    ensures r.Just? ==> r.value < currentLine && r.value < |lines| && pass(lines[r.value])
  {
    FindLastIdxBy(pass, GetSegment(0, currentLine, lines))
  }

  /**
   * Search down: the first passing line strictly below `currentLine`; the
   * position found in the segment after the current line is shifted back by
   * `currentLine + 1` to a position in the buffer.
   */
  function SearchDown(pass: string -> bool, lines: seq<string>, currentLine: nat): (r: Maybe<nat>)
    ensures r.Just? ==> currentLine < r.value < |lines| && pass(lines[r.value])
  {
    match FindFirstIdxBy(pass, GetSegment(currentLine + 1, |lines|, lines))
    case Nothing => Nothing
    case Just(idx) => Just(idx + currentLine + 1)
  }

  /**
   * Search down finds a line exactly when some line below the cursor passes,
   * and then it finds the nearest one.
   */
  lemma SearchDownFindsNextMatch(pass: string -> bool, lines: seq<string>, currentLine: nat)
    ensures SearchDown(pass, lines, currentLine).Just? <==>
            exists j :: currentLine < j < |lines| && pass(lines[j])
    ensures SearchDown(pass, lines, currentLine).Just? ==>
            var k := SearchDown(pass, lines, currentLine).value;
            currentLine < k < |lines| && pass(lines[k])
            && forall j :: currentLine < j < k ==> !pass(lines[j])
  {
    var segment := GetSegment(currentLine + 1, |lines|, lines);
    if exists j :: currentLine < j < |lines| && pass(lines[j]) {
      var j :| currentLine < j < |lines| && pass(lines[j]);
      assert segment[j - currentLine - 1] == lines[j];
    }
    match FindFirstIdxBy(pass, segment)
    case Nothing =>
    case Just(idx) =>
      forall j | currentLine < j < idx + currentLine + 1 ensures !pass(lines[j]) {
        assert segment[j - currentLine - 1] == lines[j];
      }
  }

  /**
   * Search up finds a line exactly when some line above the cursor passes,
   * and then it finds the nearest one.
   */
  lemma SearchUpFindsPreviousMatch(pass: string -> bool, lines: seq<string>, currentLine: nat)
    ensures SearchUp(pass, lines, currentLine).Just? <==>
            exists j :: 0 <= j < currentLine && j < |lines| && pass(lines[j])
    ensures SearchUp(pass, lines, currentLine).Just? ==>
            var k := SearchUp(pass, lines, currentLine).value;
            k < currentLine && k < |lines| && pass(lines[k])
            && forall j :: k < j < currentLine && j < |lines| ==> !pass(lines[j])
  {
    var segment := GetSegment(0, currentLine, lines);
    if exists j :: 0 <= j < currentLine && j < |lines| && pass(lines[j]) {
      var j :| 0 <= j < currentLine && j < |lines| && pass(lines[j]);
      assert segment[j] == lines[j];
    }
  }

  /** On the first line search up finds nothing; on the last line search down finds nothing. */
  lemma SearchStopsAtBufferEnds(pass: string -> bool, lines: seq<string>)
    requires |lines| >= 1
    ensures SearchUp(pass, lines, 0) == Nothing
    ensures SearchDown(pass, lines, |lines| - 1) == Nothing
  {
    SearchUpFindsPreviousMatch(pass, lines, 0);
    SearchDownFindsNextMatch(pass, lines, |lines| - 1);
  }

  /** What the search box shows beside the filter. */
  datatype FindStatus =
    | Hidden                                  // no matches counted: nothing shown
    | NotOnMatch(matches: int)                // "---/n": the cursor line does not pass
    | OnMatch(ordinal: int, matches: int)     // "k/n": the cursor line is match number k
    | Bug                                     // "Houston, we have a bug"

  /** The indicator, for the cursor on `currentLine` and a stored match count. */
  function FindStatusOf(pass: string -> bool, lines: seq<string>, currentLine: nat, nbFindMatches: int)
    : (status: FindStatus)
    requires currentLine < |lines|
    ensures status.Hidden? <==> nbFindMatches <= 0
    ensures status.NotOnMatch? <==> nbFindMatches > 0 && !pass(lines[currentLine])
    ensures status.NotOnMatch? ==> status.matches == nbFindMatches
    ensures status.OnMatch? ==> 1 <= status.ordinal && status.matches == nbFindMatches
  {
    if nbFindMatches <= 0 then Hidden
    else if !pass(lines[currentLine]) then NotOnMatch(nbFindMatches)
    else match FindFirstIdx(currentLine, FindAllIdxsBy(pass, lines))
      case Just(matchNumber) => OnMatch(matchNumber + 1, nbFindMatches)
      case Nothing => Bug
  }

  /**
   * A passing cursor line occurs among the matching lines, at the position
   * given by the number of passing lines above it.
   */
  lemma {:induction false} CurrentLineMatchNumber(pass: string -> bool, lines: seq<string>, currentLine: nat)
    requires currentLine < |lines| && pass(lines[currentLine])
    ensures FindFirstIdx(currentLine, FindAllIdxsBy(pass, lines)) == Just(CountIf(pass, lines[..currentLine]))
    ensures CountIf(pass, lines[..currentLine]) < CountIf(pass, lines)
  {
    var all := FindAllIdxsBy(pass, lines);
    var before := FindAllIdxsBy(pass, lines[..currentLine]);
    var through := lines[..currentLine + 1];
    assert through[..|through| - 1] == lines[..currentLine];
    assert FindAllIdxsBy(pass, through) == before + [currentLine];
    FindAllIdxsByOfPrefix(pass, lines, currentLine + 1);
    CountIfIsNumberOfIdxs(pass, lines[..currentLine]);
    CountIfIsNumberOfIdxs(pass, lines);
    var m := |before|;
    assert all[..m] == before && all[m] == currentLine;
  }

  /** The "Houston, we have a bug" branch cannot be taken, whatever the stored count. */
  lemma HoustonUnreachable(pass: string -> bool, lines: seq<string>, currentLine: nat, nbFindMatches: int)
    requires currentLine < |lines|
    ensures FindStatusOf(pass, lines, currentLine, nbFindMatches) != Bug
    ensures nbFindMatches > 0 && pass(lines[currentLine]) ==>
            FindStatusOf(pass, lines, currentLine, nbFindMatches)
              == OnMatch(CountIf(pass, lines[..currentLine]) + 1, nbFindMatches)
  {
    if pass(lines[currentLine]) {
      CurrentLineMatchNumber(pass, lines, currentLine);
    }
  }

  /**
   * With a count that is up to date, a passing cursor line is shown as match
   * k of n with 1 <= k <= n, and a cursor line that does not pass as "---/n"
   * when there are matches and not at all when there are none.
   */
  lemma FreshCountOrdinal(pass: string -> bool, lines: seq<string>, currentLine: nat)
    requires currentLine < |lines|
    ensures var status := FindStatusOf(pass, lines, currentLine, CountIf(pass, lines));
            (pass(lines[currentLine]) ==> status.OnMatch? && 1 <= status.ordinal <= status.matches)
            && (!pass(lines[currentLine]) ==>
                  status == if CountIf(pass, lines) > 0 then NotOnMatch(CountIf(pass, lines)) else Hidden)
  {
    HoustonUnreachable(pass, lines, currentLine, CountIf(pass, lines));
    if pass(lines[currentLine]) {
      CurrentLineMatchNumber(pass, lines, currentLine);
    }
  }

  /**
   * The count is only refreshed when the filter changes: once the text has
   * changed under an unchanged filter, the ordinal shown can exceed the count.
   */
  lemma StaleCountCanBeExceeded()
    ensures FindStatusOf(s => s == "x", ["x", "x"], 1, 1) == OnMatch(2, 1)
  {
    var pass := (s: string) => s == "x";
    var lines := ["x", "x"];
    HoustonUnreachable(pass, lines, 1, 1);
    assert lines[..1] == ["x"];
    assert ["x"][..0] == [];
  }
}

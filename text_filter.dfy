/**
 * A filter that follows the grammar the demo-tag panel documents in its
 * tooltip: "" shows everything, "xxx" shows the items containing xxx,
 * "xxx,yyy" the items containing xxx or yyy, and "-xxx" hides the items
 * containing xxx. Include terms are alternatives; an exclude term hides an
 * item whatever the include terms say. Matching is case-sensitive and terms
 * are not trimmed.
 */
module TextFilter {
  import opened Fplus
  import opened Sources
  import opened CodeBrowser

  /** Whether `needle` occurs in `text` as a contiguous run. */
  predicate Contains(text: string, needle: string)
  {
    needle <= text || (text != [] && Contains(text[1..], needle))
  }

  /** A text without the first character of a needle does not contain it. */
  lemma {:induction false} MissingFirstCharNotContained(text: string, needle: string)
    requires needle != [] && needle[0] !in text
    ensures !Contains(text, needle)
  {
    if text != [] {
      MissingFirstCharNotContained(text[1..], needle);
    }
  }

  /** A term that asks for items containing it. */
  predicate IsIncludeTerm(term: string)
  {
    term != [] && term[0] != '-'
  }

  /** A term "-xxx" that hides the items containing xxx ("-" alone hides nothing). */
  predicate IsExcludeTerm(term: string)
  {
    |term| >= 2 && term[0] == '-'
  }

  /** PassFilter over the comma-separated terms of `filter`. */
  predicate PassFilter(filter: string, text: string)
  {
    var terms := Split(',', filter);
    && ((forall k :: 0 <= k < |terms| ==> !IsIncludeTerm(terms[k]))
        || (exists k :: 0 <= k < |terms| && IsIncludeTerm(terms[k]) && Contains(text, terms[k])))
    && (forall k :: 0 <= k < |terms| && IsExcludeTerm(terms[k]) ==> !Contains(text, terms[k][1..]))
  }

  /** The filter as a predicate on labels, for the panels. */
  function FilterFor(filter: string): string -> bool
  {
    s => PassFilter(filter, s)
  }

  /** A filter without commas is a single term. */
  lemma SingleTerm(term: string)
    requires ',' !in term
    ensures Split(',', term) == [term]
  {
    SplitJoin(',', [term]);
  }

  /** The empty filter lets every item through. */
  lemma EmptyFilterPassesAll(text: string)
    ensures PassFilter("", text)
  {
    SingleTerm("");
  }

  /** "xxx" shows exactly the items containing xxx. */
  lemma IncludeTermPasses(term: string, text: string)
    requires IsIncludeTerm(term) && ',' !in term
    ensures PassFilter(term, text) <==> Contains(text, term)
  {
    SingleTerm(term);
    var terms := Split(',', term);
    assert terms[0] == term;
  }

  /** "xxx,yyy" shows exactly the items containing xxx or yyy. */
  lemma TwoIncludeTermsPass(first: string, second: string, text: string)
    requires IsIncludeTerm(first) && ',' !in first
    requires IsIncludeTerm(second) && ',' !in second
    ensures PassFilter(first + "," + second, text) <==> Contains(text, first) || Contains(text, second)
  {
    SplitJoin(',', [first, second]);
    assert Join(',', [first, second]) == first + "," + second;
    var terms := Split(',', first + "," + second);
    assert terms[0] == first && terms[1] == second;
  }

  /** "-xxx" hides exactly the items containing xxx. */
  lemma ExcludeTermPasses(hidden: string, text: string)
    requires hidden != [] && ',' !in hidden
    ensures PassFilter("-" + hidden, text) <==> !Contains(text, hidden)
  {
    SingleTerm("-" + hidden);
    var terms := Split(',', "-" + hidden);
    assert terms[0] == "-" + hidden && terms[0][1..] == hidden;
    assert !IsIncludeTerm(terms[0]) && IsExcludeTerm(terms[0]);
  }

  /** "-xxx" over tags none of which contains xxx lists every tag. */
  lemma ExcludeOfAbsentTermListsAll(hidden: string, tags: seq<LineWithTag>)
    requires hidden != [] && ',' !in hidden
    requires forall k :: 0 <= k < |tags| ==> !Contains(tags[k].tag, hidden)
    ensures ListedTags(FilterFor("-" + hidden), tags) == tags
  {
    forall k | 0 <= k < |tags| ensures FilterFor("-" + hidden)(tags[k].tag) {
      ExcludeTermPasses(hidden, tags[k].tag);
    }
    ListedTagsOfPassingTags(FilterFor("-" + hidden), tags);
  }

  /** Tags "setup" on line 0 and "teardown" on line 2. */
  function ScenarioTags(): seq<LineWithTag>
  {
    [LineWithTag(0, "setup"), LineWithTag(2, "teardown")]
  }

  /** The listing of two tags keeps each one that passes, in order. */
  lemma ListedTagsOfPair(pass: string -> bool, a: LineWithTag, b: LineWithTag)
    ensures ListedTags(pass, [a, b]) == (if pass(a.tag) then [a] else []) + (if pass(b.tag) then [b] else [])
  {
    assert [a, b][..1] == [a] && [a][..0] == [];
  }

  /** Filter "setup" lists only the setup tag. */
  lemma IncludeSetupScenario()
    ensures ListedTags(FilterFor("setup"), ScenarioTags()) == [LineWithTag(0, "setup")]
  {
    var pass := FilterFor("setup");
    IncludeTermPasses("setup", "setup");
    IncludeTermPasses("setup", "teardown");
    assert "setup" <= "setup";
    MissingFirstCharNotContained("teardown", "setup");
    assert pass("setup") && !pass("teardown");
    ListedTagsOfPair(pass, LineWithTag(0, "setup"), LineWithTag(2, "teardown"));
  }

  /** Filter "-setup" lists only the teardown tag. */
  lemma ExcludeSetupScenario()
    ensures ListedTags(FilterFor("-setup"), ScenarioTags()) == [LineWithTag(2, "teardown")]
  {
    var pass := FilterFor("-setup");
    assert "-" + "setup" == "-setup";
    ExcludeTermPasses("setup", "setup");
    ExcludeTermPasses("setup", "teardown");
    assert "setup" <= "setup";
    MissingFirstCharNotContained("teardown", "setup");
    assert !pass("setup") && pass("teardown");
    ListedTagsOfPair(pass, LineWithTag(0, "setup"), LineWithTag(2, "teardown"));
  }
}

/**
 * skim's pre-selection rule (src/skim/helper/selector.rs): which items are
 * marked as selected before the user sees them. Regular-expression matching is
 * not modelled; a compiled expression carries its match test as a function.
 */
module Selector {
  import opened Wrappers

  /** A compiled regular expression: its pattern and the strings it matches. */
  datatype Regex = Regex(pattern: string, isMatch: string -> bool)

  /** `DefaultSkimSelector`. */
  datatype DefaultSkimSelector = DefaultSkimSelector(
    firstN: nat,
    regex: Option<Regex>,
    preset: Option<set<string>>)

  /** The derived `Default`: no criterion at all. */
  function DefaultSelector(): (sel: DefaultSkimSelector)
    ensures sel.firstN == 0
    ensures forall text :: !InPreset(sel, text) && !MatchesRegex(sel, text)
  {
    DefaultSkimSelector(0, None, None)
  }

  /** Whether a preset is configured and holds `text`. */
  predicate InPreset(sel: DefaultSkimSelector, text: string) {
    sel.preset.Some? && text in sel.preset.value
  }

  /** Whether a regular expression is configured and matches `text`. */
  predicate MatchesRegex(sel: DefaultSkimSelector, text: string) {
    sel.regex.Some? && sel.regex.value.isMatch(text)
  }

  /**
   * `should_select` for the item at arrival position `index`, whose text is
   * `text(item)`: the three early returns in source order.
   */
  function ShouldSelect<T>(sel: DefaultSkimSelector, index: nat, item: T, text: T -> string): (r: bool)
    ensures index < sel.firstN ==> r
    ensures InPreset(sel, text(item)) ==> r
    ensures MatchesRegex(sel, text(item)) ==> r
    ensures r ==> index < sel.firstN || InPreset(sel, text(item)) || MatchesRegex(sel, text(item))
  {
    if sel.firstN > index then true
    else if sel.preset.Some? && (match sel.preset case Some(p) => text(item) in p case None => false) then true
    else if sel.regex.Some? && (match sel.regex case Some(re) => re.isMatch(text(item)) case None => false) then true
    else false
  }

  /** The default selector selects nothing. */
  lemma DefaultSelectsNothing<T>(index: nat, item: T, text: T -> string)
    ensures !ShouldSelect(DefaultSelector(), index, item, text)
  {
  }

  /** Without a preset and a regular expression, exactly the first `firstN` items are selected. */
  lemma OnlyFirstN<T>(sel: DefaultSkimSelector, index: nat, item: T, text: T -> string)
    requires sel.preset.None? && sel.regex.None?
    ensures ShouldSelect(sel, index, item, text) <==> index < sel.firstN
  {
  }

  /** The item counts only through its text: two items with the same text get the same answer. */
  lemma OnlyTextMatters<T>(sel: DefaultSkimSelector, index: nat, a: T, b: T, text: T -> string)
    requires text(a) == text(b)
    ensures ShouldSelect(sel, index, a, text) == ShouldSelect(sel, index, b, text)
  {
  }

  /** Raising `firstN` never deselects an item. */
  lemma MoreFirstNSelectsMore<T>(sel: DefaultSkimSelector, n: nat, index: nat, item: T, text: T -> string)
    requires sel.firstN <= n
    ensures ShouldSelect(sel, index, item, text) ==> ShouldSelect(sel.(firstN := n), index, item, text)
  {
  }

  function Identity(s: string): string {
    s
  }

  /** Selection on plain strings, as in the examples below. */
  lemma SelectorExamples()
    ensures ShouldSelect(DefaultSelector().(firstN := 2), 0, "x", Identity)
    ensures ShouldSelect(DefaultSelector().(firstN := 2), 1, "x", Identity)
    ensures !ShouldSelect(DefaultSelector().(firstN := 2), 2, "x", Identity)
    ensures ShouldSelect(DefaultSelector().(preset := Some({"main"})), 5, "main", Identity)
    ensures !ShouldSelect(DefaultSelector().(preset := Some({"main"})), 5, "feature/x", Identity)
  {
  }

  /** With an expression matching the "feature/" prefix, "feature/x" is selected and "main" is not. */
  lemma RegexExample(re: Regex)
    requires forall s: string :: re.isMatch(s) <==> |s| >= 8 && s[..8] == "feature/"
    ensures ShouldSelect(DefaultSelector().(regex := Some(re)), 0, "feature/x", Identity)
    ensures !ShouldSelect(DefaultSelector().(regex := Some(re)), 0, "main", Identity)
  {
    assert "feature/x"[..8] == "feature/";
    assert !re.isMatch("main");
  }
}

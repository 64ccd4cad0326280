/** What the two dropdown components share: the option type, the search
    over the options and the open/closed state of the list. */
module SelectOptions {
  import opened Common
  import opened Text

  /** One entry of a dropdown: the stored value and the shown label (`label`, a reserved word in Dafny, is `text` here). */
  datatype SelectOption = SelectOption(value: string, text: string)

  function OptionValue(o: SelectOption): string
  {
    o.value
  }

  function LabelOrValueMatches(term: string): SelectOption -> bool
  {
    (o: SelectOption) => Matches(o.text, term) || Matches(o.value, term)
  }

  /** `filteredOptions`: the options whose label or value contains the
      search term, ignoring case, in their original order; an empty term
      keeps them all. */
  function FilterOptions(options: seq<SelectOption>, term: string): (r: seq<SelectOption>)
    ensures forall o :: o in r <==> o in options && (Matches(o.text, term) || Matches(o.value, term))
    ensures IsSubsequence(r, options)
    ensures term == "" ==> r == options
  {
    FilterIsSubsequence(options, LabelOrValueMatches(term));
    EmptyTermKeepsAll(options);
    Filter(options, LabelOrValueMatches(term))
  }

  lemma EmptyTermKeepsAll(options: seq<SelectOption>)
    ensures Filter(options, LabelOrValueMatches("")) == options
  {
    forall o | o in options ensures LabelOrValueMatches("")(o) {
      EmptyTermMatches(o.text);
    }
    FilterKeepsAll(options, LabelOrValueMatches(""));
  }

  /** The `isOpen` and `searchTerm` state of a dropdown. */
  datatype Dropdown = Dropdown(isOpen: bool, searchTerm: string)

  /** Both components start closed with an empty search. */
  const Closed: Dropdown := Dropdown(false, "")

  /** A click on the header flips the list open or shut and clears the
      search. */
  function ClickHeader(d: Dropdown): (r: Dropdown)
    ensures r.isOpen == !d.isOpen
    ensures r.searchTerm == ""
  {
    Dropdown(!d.isOpen, "")
  }

  /** Two header clicks leave the list as it was, with the search cleared. */
  lemma ClickHeaderTwice(d: Dropdown)
    ensures ClickHeader(ClickHeader(d)) == d.(searchTerm := "")
  {
  }

  /** Typing in the search box replaces the term and nothing else. */
  function TypeTerm(d: Dropdown, term: string): (r: Dropdown)
    ensures r.isOpen == d.isOpen && r.searchTerm == term
  {
    d.(searchTerm := term)
  }

  /** A mouse-down outside the component shuts the list and keeps the
      term. */
  function ClickOutside(d: Dropdown): (r: Dropdown)
    ensures !r.isOpen && r.searchTerm == d.searchTerm
  {
    d.(isOpen := false)
  }
}

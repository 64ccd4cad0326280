/** The single-value dropdown: a header showing the selected option's
    label, a searchable list, and a choice that reports the value through
    `onChange` and shuts the list. */
module SearchableSelect {
  import opened Common
  import opened SelectOptions

  /** `selectedOption`: the first option whose value is the current value,
      if any. */
  function SelectedOption(options: seq<SelectOption>, value: string): (r: Option<SelectOption>)
    ensures r.Some? <==> exists i :: 0 <= i < |options| && options[i].value == value
    ensures r.Some? ==> r.value.value == value
    ensures r.Some? ==> exists i :: 0 <= i < |options| && options[i] == r.value &&
                                    forall j :: 0 <= j < i ==> options[j].value != value
  {
    FindFirst(options, OptionValue, value)
  }

  /** The header text: the selected option's label, else the
      placeholder. */
  function HeaderText(options: seq<SelectOption>, value: string, placeholder: string): (t: string)
    ensures (exists i :: 0 <= i < |options| && options[i].value == value) ==>
      exists i :: 0 <= i < |options| && options[i].value == value && t == options[i].text
    ensures (forall i :: 0 <= i < |options| ==> options[i].value != value) ==> t == placeholder
    ensures forall i :: 0 <= i < |options| && FirstWithValueAt(options, value, i) ==> t == options[i].text
  {
    match SelectedOption(options, value)
    case Some(o) =>
      forall i | 0 <= i < |options| && FirstWithValueAt(options, value, i) ensures o.text == options[i].text {
        var i0 :| 0 <= i0 < |options| && options[i0] == o && FirstWithValueAt(options, value, i0);
        FirstIndexUnique(options, value, i, i0);
      }
      o.text
    case None => placeholder
  }

  /** Index `i` holds the first option whose value is `value`. */
  predicate FirstWithValueAt(options: seq<SelectOption>, value: string, i: int)
    requires 0 <= i < |options|
  {
    options[i].value == value && forall j :: 0 <= j < i ==> options[j].value != value
  }

  /** At most one index is the first with a given value. */
  lemma FirstIndexUnique(options: seq<SelectOption>, value: string, i: int, k: int)
    requires 0 <= i < |options| && 0 <= k < |options|
    requires FirstWithValueAt(options, value, i) && FirstWithValueAt(options, value, k)
    ensures i == k
  {
  }

  /** Clicking an option: the value handed to `onChange`, and the list
      shut. */
  function Choose(d: Dropdown, o: SelectOption): (r: (string, Dropdown))
    ensures r.0 == o.value
    ensures !r.1.isOpen && r.1.searchTerm == d.searchTerm
  {
    (o.value, ClickOutside(d))
  }

  /** After a choice the header shows the chosen label, unless an earlier
      option carries the same value. */
  lemma ChosenIsShown(options: seq<SelectOption>, d: Dropdown, k: nat, placeholder: string)
    requires k < |options|
    requires forall j :: 0 <= j < k ==> options[j].value != options[k].value
    ensures HeaderText(options, Choose(d, options[k]).0, placeholder) == options[k].text
  {
    var o := SelectedOption(options, options[k].value);
    var i :| 0 <= i < |options| && options[i] == o.value &&
             forall j :: 0 <= j < i ==> options[j].value != options[k].value;
    assert !(i < k);
    assert i == k;
  }
}

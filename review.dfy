/**
 * The review list of src/screens/Review.tsx: the saved mistake cards,
 * narrowed by an optional topic, an optional error type and a due-only
 * switch, with the number of cards shown in the header.
 */
module Review {
  import opened Wrappers
  import opened JsText
  import opened Seqs
  import opened MistakeData
  import Home

  /** The filter state; `None` is a cleared chip. */
  datatype Filters = Filters(topic: Option<string>, errorType: Option<string>, dueOnly: bool)

  const NoFilters: Filters := Filters(None, None, false)

  /** A chip filters only when its value is truthy: set and non-empty. */
  predicate Active(selected: Option<string>) {
    selected.Some? && selected.value != ""
  }

  /** The filter callback: each active filter in turn can reject the card. */
  predicate Passes(f: Filters, m: Mistake) {
    if Active(f.topic) && m.topic != f.topic.value then false
    else if Active(f.errorType) && m.errorType != f.errorType.value then false
    else if f.dueOnly && m.dueDate != DueToday then false
    else true
  }

  /** `filteredMistakes`. */
  function FilteredMistakes(mistakes: seq<Mistake>, f: Filters): (r: seq<Mistake>)
    ensures |r| <= |mistakes|
    ensures forall m :: m in r ==> m in mistakes
    ensures Active(f.topic) ==> forall m :: m in r ==> m.topic == f.topic.value
    ensures Active(f.errorType) ==> forall m :: m in r ==> m.errorType == f.errorType.value
    ensures f.dueOnly ==> forall m :: m in r ==> m.dueDate == DueToday
  {
    Filter(mistakes, m => Passes(f, m))
  }

  /** The result keeps the order of the cards. */
  lemma FilteredInOrder(mistakes: seq<Mistake>, f: Filters)
    ensures IsSubsequence(FilteredMistakes(mistakes, f), mistakes)
  {
    FilterIsSubsequence(mistakes, m => Passes(f, m));
  }

  /** A card left out fails at least one active filter. */
  lemma ExcludedFailsAFilter(mistakes: seq<Mistake>, f: Filters, m: Mistake)
    requires m in mistakes && m !in FilteredMistakes(mistakes, f)
    ensures || (Active(f.topic) && m.topic != f.topic.value)
            || (Active(f.errorType) && m.errorType != f.errorType.value)
            || (f.dueOnly && m.dueDate != DueToday)
  {
  }

  /** With every filter cleared the whole list is shown. */
  lemma ClearedShowsAll(mistakes: seq<Mistake>)
    ensures FilteredMistakes(mistakes, NoFilters) == mistakes
  {
    FilterKeepsAll(mistakes, m => Passes(NoFilters, m));
  }

  /** A chip selected with an empty value filters nothing. */
  lemma EmptySelectionIsCleared(mistakes: seq<Mistake>, f: Filters)
    ensures FilteredMistakes(mistakes, f.(topic := Some(""))) == FilteredMistakes(mistakes, f.(topic := None))
  {
    var withEmpty, cleared := f.(topic := Some("")), f.(topic := None);
    assert !Active(withEmpty.topic) && !Active(cleared.topic);
    FilterCongruent(mistakes, m => Passes(withEmpty, m), m => Passes(cleared, m));
  }

  /** The due-only switch alone shows the home screen's due list. */
  lemma DueOnlyIsHomeDueList(mistakes: seq<Mistake>)
    ensures FilteredMistakes(mistakes, Filters(None, None, true)) == Home.DueItems(mistakes)
  {
    FilterCongruent(mistakes, m => Passes(Filters(None, None, true), m), Home.IsDue);
  }

  /** The header: the number of cards the list shows. */
  function Header(mistakes: seq<Mistake>, f: Filters): (h: string)
    ensures h == NatToString(|FilteredMistakes(mistakes, f)|) + " mistake cards"
    ensures DigitsValue(h[..|h| - |" mistake cards"|]) == |FilteredMistakes(mistakes, f)|
  {
    var count := NatToString(|FilteredMistakes(mistakes, f)|);
    NatToStringRoundTrip(|FilteredMistakes(mistakes, f)|);
    assert (count + " mistake cards")[..|count|] == count;
    count + " mistake cards"
  }
}

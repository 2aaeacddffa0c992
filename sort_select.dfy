/** The `SortSelect` component: two drop-downs that each rebuild the sort
    specification with one field replaced (`{ ...value, by }` and
    `{ ...value, order }`). */
module SortSelect {

  /** `{ by, order }` as the views hold it (`by` is named `field` here). Both are
      plain strings: the client-side comparator accepts any value and falls back
      for unknown ones. */
  datatype SortSpec = SortSpec(field: string, order: string)

  /** The specification every list view starts with. */
  const DefaultSort := SortSpec("title", "asc")

  /** The values the "Sort By" drop-down offers, in display order. */
  const ByOptions: seq<string> := ["title", "rating", "releaseDate", "durationMinutes"]

  /** The values the "Order" drop-down offers, in display order. */
  const OrderOptions: seq<string> := ["asc", "desc"]

  /** A specification made only of offered values. */
  predicate Offered(spec: SortSpec) {
    spec.field in ByOptions && spec.order in OrderOptions
  }

  /** Choosing a "Sort By" value: `field` becomes the choice, `order` is kept. */
  function ChooseBy(spec: SortSpec, choice: string): (r: SortSpec)
    ensures r.field == choice
    ensures r.order == spec.order
  {
    spec.(field := choice)
  }

  /** Choosing an "Order" value: `order` becomes the choice, `field` is kept. */
  function ChooseOrder(spec: SortSpec, choice: string): (r: SortSpec)
    ensures r.order == choice
    ensures r.field == spec.field
  {
    spec.(order := choice)
  }

  /** The two drop-downs do not interfere: choosing a field and an order gives the
      same specification in either order. */
  lemma ChoicesCommute(spec: SortSpec, field: string, order: string)
    ensures ChooseOrder(ChooseBy(spec, field), order) == ChooseBy(ChooseOrder(spec, order), field)
    ensures ChooseOrder(ChooseBy(spec, field), order) == SortSpec(field, order)
  {
  }

  /** Starting from the default and choosing only offered values, a view's sort
      specification is always made of offered values. */
  lemma {:induction false} OfferedChoicesStayOffered(choices: seq<(bool, nat)>)
    requires forall i :: 0 <= i < |choices| ==>
      if choices[i].0 then choices[i].1 < |ByOptions| else choices[i].1 < |OrderOptions|
    ensures Offered(ApplyChoices(DefaultSort, choices))
  {
    if choices != [] {
      OfferedChoicesStayOffered(choices[..|choices| - 1]);
    }
  }

  /** The specification after a series of choices: `(true, i)` picks the i-th
      "Sort By" option, `(false, i)` the i-th "Order" option. */
  function ApplyChoices(spec: SortSpec, choices: seq<(bool, nat)>): SortSpec
    requires forall i :: 0 <= i < |choices| ==>
      if choices[i].0 then choices[i].1 < |ByOptions| else choices[i].1 < |OrderOptions|
  {
    if choices == [] then spec
    else
      var last := choices[|choices| - 1];
      var before := ApplyChoices(spec, choices[..|choices| - 1]);
      if last.0 then ChooseBy(before, ByOptions[last.1]) else ChooseOrder(before, OrderOptions[last.1])
  }
}

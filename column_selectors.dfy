// The public helpers that build name-based selectors.

module ColumnSelectors {
  import opened Strings
  import opened ColumnSpecification

  /** `name_contains(value)`: columns whose name contains `value`. */
  function NameContainsSelector(value: string): (r: Selector)
    ensures forall c: ColumnSpec, search: RegexSearch :: Matches(r, c, search) <==> Contains(c.name, value)
  {
    NameContains(value)
  }

  /** `name_starts_with(value)`: columns whose name starts with `value`. */
  function NameStartsWithSelector(value: string): (r: Selector)
    ensures forall c: ColumnSpec, search: RegexSearch :: Matches(r, c, search) <==> IsPrefix(value, c.name)
  {
    NameStartsWith(value)
  }

  /** `name_ends_with(value)`: columns whose name ends with `value`. */
  function NameEndsWithSelector(value: string): (r: Selector)
    ensures forall c: ColumnSpec, search: RegexSearch :: Matches(r, c, search) <==> IsSuffix(value, c.name)
  {
    NameEndsWith(value)
  }

  /** `name_matches(regex, flags=0)`: columns in whose name a regular-expression search succeeds. */
  function NameMatchesSelector(regex: string, flags: int := 0): (r: Selector)
    ensures forall c: ColumnSpec, search: RegexSearch :: Matches(r, c, search) <==> search(regex, flags, c.name)
  {
    NameRegex(regex, flags)
  }

  /** A name selector ignores the column's type and role. */
  lemma NameSelectorsIgnoreTypeAndRole(value: string, c: ColumnSpec, d: ColumnSpec, search: RegexSearch)
    requires c.name == d.name
    ensures Matches(NameContainsSelector(value), c, search) == Matches(NameContainsSelector(value), d, search)
    ensures Matches(NameStartsWithSelector(value), c, search) == Matches(NameStartsWithSelector(value), d, search)
    ensures Matches(NameEndsWithSelector(value), c, search) == Matches(NameEndsWithSelector(value), d, search)
    ensures Matches(NameMatchesSelector(value), c, search) == Matches(NameMatchesSelector(value), d, search)
  {
  }
}

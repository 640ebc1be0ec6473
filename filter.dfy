/** The feed sort order picked in the filter sheet. */
module Filter {

  datatype FilterType = Latest | Popularity

  /** The `rawValue` sent as the sort key: the case name, as Swift derives it for a
      string-backed enum. The first letter already tells the two orders apart. */
  function SortKey(f: FilterType): (k: string)
    ensures |k| >= 6
    ensures k[0] == (if f.Latest? then 'l' else 'p')
  {
    match f
    case Latest => "latest"
    case Popularity => "popularity"
  }

  /** Distinct orders are sent as distinct keys. */
  lemma SortKeyInjective(f: FilterType, g: FilterType)
    requires SortKey(f) == SortKey(g)
    ensures f == g
  {
    assert SortKey(f)[0] == SortKey(g)[0];
  }
}

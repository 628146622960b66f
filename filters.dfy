/** Filter maps as the filter bars keep them: an object from filter name to
    value, where a missing key reads as `undefined`. */
module Filters {
  import opened Common

  /** The kinds of value the filter bars store: text inputs and selects
      (`Str`), multi-selects (`List`), check boxes (`Flag`) and the
      performance-threshold object (`Range`). */
  datatype FilterValue =
    | Str(s: string)
    | List(items: seq<string>)
    | Flag(b: bool)
    | Range(min: real, max: real)

  type FilterMap = map<string, FilterValue>

  /** JavaScript truthiness of `filters?.[key]`: `undefined`, `''` and
      `false` are falsy; arrays and objects are always truthy. */
  predicate Truthy(m: FilterMap, key: string)
  {
    key in m &&
    match m[key]
    case Str(s) => s != ""
    case Flag(b) => b
    case List(_) => true
    case Range(_, _) => true
  }

  /** `filters?.[key] || fallback`. */
  function OrDefault(f: FilterMap, key: string, fallback: FilterValue): (r: FilterValue)
    ensures Truthy(f, key) ==> r == f[key]
    ensures !Truthy(f, key) ==> r == fallback
  {
    if Truthy(f, key) then f[key] else fallback
  }

  /** `filters?.[key]?.length > 0`: a non-empty list or a non-empty
      string; other values have no length. */
  predicate HasLength(m: FilterMap, key: string)
  {
    key in m &&
    match m[key]
    case List(items) => |items| > 0
    case Str(s) => |s| > 0
    case Flag(_) => false
    case Range(_, _) => false
  }

  /** `filters?.[key] !== literal` for a string literal. */
  predicate DiffersFrom(m: FilterMap, key: string, literal: string)
  {
    key !in m || m[key] != Str(literal)
  }

  /** The string stored under `key`, when there is one. */
  function StrAt(m: FilterMap, key: string): (r: Option<string>)
    ensures r.Some? <==> key in m && m[key].Str?
    ensures r.Some? ==> m[key] == Str(r.value)
  {
    if key in m && m[key].Str? then Some(m[key].s) else None
  }

  /** `{ ...m, [key]: value }`: the named key changes and no other. */
  function SetKey(m: FilterMap, key: string, value: FilterValue): (r: FilterMap)
    ensures r.Keys == m.Keys + {key}
    ensures r[key] == value
    ensures forall k :: k in m && k != key ==> r[k] == m[k]
  {
    m[key := value]
  }

  /** `{ ...defaults, ...given }`: every given key wins, every other
      default survives. */
  function Spread(defaults: FilterMap, given: FilterMap): (r: FilterMap)
    ensures r.Keys == defaults.Keys + given.Keys
    ensures forall k :: k in given ==> r[k] == given[k]
    ensures forall k :: k in defaults && k !in given ==> r[k] == defaults[k]
  {
    defaults + given
  }
}

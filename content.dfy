/**
 * How every section obtains its data: a bundled JSON document loaded with a fallback,
 * destructured with defaults, and shown through an empty state when nothing is left.
 */
module Content {
  import opened Wrappers
  import opened JsonValues

  /**
   * `let data = {}; try { data = require(file) } catch { data = fallback }`, with the
   * outcome of `require` given as `loaded` (`None` when it throws). No shape check is made here.
   */
  function Load(loaded: Option<Json>, fallback: Json): (doc: Json)
    ensures loaded.Some? ==> doc == loaded.value
    ensures loaded.None? ==> doc == fallback
  {
    match loaded
    case Some(d) => d
    case None => fallback
  }

  /**
   * `const { key = dflt } = doc || {}`: the default replaces the property only when
   * the property reads as undefined; a null value is kept.
   */
  function Destructure(doc: Json, key: string, dflt: Json): (r: Json)
    ensures !Truthy(doc) ==> r == dflt
    ensures r == dflt || (OwnProperty(doc, key) == Some(r) && !r.JUndefined?)
    ensures doc.JObj? && key in doc.fields && !doc.fields[key].JUndefined? ==> r == doc.fields[key]
  {
    var base := if Truthy(doc) then doc else JObj(map[]);
    var x := Get(base, key);
    if x.JUndefined? then dflt else x
  }

  /** `validateArray(x) ? x : []`, the element list a filter runs over. */
  function ItemsOf(x: Json): (items: seq<Json>)
    ensures x.JArr? ==> items == x.items
    ensures !x.JArr? ==> items == []
  {
    if x.JArr? then x.items else []
  }

  /** The shared placeholder view shown when a section has nothing to display. */
  datatype EmptyState = EmptyState(title: string, message: string)

  /** The icons of the lucide library that the sections pick by name. */
  datatype Icon = Heart | Building | Users | Diamond | Crown | Sparkles | XCircle | CheckCircle

  function IconName(i: Icon): string {
    match i
    case Heart => "Heart"
    case Building => "Building"
    case Users => "Users"
    case Diamond => "Diamond"
    case Crown => "Crown"
    case Sparkles => "Sparkles"
    case XCircle => "XCircle"
    case CheckCircle => "CheckCircle"
  }

  /** Placeholder image used by news and service cards when the item has no image. */
  const PlaceholderImage: string := "data:image/svg+xml;base64,PHN2ZyB3aWR0aD0iODAwIiBoZWlnaHQ9IjQ1MCIgeG1sbnM9Imh0dHA6Ly93d3cudzMub3JnLzIwMDAvc3ZnIj48cmVjdCB3aWR0aD0iMTAwJSIgaGVpZ2h0PSIxMDAlIiBmaWxsPSIjZjNmNGY2Ii8+PHRleHQgeD0iNTAlIiB5PSI1MCUiIGZvbnQtZmFtaWx5PSJBcmlhbCIgZm9udC1zaXplPSIxOCIgZmlsbD0iIzk5YTNhZiIgdGV4dC1hbmNob3I9Im1pZGRsZSIgZHk9Ii4zZW0iPkltYWdlIG5vbiBkaXNwb25pYmxlPC90ZXh0Pjwvc3ZnPg=="

  /**
   * `formatDate`, which the news and booking sections each define: "Date invalide" for an empty
   * or non-string input. The French locale rendering of a parsed date is given as `formatted`
   * (`None` when the date does not parse).
   */
  function FormatDate(d: Json, formatted: Option<string>): (r: string)
    ensures !Truthy(d) || !d.JStr? ==> r == "Date invalide"
    ensures formatted.None? ==> r == "Date invalide"
    ensures Truthy(d) && d.JStr? && formatted.Some? ==> r == formatted.value
  {
    if !Truthy(d) || !d.JStr? then "Date invalide"
    else match formatted
      case None => "Date invalide"
      case Some(text) => text
  }
}

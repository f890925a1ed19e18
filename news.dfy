/** The news section (`src/components/News.tsx`). */
module News {
  import opened Wrappers
  import opened JsonValues
  import opened Sequences
  import opened DataValidation
  import opened Content

  const NewsFallback: Json := JObj(map["news" := JArr([])])

  const NewsEmpty: EmptyState :=
    EmptyState("Actualités bientôt disponibles", "Nos dernières actualités et réalisations seront affichées ici prochainement.")

  /** The `news` value after loading and destructuring with default `[]`. */
  function NewsValue(loaded: Option<Json>): Json {
    Destructure(Load(loaded, NewsFallback), "news", JArr([]))
  }

  /** The inline test of the `filter`; `image` and `category` are not checked. */
  predicate NewsShape(v: Json) {
    && ValidateData(v)
    && Get(v, "id").JStr?
    && Get(v, "title").JStr?
    && Get(v, "date").JStr?
    && Get(v, "summary").JStr?
    && Get(v, "visible").JBool?
    && Get(v, "visible") == JBool(true)
  }

  /** `validNews`: the items kept, in their original order. */
  function ValidNews(loaded: Option<Json>): (r: seq<Json>)
    ensures IsSubseq(r, ItemsOf(NewsValue(loaded)))
    ensures forall i :: 0 <= i < |r| ==>
              StrField(r[i], "id") && StrField(r[i], "title") && StrField(r[i], "date")
              && StrField(r[i], "summary") && "visible" in r[i].fields && r[i].fields["visible"] == JBool(true)
    ensures forall x :: x in ItemsOf(NewsValue(loaded)) && NewsShape(x) ==> x in r
    ensures forall x :: multiset(r)[x] == if NewsShape(x) then multiset(ItemsOf(NewsValue(loaded)))[x] else 0
  {
    var items := ItemsOf(NewsValue(loaded));
    FilterIsSubseq(NewsShape, items);
    FilterCountsAll(NewsShape, items);
    forall x | NewsShape(x) ensures x.JObj? {
      if x.JArr? { ArrayHasNoNamedProperty(x.items, "id"); }
    }
    Filter(NewsShape, items)
  }

  /** A failed load, or no array under `news`, gives no item at all. */
  lemma NoNewsWithoutArray(loaded: Option<Json>)
    requires loaded.None? || (loaded.value.JObj? && "news" !in loaded.value.fields)
    ensures ValidNews(loaded) == []
  {
  }

  /** One news card, with the inline `||` defaults applied. */
  datatype NewsCard = NewsCard(image: Json, category: Json, date: string, title: Json, summary: Json)

  /**
   * One news card. `format` stands for the locale rendering of a date string by `new Date` and
   * `toLocaleDateString` (`None` when the date does not parse).
   */
  function Card(x: Json, format: string -> Option<string>): (c: NewsCard)
    requires NewsShape(x)
    ensures Truthy(c.image) && Truthy(c.category) && Truthy(c.title) && Truthy(c.summary)
    ensures Truthy(Get(x, "image")) ==> c.image == Get(x, "image")
    ensures !Truthy(Get(x, "image")) ==> c.image == JStr(PlaceholderImage)
    ensures Truthy(Get(x, "category")) ==> c.category == Get(x, "category")
    ensures !Truthy(Get(x, "category")) ==> c.category == JStr("Actualité")
    ensures Get(x, "title") != JStr("") ==> c.title == Get(x, "title")
    ensures Get(x, "title") == JStr("") ==> c.title == JStr("Titre non disponible")
    ensures Get(x, "summary") != JStr("") ==> c.summary == Get(x, "summary")
    ensures Get(x, "summary") == JStr("") ==> c.summary == JStr("Résumé non disponible.")
    ensures var d := Get(x, "date").s; d != "" && format(d).Some? ==> c.date == format(d).value
    ensures var d := Get(x, "date").s; d == "" || format(d).None? ==> c.date == "Date invalide"
  {
    var date := Get(x, "date");
    NewsCard(
      Or(Get(x, "image"), JStr(PlaceholderImage)),
      Or(Get(x, "category"), JStr("Actualité")),
      FormatDate(date, format(date.s)),
      Or(Get(x, "title"), JStr("Titre non disponible")),
      Or(Get(x, "summary"), JStr("Résumé non disponible.")))
  }

  /** `validNews.map(...)`: one card per item. */
  function CardsOf(xs: seq<Json>, format: string -> Option<string>): (cards: seq<NewsCard>)
    requires forall i :: 0 <= i < |xs| ==> NewsShape(xs[i])
    ensures |cards| == |xs| && forall i :: 0 <= i < |xs| ==> cards[i] == Card(xs[i], format)
  {
    seq(|xs|, i requires 0 <= i < |xs| => Card(xs[i], format))
  }

  datatype NewsView = Empty(state: EmptyState) | Cards(cards: seq<NewsCard>)

  /** The empty state exactly when no item is kept, else one card per kept item, in order. */
  function Render(loaded: Option<Json>, format: string -> Option<string>): (v: NewsView)
    ensures v.Empty? <==> ValidNews(loaded) == []
    ensures v.Empty? ==> v.state == NewsEmpty
    ensures v.Cards? ==> |v.cards| == |ValidNews(loaded)|
    ensures v.Cards? ==> forall i :: 0 <= i < |v.cards| ==> v.cards[i] == Card(ValidNews(loaded)[i], format)
  {
    var shown := ValidNews(loaded);
    if |shown| == 0 then Empty(NewsEmpty)
    else Cards(CardsOf(shown, format))
  }
}

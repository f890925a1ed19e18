/** The about section (`src/components/About.tsx`). */
module About {
  import opened Wrappers
  import opened JsonValues
  import opened Sequences
  import opened DataValidation
  import opened Content

  const DefaultTitle: string := "Notre Excellence"
  const DefaultDescription: string := "Informations bientôt disponibles."

  /** Document used when `content.json` cannot be loaded. */
  const ContentFallback: Json :=
    JObj(map["about" := JObj(map["title" := JStr(DefaultTitle), "description" := JStr(DefaultDescription),
                                 "values" := JArr([])])])

  const ValuesEmpty: EmptyState :=
    EmptyState("Valeurs en cours de mise à jour", "Nos valeurs et notre approche seront bientôt détaillées ici.")

  /** `const { about = {} } = contentData || {}`. */
  function AboutValue(loaded: Option<Json>): Json {
    Destructure(Load(loaded, ContentFallback), "about", JObj(map[]))
  }

  /** The heading: the destructuring default, then `title || 'Notre Excellence'`. */
  function Title(loaded: Option<Json>): (t: Json)
    ensures Truthy(t)
    ensures Truthy(Destructure(AboutValue(loaded), "title", JStr(DefaultTitle)))
            ==> t == Destructure(AboutValue(loaded), "title", JStr(DefaultTitle))
    ensures !Truthy(Destructure(AboutValue(loaded), "title", JStr(DefaultTitle))) ==> t == JStr(DefaultTitle)
  {
    Or(Destructure(AboutValue(loaded), "title", JStr(DefaultTitle)), JStr(DefaultTitle))
  }

  /** The paragraph: the destructuring default, then `description || 'Informations bientôt disponibles.'`. */
  function Description(loaded: Option<Json>): (d: Json)
    ensures Truthy(d)
    ensures Truthy(Destructure(AboutValue(loaded), "description", JStr(DefaultDescription)))
            ==> d == Destructure(AboutValue(loaded), "description", JStr(DefaultDescription))
    ensures !Truthy(Destructure(AboutValue(loaded), "description", JStr(DefaultDescription)))
            ==> d == JStr(DefaultDescription)
  {
    Or(Destructure(AboutValue(loaded), "description", JStr(DefaultDescription)), JStr(DefaultDescription))
  }

  /** The test applied to each value: an object with string `icon`, `title` and `description`. */
  predicate ValueShape(v: Json) {
    && ValidateData(v)
    && Get(v, "icon").JStr?
    && Get(v, "title").JStr?
    && Get(v, "description").JStr?
  }

  /** A non-empty title or description string in the loaded `about` object is shown as it is. */
  lemma LoadedTextShown(doc: Json, title: string, description: string)
    requires doc.JObj? && "about" in doc.fields && doc.fields["about"].JObj?
    requires var about := doc.fields["about"].fields;
             "title" in about && about["title"] == JStr(title)
             && "description" in about && about["description"] == JStr(description)
    requires title != "" && description != ""
    ensures Title(Some(doc)) == JStr(title)
    ensures Description(Some(doc)) == JStr(description)
  {
    assert AboutValue(Some(doc)) == doc.fields["about"];
  }

  /** `validValues`: the well-shaped values, in order; `[]` when `values` is no array. */
  function ValidValues(loaded: Option<Json>): (r: seq<Json>)
    ensures IsSubseq(r, ItemsOf(Destructure(AboutValue(loaded), "values", JArr([]))))
    ensures forall i :: 0 <= i < |r| ==> ValueShape(r[i])
    ensures forall x :: x in ItemsOf(Destructure(AboutValue(loaded), "values", JArr([]))) && ValueShape(x) ==> x in r
    ensures forall x :: multiset(r)[x]
                        == if ValueShape(x) then multiset(ItemsOf(Destructure(AboutValue(loaded), "values", JArr([]))))[x] else 0
  {
    var items := ItemsOf(Destructure(AboutValue(loaded), "values", JArr([])));
    FilterIsSubseq(ValueShape, items);
    FilterCountsAll(ValueShape, items);
    Filter(ValueShape, items)
  }

  /** A failed load shows the fallback heading and text and no value. */
  lemma LoadFailureDefaults()
    ensures Title(None) == JStr(DefaultTitle)
    ensures Description(None) == JStr(DefaultDescription)
    ensures ValidValues(None) == []
  {
    var about := AboutValue(None);
    assert about == ContentFallback.fields["about"];
    assert Destructure(about, "values", JArr([])) == JArr([]);
  }

  /** `iconMap[value.icon] || Sparkles`. */
  function ValueIcon(name: string): (i: Icon)
    ensures i in {Crown, Heart, Sparkles}
    ensures name in {"Crown", "Heart", "Sparkles"} ==> IconName(i) == name
    ensures name !in {"Crown", "Heart", "Sparkles"} ==> i == Sparkles
  {
    if name == "Crown" then Crown
    else if name == "Heart" then Heart
    else Sparkles
  }

  datatype ValueCard = ValueCard(icon: Icon, title: Json, description: Json)

  function Card(v: Json): (c: ValueCard)
    requires ValueShape(v)
    ensures c.icon == ValueIcon(Get(v, "icon").s)
    ensures Truthy(c.title) && Truthy(c.description)
    ensures Get(v, "title") != JStr("") ==> c.title == Get(v, "title")
    ensures Get(v, "description") != JStr("") ==> c.description == Get(v, "description")
    ensures Get(v, "title") == JStr("") ==> c.title == JStr("Valeur")
    ensures Get(v, "description") == JStr("") ==> c.description == JStr("Description non disponible.")
  {
    ValueCard(
      ValueIcon(Get(v, "icon").s),
      Or(Get(v, "title"), JStr("Valeur")),
      Or(Get(v, "description"), JStr("Description non disponible.")))
  }

  /** `validValues.map(...)`: one card per value. */
  function CardsOf(xs: seq<Json>): (cards: seq<ValueCard>)
    requires forall i :: 0 <= i < |xs| ==> ValueShape(xs[i])
    ensures |cards| == |xs| && forall i :: 0 <= i < |xs| ==> cards[i] == Card(xs[i])
  {
    seq(|xs|, i requires 0 <= i < |xs| => Card(xs[i]))
  }

  datatype ValuesView = Empty(state: EmptyState) | Cards(cards: seq<ValueCard>)

  /** The empty state exactly when no value is valid, else one card per valid value, in order. */
  function RenderValues(loaded: Option<Json>): (v: ValuesView)
    ensures v.Empty? <==> ValidValues(loaded) == []
    ensures v.Empty? ==> v.state == ValuesEmpty
    ensures v.Cards? ==> |v.cards| == |ValidValues(loaded)|
    ensures v.Cards? ==> forall i :: 0 <= i < |v.cards| ==> v.cards[i] == Card(ValidValues(loaded)[i])
  {
    var shown := ValidValues(loaded);
    if |shown| == 0 then Empty(ValuesEmpty)
    else Cards(CardsOf(shown))
  }
}

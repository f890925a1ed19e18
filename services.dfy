/** The services section (`src/components/Services.tsx`). */
module Services {
  import opened Wrappers
  import opened JsonValues
  import opened Sequences
  import opened DataValidation
  import opened Content

  /** Document used when `services.json` cannot be loaded. */
  const ServicesFallback: Json := JObj(map["services" := JArr([])])

  const NoServicesMessage: string :=
    "Aucun service disponible actuellement. Veuillez nous contacter directement pour découvrir notre offre complète."

  /** The `services` value after loading and destructuring with default `[]`. */
  function ServicesValue(loaded: Option<Json>): Json {
    Destructure(Load(loaded, ServicesFallback), "services", JArr([]))
  }

  /** The inline test of the `filter`: a truthy value with five string fields and an array of features. */
  predicate ServiceShape(v: Json) {
    && Truthy(v)
    && Get(v, "id").JStr?
    && Get(v, "title").JStr?
    && Get(v, "description").JStr?
    && Get(v, "icon").JStr?
    && Get(v, "image").JStr?
    && Get(v, "features").JArr?
  }

  /** On every value, the inline test and the shared `validateService` accept the same elements. */
  lemma ServiceShapeIsValidateService(v: Json)
    ensures ServiceShape(v) <==> ValidateService(v)
  {
    if v.JArr? {
      ArrayHasNoNamedProperty(v.items, "id");
    }
  }

  /** `validServices`: the well-shaped services, in their original order; `[]` when `services` is no array. */
  function ValidServices(loaded: Option<Json>): (r: seq<Json>)
    ensures !ServicesValue(loaded).JArr? ==> r == []
    ensures ServicesValue(loaded).JArr? ==> IsSubseq(r, ServicesValue(loaded).items)
    ensures forall i :: 0 <= i < |r| ==> ServiceShape(r[i]) && ValidateService(r[i])
    ensures forall x :: x in ItemsOf(ServicesValue(loaded)) && ValidateService(x) ==> x in r
    ensures forall x :: multiset(r)[x] == if ValidateService(x) then multiset(ItemsOf(ServicesValue(loaded)))[x] else 0
  {
    var items := ItemsOf(ServicesValue(loaded));
    FilterIsSubseq(ServiceShape, items);
    FilterCountsAll(ServiceShape, items);
    forall x ensures ServiceShape(x) <==> ValidateService(x) {
      ServiceShapeIsValidateService(x);
    }
    Filter(ServiceShape, items)
  }

  /** A failed load, or a document without an array under `services`, leaves no service to show. */
  lemma NoServicesWithoutArray(loaded: Option<Json>)
    requires loaded.None? || (loaded.value.JObj? && "services" !in loaded.value.fields)
    ensures ValidServices(loaded) == []
  {
  }

  /** `iconMap[service.icon] || Building`. */
  function ServiceIcon(name: string): (i: Icon)
    ensures i in {Heart, Building, Users, Diamond}
    ensures name in {"Heart", "Building", "Users", "Diamond"} ==> IconName(i) == name
    ensures name !in {"Heart", "Building", "Users", "Diamond"} ==> i == Building
  {
    if name == "Heart" then Heart
    else if name == "Building" then Building
    else if name == "Users" then Users
    else if name == "Diamond" then Diamond
    else Building
  }

  /** One rendered service card, with the inline `||` defaults applied. */
  datatype ServiceCard = ServiceCard(
    icon: Icon, title: Json, description: Json, image: Json, features: seq<Json>, showFeatures: bool)

  function Card(s: Json): (c: ServiceCard)
    requires ServiceShape(s)
    ensures c.icon == ServiceIcon(Get(s, "icon").s)
    ensures Truthy(c.title) && Truthy(c.description) && Truthy(c.image)
    ensures Get(s, "title") != JStr("") ==> c.title == Get(s, "title")
    ensures Get(s, "title") == JStr("") ==> c.title == JStr("Service")
    ensures Get(s, "description") != JStr("") ==> c.description == Get(s, "description")
    ensures Get(s, "description") == JStr("") ==> c.description == JStr("Description du service non disponible.")
    ensures Get(s, "image") != JStr("") ==> c.image == Get(s, "image")
    ensures Get(s, "image") == JStr("") ==> c.image == JStr(PlaceholderImage)
    ensures c.features == Get(s, "features").items
    ensures c.showFeatures <==> c.features != []
  {
    var features := Get(s, "features");
    var shown := if features.JArr? then features.items else [];
    ServiceCard(
      ServiceIcon(Get(s, "icon").s),
      Or(Get(s, "title"), JStr("Service")),
      Or(Get(s, "description"), JStr("Description du service non disponible.")),
      Or(Get(s, "image"), JStr(PlaceholderImage)),
      shown,
      |shown| > 0)
  }

  /** `validServices.map(...)`: one card per service. */
  function CardsOf(xs: seq<Json>): (cards: seq<ServiceCard>)
    requires forall i :: 0 <= i < |xs| ==> ServiceShape(xs[i])
    ensures |cards| == |xs| && forall i :: 0 <= i < |xs| ==> cards[i] == Card(xs[i])
  {
    seq(|xs|, i requires 0 <= i < |xs| => Card(xs[i]))
  }

  /** What the section renders: the fallback text alone, or one card per valid service. */
  datatype ServicesView = NoServices(message: string) | ServiceCards(cards: seq<ServiceCard>)

  function Render(loaded: Option<Json>): (v: ServicesView)
    ensures v.NoServices? <==> ValidServices(loaded) == []
    ensures v.NoServices? ==> v.message == NoServicesMessage
    ensures v.ServiceCards? ==> |v.cards| == |ValidServices(loaded)|
    ensures v.ServiceCards? ==> forall i :: 0 <= i < |v.cards| ==> v.cards[i] == Card(ValidServices(loaded)[i])
  {
    var valid := ValidServices(loaded);
    if |valid| == 0 then NoServices(NoServicesMessage)
    else ServiceCards(CardsOf(valid))
  }

  /** The malformed services of the repository's test fixtures. */
  const InvalidServices: seq<Json> := [
    JNull, JUndefined, JObj(map[]), JObj(map["id" := JStr("incomplete")]), JObj(map["title" := JStr("No ID")]),
    JStr("string instead of object"),
    JObj(map["id" := JStr("invalid-features"), "title" := JStr("Test"), "description" := JStr("Test"),
             "icon" := JStr("Heart"), "image" := JStr("test.jpg"), "features" := JStr("not an array")])]

  /** Every one of the seven malformed services is rejected, so the section shows its fallback text. */
  lemma InvalidFixtureShowsNoService()
    ensures Render(Some(JObj(map["services" := JArr(InvalidServices)]))) == NoServices(NoServicesMessage)
  {
    var loaded := Some(JObj(map["services" := JArr(InvalidServices)]));
    assert ServicesValue(loaded) == JArr(InvalidServices);
    forall i | 0 <= i < |InvalidServices| ensures !ServiceShape(InvalidServices[i]) {
      if i == 5 {
        assert ArrayIndex("id").None? by { assert !IsDigit("id"[0]); }
      }
    }
  }
}

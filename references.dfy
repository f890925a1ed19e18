/** The references section (`src/components/References.tsx`). */
module References {
  import opened Wrappers
  import opened JsonValues
  import opened Sequences
  import opened DataValidation
  import opened Content

  const ReferencesFallback: Json := JObj(map["references" := JArr([])])

  const ReferencesEmpty: EmptyState :=
    EmptyState("Références bientôt disponibles", "Nos références et partenariats seront affichés ici prochainement.")

  /** The `references` value after loading and destructuring with default `[]`. */
  function ReferencesValue(loaded: Option<Json>): Json {
    Destructure(Load(loaded, ReferencesFallback), "references", JArr([]))
  }

  /** `validReferences`: the elements that pass `validateReference`, in order. */
  function ValidReferences(loaded: Option<Json>): (r: seq<Json>)
    ensures IsSubseq(r, ItemsOf(ReferencesValue(loaded)))
    ensures forall i :: 0 <= i < |r| ==> ValidateReference(r[i])
    ensures forall x :: x in ItemsOf(ReferencesValue(loaded)) && ValidateReference(x) ==> x in r
    ensures forall x :: multiset(r)[x] == if ValidateReference(x) then multiset(ItemsOf(ReferencesValue(loaded)))[x] else 0
  {
    FilterIsSubseq(ValidateReference, ItemsOf(ReferencesValue(loaded)));
    FilterCountsAll(ValidateReference, ItemsOf(ReferencesValue(loaded)));
    Filter(ValidateReference, ItemsOf(ReferencesValue(loaded)))
  }

  /** The test `ref => ref.visible`, reached only by elements that passed shape validation. */
  predicate VisibleFlag(v: Json) {
    !Nullish(v) && Truthy(Get(v, "visible"))
  }

  /** A shape-valid reference whose `visible` is `true`. */
  predicate Displayable(v: Json) {
    ValidateReference(v) && Get(v, "visible") == JBool(true)
  }

  /** `visibleReferences`: the valid references whose `visible` flag is set. */
  function VisibleReferences(loaded: Option<Json>): (r: seq<Json>)
    ensures IsSubseq(r, ValidReferences(loaded))
    ensures r == Filter(Displayable, ItemsOf(ReferencesValue(loaded)))
  {
    var valid := ValidReferences(loaded);
    FilterIsSubseq(VisibleFlag, valid);
    FilterFuse(ValidateReference, VisibleFlag, Displayable, ItemsOf(ReferencesValue(loaded)));
    Filter(VisibleFlag, valid)
  }

  /** A failed load, or no array under `references`, gives no reference at all. */
  lemma NoReferencesWithoutArray(loaded: Option<Json>)
    requires loaded.None? || (loaded.value.JObj? && "references" !in loaded.value.fields)
    ensures ValidReferences(loaded) == [] && VisibleReferences(loaded) == []
  {
  }

  /** A well-formed reference with `visible: false` is never displayed. */
  lemma HiddenReferenceNotDisplayed(loaded: Option<Json>, x: Json)
    requires ValidateReference(x) && Get(x, "visible") == JBool(false)
    ensures x !in VisibleReferences(loaded)
  {
  }

  /** One reference card, with each empty field replaced by its placeholder text. */
  datatype ReferenceCard = ReferenceCard(name: Json, kind: Json, event: Json, year: Json)

  function Card(x: Json): (c: ReferenceCard)
    requires ValidateReference(x)
    ensures Truthy(c.name) && Truthy(c.kind) && Truthy(c.event) && Truthy(c.year)
    ensures Get(x, "name") == JStr("") ==> c.name == JStr("Référence")
    ensures Get(x, "type") == JStr("") ==> c.kind == JStr("Type non spécifié")
    ensures Get(x, "event") == JStr("") ==> c.event == JStr("Événement non spécifié")
    ensures Get(x, "year") == JStr("") ==> c.year == JStr("Année non spécifiée")
    ensures Get(x, "name") != JStr("") ==> c.name == Get(x, "name")
    ensures Get(x, "type") != JStr("") ==> c.kind == Get(x, "type")
    ensures Get(x, "event") != JStr("") ==> c.event == Get(x, "event")
    ensures Get(x, "year") != JStr("") ==> c.year == Get(x, "year")
  {
    ReferenceCard(
      Or(Get(x, "name"), JStr("Référence")),
      Or(Get(x, "type"), JStr("Type non spécifié")),
      Or(Get(x, "event"), JStr("Événement non spécifié")),
      Or(Get(x, "year"), JStr("Année non spécifiée")))
  }

  /** `map(Card)` over references that passed validation. */
  function CardsOf(xs: seq<Json>): (cards: seq<ReferenceCard>)
    requires forall i :: 0 <= i < |xs| ==> ValidateReference(xs[i])
    ensures |cards| == |xs| && forall i :: 0 <= i < |xs| ==> cards[i] == Card(xs[i])
  {
    seq(|xs|, i requires 0 <= i < |xs| => Card(xs[i]))
  }

  datatype ReferencesView = Empty(state: EmptyState) | Cards(cards: seq<ReferenceCard>)

  /** The empty state exactly when no reference is visible, else one card per visible reference, in order. */
  function Render(loaded: Option<Json>): (v: ReferencesView)
    ensures v.Empty? <==> VisibleReferences(loaded) == []
    ensures v.Empty? ==> v.state == ReferencesEmpty
    ensures v.Cards? ==> |v.cards| == |VisibleReferences(loaded)|
    ensures v.Cards? ==> forall i :: 0 <= i < |v.cards| ==> v.cards[i] == Card(VisibleReferences(loaded)[i])
  {
    var shown := VisibleReferences(loaded);
    if |shown| == 0 then Empty(ReferencesEmpty)
    else Cards(CardsOf(shown))
  }
}

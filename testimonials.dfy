/** The testimonials carousel (`src/components/Testimonials.tsx`). */
module Testimonials {
  import opened Wrappers
  import opened JsonValues
  import opened Sequences
  import opened DataValidation
  import opened Content

  const TestimonialsFallback: Json := JObj(map["testimonials" := JArr([])])

  const TestimonialsEmpty: EmptyState :=
    EmptyState("Témoignages bientôt disponibles", "Les témoignages de nos clients seront affichés ici prochainement.")

  /** The `testimonials` value after loading and destructuring with default `[]`. */
  function TestimonialsValue(loaded: Option<Json>): Json {
    Destructure(Load(loaded, TestimonialsFallback), "testimonials", JArr([]))
  }

  /** The first filter: a well-formed testimonial whose `visible` is exactly `true`. */
  predicate Shown(v: Json) {
    ValidateTestimonial(v) && Get(v, "visible") == JBool(true)
  }

  /** `validTestimonials`: the elements kept by the first filter, in order; nothing when the value is no array. */
  function ValidTestimonials(loaded: Option<Json>): (r: seq<Json>)
    ensures IsSubseq(r, ItemsOf(TestimonialsValue(loaded)))
    ensures forall i :: 0 <= i < |r| ==> Shown(r[i])
    ensures forall x :: x in ItemsOf(TestimonialsValue(loaded)) && Shown(x) ==> x in r
    ensures !TestimonialsValue(loaded).JArr? ==> r == []
    ensures forall x :: multiset(r)[x] == if Shown(x) then multiset(ItemsOf(TestimonialsValue(loaded)))[x] else 0
  {
    var testimonials := TestimonialsValue(loaded);
    FilterIsSubseq(Shown, ItemsOf(testimonials));
    FilterCountsAll(Shown, ItemsOf(testimonials));
    if ValidateArray(testimonials) then Filter(Shown, testimonials.items) else []
  }

  /** The second filter `t => t.visible`. */
  predicate VisibleFlag(v: Json) {
    !Nullish(v) && Truthy(Get(v, "visible"))
  }

  /** `visibleTestimonials`: the second filter keeps every element the first one kept. */
  function VisibleTestimonials(loaded: Option<Json>): (r: seq<Json>)
    ensures r == ValidTestimonials(loaded)
  {
    var valid := ValidTestimonials(loaded);
    FilterKeepsAll(VisibleFlag, valid);
    Filter(VisibleFlag, valid)
  }

  /** A failed load, or no array under `testimonials`, leaves nothing to show. */
  lemma NoTestimonialsWithoutArray(loaded: Option<Json>)
    requires loaded.None? || (loaded.value.JObj? && "testimonials" !in loaded.value.fields)
    ensures VisibleTestimonials(loaded) == []
  {
  }

  /** A testimonial whose `visible` is anything but `true` is never shown, however well-formed. */
  lemma HiddenTestimonialNotShown(loaded: Option<Json>, x: Json)
    requires !Nullish(x) && Get(x, "visible") != JBool(true)
    ensures x !in VisibleTestimonials(loaded)
  {
  }

  // ---------------------------------------------------------------------------
  // Stars
  // ---------------------------------------------------------------------------

  /** `safeRating`: the floor of a number in [0, 5], and 5 for anything else. */
  function SafeRating(rating: Json): (k: int)
    ensures 0 <= k <= 5
    ensures rating.JNum? && 0.0 <= rating.n <= 5.0 ==> k as real <= rating.n < k as real + 1.0
    ensures !(rating.JNum? && 0.0 <= rating.n <= 5.0) ==> k == 5
  {
    if rating.JNum? && 0.0 <= rating.n <= 5.0 then rating.n.Floor else 5
  }

  /** `renderStars`: five stars, the first `safeRating` of them filled. */
  function RenderStars(rating: Json): (stars: seq<bool>)
    ensures |stars| == 5
    ensures forall i :: 0 <= i < 5 ==> (stars[i] <==> i < SafeRating(rating))
  {
    var k := SafeRating(rating);
    seq(5, i => i < k)
  }

  /** A higher rating in [0, 5] never fills fewer stars. */
  lemma RenderStarsMonotone(a: real, b: real)
    requires 0.0 <= a <= b <= 5.0
    ensures forall i :: 0 <= i < 5 && RenderStars(JNum(a))[i] ==> RenderStars(JNum(b))[i]
  {
    assert SafeRating(JNum(a)) <= SafeRating(JNum(b));
  }

  /** The stars of the active testimonial as written: `renderStars(rating || 5)`. */
  function AsWrittenStars(t: Json): seq<bool>
    requires ValidateTestimonial(t)
  {
    RenderStars(Or(Get(t, "rating"), JNum(5.0)))
  }

  /** As written, a rating of 0 is falsy and shows five filled stars, while a rating of 0.5 shows none. */
  lemma AsWrittenZeroRatingShowsFiveStars(zero: Json, half: Json)
    requires ValidateTestimonial(zero) && Get(zero, "rating") == JNum(0.0)
    requires ValidateTestimonial(half) && Get(half, "rating") == JNum(0.5)
    ensures forall i :: 0 <= i < 5 ==> AsWrittenStars(zero)[i]
    ensures forall i :: 0 <= i < 5 ==> !AsWrittenStars(half)[i]
  {
    assert SafeRating(JNum(0.5)) == 0;
  }

  /** The stars as evidently intended, `renderStars(rating ?? 5)`: only a missing rating defaults to 5. */
  function Stars(t: Json): (stars: seq<bool>)
    requires ValidateTestimonial(t)
    ensures stars == RenderStars(Get(t, "rating"))
  {
    var rating := Get(t, "rating");
    RenderStars(if Nullish(rating) then JNum(5.0) else rating)
  }

  /** With the corrected call, a lower rating never shows more stars than a higher one. */
  lemma StarsFollowRating(t0: Json, t1: Json)
    requires ValidateTestimonial(t0) && ValidateTestimonial(t1)
    requires 0.0 <= Get(t0, "rating").n <= Get(t1, "rating").n <= 5.0
    ensures forall i :: 0 <= i < 5 && Stars(t0)[i] ==> Stars(t1)[i]
  {
    RenderStarsMonotone(Get(t0, "rating").n, Get(t1, "rating").n);
  }

  // ---------------------------------------------------------------------------
  // Recommendations
  // ---------------------------------------------------------------------------

  /** `handleRecommend`: the id leaves the set if it was there, and joins it otherwise. */
  function Toggle(liked: set<string>, id: string): (r: set<string>)
    ensures id in r <==> id !in liked
    ensures forall x :: x != id ==> (x in r <==> x in liked)
  {
    if id in liked then liked - {id} else liked + {id}
  }

  /** Recommending the same testimonial twice restores the set. */
  lemma ToggleTwice(liked: set<string>, id: string)
    ensures Toggle(Toggle(liked, id), id) == liked
  {
  }

  // ---------------------------------------------------------------------------
  // Rotation
  // ---------------------------------------------------------------------------

  /** The interval's update `(prev + 1) % visibleTestimonials.length`. */
  function Next(i: nat, n: nat): (j: nat)
    requires n > 0
    ensures j < n
    ensures i + 1 < n ==> j == i + 1
    ensures i + 1 == n ==> j == 0
  {
    (i + 1) % n
  }

  /** The index after `k` ticks of the interval, starting at `i`. */
  function Advance(i: nat, n: nat, k: nat): (j: nat)
    requires n > 0
    ensures j < n || (k == 0 && j == i)
  {
    if k == 0 then i else Next(Advance(i, n, k - 1), n)
  }

  /** From the first testimonial, `k` ticks lead to testimonial `k` while `k < n`: every one comes round in turn. */
  lemma {:induction false} AdvanceFromFirst(n: nat, k: nat)
    requires 0 <= k < n
    ensures Advance(0, n, k) == k
  {
    if k > 0 {
      AdvanceFromFirst(n, k - 1);
    }
  }

  /** After `n` ticks the carousel is back at the first testimonial. */
  lemma FullTurn(n: nat)
    requires n > 0
    ensures Advance(0, n, n) == 0
  {
    AdvanceFromFirst(n, n - 1);
    assert Advance(0, n, n) == Next(n - 1, n);
    assert n % n == 0;
  }

  /** What the active slide displays, with the placeholders for empty fields. */
  datatype TestimonialCard = TestimonialCard(stars: seq<bool>, comment: Json, name: Json, event: Json, recommended: bool)

  /** The carousel's state: the testimonials loaded once, the active index and the recommended ids. */
  class Carousel {
    const shown: seq<Json>
    var active: nat
    var liked: set<string>

    /** Every slide is a shown testimonial, and the active index points at one when there is any. */
    ghost predicate Valid()
      reads this
    {
      && (forall i :: 0 <= i < |shown| ==> Shown(shown[i]))
      && (active == 0 || active < |shown|)
    }

    constructor (loaded: Option<Json>)
      ensures shown == VisibleTestimonials(loaded)
      ensures active == 0 && liked == {}
      ensures Valid()
    {
      shown := VisibleTestimonials(loaded);
      active := 0;
      liked := {};
    }

    /** One 5-second tick; the interval runs only when there are at least two slides. */
    method Tick()
      requires Valid() && |shown| > 1
      modifies this`active
      ensures active == Next(old(active), |shown|)
      ensures Valid()
    {
      active := (active + 1) % |shown|;
    }

    /** A pagination dot; the dots are drawn only when there are at least two slides. */
    method SelectDot(index: nat)
      requires Valid() && |shown| > 1 && index < |shown|
      modifies this`active
      ensures active == index
      ensures Valid()
    {
      active := index;
    }

    /** The id of the active testimonial. */
    function CurrentId(): (id: string)
      reads this
      requires Valid() && |shown| > 0
      ensures JStr(id) == Get(shown[active], "id")
    {
      Get(shown[active], "id").s
    }

    /** The "Je recommande" button of the active slide. */
    method Recommend()
      requires Valid() && |shown| > 0
      modifies this`liked
      ensures liked == Toggle(old(liked), CurrentId())
      ensures Valid()
    {
      var id := Get(shown[active], "id").s;
      if id in liked {
        liked := liked - {id};
      } else {
        liked := liked + {id};
      }
    }

    /** The active slide; an empty comment, name or event shows its placeholder. */
    function CurrentCard(): (c: TestimonialCard)
      reads this
      requires Valid() && |shown| > 0
      ensures c.stars == Stars(shown[active])
      ensures Get(shown[active], "rating") != JNum(0.0) ==> c.stars == AsWrittenStars(shown[active])
      ensures Truthy(c.comment) && Truthy(c.name) && Truthy(c.event)
      ensures Get(shown[active], "comment") == JStr("") ==> c.comment == JStr("Témoignage non disponible.")
      ensures Get(shown[active], "name") == JStr("") ==> c.name == JStr("Client")
      ensures Get(shown[active], "event") == JStr("") ==> c.event == JStr("Événement")
      ensures Get(shown[active], "comment") != JStr("") ==> c.comment == Get(shown[active], "comment")
      ensures Get(shown[active], "name") != JStr("") ==> c.name == Get(shown[active], "name")
      ensures Get(shown[active], "event") != JStr("") ==> c.event == Get(shown[active], "event")
      ensures c.recommended <==> CurrentId() in liked
    {
      var t := shown[active];
      TestimonialCard(
        Stars(t),
        Or(Get(t, "comment"), JStr("Témoignage non disponible.")),
        Or(Get(t, "name"), JStr("Client")),
        Or(Get(t, "event"), JStr("Événement")),
        CurrentId() in liked)
    }
  }

  datatype TestimonialsView = NoTestimonials(state: EmptyState) | Slides(count: nat, dots: bool)

  /** The empty state exactly when nothing is shown; the dots exactly when there are two slides or more. */
  function Render(loaded: Option<Json>): (v: TestimonialsView)
    ensures v.NoTestimonials? <==> VisibleTestimonials(loaded) == []
    ensures v.NoTestimonials? ==> v.state == TestimonialsEmpty
    ensures v.Slides? ==> v.count == |VisibleTestimonials(loaded)| && (v.dots <==> v.count > 1)
  {
    var shown := VisibleTestimonials(loaded);
    if |shown| > 0 then Slides(|shown|, |shown| > 1) else NoTestimonials(TestimonialsEmpty)
  }
}

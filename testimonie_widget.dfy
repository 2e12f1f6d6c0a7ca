/**
 * `TestimonialWidget`, the element the widget endpoint renders on the
 * server: an empty-state message, or one card per testimonial in the order
 * given. Its cards use fixed border and background colours and take only the
 * text colour from the configuration.
 */
module TestimonieWidget {
  import opened Wrappers
  import opened Records
  import opened WidgetCard

  const EMPTY_MESSAGE: string := "No testimonies yet."
  const BORDER_COLOR: string := "#007bff"
  const BACKGROUND: string := "#f9f9f9"

  datatype Item = Item(key: Id, card: Card)

  datatype Rendered = EmptyState(message: string) | Container(items: seq<Item>)

  /** The card of one testimonial, keyed by its id. */
  function ItemOf(t: Testimonial, config: WidgetConfig): (i: Item)
    ensures i.key == t.id
    ensures i.card.borderColor == BORDER_COLOR && i.card.background == BACKGROUND
    ensures i.card.textColor == config.textColor
    ensures i.card.quote == Quote(t.text) && i.card.footer == Footer(t)
  {
    Item(t.id, Card(BORDER_COLOR, BACKGROUND, config.textColor, Quote(t.text), Footer(t)))
  }

  /** `testimonies.map(...)`. */
  function Items(ts: seq<Testimonial>, config: WidgetConfig): (items: seq<Item>)
    ensures |items| == |ts|
    ensures forall i :: 0 <= i < |ts| ==> items[i] == ItemOf(ts[i], config)
  {
    if ts == [] then [] else [ItemOf(ts[0], config)] + Items(ts[1..], config)
  }

  /** A null or empty list gives the empty-state message; any other list, its cards in order. */
  function Render(testimonies: Option<seq<Testimonial>>, config: WidgetConfig): (r: Rendered)
    ensures r.EmptyState? <==> testimonies.None? || testimonies.value == []
    ensures r.EmptyState? ==> r.message == EMPTY_MESSAGE
    ensures r.Container? ==> r.items != [] && r.items == Items(testimonies.value, config)
  {
    if testimonies.None? || |testimonies.value| == 0 then EmptyState(EMPTY_MESSAGE)
    else Container(Items(testimonies.value, config))
  }

  /** Rendering is a map: the cards of a concatenation are the cards of its parts, in order. */
  lemma {:induction false} ItemsAppend(a: seq<Testimonial>, b: seq<Testimonial>, config: WidgetConfig)
    ensures Items(a + b, config) == Items(a, config) + Items(b, config)
  {
    if a != [] {
      assert (a + b)[1..] == a[1..] + b;
      ItemsAppend(a[1..], b, config);
    }
  }

  /** The keys of the rendered cards are the testimonials' ids, in input order. */
  lemma KeysInOrder(ts: seq<Testimonial>, config: WidgetConfig)
    ensures forall i :: 0 <= i < |ts| ==> Items(ts, config)[i].key == ts[i].id
  {
  }
}

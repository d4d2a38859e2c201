/** Per-entry decoration of the country chooser: the status badge and whether the item can be picked. */
module Badges {
  import opened Options
  import opened Catalog
  import opened Selection

  /** The badge's visual class: destructive for a blocked entry, secondary otherwise. */
  datatype Variant = Destructive | Secondary

  datatype Badge = Badge(variant: Variant, text: string)

  /** The badge shown beside an entry, or none for an active one. An absent
      date renders as nothing, so an upcoming entry without one reads "С ". */
  function StatusBadge(c: Country): (r: Option<Badge>)
    ensures r.None? <==> c.status == Active
    ensures r.Some? && r.value.variant == Destructive <==> c.status == Blocked
    ensures c.status == Blocked ==> r == Some(Badge(Destructive, "Заблокирована"))
    ensures c.status == Upcoming ==> r == Some(Badge(Secondary, "С " + c.availableFrom.GetOr("")))
    ensures c.status == Unavailable ==> r == Some(Badge(Secondary, "Недоступно"))
  {
    if c.status == Blocked then Some(Badge(Destructive, "Заблокирована"))
    else if c.status == Upcoming then Some(Badge(Secondary, "С " + c.availableFrom.GetOr("")))
    else if c.status == Unavailable then Some(Badge(Secondary, "Недоступно"))
    else assert c.status == Active; None
  }

  /** Only active entries can be picked in the country chooser. */
  predicate Selectable(c: Country): (b: bool)
    ensures b <==> StatusBadge(c).None?
  {
    c.status == Active
  }

  /** One item of the country chooser. */
  datatype Item = Item(value: string, name: string, disabled: bool, badge: Option<Badge>)

  function ItemOf(c: Country): Item {
    Item(c.id, c.name, !Selectable(c), StatusBadge(c))
  }

  /** The items of the country chooser in state `s` over catalog `cs`, one per offered entry, in order. */
  function Items(cs: seq<Country>, s: State): (items: seq<Item>)
    ensures |items| == |Filtered(cs, s)|
    ensures forall i :: 0 <= i < |items| ==> items[i].value == Filtered(cs, s)[i].id
    ensures forall i :: 0 <= i < |items| ==> items[i].name == Filtered(cs, s)[i].name
    ensures forall i :: 0 <= i < |items| ==> items[i].badge == StatusBadge(Filtered(cs, s)[i])
    ensures forall i :: 0 <= i < |items| ==> (items[i].disabled <==> Filtered(cs, s)[i].status != Active)
    ensures forall i :: 0 <= i < |items| ==> (items[i].disabled <==> items[i].badge.Some?)
  {
    var shown := Filtered(cs, s);
    seq(|shown|, i requires 0 <= i < |shown| => ItemOf(shown[i]))
  }

  /** `id` is the value of an item the country chooser lets the user pick in state `s`. */
  predicate Pickable(cs: seq<Country>, s: State, id: string) {
    exists i :: 0 <= i < |Items(cs, s)| && Items(cs, s)[i].value == id && !Items(cs, s)[i].disabled
  }

  /** A pickable id names an active catalog entry that the zone filter offers. */
  lemma PickableIsActive(cs: seq<Country>, s: State, id: string)
    requires Pickable(cs, s, id)
    ensures exists c :: c in Filtered(cs, s) && c in cs && c.id == id && c.status == Active
  {
  }
}

/** A session of the form: the user events it accepts, their effect on the two
    state slots, and the notifications they raise. */
module Session {
  import opened Options
  import opened Catalog
  import opened Selection
  import opened Badges
  import opened Confirm

  datatype Event = ChooseZone(zone: string) | ChooseCountry(id: string) | PressConfirm

  /** The values the zone chooser offers. */
  const ZoneChoices: seq<string> := [AllZones, "ОСЬ", "НЗВ"]

  /** Whether the form lets the user raise `e` in state `s`: zones come from the
      zone chooser, countries from the enabled items of the country chooser. */
  predicate Offered(cs: seq<Country>, s: State, e: Event): (b: bool)
    ensures e.ChooseZone? && b ==> e.zone == AllZones || exists z: Zone :: z.Tag() == e.zone
    ensures e.ChooseCountry? && b ==>
              exists i :: 0 <= i < |Filtered(cs, s)| && Filtered(cs, s)[i].id == e.id && Selectable(Filtered(cs, s)[i])
    ensures e.PressConfirm? ==> b
  {
    match e
    case ChooseZone(zone) =>
      assert Osh.Tag() == ZoneChoices[1] && Nzv.Tag() == ZoneChoices[2];
      zone in ZoneChoices
    case ChooseCountry(id) => Pickable(cs, s, id)
    case PressConfirm => true
  }

  /** One event: the state after it and the notification it raised, if any. */
  function Step(cs: seq<Country>, s: State, e: Event): (r: (State, Option<Notice>))
    ensures e.ChooseZone? ==> r.0.zone == e.zone && r.0.countryId == s.countryId && r.1.None?
    ensures e.ChooseCountry? ==> r.0.countryId == e.id && r.0.zone == s.zone && r.1.None?
    ensures e.PressConfirm? ==> r.0 == s && r.1 == Some(HandleConfirm(cs, s))
  {
    match e
    case ChooseZone(zone) => (SetZone(s, zone), None)
    case ChooseCountry(id) => (SetCountry(s, id), None)
    case PressConfirm => (s, Some(HandleConfirm(cs, s)))
  }

  /** A sequence of events from `s`: the final state and the notifications, in order. */
  function Run(cs: seq<Country>, s: State, es: seq<Event>): (r: (State, seq<Notice>))
    ensures (forall k :: 0 <= k < |es| ==> !es[k].ChooseCountry?) ==> r.0.countryId == s.countryId
    ensures (forall k :: 0 <= k < |es| ==> !es[k].ChooseZone?) ==> r.0.zone == s.zone
    ensures (forall k :: 0 <= k < |es| ==> es[k].PressConfirm?) ==> r.0 == s && r.1 == seq(|es|, _ => HandleConfirm(cs, s))
    decreases |es|
  {
    if |es| == 0 then (s, [])
    else
      var (next, notice) := Step(cs, s, es[0]);
      var (last, rest) := Run(cs, next, es[1..]);
      (last, NoticeSeq(notice) + rest)
  }

  /** The notification an event raised, as a list of zero or one. */
  function NoticeSeq(n: Option<Notice>): seq<Notice> {
    if n.Some? then [n.value] else []
  }

  /** Every event of `es` is offered in the state it is raised in. */
  predicate Admissible(cs: seq<Country>, s: State, es: seq<Event>)
    decreases |es|
  {
    |es| == 0 || (Offered(cs, s, es[0]) && Admissible(cs, Step(cs, s, es[0]).0, es[1..]))
  }

  /** The selection resolves to an active catalog entry. */
  predicate ActiveSelection(cs: seq<Country>, s: State) {
    Selected(cs, s).Some? && Selected(cs, s).value.status == Active
  }

  /** The initial selection is the active ОСЬ entry with id "1". */
  lemma InitialSelection()
    ensures Selected(Countries, Initial) == Some(Countries[0])
    ensures Countries[0].status == Active && Countries[0].zone == Osh
    ensures Countries[0].zone.Tag() == Initial.zone
    ensures ActiveSelection(Countries, Initial)
  {
  }

  /** Picking an item the country chooser enables leaves an active selection. */
  lemma PickKeepsActive(cs: seq<Country>, s: State, id: string)
    requires UniqueIds(cs)
    requires Pickable(cs, s, id)
    ensures ActiveSelection(cs, SetCountry(s, id))
  {
    PickableIsActive(cs, s, id);
    var c :| c in Filtered(cs, s) && c in cs && c.id == id && c.status == Active;
    var k :| 0 <= k < |cs| && cs[k] == c;
    FindUnique(cs, k);
  }

  /** `Run` takes the first event's notification, then runs the rest. */
  lemma RunUnfold(cs: seq<Country>, s: State, es: seq<Event>)
    requires |es| > 0
    ensures Run(cs, s, es).0 == Run(cs, Step(cs, s, es[0]).0, es[1..]).0
    ensures Run(cs, s, es).1 == NoticeSeq(Step(cs, s, es[0]).1) + Run(cs, Step(cs, s, es[0]).0, es[1..]).1
  {
  }

  /** From an active selection over a catalog with unique ids, offered events
      keep the selection active, and every confirm among them succeeds with the
      name of an active entry. */
  lemma {:induction false} AdmissibleKeepsActive(cs: seq<Country>, s: State, es: seq<Event>)
    requires UniqueIds(cs)
    requires ActiveSelection(cs, s)
    requires Admissible(cs, s, es)
    ensures ActiveSelection(cs, Run(cs, s, es).0)
    ensures forall k :: 0 <= k < |Run(cs, s, es).1| ==> Run(cs, s, es).1[k].kind == Success
    ensures forall k :: 0 <= k < |Run(cs, s, es).1| ==> AcceptsActive(cs, Run(cs, s, es).1[k])
    decreases |es|
  {
    if |es| > 0 {
      var (next, notice) := Step(cs, s, es[0]);
      StepKeepsActive(cs, s, es[0]);
      AdmissibleKeepsActive(cs, next, es[1..]);
      RunUnfold(cs, s, es);
      var first: seq<Notice>, rest: seq<Notice> := NoticeSeq(notice), Run(cs, next, es[1..]).1;
      forall k | 0 <= k < |first + rest|
        ensures (first + rest)[k].kind == Success && AcceptsActive(cs, (first + rest)[k])
      {
        if k >= |first| {
          assert (first + rest)[k] == rest[k - |first|];
        }
      }
    }
  }

  /** One offered event keeps an active selection active, and a confirm
      raised by it succeeds with the name of an active entry. */
  lemma StepKeepsActive(cs: seq<Country>, s: State, e: Event)
    requires UniqueIds(cs)
    requires ActiveSelection(cs, s)
    requires Offered(cs, s, e)
    ensures ActiveSelection(cs, Step(cs, s, e).0)
    ensures forall n :: n in NoticeSeq(Step(cs, s, e).1) ==> n.kind == Success && AcceptsActive(cs, n)
  {
    match e
    case ChooseZone(zone) =>
      SelectionSurvivesZoneChange(cs, s, zone);
    case ChooseCountry(id) =>
      PickKeepsActive(cs, s, id);
    case PressConfirm =>
      assert AcceptsActive(cs, Step(cs, s, e).1.value);
  }

  /** `n` is the success notification naming an active entry of `cs`. */
  ghost predicate AcceptsActive(cs: seq<Country>, n: Notice) {
    exists c :: c in cs && c.status == Active && n == Notice(Success, AcceptedMessage(c.name))
  }

  /** In every session the form allows, the selection stays on an active entry
      and every confirm succeeds with an active entry's name, so the
      undefined-name success is unreachable. */
  lemma ReachableConfirmsSucceed(es: seq<Event>)
    requires Admissible(Countries, Initial, es)
    ensures ActiveSelection(Countries, Run(Countries, Initial, es).0)
    ensures forall k :: 0 <= k < |Run(Countries, Initial, es).1| ==> Run(Countries, Initial, es).1[k].kind == Success
    ensures forall k :: 0 <= k < |Run(Countries, Initial, es).1| ==> AcceptsActive(Countries, Run(Countries, Initial, es).1[k])
  {
    CatalogUniqueIds();
    InitialSelection();
    AdmissibleKeepsActive(Countries, Initial, es);
  }

  /** Confirming twice raises the same notification twice and changes nothing. */
  lemma ConfirmIdempotent(cs: seq<Country>, s: State)
    ensures Run(cs, s, [PressConfirm, PressConfirm]) == (s, [HandleConfirm(cs, s), HandleConfirm(cs, s)])
  {
    var n := HandleConfirm(cs, s);
    var one := [PressConfirm];
    assert one[1..] == [];
    RunUnfold(cs, s, one);
    assert NoticeSeq(Some(n)) + [] == [n];
    assert Run(cs, s, one) == (s, [n]);
    var two := [PressConfirm, PressConfirm];
    assert two[1..] == one;
    RunUnfold(cs, s, two);
    assert [n] + [n] == [n, n];
  }
}

/** The confirm button: a first-match-wins dispatch on the selected entry's status,
    reported as one notification and leaving the state as it was. */
module Confirm {
  import opened Options
  import opened Catalog
  import opened Selection
  import opened Badges

  /** What confirming reports, before it is rendered as a notification. The
      absent selection has no outcome of its own: it reaches `Accepted` with
      no name. */
  datatype Outcome =
    | Rejected
    | Deferred(availableFrom: Option<string>)
    | NotYetAvailable
    | Accepted(name: Option<string>)

  datatype Kind = Error | Warning | Success

  /** A notification: its kind and its text. */
  datatype Notice = Notice(kind: Kind, message: string)

  /** The status of the selection, if there is a selection (optional chaining). */
  function StatusOf(selected: Option<Country>): (r: Option<Status>)
    ensures r.Some? <==> selected.Some?
    ensures r.Some? ==> r.value == selected.value.status
  {
    match selected
    case None => None
    case Some(c) => Some(c.status)
  }

  /** The dispatch as the source orders it: blocked, then upcoming, then
      unavailable, and success for everything that fell through. */
  function Decide(selected: Option<Country>): (o: Outcome)
    ensures o == Rejected <==> selected.Some? && selected.value.status == Blocked
    ensures o.Deferred? <==> selected.Some? && selected.value.status == Upcoming
    ensures o.Deferred? ==> o.availableFrom == selected.value.availableFrom
    ensures o == NotYetAvailable <==> selected.Some? && selected.value.status == Unavailable
    ensures o.Accepted? <==> selected.None? || selected.value.status == Active
    ensures o.Accepted? ==> o.name == if selected.Some? then Some(selected.value.name) else None
  {
    var status := StatusOf(selected);
    if status == Some(Blocked) then Rejected
    else if status == Some(Upcoming) then Deferred(selected.value.availableFrom)
    else if status == Some(Unavailable) then NotYetAvailable
    else Accepted(if selected.Some? then Some(selected.value.name) else None)
  }

  /** A value spliced into a template string: an absent one reads "undefined". */
  function Interpolate(v: Option<string>): (r: string)
    ensures v.Some? ==> r == v.value
    ensures v.None? ==> r == "undefined"
  {
    v.GetOr("undefined")
  }

  const BlockedMessage: string := "Эта страна заблокирована на территории Империи"
  const UpcomingPrefix: string := "Эта страна будет доступна с "
  const UnavailableMessage: string := "Эта страна пока недоступна"

  function AcceptedMessage(name: string): string {
    "Страна \"" + name + "\" успешно выбрана!"
  }

  /** The notification an outcome is shown as. */
  function Render(o: Outcome): (n: Notice)
    ensures n.kind == Error <==> o == Rejected
    ensures n.kind == Warning <==> o.Deferred? || o == NotYetAvailable
    ensures n.kind == Success <==> o.Accepted?
    ensures o == Rejected ==> n == Notice(Error, BlockedMessage)
    ensures o == NotYetAvailable ==> n == Notice(Warning, UnavailableMessage)
    ensures o.Deferred? ==> n.message == UpcomingPrefix + Interpolate(o.availableFrom)
    ensures o.Accepted? ==> n.message == AcceptedMessage(Interpolate(o.name))
  {
    match o
    case Rejected => Notice(Error, BlockedMessage)
    case Deferred(date) => Notice(Warning, UpcomingPrefix + Interpolate(date))
    case NotYetAvailable => Notice(Warning, UnavailableMessage)
    case Accepted(name) => Notice(Success, AcceptedMessage(Interpolate(name)))
  }

  /** Pressing confirm in state `s` over catalog `cs`: the notification it raises. */
  function HandleConfirm(cs: seq<Country>, s: State): (n: Notice)
    ensures n.kind == Error <==> Selected(cs, s).Some? && Selected(cs, s).value.status == Blocked
    ensures n.kind == Success <==> Selected(cs, s).None? || Selected(cs, s).value.status == Active
    ensures Selected(cs, s).Some? && Selected(cs, s).value.status == Blocked ==>
              n == Notice(Error, BlockedMessage)
    ensures Selected(cs, s).Some? && Selected(cs, s).value.status == Upcoming ==>
              n == Notice(Warning, UpcomingPrefix + Interpolate(Selected(cs, s).value.availableFrom))
    ensures Selected(cs, s).Some? && Selected(cs, s).value.status == Unavailable ==>
              n == Notice(Warning, UnavailableMessage)
    ensures Selected(cs, s).Some? && Selected(cs, s).value.status == Active ==>
              n == Notice(Success, AcceptedMessage(Selected(cs, s).value.name))
    ensures Selected(cs, s).None? ==> n == Notice(Success, AcceptedMessage("undefined"))
  {
    Render(Decide(Selected(cs, s)))
  }

  /** The reference reading of the dispatch: one case per status, as a closed match. */
  function ByStatus(c: Country): Outcome {
    match c.status
    case Blocked => Rejected
    case Upcoming => Deferred(c.availableFrom)
    case Unavailable => NotYetAvailable
    case Active => Accepted(Some(c.name))
  }

  /** For a present selection the ordered if-chain agrees with the per-status match. */
  lemma DecideMatchesByStatus(c: Country)
    ensures Decide(Some(c)) == ByStatus(c)
  {
  }

  /** An entry can be picked, has no badge, and confirms successfully, or none of the three. */
  lemma SelectableIffAccepted(c: Country)
    ensures Selectable(c) <==> Render(Decide(Some(c))).kind == Success
    ensures Selectable(c) <==> StatusBadge(c).None?
  {
  }
}

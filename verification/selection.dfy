/** The two state slots of the selection form and the views derived from them. */
module Selection {
  import opened Options
  import opened Catalog

  /** `a` can be obtained from `b` by deleting entries, keeping the order of the rest. */
  ghost predicate Subsequence(a: seq<Country>, b: seq<Country>)
    decreases |b|
  {
    if |a| == 0 then true
    else if |b| == 0 then false
    else (a[0] == b[0] && Subsequence(a[1..], b[1..])) || Subsequence(a, b[1..])
  }

  /** The entries of `cs` whose zone tag is `tag`, in the order of `cs`. */
  function KeepZone(cs: seq<Country>, tag: string): (r: seq<Country>)
    ensures Subsequence(r, cs)
    ensures forall c :: c in r <==> c in cs && c.zone.Tag() == tag
    decreases |cs|
  {
    if |cs| == 0 then []
    else
      var rest := KeepZone(cs[1..], tag);
      if cs[0].zone.Tag() == tag then [cs[0]] + rest else rest
  }

  /** The list shown by the country chooser: the whole of `cs` for the sentinel
      `AllZones`, otherwise the entries whose zone tag equals `zone`. */
  function FilterByZone(cs: seq<Country>, zone: string): (r: seq<Country>)
    ensures zone == AllZones ==> r == cs
    ensures zone != AllZones ==> forall c :: c in r <==> c in cs && c.zone.Tag() == zone
    ensures Subsequence(r, cs)
  {
    if zone == AllZones then
      SubsequenceRefl(cs);
      cs
    else KeepZone(cs, zone)
  }

  /** The position of the first entry of `cs` whose id is `id`, if any. */
  function FindIndex(cs: seq<Country>, id: string): (r: Option<nat>)
    ensures r.None? <==> forall k :: 0 <= k < |cs| ==> cs[k].id != id
    ensures r.Some? ==> r.value < |cs| && cs[r.value].id == id
    ensures r.Some? ==> forall k :: 0 <= k < r.value ==> cs[k].id != id
    decreases |cs|
  {
    if |cs| == 0 then None
    else if cs[0].id == id then Some(0)
    else
      match FindIndex(cs[1..], id)
      case None => None
      case Some(k) => Some(k + 1)
  }

  /** The first entry of `cs` whose id is `id`, or nothing when no entry has it. */
  function Find(cs: seq<Country>, id: string): (r: Option<Country>)
    ensures r.None? <==> forall c :: c in cs ==> c.id != id
    ensures r.Some? ==> r.value in cs && r.value.id == id
    ensures r.Some? ==> exists k :: 0 <= k < |cs| && cs[k] == r.value && forall j :: 0 <= j < k ==> cs[j].id != id
  {
    match FindIndex(cs, id)
    case None => None
    case Some(k) => Some(cs[k])
  }

  /** The form's state: the zone filter (any string; `AllZones` disables it) and the chosen country id. */
  datatype State = State(zone: string, countryId: string)

  /** The state the form opens in. */
  const Initial: State := State("ОСЬ", "1")

  /** The zone chooser's setter. */
  function SetZone(s: State, zone: string): (r: State)
    ensures r.zone == zone
    ensures r.countryId == s.countryId
  {
    s.(zone := zone)
  }

  /** The country chooser's setter; it does not check that the id exists. */
  function SetCountry(s: State, id: string): (r: State)
    ensures r.countryId == id
    ensures r.zone == s.zone
  {
    s.(countryId := id)
  }

  /** The list offered by the country chooser in state `s`, drawn from catalog `cs`. */
  function Filtered(cs: seq<Country>, s: State): (r: seq<Country>)
    ensures s.zone == AllZones ==> r == cs
    ensures s.zone != AllZones ==> forall c :: c in r <==> c in cs && c.zone.Tag() == s.zone
    ensures Subsequence(r, cs)
  {
    FilterByZone(cs, s.zone)
  }

  /** The record of the chosen country, looked up in the whole catalog `cs`. */
  function Selected(cs: seq<Country>, s: State): (r: Option<Country>)
    ensures r.None? <==> forall c :: c in cs ==> c.id != s.countryId
    ensures r.Some? ==> r.value in cs && r.value.id == s.countryId
    ensures r.Some? ==> exists k :: 0 <= k < |cs| && cs[k] == r.value && forall j :: 0 <= j < k ==> cs[j].id != s.countryId
  {
    Find(cs, s.countryId)
  }

  /** Every list is a subsequence of itself. */
  lemma SubsequenceRefl(a: seq<Country>)
    ensures Subsequence(a, a)
    decreases |a|
  {
    if |a| > 0 {
      SubsequenceRefl(a[1..]);
    }
  }

  /** Filtering distributes over concatenation, so it keeps catalog order entry by entry. */
  lemma {:induction false} KeepZoneAppend(a: seq<Country>, b: seq<Country>, tag: string)
    ensures KeepZone(a + b, tag) == KeepZone(a, tag) + KeepZone(b, tag)
    decreases |a|
  {
    if |a| == 0 {
      assert a + b == b;
    } else {
      assert (a + b)[1..] == a[1..] + b;
      KeepZoneAppend(a[1..], b, tag);
    }
  }

  /** Filtering keeps every matching entry as often as the input holds it, and no other entry. */
  lemma {:induction false} KeepZoneCounts(cs: seq<Country>, tag: string, c: Country)
    ensures multiset(KeepZone(cs, tag))[c] == if c.zone.Tag() == tag then multiset(cs)[c] else 0
    decreases |cs|
  {
    if |cs| > 0 {
      KeepZoneCounts(cs[1..], tag, c);
      assert cs == [cs[0]] + cs[1..];
    }
  }

  /** On a single entry, filtering keeps it exactly when its zone matches. */
  lemma KeepZoneSingle(c: Country, tag: string)
    ensures KeepZone([c], tag) == if c.zone.Tag() == tag then [c] else []
  {
  }

  /** Filtering a list in which no entry has the zone leaves nothing. */
  lemma KeepZoneNone(cs: seq<Country>, tag: string)
    requires forall k :: 0 <= k < |cs| ==> cs[k].zone.Tag() != tag
    ensures KeepZone(cs, tag) == []
  {
  }

  /** The lookup returns the entry at `k` when it is the first one carrying `id`. */
  lemma FindFirst(cs: seq<Country>, k: nat, id: string)
    requires k < |cs| && cs[k].id == id
    requires forall j :: 0 <= j < k ==> cs[j].id != id
    ensures Find(cs, id) == Some(cs[k])
  {
  }

  /** With unique ids, looking up the id of an entry yields that very entry. */
  lemma FindUnique(cs: seq<Country>, k: nat)
    requires UniqueIds(cs)
    requires k < |cs|
    ensures Find(cs, cs[k].id) == Some(cs[k])
  {
  }

  /** Changing the zone does not change which country is selected. */
  lemma SelectionSurvivesZoneChange(cs: seq<Country>, s: State, zone: string)
    ensures Selected(cs, SetZone(s, zone)) == Selected(cs, s)
  {
  }

  /** Changing the country does not change the offered list. */
  lemma FilterIgnoresCountry(cs: seq<Country>, s: State, id: string)
    ensures Filtered(cs, SetCountry(s, id)) == Filtered(cs, s)
  {
  }
}

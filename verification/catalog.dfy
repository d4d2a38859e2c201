/** The entities of the selection form and the constant country catalog it offers. */
module Catalog {
  import opened Options

  /** The closed set of zone tags a country can carry. */
  datatype Zone = Nzv | Osh | Osi {

    /** The tag as it appears in the catalog and in the zone chooser. */
    function Tag(): string {
      match this
      case Nzv => "НЗВ"
      case Osh => "ОСЬ"
      case Osi => "ОСИ"
    }
  }

  /** Whether a country can currently be chosen, and if not, why. */
  datatype Status = Active | Blocked | Upcoming | Unavailable

  /** One catalog entry; `availableFrom` is an optional human-readable date. */
  datatype Country = Country(id: string, name: string, zone: Zone, status: Status, availableFrom: Option<string>)

  /** The sentinel zone-filter value that disables filtering. */
  const AllZones: string := "all"

  /** The catalog, in display order. It is never modified. */
  const Countries: seq<Country> := [
    Country("1", "Недралическая Империя", Osh, Active, None),
    Country("2", "Блэрний", Nzv, Active, None),
    Country("3", "Герцеговинск", Nzv, Active, None),
    Country("4", "Галактическая Империя", Osh, Active, None),
    Country("5", "Кхмерэн", Osh, Upcoming, Some("1 января 2026")),
    Country("6", "Абзерстан", Osh, Blocked, None),
    Country("7", "Свободная Республика Тартасия", Osh, Unavailable, None),
    Country("8", "Ягловинск", Osh, Unavailable, None),
    Country("9", "Йораджистан", Osh, Unavailable, None),
    Country("10", "Царан", Osh, Unavailable, None),
    Country("11", "Рожская Республика", Osh, Unavailable, None),
    Country("12", "Щранская Республика", Osh, Unavailable, None),
    Country("13", "Зурская Республика", Osh, Unavailable, None),
    Country("14", "Беблэр", Osh, Unavailable, None),
    Country("15", "Граценвинск", Osh, Unavailable, None),
    Country("16", "Сламодия", Osh, Unavailable, None),
    Country("17", "Другие страны ОСИ", Osi, Unavailable, None)
  ]

  /** No two entries of `cs` share an id. */
  ghost predicate UniqueIds(cs: seq<Country>) {
    forall i, j :: 0 <= i < j < |cs| ==> cs[i].id != cs[j].id
  }

  /** An entry carries a date exactly when it is announced as upcoming. */
  predicate WellFormed(c: Country) {
    c.availableFrom.Some? <==> c.status == Upcoming
  }

  /** No two catalog entries share an id. */
  lemma CatalogUniqueIds()
    ensures UniqueIds(Countries)
  {
    forall k | 0 <= k < |Countries|
      ensures DecimalValue(Countries[k].id) == k + 1
    {
    }
  }

  /** The number a string of decimal digits denotes; the catalog numbers its ids 1, 2, 3, ... */
  ghost function DecimalValue(digits: string): int
    decreases |digits|
  {
    if |digits| == 0 then 0
    else DecimalValue(digits[..|digits| - 1]) * 10 + (digits[|digits| - 1] as int - '0' as int)
  }

  /** Exactly the upcoming catalog entries carry a date. */
  lemma CatalogWellFormed()
    ensures forall c :: c in Countries ==> WellFormed(c)
  {
  }
}

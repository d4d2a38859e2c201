/** Concrete walks through the form over the shipped catalog. */
module Scenarios {
  import opened Options
  import opened Catalog
  import opened Selection
  import opened Confirm

  /** Confirming in the opening state accepts the first catalog entry by name. */
  lemma ConfirmInitial()
    ensures HandleConfirm(Countries, Initial) == Notice(Success, AcceptedMessage("Недралическая Империя"))
  {
  }

  /** Choosing the blocked entry "6" and confirming raises an error. */
  lemma ConfirmBlocked()
    ensures HandleConfirm(Countries, SetCountry(Initial, "6")) == Notice(Error, BlockedMessage)
  {
    FindFirst(Countries, 5, "6");
  }

  /** Choosing the upcoming entry "5" and confirming warns with its exact date. */
  lemma ConfirmUpcoming()
    ensures HandleConfirm(Countries, SetCountry(Initial, "5")) == Notice(Warning, UpcomingPrefix + "1 января 2026")
  {
    FindFirst(Countries, 4, "5");
  }

  /** An id that names no entry falls through to a success whose name reads "undefined". */
  lemma ConfirmUnknownId()
    ensures Selected(Countries, SetCountry(Initial, "0")).None?
    ensures HandleConfirm(Countries, SetCountry(Initial, "0")) == Notice(Success, AcceptedMessage("undefined"))
  {
    NoEntryZero();
  }

  /** No catalog entry has the id "0". */
  lemma NoEntryZero()
    ensures Find(Countries, "0") == None
  {
    var ids := seq(|Countries|, k requires 0 <= k < |Countries| => Countries[k].id);
    assert ids == ["1", "2", "3", "4", "5", "6", "7", "8", "9", "10", "11", "12", "13", "14", "15", "16", "17"];
    assert "0" !in ids;
    assert forall k :: 0 <= k < |Countries| ==> Countries[k].id == ids[k];
  }

  /** The НЗВ zone offers exactly the entries "2" and "3", in catalog order. */
  lemma FilterNzv()
    ensures Filtered(Countries, SetZone(Initial, "НЗВ")) == [Countries[1], Countries[2]]
  {
    var head, tail := Countries[..3], Countries[3..];
    assert Countries == head + tail;
    KeepZoneAppend(head, tail, "НЗВ");
    NzvHead();
    NzvTail();
  }

  /** Of the first three entries, the НЗВ ones are "2" and "3". */
  lemma NzvHead()
    ensures KeepZone(Countries[..3], "НЗВ") == [Countries[1], Countries[2]]
  {
    var a, b, c := Countries[0], Countries[1], Countries[2];
    assert Countries[..3] == [a, b, c];
    assert a.zone.Tag() != "НЗВ" && b.zone.Tag() == "НЗВ" && c.zone.Tag() == "НЗВ";
    KeepZoneTriple(a, b, c, "НЗВ");
  }

  /** Filtering three entries of which only the last two match keeps those two. */
  lemma KeepZoneTriple(a: Country, b: Country, c: Country, tag: string)
    requires a.zone.Tag() != tag && b.zone.Tag() == tag && c.zone.Tag() == tag
    ensures KeepZone([a, b, c], tag) == [b, c]
  {
    assert [a, b, c] == [a] + [b] + [c];
    KeepZoneAppend([a] + [b], [c], tag);
    KeepZoneAppend([a], [b], tag);
    KeepZoneSingle(a, tag);
    KeepZoneSingle(b, tag);
    KeepZoneSingle(c, tag);
  }

  /** No entry after the third is in НЗВ. */
  lemma NzvTail()
    ensures KeepZone(Countries[3..], "НЗВ") == []
  {
    var tail := Countries[3..];
    forall k | 0 <= k < |tail|
      ensures tail[k].zone != Nzv
    {
      assert tail[k] == Countries[k + 3];
    }
    KeepZoneNone(tail, "НЗВ");
  }

  /** The sentinel zone offers the whole catalog of 17 entries. */
  lemma FilterAll()
    ensures Filtered(Countries, SetZone(Initial, AllZones)) == Countries
    ensures |Countries| == 17
  {
  }

  /** After switching to НЗВ the selection stays on entry "1", which the list no longer offers. */
  lemma StaleSelection()
    ensures Selected(Countries, SetZone(Initial, "НЗВ")) == Some(Countries[0])
    ensures Countries[0] !in Filtered(Countries, SetZone(Initial, "НЗВ"))
  {
  }
}

# Country-selection form: a Dafny model

This project models the selection controller of the DEEPTUBE account-country
form. A user picks a zone filter, then picks a country from a fixed catalog of
17 entries, and presses confirm to get one notification. The model covers:

- the catalog as a constant sequence of `Country` records;
- the two state slots: the zone filter and the chosen country id;
- the derived country list, filtered by zone;
- the lookup of the chosen record, which searches the whole catalog;
- the first-match-wins confirm dispatch and its notification text;
- the status badge;
- the rule that only active entries can be picked.

Each module follows one part of `src/pages/Index.tsx`:

- `Options`: `Option<T>`, which stands for a TypeScript value that may be `undefined`.
- `Catalog`: the `Zone` and `Status` enumerations, the `Country` record, the
  `Countries` constant, and its data invariants.
- `Selection`: the `State` record, its two setters, the zone filter
  (`KeepZone`, `FilterByZone`, `Filtered`) and the lookup (`FindIndex`, `Find`,
  `Selected`).
- `Badges`: the status badge, the selectable rule, and the items of the country chooser.
- `Confirm`: the confirm dispatch (`Decide`), rendering to a notification
  (`Render`), and the whole button handler (`HandleConfirm`).
- `Session`: sequences of user events. The main result is that every session
  the form allows keeps an active selection, so every confirm in it succeeds.
- `Scenarios`: concrete runs over the shipped catalog.

The derived views take the catalog as a parameter `cs`. General facts are
therefore proved once for any catalog with unique ids. The shipped `Countries`
constant is then plugged in.

The zone slot is a `string`, as in the source (`useState<string>`). `"all"` is
the sentinel that turns filtering off, and any other string is compared with
each entry's zone tag.

Two renderings of a missing value are modelled:

- A template string shows a missing value as `"undefined"` (`Interpolate`).
- A JSX child shows a missing value as nothing. So an upcoming entry without a
  date gets the badge `"С "`.

A distinct "no selection" outcome, checked before the status checks, would be
the natural design. The code has no such branch. When the id names no entry, every `?.status` comparison is
false, so the code falls through to the success notification with the name
`undefined`. The model follows the code. `Decide(None)` is
`Accepted(None)`, and `Scenarios.ConfirmUnknownId` shows the resulting text.
`Session.ReachableConfirmsSucceed` proves more. Through the form itself, every
confirm succeeds with an active entry's name. This assumes the choosers behave
as `Session.Offered` describes: the zone chooser offers only its three values,
and a disabled item cannot be picked. So the undefined-name fall-through is
unreachable through the form. The blocked, upcoming and unavailable branches
(lines 56-67) are unreachable too. They only fire for a selection the form
cannot produce.

## Model

| member | source | states |
|---|---|---|
| Catalog.CatalogUniqueIds | src/pages/Index.tsx:19-37 | no two catalog entries share an id |
| Catalog.CatalogWellFormed | src/pages/Index.tsx:19-37 | a catalog entry has an `availableFrom` date exactly when its status is upcoming |
| Selection.KeepZone | src/pages/Index.tsx:46-47 | the filtered list is a subsequence of the input, and an entry is in it if and only if it is in the input with the requested zone tag |
| Selection.KeepZoneCounts | src/pages/Index.tsx:47 | the filter keeps each matching entry exactly as many times as the input has it, and drops every non-matching entry |
| Selection.KeepZoneAppend | src/pages/Index.tsx:47 | filtering distributes over concatenation, so catalog order is kept |
| Selection.KeepZoneSingle | src/pages/Index.tsx:47 | a single entry is kept exactly when its zone tag matches |
| Selection.FilterByZone | src/pages/Index.tsx:43-51 | with `"all"` the catalog comes back unchanged; otherwise exactly the entries of that zone, as a subsequence |
| Selection.Filtered | src/pages/Index.tsx:43-51 | in state `s`, the country chooser's list is the whole catalog when the zone is `"all"`; otherwise it is exactly the catalog entries of that zone, as a subsequence of the catalog |
| Selection.FindIndex | src/pages/Index.tsx:53 | finds the first position whose id matches, or none exactly when no entry has the id |
| Selection.Find | src/pages/Index.tsx:53 | returns a catalog entry with the requested id, and no earlier entry has that id; it returns nothing exactly when no entry has the id |
| Selection.FindFirst | src/pages/Index.tsx:53 | the lookup returns the entry at position k whenever that entry is the first one carrying the id |
| Selection.FindUnique | src/pages/Index.tsx:53 | with unique ids, looking up an entry's id returns that entry |
| Selection.Selected | src/pages/Index.tsx:53 | the selected record is the first catalog entry with the chosen id; there is none exactly when no entry has that id |
| Selection.SetZone | src/pages/Index.tsx:112 | the zone setter replaces the zone and leaves the country id untouched |
| Selection.SetCountry | src/pages/Index.tsx:138 | the country setter replaces the id, does no existence check, and leaves the zone untouched |
| Selection.SelectionSurvivesZoneChange | src/pages/Index.tsx:40-53 | changing the zone does not change the selected record, because the lookup ignores the filter |
| Selection.FilterIgnoresCountry | src/pages/Index.tsx:43-51 | changing the country does not change the offered list |
| Badges.StatusBadge | src/pages/Index.tsx:71-94 | blocked gives a destructive "Заблокирована" badge; upcoming gives "С " plus the date; unavailable gives "Недоступно"; active gives no badge |
| Badges.Items | src/pages/Index.tsx:143-155 | one chooser item per offered entry, in order, carrying that entry's id, name and status badge; an item is disabled exactly when its entry is not active, which is exactly when it has a badge |
| Badges.Selectable | src/pages/Index.tsx:147 | an entry can be picked exactly when it carries no status badge, that is, exactly when it is active |
| Badges.PickableIsActive | src/pages/Index.tsx:143-147 | an id the chooser lets the user pick belongs to an active catalog entry in the offered list |
| Confirm.StatusOf | src/pages/Index.tsx:56 | optional chaining: a status exists exactly when a record does |
| Confirm.Decide | src/pages/Index.tsx:55-69 | blocked is rejected, upcoming is deferred with exactly its date, and unavailable is not yet available; everything else is accepted, including a missing record, which is accepted with no name |
| Confirm.Interpolate | src/pages/Index.tsx:61-68 | a missing value spliced into a message reads "undefined" |
| Confirm.Render | src/pages/Index.tsx:56-68 | rejected gives the error "Эта страна заблокирована на территории Империи"; a deferral gives a warning carrying the date; not-yet-available gives the warning "Эта страна пока недоступна"; accepted gives a success carrying the name |
| Confirm.HandleConfirm | src/pages/Index.tsx:55-69 | the handler's notification: error exactly for blocked, success exactly for active or missing; it gives the full notification for each of the five cases (blocked, upcoming with its date, unavailable, active with its name, missing with "undefined") |
| Confirm.DecideMatchesByStatus | src/pages/Index.tsx:55-69 | for a present record, the ordered if-chain agrees with a plain match on status |
| Confirm.SelectableIffAccepted | src/pages/Index.tsx:147 | an entry can be picked exactly when confirming it succeeds, and exactly when it has no badge |
| Session.Offered | src/pages/Index.tsx:117-147 | the choosers' contract: an offered zone is `"all"` or a zone tag; an offered country id belongs to an enabled, active entry of the offered list; confirm is always offered |
| Session.Step | src/pages/Index.tsx:112-138 | a zone event only changes the zone, and a country event only changes the id; neither raises a notification; confirm leaves the state as it is and raises exactly the handler's notification for that state |
| Session.Run | src/pages/Index.tsx:39-69 | a session without country events keeps the id; one without zone events keeps the zone; one with only confirms keeps the state and raises the handler's notification for that state once per event |
| Session.InitialSelection | src/pages/Index.tsx:40-41 | the opening selection resolves to entry "1", which is active and in the opening zone ОСЬ |
| Session.PickKeepsActive | src/pages/Index.tsx:138-147 | picking an enabled item leaves the selection on an active entry |
| Session.StepKeepsActive | src/pages/Index.tsx:55-69 | over a catalog with unique ids, one offered event keeps an active selection active, and a confirm succeeds with the name of an active catalog entry |
| Session.AdmissibleKeepsActive | src/pages/Index.tsx:143-147 | over a catalog with unique ids, events the form offers keep an active selection active, and every confirm among them is the success notification naming an active catalog entry |
| Session.ReachableConfirmsSucceed | src/pages/Index.tsx:55-69 | from the opening state, every session the form allows ends on an active selection, and each notification it raises is the success naming an active catalog entry, never `undefined` |
| Session.ConfirmIdempotent | src/pages/Index.tsx:55-69 | confirming twice raises the same notification twice and leaves the state unchanged |
| Scenarios.ConfirmInitial | src/pages/Index.tsx:20 | confirming in the opening state accepts "Недралическая Империя" |
| Scenarios.ConfirmBlocked | src/pages/Index.tsx:25 | choosing entry "6" and confirming raises the blocked error |
| Scenarios.ConfirmUpcoming | src/pages/Index.tsx:24 | choosing entry "5" and confirming warns with "1 января 2026" |
| Scenarios.NoEntryZero | src/pages/Index.tsx:19-37 | no catalog entry has the id "0", so looking it up finds nothing |
| Scenarios.ConfirmUnknownId | src/pages/Index.tsx:68 | an id that names no entry is accepted with the name "undefined" |
| Scenarios.FilterNzv | src/pages/Index.tsx:21-22 | the НЗВ zone offers exactly entries "2" and "3", in catalog order |
| Scenarios.FilterAll | src/pages/Index.tsx:44-50 | the "all" zone offers all 17 entries unchanged |
| Scenarios.StaleSelection | src/pages/Index.tsx:40-53 | after switching to НЗВ the selection stays on entry "1", which the list no longer offers |

## Left out

- JSX rendering, class names, gradients, animations and icons (lines 96-198): these are presentation only.
- The `sonner` toast calls: a notification is returned as a `Notice` value, and nothing displays it.
- The `Select`, `Button`, `Badge` and `Icon` components are foreign UI code. Only their observable contract is modelled: the zone chooser offers `"all"`, `"ОСЬ"` and `"НЗВ"`, and a disabled item cannot be picked (`Session.Offered`).
- The zone info text and the "other ОСИ countries are coming" hint (lines 124-128 and 188-193): these are fixed display strings.
- The "once per month" notice (line 186): it is display text, and nothing in the code enforces it, so there is no rate limit to model.
- React `useState` and `useMemo`: the state is a plain record, and the derived list is recomputed by a pure function.
- Badges.StatusBadge: the visual classes on each badge are not modelled; only the variant and the text are.

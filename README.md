# CreatePoint form state, in Dafny

This project covers the create-collection-point page of the Ecoleta front end
(`src/pages/CreatePoint/index.tsx`). The page keeps its state in React
`useState` slots: the item catalogue, the state (UF) abbreviations, the
municipality names, the chosen UF and city (both `"0"` when nothing is chosen),
the selected item ids, the contact fields, the initial position and the marker
position. Event handlers and effect callbacks replace these slots one at a time.

The model has four parts:

- `SelectedItems` (`selected_items.dfy`): the click toggle on the list of
  selected ids, built from `findIndex`, `filter` and an append, as functions
  over `seq<int>`, with lemmas on membership, order, duplicates and repeated clicks.
- `Responses` (`responses.dfy`): the records returned by the items endpoint and by
  the IBGE address service, and the in-order `sigla` and `nome` projections.
- `ContactForm` (`contact_form.dfy`): the `formData` record and the object-spread
  merge done on every keystroke.
- `CreatePoint` (`create_point.dfy`): class `CreatePointForm`, with one field per
  state slot and one method per handler or callback. Each method states the
  new `State()` snapshot as the old one with exactly the slots the handler
  sets replaced. The class also builds the submit payload, and the module ends
  with five whole-session scenarios. A position is either the array the page
  starts from and geolocation stores, or the Leaflet `LatLng` object a drag
  stores. `Valid()` says the selection has no duplicates and the marker position is
  the starting centre or a dragged `LatLng`, and every method keeps it.

HTTP answers (`items`, the UF list, a municipality list) and the geolocation
result are method parameters. The requests themselves, and when their answers
arrive, are not modelled. The caller decides the order in which handlers and callbacks run.

The model follows the code as written. In particular:

- The payload's `city` is the chosen UF, not the chosen city (line 139). `selectedCity` is never read when submitting.
  For the session name "Foo", UF "PE", city "Recife", the posted `city` is `"PE"`. `FillAndSubmit` shows this.
- After a drag, the submit handler throws before posting (see "## Findings").
- Choosing a UF does not reset the chosen city or the city list. Choosing the
  `"0"` option issues no request and leaves the old city list in place.
- A municipality answer is stored whatever UF is chosen when it arrives. There
  is no discarding of stale answers. `StaleCitiesResponse` shows a late answer
  for an earlier UF replacing the list while a later UF is selected.
- No fetch failure is caught, and no notice, retry or timeout exists.

## Model

| member | source | states |
|---|---|---|
| `SelectedItems.FindIndex` | src/pages/CreatePoint/index.tsx:126 | returns -1 exactly when the id is absent; otherwise returns the index of its first occurrence |
| `SelectedItems.RemoveAll` | src/pages/CreatePoint/index.tsx:128 | the result holds exactly the elements other than the id; its multiset is the input's with the id's count set to zero |
| `SelectedItems.Toggle` | src/pages/CreatePoint/index.tsx:125-133 | an absent id is appended at the end and earlier elements are untouched; a present id loses every occurrence and the other counts are kept; membership flips for the id only |
| `SelectedItems.RemoveAllAbsent` | src/pages/CreatePoint/index.tsx:128 | filtering out an id that is not there returns the list unchanged |
| `SelectedItems.RemoveAllAppend` | src/pages/CreatePoint/index.tsx:128 | filtering distributes over concatenation |
| `SelectedItems.RemoveAllKeptAt` | src/pages/CreatePoint/index.tsx:128 | a kept element `s[i]` sits in the result at the index equal to the number of kept elements before `i` |
| `SelectedItems.RemoveAllKeepsOrder` | src/pages/CreatePoint/index.tsx:126-129 | two kept elements at `i < j` appear in the result at positions `p < q`, so relative order is preserved |
| `SelectedItems.RemoveAllKeepsNoDuplicates` | src/pages/CreatePoint/index.tsx:128 | filtering a duplicate-free list gives a duplicate-free list |
| `SelectedItems.ToggleKeepsNoDuplicates` | src/pages/CreatePoint/index.tsx:125-133 | a click keeps a duplicate-free selection duplicate-free |
| `SelectedItems.ToggleKeepsOrderPresent` | src/pages/CreatePoint/index.tsx:126-129 | a click on a selected item keeps the remaining elements in their relative order: kept `s[i]`, `s[j]` with `i < j` land at positions `p < q` |
| `SelectedItems.ToggleTwiceRestoresMembership` | src/pages/CreatePoint/index.tsx:125-133 | two clicks on the same item restore the membership of every id |
| `SelectedItems.ToggleTwiceRestoresAbsent` | src/pages/CreatePoint/index.tsx:125-133 | two clicks on an unselected item restore the exact list |
| `SelectedItems.ToggleTwiceMayReorder` | src/pages/CreatePoint/index.tsx:125-133 | two clicks on a selected item can change the order: `[1, 2]` becomes `[2, 1]` |
| `SelectedItems.ToggleAllParity` | src/pages/CreatePoint/index.tsx:125-133 | after any run of clicks, an id is selected exactly when its initial membership differs from "clicked an odd number of times" |
| `Responses.Project` | src/pages/CreatePoint/index.tsx:78 | `map` keeps the length; element `i` of the result is `f` of element `i` of the input |
| `Responses.UfInitials` | src/pages/CreatePoint/index.tsx:78 | the UF list is the in-order `sigla` of every element of the response |
| `Responses.CityNames` | src/pages/CreatePoint/index.tsx:93 | the city list is the in-order `nome` of every element of the response |
| `ContactForm.FieldKey` | src/pages/CreatePoint/index.tsx:184-205 | the `name` attribute of each input (`name`, `email`, `whatsapp`), which is also its key in `formData` (lines 53-57); distinct fields have distinct keys |
| `ContactForm.FieldNamed` | src/pages/CreatePoint/index.tsx:121-122 | a found field has the given key; no field has the key when none is found |
| `ContactForm.FieldNamedKey` | src/pages/CreatePoint/index.tsx:122 | every field is found again from its own key |
| `ContactForm.Merge` | src/pages/CreatePoint/index.tsx:120-123 | the field keyed by the input's name gets the value and every other field keeps its value |
| `ContactForm.MergeLastWriteWins` | src/pages/CreatePoint/index.tsx:122 | of two changes to the same input, the last one wins |
| `ContactForm.MergeCommutes` | src/pages/CreatePoint/index.tsx:122 | changes to two different inputs commute |
| `ContactForm.MergeCurrentValue` | src/pages/CreatePoint/index.tsx:122 | writing back a field's current value changes nothing |
| `CreatePoint.MunicipalitiesUrl` | src/pages/CreatePoint/index.tsx:90 | the IBGE states prefix, then the UF, then `/municipios` |
| `CreatePoint.MunicipalitiesUrlInjective` | src/pages/CreatePoint/index.tsx:88-91 | different UFs are never sent to the same municipality address |
| `CreatePoint.CreatePointForm.constructor` | src/pages/CreatePoint/index.tsx:38-57 | the initial state: empty lists, both selectors at `"0"`, no items, both positions at the default centre, empty contact fields |
| `CreatePoint.CreatePointForm.ReceivePosition` | src/pages/CreatePoint/index.tsx:59-64 | the device position, as an array, sets only `initialPosition`, not the marker position |
| `CreatePoint.CreatePointForm.ReceiveItems` | src/pages/CreatePoint/index.tsx:66-70 | the items answer replaces only `items`, unchanged |
| `CreatePoint.CreatePointForm.ReceiveUfs` | src/pages/CreatePoint/index.tsx:72-81 | the UF answer replaces only `ufs`, by its `sigla` projection |
| `CreatePoint.CreatePointForm.SelectedUfEffect` | src/pages/CreatePoint/index.tsx:83-91 | no request exactly when the UF is `"0"`; otherwise a request for the chosen UF's municipality list; no state changes |
| `CreatePoint.CreatePointForm.ReceiveCities` | src/pages/CreatePoint/index.tsx:92-95 | the municipality answer replaces only `cities`, wholesale, by its `nome` projection |
| `CreatePoint.CreatePointForm.DragEnd` | src/pages/CreatePoint/index.tsx:100-105 | a present marker sets only `selectedPosition`, to the `LatLng` object of its coordinates; an absent one changes nothing; `initialPosition` never changes |
| `CreatePoint.CreatePointForm.SelectUf` | src/pages/CreatePoint/index.tsx:110-113 | only `selectedUf` changes, so the chosen city and the city list are kept; a municipality request for the new UF is issued, by the effect of lines 83-91, exactly when the UF changed and is not `"0"` |
| `CreatePoint.CreatePointForm.SelectCity` | src/pages/CreatePoint/index.tsx:115-118 | only `selectedCity` changes |
| `CreatePoint.CreatePointForm.InputChange` | src/pages/CreatePoint/index.tsx:120-123 | only `formData` changes, by the merge of the named field |
| `CreatePoint.CreatePointForm.SelectItem` | src/pages/CreatePoint/index.tsx:125-133 | only `selectedItems` changes, by the toggle, and it stays duplicate-free |
| `CreatePoint.CreatePointForm.Submit` | src/pages/CreatePoint/index.tsx:135-154 | fails, posting nothing, exactly when `selectedPosition` holds a `LatLng` object (line 140 throws); otherwise the payload carries the contact fields, the chosen UF as both `uf` and `city`, the coordinates of the starting centre and the selected ids, which have no duplicates; no state changes |
| `CreatePoint.CreatePointForm.SubmitIntended` | src/pages/CreatePoint/index.tsx:137-154 | always builds the payload: contact fields, the chosen UF as both `uf` and `city`, the coordinates of the position in either form, the selected ids without duplicates; no state changes |
| `CreatePoint.FillAndSubmit` | src/pages/CreatePoint/index.tsx:135-154 | a session without a drag, with city "Recife" chosen, posts `city` = "PE", the default centre and the other entered values |
| `CreatePoint.DragThenSubmit` | src/pages/CreatePoint/index.tsx:100-140 | any drag followed by a submit fails before posting |
| `CreatePoint.GeoThenSubmit` | src/pages/CreatePoint/index.tsx:59-64 | a geolocation answer never reaches the payload: a submit after it posts the starting centre (line 38), since line 62 sets only `initialPosition` |
| `CreatePoint.DragThenSubmitIntended` | src/pages/CreatePoint/index.tsx:100-154 | with the corrected handler, a drag followed by a submit posts the dragged coordinates |
| `CreatePoint.StaleCitiesResponse` | src/pages/CreatePoint/index.tsx:83-96 | when answers arrive out of order, the late answer for an earlier UF is shown while a later UF is selected |

## Left out

- Rendering (JSX, CSS, the `selected` class of the item grid, lines 161-305) is UI and is not modelled.
- The `draggable` slot is only read by rendering and never changes, so the model leaves it out.
- The map widgets and `markerRef` are foreign library code. The marker is an optional coordinate pair passed to `DragEnd`.
- The `axios`/`api` requests, `navigator.geolocation`, `alert`, `history.push` and `console.log` are I/O. Their answers are method parameters, and the post and navigation after submit are not modelled.
- Async ordering is left to the caller: when each answer arrives is not modelled. `SelectUf` issues the effect's request itself, and the run of the effect at mount (when the UF is `"0"` and nothing is requested) is `SelectedUfEffect` on the initial state.
- Coordinates are JavaScript floats. They are modelled as `real` pairs, since they are only copied.
- `InputChange`: an input name other than `name`, `email` or `whatsapp` adds an extra property that nothing reads. The model keeps the record's three fields and drops that property.
- Item ids are JavaScript numbers compared with `===`; the model uses `int`, so non-integer ids and `NaN` (which is never `===` to itself) are not modelled.

## Findings

| source | as written | input that shows it | evidently intended | confidence | as-written member | corrected member |
|---|---|---|---|---|---|---|
| src/pages/CreatePoint/index.tsx:140 | `dragend` stores the `LatLng` object returned by `getLatLng()` (line 103); the submit handler then destructures the stored position as a two-element array, which throws a `TypeError` because a `LatLng` is not iterable, so no point is posted | drag the marker anywhere, then submit | post the dragged coordinates, read as `lat` and `lng` | not executed; rests on Leaflet's `LatLng` having no iterator, and on the build keeping array destructuring's iteration (native code or Babel do; `tsc` targeting ES5 without `downlevelIteration` would index `[0]` and `[1]` and post `undefined` coordinates instead of throwing; no build configuration is part of this model) | `CreatePoint.DragThenSubmit` | `CreatePoint.DragThenSubmitIntended` |

`CreatePointForm.Submit` is the handler as written and fails on a `LatLng`.
`CreatePointForm.SubmitIntended` reads the coordinates of either form of position and always builds the payload.
`Submit` builds its payload by calling `SubmitIntended` whenever it does not throw.

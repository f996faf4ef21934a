# Location field editor — a Dafny model

This project models the pure logic of Keystone's `LocationField`, the admin-UI widget
that edits a structured location (street number, building name, two street lines,
suburb, state, postcode, country and a `[longitude, latitude]` geo pair). The React
shell is stripped away; what remains is stated as total functions over immutable
datatypes:

- `LocationValue`: the value record. Each text key is `Option<string>`; "falsy" means
  unset or `""`. `geo` is an optional array of optional slots. A JavaScript array is
  always truthy, so `geo` is falsy only when it is unset.
- `FieldProps`: the props the form framework supplies. An absent `value` reads as the
  empty location, which is what the handlers' `value = {}` default gives; `componentWillMount`
  defaults it to `[]` instead, which has none of the nine keys either.
- `Summary`: `formatValue`, `renderValue` and `shouldCollapse`, with `_.compact` and
  `join` written out. `Summarize` is an independent one-pass implementation that is
  proved equal to `FormatValue`.
- `Edits`: `fieldChanged` and `geoChanged`. The parent's `onChange({ path, value })`
  call is the `Change` they return, and `Apply` feeds the reported value back as the
  next `value` prop.
- `UiState`: the view-state `{ collapsedFields, improve, overwrite }`. It covers mount,
  "show more fields", the two autodetect checkboxes, and runs of user events.
- `Render`: which inputs and checkboxes `renderUI` produces, with their names, the
  values they show and the handlers they call.

Two edge cases of the code are modelled as written:

- A geo edit writes `''` into the other slot only when `geo` is unset. When `geo` is an
  array that lacks that slot, the slot is copied as `undefined` (`None`), per
  fields/types/location/LocationField.js:69-70.
- A key is collapsed at mount when it is falsy, so `''` collapses too
  (fields/types/location/LocationField.js:33).

## Model

| member | source | states |
|---|---|---|
| FieldProps.Current | fields/types/location/LocationField.js:51 | an absent `value` prop reads as the location with no keys set; a present one is used as is |
| Summary.Parts | fields/types/location/LocationField.js:87-96 | the compacted array holds the eight text entries, entry i being the text of the i-th key of the fixed order number, name, street1, street2, suburb, state, postcode, country |
| Summary.Compact | fields/types/location/LocationField.js:87-96 | `_.compact` keeps no empty strings, never grows the array, and yields nothing exactly when every entry is falsy |
| Summary.Join | fields/types/location/LocationField.js:96 | joining one part gives that part; joining non-empty parts gives `""` exactly when there are none |
| Summary.FormatValue | fields/types/location/LocationField.js:85-97 | the summary is `""` exactly when all eight text keys are falsy |
| Summary.CompactAppend | fields/types/location/LocationField.js:87-96 | compacting the concatenation of two arrays is concatenating their compactions, so entries keep their order |
| Summary.JoinSnoc | fields/types/location/LocationField.js:96 | joining one more part appends ", " and that part |
| Summary.CompactSingle | fields/types/location/LocationField.js:87 | with a single truthy entry, `_.compact` leaves exactly that entry's text |
| Summary.FormatSingleField | fields/types/location/LocationField.js:85-97 | when exactly one text key is truthy, the summary is that key's text alone |
| Summary.FormatIgnoresGeo | fields/types/location/LocationField.js:85-97 | changing `geo` never changes the summary |
| Summary.Summarize | fields/types/location/LocationField.js:85-97 | a left-to-right pass that appends each truthy entry, with ", " before every entry but the first, computes exactly formatValue |
| Summary.RenderValue | fields/types/location/LocationField.js:99-101 | the read-only text is `"(no value)"` when all text keys are falsy and otherwise the non-empty summary |
| Summary.ShouldCollapse | fields/types/location/LocationField.js:40-42 | the field may collapse exactly when the `collapse` prop is set and all text keys are falsy |
| Edits.FieldChanged | fields/types/location/LocationField.js:50-59 | the change keeps `path`, sets key k to the new text, and leaves every other text key and `geo` as they were |
| Edits.GeoChanged | fields/types/location/LocationField.js:65-79 | the change keeps `path` and every text key (so the summary too); the new geo has two slots; slot i is the new text; the other slot is `''` when geo was unset, else the old slot, or `undefined` if the old array lacked it |
| Edits.KeptCoord | fields/types/location/LocationField.js:69-70 | the slot kept for an index not being edited is `''` when geo is unset, the old slot when the array has it, and `undefined` when it does not |
| Edits.FieldChangedSameText | fields/types/location/LocationField.js:50-59 | retyping the text a key already holds reports the current value unchanged |
| Edits.FieldChangedLastWins | fields/types/location/LocationField.js:50-59 | of two successive edits to one key, only the later one is visible |
| Edits.FieldChangedCommute | fields/types/location/LocationField.js:50-59 | successive edits to two different keys give the same value in either order |
| Edits.GeoChangedPair | fields/types/location/LocationField.js:65-79 | editing longitude and latitude, in either order, leaves geo equal to exactly that pair, whatever geo held before |
| UiState.FalsyAmong | fields/types/location/LocationField.js:31-36 | the collected keys are exactly the listed keys whose value is falsy |
| UiState.Mount | fields/types/location/LocationField.js:21-38 | after mount the collapsed set is exactly the falsy ones among number, name, street2 and geo, and both checkboxes are clear |
| UiState.Uncollapse | fields/types/location/LocationField.js:44-48 | "show more fields" empties the collapsed set whatever it held, and keeps both checkboxes |
| UiState.UpdateOption | fields/types/location/LocationField.js:167-171 | setting one checkbox gives it the new value and leaves the other checkbox and the collapsed set alone |
| UiState.RunCollapsed | fields/types/location/LocationField.js:44-48 | over any run of user events the collapsed set is either untouched or empty, and empty once "show more" has happened |
| UiState.RunFlag | fields/types/location/LocationField.js:167-171 | after any run of user events each checkbox holds the value of its own last toggle, so toggles of the other box never reset it |
| UiState.ReachableCollapsed | fields/types/location/LocationField.js:29-38 | in every state reachable from mount, only number, name, street2 and geo can be collapsed |
| Render.RenderGoogleOptions | fields/types/location/LocationField.js:178-199 | no checkbox without the maps API; at most two, "improve" first; "improve" is shown exactly when the maps API is on; "Replace existing data" exactly when the maps API is on and improve is checked; each shows its own state and name |
| Render.RenderNote | fields/types/location/LocationField.js:201-209 | the note row is absent exactly when the note is unset or empty |
| Render.RenderField | fields/types/location/LocationField.js:103-113 | nothing while the key is collapsed; otherwise one input named `path + "." + key` that shows that key's text and edits that key |
| Render.RenderSuburbState | fields/types/location/LocationField.js:115-129 | always two inputs, suburb then state, with no collapse check; each named `path + "." + key` and showing its key's text |
| Render.RenderPostcodeCountry | fields/types/location/LocationField.js:131-145 | always two inputs, postcode then country, with no collapse check; each named `path + "." + key` and showing its key's text |
| Render.RenderGeo | fields/types/location/LocationField.js:147-165 | nothing while geo is collapsed; otherwise two inputs, latitude (slot 1) then longitude (slot 0), both named `paths.geo`, each showing the slot it edits |
| Render.TextRows | fields/types/location/LocationField.js:103-145 | every text input is the input for its own key, and its key is not collapsed unless it is one of suburb, state, postcode, country |
| Render.TextRowsInLayoutOrder | fields/types/location/LocationField.js:231-236 | the text inputs follow the layout order number, name, street1, street2, suburb, state, postcode, country, so no key is rendered twice |
| Render.RenderUI | fields/types/location/LocationField.js:211-242 | read-only mode shows only the label and renderValue; editable mode offers "show more" exactly when something is collapsed |
| Render.TextInputVisibility | fields/types/location/LocationField.js:103-145 | in editable mode (`shouldRenderField()` true), a text input for key k is rendered exactly when k is not collapsed or is one of suburb, state, postcode, country |
| Render.GeoInputVisibility | fields/types/location/LocationField.js:147-165 | in editable mode, the geo inputs for slots 0 and 1 are rendered exactly when geo is not collapsed, and no other slot has one |
| Render.InputsWired | fields/types/location/LocationField.js:103-165 | each text input is named `path + "." + key`, shows that key and edits that key; each geo input is named `paths.geo` and shows the slot it edits; every edit is reported under `path` |
| Render.TextInputNamesDistinct | fields/types/location/LocationField.js:110-140 | two rendered text inputs with the same name are the same input, because `path + "." + key` fixes the key |
| Render.ReachableNeverHidden | fields/types/location/LocationField.js:231-237 | after mount and any user events, and whatever props the field is rendered with in editable mode (`shouldRenderField()` true) by then, the street1, suburb, state, postcode and country inputs are always on screen |
| Render.ShowMoreOffered | fields/types/location/LocationField.js:220-222 | in editable mode, "show more fields" is offered exactly while something is collapsed, and no longer after it is used |
| Render.OverwriteFollowsImprove | fields/types/location/LocationField.js:178-187 | in editable mode with the maps API on, setting improve makes the overwrite checkbox appear or disappear with it, and never changes overwrite's value |

## Left out

- JSX markup, labels, placeholders, widths and `autofocus` are dropped. The view keeps only which controls appear, their names, what they show and their handlers.
- React lifecycle, `setState` batching and `Field.create` registration are framework plumbing. State changes are pure functions from one view-state to the next.
- `shouldRenderField()` belongs to the `Field` base class, whose policy is not part of this model. It is a boolean prop.
- lodash, elemental, `CollapsedFieldLabel` and `NestedFormField` are foreign components. `_.forEach`, `_.compact`, `join` and `_.isEmpty` are written out in Dafny.
- DOM events are reduced to the new text (inputs) or the new checked value (checkboxes).
- Geocoding, and any use of `improve`/`overwrite` at save time, happens outside this component.
- JavaScript truthiness beyond strings is not modelled: text keys are strings or unset, and geo slots are strings or `undefined`. Numeric coordinates, `null`, and extra keys that the object spread would carry along are not represented.
- `makeChanger`, `makeGeoChanger` and `makeGoogler` only bind a key. They appear as the `Handler` an input carries and the `Event` a checkbox raises.
- Edits.Apply: the parent form is assumed to store the reported `value` unchanged and re-render the field with it; that code is not part of this model. `FieldChangedLastWins`, `FieldChangedCommute` and `GeoChangedPair` rest on this assumption.

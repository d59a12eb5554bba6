# Dynamic form creator — a Dafny model of its form-building core

The application lets a user build a form as an ordered list of fields (text,
number or select inputs with a title, helper text, "required" and "hidden"
flags and, for selects, up to five options), reorder the list by drag and
drop, preview it, and save JSON documents under a name in the browser's local
storage. This project models the logic behind that:

- `field_types.dfy` (module `FieldTypes`): the two form modes, the three field
  types with their string tags (parsing a tag gives back its type and nothing
  else is a type), and the field record, whose `options` is optional. The
  field's type is kept as its run-time string tag, because the builder fills it
  by an unchecked cast of the select box's value and the preview has a branch
  for unknown tags.
- `form_builder.dfy` (module `FormBuilder`): class `Builder` holds the field
  list, the draft of the "Add New Field" dialog and the dialog flag. Its methods
  are the dialog's handlers. A change event sets exactly one attribute. A type
  change keeps options set under the earlier type. "Add Option" appends an
  empty option only below five. Editing an option replaces it in place.
  "Save Field" appends the draft unchecked and resets it to the default. A drop
  moves one field within the list. The pure parts are functions with their
  properties proved: the draft transitions, the index look-up, the sortable
  ids and the move.
- `array_move.dfy` (module `ArrayMove`): the remove-then-insert move applied
  on drop. It keeps the length and the elements. The moved element lands at
  the target index, the others keep their relative order, and a move back
  undoes it.
- `form_renderer.dfy` (module `FormRenderer`): the preview maps the list, in
  order, to a text, number or select widget per visible field of a known type,
  and to nothing otherwise. The widgets shown are exactly those fields, in
  list order, each once.
- `json_schema.dfy` (module `JsonSchema`): class `Panel` holds the schema
  page's state. Local storage is an abstract map from keys to saved lists.
  Saving appends `{name: trim(name), fields: document}` to the list under
  "savedSchemas", with a missing key read as the empty list. The page also has
  the save-enable check, the editor handler, the delete bookkeeping and the
  click-to-select look-up.
- `js_builtins.dfy` (module `JsBuiltins`): the JavaScript built-ins the core
  relies on: `findIndex`, `filter(x => x !== v)`, `String.prototype.trim` with
  the ECMAScript white-space set, and the decimal text of an index.
- `wrappers.dfy` (module `Wrappers`): the `Option` datatype.

Every handler runs as one atomic step. React effects are separate methods that
the caller runs on mount and after the handler that triggers them:
`SyncDisable` after a name or document change, and the reload after `val`
flips.

The field record (`src/types/FieldTypes.ts:9-16`) has no `id`, `minValue` or
`maxValue`, and nothing in the code validates a field definition or an input
value, although `src/test/NumberField.test.tsx:30-57` expects minimum, maximum
and required messages. The model follows the code.

Two behaviours of the code worth knowing:
- A click on a saved name sets the document to `{}` in every case. The
  document is parsed from a `dataBlob` attribute that saved entries never have,
  since they carry `fields`.
- "Delete" deletes nothing from storage. It sets and clears the "deleting"
  mark, clears the name and document, and flips `val`, which re-runs the
  reload; the entry stays in storage.

## Model

| member | source | states |
|---|---|---|
| FieldTypes.ParseFormMode | src/types/FieldTypes.ts:1 | exactly "build" and "preview" are modes, and parsing a mode's literal gives that mode back (both directions) |
| FieldTypes.ParseFieldType | src/types/FieldTypes.ts:3-7 | exactly the three tags "text", "number", "select" are field types, and parsing a type's tag gives that type back (both directions) |
| FieldTypes.FieldTypeTagInjective | src/types/FieldTypes.ts:4-6 | distinct field types have distinct tags |
| JsBuiltins.FindIndex | src/components/FormBuilder.tsx:78-79 | the result is -1 exactly when the value is absent, and otherwise the first index holding it |
| JsBuiltins.RemoveAll | src/components/JsonSchema.tsx:62 | the filtered list no longer holds the value, and every other value keeps its number of occurrences |
| JsBuiltins.RemoveAllAppended | src/components/JsonSchema.tsx:56-62 | marking a name and then filtering it out leaves what filtering alone leaves |
| JsBuiltins.Trim | src/components/JsonSchema.tsx:27 | the trimmed name is the infix after the maximal white-space prefix, with only white space after it, and it neither starts nor ends with white space |
| JsBuiltins.TrimEmpty | src/components/JsonSchema.tsx:27 | trimming gives the empty name exactly when the name is all white space |
| JsBuiltins.TrimIdempotent | src/components/JsonSchema.tsx:27 | trimming a trimmed name changes nothing |
| JsBuiltins.NatToString | src/components/FormBuilder.tsx:121-123 | the text of an index is a non-empty string of decimal digits |
| JsBuiltins.NatToStringRoundTrip | src/components/FormBuilder.tsx:121-123 | reading the decimal text of an index back gives the index |
| ArrayMove.Move | src/components/FormBuilder.tsx:80 | the moved list has the same length and the same elements (a permutation), holds the moved element at the target index, and keeps all other elements in relative order |
| ArrayMove.MoveSameIndex | src/components/FormBuilder.tsx:76-80 | a move onto the same index leaves the list unchanged |
| ArrayMove.MoveInverse | src/components/FormBuilder.tsx:80 | moving back from the target to the source index restores the list |
| ArrayMove.MoveShifts | src/components/FormBuilder.tsx:80 | the elements between the two indices shift by one towards the source index; those outside stay put |
| FormBuilder.ApplyChange | src/components/FormBuilder.tsx:28-34 | a change event sets only the attribute it names (the checked state for a checkbox, the value otherwise); type, options and the other attributes are unchanged |
| FormBuilder.AddOption | src/components/FormBuilder.tsx:52-59 | an empty option is appended exactly when the option list exists and is shorter than five; otherwise the draft is unchanged; nothing but the options changes |
| FormBuilder.AddOptionTimesCapped | src/components/FormBuilder.tsx:52-58 | after any number of "Add Option" clicks the list holds min(start + clicks, 5) options, the earlier ones kept and the new ones empty |
| FormBuilder.SetOption | src/components/FormBuilder.tsx:43-50 | option `index` takes the new value; the length, every other option and every other attribute are unchanged |
| FormBuilder.SortableId | src/components/FormBuilder.tsx:121-123 | an item's id is its title, then a dash, then the decimal text of its index |
| FormBuilder.SortableIdInjective | src/components/FormBuilder.tsx:121-123 | equal sortable ids have equal titles and equal indices |
| FormBuilder.NoDashAfterSeparator | src/components/FormBuilder.tsx:121-123 | the dash after the title is the last dash of the id |
| FormBuilder.SortableIdLookup | src/components/FormBuilder.tsx:121-123 | looking up the sortable id of the item at index k finds k |
| FormBuilder.TitleLookupMissesSortableIds | src/components/FormBuilder.tsx:78-79 | when no title contains a dash, looking any sortable id up among the titles finds -1 |
| FormBuilder.MoveKeepsCapped | src/components/FormBuilder.tsx:80 | a move keeps every field within the five-option cap |
| FormBuilder.Builder.constructor | src/components/FormBuilder.tsx:14-22 | a new builder has no fields, the default draft (type "text", empty title and helper text, both flags off, no options) and a closed dialog |
| FormBuilder.Builder.HandleAddFieldClick | src/components/FormBuilder.tsx:24-26 | the dialog opens on the current draft; nothing else changes |
| FormBuilder.Builder.CloseDialog | src/components/FormBuilder.tsx:190 | the dialog closes; the draft is kept, not reset |
| FormBuilder.Builder.HandleFieldChange | src/components/FormBuilder.tsx:28-34 | the draft becomes ApplyChange of the event; the list and dialog flag are unchanged |
| FormBuilder.Builder.HandleFieldTypeChange | src/components/FormBuilder.tsx:36-41 | only the draft's type changes; stale options stay |
| FormBuilder.Builder.HandleOptionChange | src/components/FormBuilder.tsx:43-50 | the draft becomes SetOption of the index and value; the list is unchanged |
| FormBuilder.Builder.HandleAddOption | src/components/FormBuilder.tsx:52-59 | the draft becomes AddOption of it, so its option count becomes min(count + 1, 5) |
| FormBuilder.Builder.HandleSaveField | src/components/FormBuilder.tsx:61-72 | the draft, unvalidated, becomes the new last field; earlier fields are unchanged; the dialog closes and the draft returns to the default |
| FormBuilder.Builder.HandleDragEnd | src/components/FormBuilder.tsx:74-83 | a drop on the same id changes nothing; otherwise the list is moved from the index of the dragged title to the index of the target title, a permutation |
| FormBuilder.Builder.HandleDragEndBySortableId | src/components/FormBuilder.tsx:74-83 | the same drop with the indices looked up among the sortable ids: the dragged item moves to the target item's index |
| FormRenderer.RenderField | src/components/FormRenderer.tsx:15-38 | a hidden field renders nothing; tags "text", "number", "select" render the text, number, select widget keyed by the index; any other tag renders nothing |
| FormRenderer.RenderFields | src/components/FormRenderer.tsx:14-39 | the output has exactly one entry per input field (order and content: ShownAreRenderable) |
| FormRenderer.ShownAreRenderable | src/components/FormRenderer.tsx:14-39 | the widgets shown are exactly the visible fields of known type, in list order, each with its type's widget and keyed by the index of the field it shows, so the keys increase strictly |
| FormRenderer.ShownCount | src/components/FormRenderer.tsx:14-39 | the number of widgets shown equals the number of visible fields of known type |
| JsonSchema.SavedList | src/components/JsonSchema.tsx:24 | a missing storage key reads as the empty list |
| JsonSchema.AppendSchema | src/components/JsonSchema.tsx:26-33 | the saved list gains exactly the new entry at its end; every other storage key is unchanged |
| JsonSchema.DuplicateNamesKept | src/components/JsonSchema.tsx:31 | saving a name already saved adds one more entry of that name; nothing is rejected or merged |
| JsonSchema.ListedNames | src/components/JsonSchema.tsx:47 | undefined data lists no names |
| JsonSchema.FindByName | src/components/JsonSchema.tsx:95 | nothing is found exactly when no entry has the name; otherwise the first entry with that name |
| JsonSchema.Panel.SaveClick | src/components/JsonSchema.tsx:140-146 | while `disable` or `nullCheck` is set the click saves nothing and `val` stays; otherwise it saves as SendJson does, the trimmed state name with the current document |
| JsonSchema.WhiteSpaceNameSavedEmpty | src/components/JsonSchema.tsx:76-78 | a white-space-only name with a truthy document passes the `disable` check, which is on the untrimmed name, and is saved as the empty name |
| JsonSchema.Panel.constructor | src/components/JsonSchema.tsx:11-19 | the page starts with document `[]`, empty name and lists, all flags down |
| JsonSchema.Panel.SendJson | src/components/JsonSchema.tsx:21-41 | on a successful write the storage becomes AppendSchema with the trimmed name and the document, and `val` flips; on a failed write the storage is unchanged; the saving flag is down on both paths |
| JsonSchema.Panel.GetAllData | src/components/JsonSchema.tsx:43-53 | the loaded data becomes undefined and the name list empty, whatever the storage holds |
| JsonSchema.Panel.LoadSavedSchemas | src/components/JsonSchema.tsx:43-53 | the loaded data becomes the saved list and the name list its names, in order |
| JsonSchema.Panel.DeleteSchema | src/components/JsonSchema.tsx:55-70 | the name is marked and then every mark of it removed, `val` flips (re-running the reload) and name and document are cleared; while the data is undefined the mark stays and nothing else changes; storage and loaded list never change |
| JsonSchema.Panel.HandleSchemaName | src/components/JsonSchema.tsx:80-82 | only the name changes |
| JsonSchema.Panel.ClearSchema | src/components/JsonSchema.tsx:137 | only the document changes, to `{}` |
| JsonSchema.Panel.SyncDisable | src/components/JsonSchema.tsx:76-78 | `disable` becomes Disabled of the current name and document |
| JsonSchema.Panel.HandleSchema | src/components/JsonSchema.tsx:84-92 | with an editor error only `disable` is raised; otherwise `disable` is cleared, `nullCheck` is whether the text is empty, and the document is the parsed value |
| JsonSchema.Panel.HandleSchemaClick | src/components/JsonSchema.tsx:94-98 | the name becomes the clicked name if an entry has it, else ""; the document becomes `{}`; while the data is undefined nothing changes |
| JsonSchema.EnterNameAndDocument | src/components/JsonSchema.tsx:76-92 | after a name is typed and an error-free document entered, with the `disable` effect run after each, the save button (`disable \|\| nullCheck`) is enabled exactly for a non-empty name, a truthy document and non-empty editor text |
| JsonSchema.SaveThenReloadAsWritten | src/components/JsonSchema.tsx:21-145 | mount, name, edit, click Save, reload: the listed names come back empty |
| JsonSchema.SaveThenReload | src/components/JsonSchema.tsx:21-145 | the same session with the storage-reading reload: with a non-empty name, a truthy document and non-empty editor text it lists the earlier names and then the trimmed new name and loads the entry as saved; otherwise the button is disabled and only the earlier names are listed |

## Left out

- Layout and widgets: the JSX/MUI layout, the dnd-kit sensors and gesture
  capture, `SortableItem.tsx`, `FieldDialog.tsx` and the three input widgets
  are presentation only. The edit and delete handlers that `SortableItem`
  calls are implemented by no file here, so they are not modelled.
- Input validation: the minimum, maximum and required messages that the
  number-field tests expect have no implementation in the code, so nothing
  here models them.
- Storage and I/O: `src/api/forms.tsx`, `src/custom-hooks/useFetch.tsx`,
  `JSON.stringify`/`JSON.parse`, console logging and the JSON editor component
  are not part of this model. Storage is an abstract map and the editor's
  output is a parameter.
- Page shell: `src/pages/Home.tsx` and `src/App.tsx` only toggle the mode.
  `FormMode` is modelled as a datatype only. The field list that `Home` owns
  and passes to the builder is modelled as a field of `Builder`.
- Effect scheduling: Promise chains, effect scheduling and React's batching of
  updates are left out. Every handler is one atomic step.
- Numbers: JSON numbers are integers here. NaN and other floating-point values
  are not modelled, so the truthiness of a number is `n != 0`.
- FormBuilder.Builder.HandleDragEnd: requires both title look-ups to succeed
  when the ids differ. The behaviour of `arrayMove` at index -1 belongs to
  `@dnd-kit/sortable`, which is not part of this model. A drop outside every
  item (`over` null) is not modelled either.
- FormBuilder.Builder.HandleDragEndBySortableId: requires both ids to be ids
  the list gave its items, which is what the drag library reports.
- FormBuilder.Builder.HandleOptionChange: requires an index below the option
  count, which is what the dialog supplies. A JavaScript array assignment past
  the end, which would leave holes, is not modelled.
- JsonSchema.Panel.SendJson: a failed storage read or write is a boolean
  parameter, because local storage is outside the model.

## Findings

| source | as written | input that shows it | evidently intended | confidence | as-written member | corrected member |
|---|---|---|---|---|---|---|
| src/components/FormBuilder.tsx:78-79 | the drop handler looks indices up with `item.title === active.id`, but the ids the sortable list gives its items (lines 121, 123) are `${title}-${index}` | fields titled "Name" and "Age": dropping id "Name-0" on id "Age-1" finds index -1 for both, so the dragged field is not the one moved | look the indices up among the sortable ids | high; not executed | FormBuilder.TitleLookupMissesSortableIds (with FormBuilder.Builder.HandleDragEnd) | FormBuilder.Builder.HandleDragEndBySortableId (with FormBuilder.SortableIdLookup) |
| src/components/JsonSchema.tsx:43-49 | the reload resolves an empty promise, so the data it stores is undefined and the saved-name list is always empty | save a document under "Survey", then let the reload run: the list shows nothing | read the list saved under "savedSchemas" and list its names | high; not executed | JsonSchema.SaveThenReloadAsWritten (with JsonSchema.Panel.GetAllData) | JsonSchema.SaveThenReload (with JsonSchema.Panel.LoadSavedSchemas) |

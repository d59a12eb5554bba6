/**
 * The schema page: a name and a JSON document edited side by side, saved as a
 * named entry appended to the list kept under the storage key "savedSchemas",
 * plus the saved-name list, its click and delete handlers and the flags that
 * enable the save button.
 */
module JsonSchema {
  import opened Wrappers
  import JsBuiltins

  /** A JavaScript value as the JSON editor hands it over; floating-point numbers are left out. */
  datatype Json =
    | Undefined
    | Null
    | Bool(b: bool)
    | Num(n: int)
    | Str(s: string)
    | Arr(elems: seq<Json>)
    | Obj(members: seq<(string, Json)>)

  /** JavaScript truthiness: undefined, null, false, 0 and "" are falsy; arrays and objects are truthy. */
  predicate Truthy(j: Json) {
    match j
    case Undefined => false
    case Null => false
    case Bool(b) => b
    case Num(n) => n != 0
    case Str(s) => s != ""
    case Arr(_) => true
    case Obj(_) => true
  }

  /** `{}` */
  const EmptyObject: Json := Obj([])

  /** `[]`, the document the page starts with. */
  const EmptyArray: Json := Arr([])

  /** One saved entry: the trimmed name and the document. */
  datatype SavedSchema = SavedSchema(name: string, fields: Json)

  /** The storage key the saved list lives under. */
  const SavedSchemasKey: string := "savedSchemas"

  /** The browser's local storage, abstracted as a map from keys to saved lists. */
  type Storage = map<string, seq<SavedSchema>>

  /** The saved list, read as `getItem(key) || '[]'`: a missing key reads as the empty list. */
  function SavedList(store: Storage): (saved: seq<SavedSchema>)
    ensures SavedSchemasKey !in store ==> saved == []
  {
    if SavedSchemasKey in store then store[SavedSchemasKey] else []
  }

  /**
   * The storage after one entry is pushed onto the saved list and written
   * back: the list gains exactly that entry at its end, whatever names it
   * already holds, and no other key changes.
   */
  function AppendSchema(store: Storage, entry: SavedSchema): (r: Storage)
    ensures SavedList(r) == SavedList(store) + [entry]
    ensures r - {SavedSchemasKey} == store - {SavedSchemasKey}
  {
    store[SavedSchemasKey := SavedList(store) + [entry]]
  }

  /** The names of the entries, in order (`data.map(item => item.name)`). */
  function Names(entries: seq<SavedSchema>): (ns: seq<string>)
    ensures |ns| == |entries|
  {
    seq(|entries|, k requires 0 <= k < |entries| => entries[k].name)
  }

  /** The names listed for the loaded data: none while the data is undefined. */
  function ListedNames(data: Option<seq<SavedSchema>>): (ns: seq<string>)
    ensures data.None? ==> ns == []
  {
    match data
    case Some(entries) => Names(entries)
    case None => []
  }

  /** Saving under a name already saved adds a second entry of that name; nothing is merged. */
  lemma DuplicateNamesKept(store: Storage, entry: SavedSchema)
    ensures multiset(Names(SavedList(AppendSchema(store, entry))))[entry.name] ==
            multiset(Names(SavedList(store)))[entry.name] + 1
  {
    assert Names(SavedList(store) + [entry]) == Names(SavedList(store)) + [entry.name];
  }

  /**
   * `entries.find(el => el.name === name)`: nothing when no entry has that
   * name; otherwise the first entry that has it.
   */
  function FindByName(entries: seq<SavedSchema>, name: string): (r: Option<SavedSchema>)
    ensures r.None? <==> name !in Names(entries)
    ensures r.Some? ==> r.value.name == name
    ensures r.Some? ==> exists i :: 0 <= i < |entries| && entries[i] == r.value && name !in Names(entries)[..i]
  {
    var i := JsBuiltins.FindIndex(Names(entries), name);
    if i < 0 then None else Some(entries[i])
  }

  /**
   * The effect that computes `disable` from the untrimmed name and the
   * document: saving is disabled for an empty name or a falsy document.
   */
  function Disabled(schemaName: string, json: Json): bool {
    schemaName == "" || !Truthy(json)
  }

  /**
   * A name made only of white space passes the check, since the check is on
   * the untrimmed name, and is saved as the empty name.
   */
  lemma WhiteSpaceNameSavedEmpty(schemaName: string, json: Json)
    requires schemaName != "" && Truthy(json)
    requires forall k :: 0 <= k < |schemaName| ==> JsBuiltins.IsWhiteSpace(schemaName[k])
    ensures !Disabled(schemaName, json)
    ensures SavedSchema(JsBuiltins.Trim(schemaName), json).name == ""
  {
    JsBuiltins.TrimEmpty(schemaName);
  }

  /** What the JSON editor reports on a change: whether it has an error, its text and the parsed value. */
  datatype EditorChange = EditorChange(error: bool, text: string, jsObject: Json)

  /** The page's state; `storage` stands for the browser's local storage. */
  class Panel {
    var json: Json
    var schemaName: string
    var schemaList: seq<string>
    var disable: bool
    var allData: Option<seq<SavedSchema>>
    var val: bool
    var nullCheck: bool
    var isSavingSchema: bool
    var isDeletingSchema: seq<string>
    var storage: Storage

    /** Between handlers: the listed names are those of the loaded data, and no save is in progress. */
    ghost predicate Valid()
      reads this
    {
      schemaList == ListedNames(allData) && !isSavingSchema
    }

    /** The page as first shown, over the given storage. */
    constructor (store: Storage)
      ensures Valid()
      ensures json == EmptyArray && schemaName == "" && schemaList == [] && !disable
      ensures allData == Some([]) && !val && !nullCheck && isDeletingSchema == [] && storage == store
    {
      json := EmptyArray;
      schemaName := "";
      schemaList := [];
      disable := false;
      allData := Some([]);
      val := false;
      nullCheck := false;
      isSavingSchema := false;
      isDeletingSchema := [];
      storage := store;
    }

    /**
     * "Save Schema". The entry saved is the trimmed name held in the page's
     * state (the `name` argument is not used) with the current document. When
     * the storage accepts the write, the entry is appended and `val` flips; when
     * it fails, the storage is unchanged. The saving flag is down on both paths.
     */
    method SendJson(name: string, writeFails: bool)
      requires Valid()
      modifies this
      ensures Valid()
      ensures storage == (if writeFails then old(storage)
                          else AppendSchema(old(storage), SavedSchema(JsBuiltins.Trim(old(schemaName)), old(json))))
      ensures val == (if writeFails then old(val) else !old(val))
      ensures !isSavingSchema
      ensures json == old(json) && schemaName == old(schemaName) && schemaList == old(schemaList)
      ensures disable == old(disable) && allData == old(allData) && nullCheck == old(nullCheck)
      ensures isDeletingSchema == old(isDeletingSchema)
    {
      isSavingSchema := true;
      if writeFails {
        isSavingSchema := false;
      } else {
        var savedSchemas := SavedList(storage);
        var newSchema := SavedSchema(JsBuiltins.Trim(schemaName), json);
        savedSchemas := savedSchemas + [newSchema];
        storage := storage[SavedSchemasKey := savedSchemas];
        isSavingSchema := false;
        val := !val;
      }
    }

    /**
     * A click on "Save Schema". The button is disabled while `disable` or
     * `nullCheck` is set, and then the click changes nothing; otherwise it
     * saves the name held in the page's state with the current document.
     */
    method SaveClick(writeFails: bool)
      requires Valid()
      modifies this
      ensures Valid()
      ensures old(disable) || old(nullCheck) ==> storage == old(storage) && val == old(val)
      ensures !old(disable) && !old(nullCheck) ==>
        storage == (if writeFails then old(storage)
                    else AppendSchema(old(storage), SavedSchema(JsBuiltins.Trim(old(schemaName)), old(json))))
      ensures !old(disable) && !old(nullCheck) ==> val == (if writeFails then old(val) else !old(val))
      ensures json == old(json) && schemaName == old(schemaName) && schemaList == old(schemaList)
      ensures disable == old(disable) && allData == old(allData) && nullCheck == old(nullCheck)
      ensures isDeletingSchema == old(isDeletingSchema)
    {
      if !disable && !nullCheck {
        SendJson(schemaName, writeFails);
      }
    }

    /**
     * The reload run whenever `val` changes, as written: it resolves an empty
     * promise, so the loaded data is undefined and the name list is empty,
     * whatever the storage holds.
     */
    method GetAllData()
      requires Valid()
      modifies this
      ensures Valid()
      ensures allData == None && schemaList == []
      ensures storage == old(storage) && json == old(json) && schemaName == old(schemaName)
      ensures disable == old(disable) && val == old(val) && nullCheck == old(nullCheck)
      ensures isDeletingSchema == old(isDeletingSchema)
    {
      allData := None;
      schemaList := [];
    }

    /** The reload reading the saved list from storage, and listing its names in order. */
    method LoadSavedSchemas()
      requires Valid()
      modifies this
      ensures Valid()
      ensures allData == Some(SavedList(storage)) && schemaList == Names(SavedList(storage))
      ensures storage == old(storage) && json == old(json) && schemaName == old(schemaName)
      ensures disable == old(disable) && val == old(val) && nullCheck == old(nullCheck)
      ensures isDeletingSchema == old(isDeletingSchema)
    {
      var saved := SavedList(storage);
      allData := Some(saved);
      schemaList := Names(saved);
    }

    /**
     * "Delete" on the entry named `curr`. The name is marked as being deleted;
     * the entry is looked up in the loaded data, which throws while that data
     * is undefined and leaves the mark behind. Otherwise the mark is taken off
     * again (every occurrence of the name), `val` flips, and the name and
     * document are cleared. Neither the storage nor the loaded list changes.
     */
    method DeleteSchema(curr: string)
      requires Valid()
      modifies this
      ensures Valid()
      ensures storage == old(storage) && allData == old(allData) && schemaList == old(schemaList)
      ensures disable == old(disable) && nullCheck == old(nullCheck)
      ensures allData.None? ==> isDeletingSchema == old(isDeletingSchema) + [curr]
      ensures allData.None? ==> val == old(val) && schemaName == old(schemaName) && json == old(json)
      ensures allData.Some? ==> isDeletingSchema == JsBuiltins.RemoveAll(old(isDeletingSchema), curr)
      ensures allData.Some? ==> curr !in isDeletingSchema
      ensures allData.Some? ==> val == !old(val) && schemaName == "" && json == EmptyObject
    {
      var marked := isDeletingSchema + [curr];
      if allData.Some? {
        var unmarked := JsBuiltins.RemoveAll(marked, curr);
        JsBuiltins.RemoveAllAppended(isDeletingSchema, curr);
        isDeletingSchema := unmarked;
        val := !val;
        schemaName := "";
        json := EmptyObject;
      } else {
        isDeletingSchema := marked;
      }
    }

    /** The name input changed. */
    method HandleSchemaName(value: string)
      requires Valid()
      modifies this
      ensures Valid()
      ensures schemaName == value
      ensures storage == old(storage) && allData == old(allData) && schemaList == old(schemaList)
      ensures json == old(json) && disable == old(disable) && nullCheck == old(nullCheck)
      ensures val == old(val) && isDeletingSchema == old(isDeletingSchema)
    {
      schemaName := value;
    }

    /** "Clear Schema": the document becomes `{}`. */
    method ClearSchema()
      requires Valid()
      modifies this
      ensures Valid()
      ensures json == EmptyObject
      ensures storage == old(storage) && allData == old(allData) && schemaList == old(schemaList)
      ensures schemaName == old(schemaName) && disable == old(disable) && nullCheck == old(nullCheck)
      ensures val == old(val) && isDeletingSchema == old(isDeletingSchema)
    {
      json := EmptyObject;
    }

    /** The effect run after the name or the document changes: it recomputes `disable`. */
    method SyncDisable()
      requires Valid()
      modifies this
      ensures Valid()
      ensures disable == Disabled(schemaName, json)
      ensures storage == old(storage) && allData == old(allData) && schemaList == old(schemaList)
      ensures json == old(json) && schemaName == old(schemaName) && nullCheck == old(nullCheck)
      ensures val == old(val) && isDeletingSchema == old(isDeletingSchema)
    {
      disable := Disabled(schemaName, json);
    }

    /**
     * The editor changed. With an error only `disable` is raised and the
     * document and `nullCheck` keep their values; otherwise `disable` is
     * cleared, `nullCheck` records whether the editor text is empty, and the
     * parsed value becomes the document.
     */
    method HandleSchema(data: EditorChange)
      requires Valid()
      modifies this
      ensures Valid()
      ensures data.error ==> disable && json == old(json) && nullCheck == old(nullCheck)
      ensures !data.error ==> !disable && nullCheck == (data.text == "") && json == data.jsObject
      ensures storage == old(storage) && allData == old(allData) && schemaList == old(schemaList)
      ensures schemaName == old(schemaName) && val == old(val) && isDeletingSchema == old(isDeletingSchema)
    {
      if data.error {
        disable := true;
        return;
      } else {
        disable := false;
      }
      nullCheck := data.text == "";
      json := data.jsObject;
    }

    /**
     * A click on the saved name `clicked`. The first loaded entry of that name
     * is selected: the name becomes its name, or "" when no entry has it. The
     * document becomes `{}` either way, since it is parsed from a `dataBlob`
     * attribute that saved entries do not have. While the loaded data is
     * undefined the look-up throws and nothing changes.
     */
    method HandleSchemaClick(clicked: string)
      requires Valid()
      modifies this
      ensures Valid()
      ensures allData.Some? ==> schemaName == (if clicked in Names(allData.value) then clicked else "")
      ensures allData.Some? ==> json == EmptyObject
      ensures allData.None? ==> schemaName == old(schemaName) && json == old(json)
      ensures storage == old(storage) && allData == old(allData) && schemaList == old(schemaList)
      ensures disable == old(disable) && nullCheck == old(nullCheck)
      ensures val == old(val) && isDeletingSchema == old(isDeletingSchema)
    {
      if allData.Some? {
        var schemaData := FindByName(allData.value, clicked);
        schemaName := if schemaData.Some? then schemaData.value.name else "";
        json := EmptyObject;
      }
    }
  }

  /** Whether the save button is enabled once the name and an error-free editor text are entered. */
  predicate SaveEnabled(name: string, text: string, doc: Json) {
    name != "" && Truthy(doc) && text != ""
  }

  /**
   * The user types a name and enters a document without an editor error; the
   * `disable` effect runs after each. The button is then enabled exactly for
   * a non-empty name, a truthy document and non-empty editor text.
   */
  method EnterNameAndDocument(page: Panel, name: string, text: string, doc: Json)
    requires page.Valid()
    modifies page
    ensures page.Valid()
    ensures page.schemaName == name && page.json == doc
    ensures (!page.disable && !page.nullCheck) == SaveEnabled(name, text, doc)
    ensures page.storage == old(page.storage) && page.allData == old(page.allData)
    ensures page.schemaList == old(page.schemaList) && page.val == old(page.val)
  {
    page.HandleSchemaName(name);
    page.SyncDisable();
    page.HandleSchema(EditorChange(false, text, doc));
    page.SyncDisable();
  }

  /**
   * A user session as the page is written: the page mounts and runs its
   * reload, the user types a name, enters a document and clicks "Save Schema",
   * and the reload runs again if the save flipped `val`. The saved-name list
   * comes back empty.
   */
  method SaveThenReloadAsWritten(store: Storage, name: string, text: string, doc: Json)
    returns (listed: seq<string>)
    ensures listed == []
  {
    var page := new Panel(store);
    page.GetAllData();
    EnterNameAndDocument(page, name, text, doc);
    var before := page.val;
    page.SaveClick(false);
    if page.val != before {
      page.GetAllData();
    }
    listed := page.schemaList;
  }

  /**
   * The same session with the reload reading the storage. When the button is
   * enabled (a non-empty name, a truthy document and non-empty editor text),
   * the list shows the earlier names followed by the trimmed new name, and the
   * loaded data ends with the saved entry; otherwise the click saves nothing
   * and the list shows the earlier names only.
   */
  method SaveThenReload(store: Storage, name: string, text: string, doc: Json)
    returns (listed: seq<string>, loaded: seq<SavedSchema>)
    ensures SaveEnabled(name, text, doc) ==> listed == Names(SavedList(store)) + [JsBuiltins.Trim(name)]
    ensures SaveEnabled(name, text, doc) ==> loaded == SavedList(store) + [SavedSchema(JsBuiltins.Trim(name), doc)]
    ensures !SaveEnabled(name, text, doc) ==> listed == Names(SavedList(store)) && loaded == SavedList(store)
  {
    var page := new Panel(store);
    page.LoadSavedSchemas();
    EnterNameAndDocument(page, name, text, doc);
    var before := page.val;
    page.SaveClick(false);
    if page.val != before {
      page.LoadSavedSchemas();
      assert Names(SavedList(store) + [SavedSchema(JsBuiltins.Trim(name), doc)]) ==
             Names(SavedList(store)) + [JsBuiltins.Trim(name)];
    }
    listed := page.schemaList;
    loaded := page.allData.value;
  }
}

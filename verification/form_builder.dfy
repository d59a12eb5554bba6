/**
 * The form builder: the ordered list of fields of the form being built, the
 * draft field edited in the "Add New Field" dialog, and the handlers that edit
 * the draft, save it into the list and reorder the list by drag and drop.
 */
module FormBuilder {
  import opened Wrappers
  import opened FieldTypes
  import JsBuiltins
  import ArrayMove

  /** The builder offers no "Add Option" once a draft has this many options. */
  const MaxOptions: nat := 5

  /** The draft the dialog starts from and is reset to after every save. */
  const DefaultField: Field := Field(FieldTypeTag(Text), "", false, false, "", Some([]))

  /** A field as the builder produces it: it carries an option list of at most five entries. */
  predicate OptionsCapped(f: Field) {
    f.options.Some? && |f.options.value| <= MaxOptions
  }

  /** The dialog's text inputs, by their `name` attribute. */
  datatype TextAttribute = Title | HelperText

  /** The dialog's checkboxes, by their `name` attribute. */
  datatype FlagAttribute = Required | Hidden

  /**
   * What a change event of the dialog carries to the change handler: a text
   * input's name and value, or a checkbox's name and checked state.
   */
  datatype ChangeEvent =
    | TextInput(textName: TextAttribute, value: string)
    | Checkbox(flagName: FlagAttribute, checked: bool)

  /**
   * The draft after a change event: the attribute the event names takes the
   * event's value (its checked state for a checkbox); every other attribute,
   * the type and the options included, is unchanged.
   */
  function ApplyChange(f: Field, e: ChangeEvent): (r: Field)
    ensures r.typeTag == f.typeTag && r.options == f.options
    ensures r.title == (if e.TextInput? && e.textName == Title then e.value else f.title)
    ensures r.helperText == (if e.TextInput? && e.textName == HelperText then e.value else f.helperText)
    ensures r.required == (if e.Checkbox? && e.flagName == Required then e.checked else f.required)
    ensures r.hidden == (if e.Checkbox? && e.flagName == Hidden then e.checked else f.hidden)
  {
    match e
    case TextInput(Title, v) => f.(title := v)
    case TextInput(HelperText, v) => f.(helperText := v)
    case Checkbox(Required, c) => f.(required := c)
    case Checkbox(Hidden, c) => f.(hidden := c)
  }

  /**
   * The draft after "Add Option": an empty option is appended when the draft
   * has an option list shorter than five; otherwise nothing changes. No other
   * attribute changes, and a list within the cap stays within it.
   */
  function AddOption(f: Field): (r: Field)
    ensures r.(options := f.options) == f
    ensures f.options.Some? && |f.options.value| < MaxOptions ==> r.options == Some(f.options.value + [""])
    ensures f.options.None? || |f.options.value| >= MaxOptions ==> r == f
    ensures OptionsCapped(f) ==> OptionsCapped(r)
  {
    if f.options.Some? && |f.options.value| < MaxOptions then
      f.(options := Some(f.options.value + [""]))
    else
      f
  }

  /** The draft after `n` clicks on "Add Option". */
  function AddOptionTimes(f: Field, n: nat): Field
    decreases n
  {
    if n == 0 then f else AddOptionTimes(AddOption(f), n - 1)
  }

  function Min(a: nat, b: nat): nat {
    if a <= b then a else b
  }

  /**
   * However often "Add Option" is clicked, the option list grows by empty
   * entries up to five and no further; the existing options are kept.
   */
  lemma {:induction false} AddOptionTimesCapped(f: Field, n: nat)
    requires OptionsCapped(f)
    decreases n
    ensures OptionsCapped(AddOptionTimes(f, n))
    ensures AddOptionTimes(f, n).(options := f.options) == f
    ensures |AddOptionTimes(f, n).options.value| == Min(|f.options.value| + n, MaxOptions)
    ensures AddOptionTimes(f, n).options.value[..|f.options.value|] == f.options.value
    ensures forall k :: |f.options.value| <= k < |AddOptionTimes(f, n).options.value| ==>
      AddOptionTimes(f, n).options.value[k] == ""
  {
    if n > 0 {
      var g := AddOption(f);
      AddOptionTimesCapped(g, n - 1);
      var opts := AddOptionTimes(f, n).options.value;
      if |f.options.value| < MaxOptions {
        assert opts[..|g.options.value|] == g.options.value;
        assert opts[..|f.options.value|] == g.options.value[..|f.options.value|];
      }
    }
  }

  /**
   * The draft after option `index` is edited: that option takes `value`, the
   * list keeps its length and every other option, and nothing else changes.
   */
  function SetOption(f: Field, index: nat, value: string): (r: Field)
    requires f.options.Some? && index < |f.options.value|
    ensures r.(options := f.options) == f
    ensures r.options.Some? && |r.options.value| == |f.options.value|
    ensures r.options.value[index] == value
    ensures forall k :: 0 <= k < |f.options.value| && k != index ==> r.options.value[k] == f.options.value[k]
  {
    f.(options := Some(f.options.value[index := value]))
  }

  /** The titles of the fields, in list order. */
  function Titles(fields: seq<Field>): (ts: seq<string>)
    ensures |ts| == |fields|
  {
    seq(|fields|, k requires 0 <= k < |fields| => fields[k].title)
  }

  /** The id the sortable list gives the field at `index`: its title, a dash and the index. */
  function SortableId(title: string, index: nat): (id: string)
    ensures |id| > |title| + 1 && id[..|title|] == title && id[|title|] == '-'
    ensures id[|title| + 1..] == JsBuiltins.NatToString(index)
  {
    title + "-" + JsBuiltins.NatToString(index)
  }

  /** The ids of the sortable list, in list order. */
  function SortableIds(fields: seq<Field>): (ids: seq<string>)
    ensures |ids| == |fields|
  {
    seq(|fields|, k requires 0 <= k < |fields| => SortableId(fields[k].title, k))
  }

  /**
   * Sortable ids are unambiguous: the index follows the last dash and has no
   * dash in it, so equal ids have equal titles and equal indices.
   */
  lemma SortableIdInjective(t1: string, i: nat, t2: string, j: nat)
    requires SortableId(t1, i) == SortableId(t2, j)
    ensures t1 == t2 && i == j
  {
    var s := SortableId(t1, i);
    var d1, d2 := JsBuiltins.NatToString(i), JsBuiltins.NatToString(j);
    NoDashAfterSeparator(t1, i);
    NoDashAfterSeparator(t2, j);
    assert |t1| == |t2|;
    assert t1 == s[..|t1|] == t2;
    assert d1 == s[|t1| + 1..] == d2;
    JsBuiltins.NatToStringInjective(i, j);
  }

  /** The separating dash is the last dash of a sortable id. */
  lemma NoDashAfterSeparator(title: string, index: nat)
    ensures forall k :: |title| < k < |SortableId(title, index)| ==> SortableId(title, index)[k] != '-'
  {
    var d := JsBuiltins.NatToString(index);
    assert forall k :: |title| < k < |SortableId(title, index)| ==> SortableId(title, index)[k] == d[k - |title| - 1];
  }

  /** Looking up the sortable id of the field at `k` finds index `k`. */
  lemma SortableIdLookup(fields: seq<Field>, k: nat)
    requires k < |fields|
    ensures JsBuiltins.FindIndex(SortableIds(fields), SortableIds(fields)[k]) == k
  {
    var ids := SortableIds(fields);
    var r := JsBuiltins.FindIndex(ids, ids[k]);
    assert ids[..k + 1][k] == ids[k];
    if r < k {
      SortableIdInjective(fields[r].title, r, fields[k].title, k);
    }
  }

  /**
   * Looking a sortable id up among the titles, as the drop handler does,
   * finds nothing whenever no title contains a dash: every id contains one.
   */
  lemma TitleLookupMissesSortableIds(fields: seq<Field>)
    requires forall f :: f in fields ==> '-' !in f.title
    ensures forall k :: 0 <= k < |fields| ==> JsBuiltins.FindIndex(Titles(fields), SortableIds(fields)[k]) == -1
  {
    forall k | 0 <= k < |fields|
      ensures SortableIds(fields)[k] !in Titles(fields)
    {
      var id := SortableIds(fields)[k];
      assert id == SortableId(fields[k].title, k);
      forall m | 0 <= m < |fields| ensures Titles(fields)[m] != id {
        assert fields[m] in fields;
      }
    }
  }

  /**
   * The builder's state: the ordered field list, the draft of the dialog and
   * whether the dialog is open.
   */
  class Builder {
    var fields: seq<Field>
    var draft: Field
    var showModal: bool

    /** The draft, and every field saved from a draft, has at most five options. */
    ghost predicate Valid()
      reads this
    {
      OptionsCapped(draft) && forall f :: f in fields ==> OptionsCapped(f)
    }

    /** The builder of a new form: no fields, the default draft, the dialog closed. */
    constructor ()
      ensures Valid()
      ensures fields == [] && draft == DefaultField && !showModal
    {
      fields := [];
      draft := DefaultField;
      showModal := false;
    }

    /** "Add Field": opens the dialog on the current draft. */
    method HandleAddFieldClick()
      requires Valid()
      modifies this
      ensures Valid()
      ensures showModal && fields == old(fields) && draft == old(draft)
    {
      showModal := true;
    }

    /** "Cancel" or closing the dialog: the draft is kept as it is, not reset. */
    method CloseDialog()
      requires Valid()
      modifies this
      ensures Valid()
      ensures !showModal && fields == old(fields) && draft == old(draft)
    {
      showModal := false;
    }

    /** A text input or checkbox of the dialog changed: only the attribute it names changes. */
    method HandleFieldChange(e: ChangeEvent)
      requires Valid()
      modifies this
      ensures Valid()
      ensures draft == ApplyChange(old(draft), e)
      ensures fields == old(fields) && showModal == old(showModal)
    {
      draft := ApplyChange(draft, e);
    }

    /**
     * The type select changed to `value`: only the type changes; options set
     * under an earlier type stay in place.
     */
    method HandleFieldTypeChange(value: string)
      requires Valid()
      modifies this
      ensures Valid()
      ensures draft == old(draft).(typeTag := value)
      ensures draft.options == old(draft.options)
      ensures fields == old(fields) && showModal == old(showModal)
    {
      draft := draft.(typeTag := value);
    }

    /**
     * Option `index` was edited to `value`; the dialog only offers indices of
     * existing options.
     */
    method HandleOptionChange(index: nat, value: string)
      requires Valid()
      requires index < |draft.options.value|
      modifies this
      ensures Valid()
      ensures draft == SetOption(old(draft), index, value)
      ensures fields == old(fields) && showModal == old(showModal)
    {
      var newOptions := draft.options.value;
      newOptions := newOptions[index := value];
      draft := draft.(options := Some(newOptions));
    }

    /** "Add Option": appends an empty option while there are fewer than five. */
    method HandleAddOption()
      requires Valid()
      modifies this
      ensures Valid()
      ensures draft == AddOption(old(draft))
      ensures |draft.options.value| == Min(|old(draft).options.value| + 1, MaxOptions)
      ensures fields == old(fields) && showModal == old(showModal)
    {
      if draft.options.Some? && |draft.options.value| < MaxOptions {
        draft := draft.(options := Some(draft.options.value + [""]));
      }
    }

    /**
     * "Save Field": the draft, whatever it holds (no attribute is checked),
     * becomes the new last field; earlier fields are unchanged; the dialog
     * closes and the draft returns to the default.
     */
    method HandleSaveField()
      requires Valid()
      modifies this
      ensures Valid()
      ensures |fields| == |old(fields)| + 1
      ensures fields[..|old(fields)|] == old(fields) && fields[|old(fields)|] == old(draft)
      ensures draft == DefaultField && !showModal
    {
      fields := fields + [draft];
      showModal := false;
      draft := DefaultField;
    }

    /**
     * A drop of the item with id `activeId` over the item with id `overId`,
     * with the indices looked up among the titles, as the source does. A drop
     * on the item itself changes nothing. The move itself is defined only for
     * ids that are found.
     */
    method HandleDragEnd(activeId: string, overId: string)
      requires Valid()
      requires activeId != overId ==> activeId in Titles(fields) && overId in Titles(fields)
      modifies this
      ensures Valid()
      ensures activeId == overId ==> fields == old(fields)
      ensures activeId != overId ==>
        fields == ArrayMove.Move(old(fields),
                                 JsBuiltins.FindIndex(Titles(old(fields)), activeId) as nat,
                                 JsBuiltins.FindIndex(Titles(old(fields)), overId) as nat)
      ensures multiset(fields) == multiset(old(fields))
      ensures draft == old(draft) && showModal == old(showModal)
    {
      if activeId != overId {
        var oldIndex := JsBuiltins.FindIndex(Titles(fields), activeId);
        var newIndex := JsBuiltins.FindIndex(Titles(fields), overId);
        MoveKeepsCapped(fields, oldIndex as nat, newIndex as nat);
        fields := ArrayMove.Move(fields, oldIndex as nat, newIndex as nat);
      }
    }

    /**
     * A drop with the indices looked up among the sortable ids the list
     * actually gives its items: the item dragged is moved to the index of the
     * item it was dropped on (see SortableIdLookup).
     */
    method HandleDragEndBySortableId(activeId: string, overId: string)
      requires Valid()
      requires activeId in SortableIds(fields) && overId in SortableIds(fields)
      modifies this
      ensures Valid()
      ensures activeId == overId ==> fields == old(fields)
      ensures activeId != overId ==>
        fields == ArrayMove.Move(old(fields),
                                 JsBuiltins.FindIndex(SortableIds(old(fields)), activeId) as nat,
                                 JsBuiltins.FindIndex(SortableIds(old(fields)), overId) as nat)
      ensures multiset(fields) == multiset(old(fields))
      ensures draft == old(draft) && showModal == old(showModal)
    {
      if activeId != overId {
        var oldIndex := JsBuiltins.FindIndex(SortableIds(fields), activeId);
        var newIndex := JsBuiltins.FindIndex(SortableIds(fields), overId);
        MoveKeepsCapped(fields, oldIndex as nat, newIndex as nat);
        fields := ArrayMove.Move(fields, oldIndex as nat, newIndex as nat);
      }
    }
  }

  /** A move neither adds nor drops a field, so every field stays within the option cap. */
  lemma MoveKeepsCapped(fields: seq<Field>, from: nat, to: nat)
    requires from < |fields| && to < |fields|
    requires forall f :: f in fields ==> OptionsCapped(f)
    ensures forall f :: f in ArrayMove.Move(fields, from, to) ==> OptionsCapped(f)
  {
    var r := ArrayMove.Move(fields, from, to);
    forall f | f in r ensures OptionsCapped(f) {
      assert f in multiset(r);
    }
  }
}

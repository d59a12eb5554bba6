/**
 * The preview: the field list mapped, in order, to one widget per visible
 * field of a known type, and to nothing for the others.
 */
module FormRenderer {
  import opened Wrappers
  import opened FieldTypes

  /** The three input components the preview can show. */
  datatype WidgetKind = TextWidget | NumberWidget | SelectWidget

  /** One rendered input: its list key (the field's index), its component and the field it shows. */
  datatype Widget = Widget(key: nat, kind: WidgetKind, field: Field)

  /** The component that shows each field type. */
  function KindFor(t: FieldType): WidgetKind {
    match t
    case Text => TextWidget
    case Number => NumberWidget
    case Select => SelectWidget
  }

  /** A field the preview shows: not hidden, and of one of the three known types. */
  predicate Renderable(f: Field) {
    !f.hidden && ParseFieldType(f.typeTag).Some?
  }

  /**
   * What the field at `index` renders as: nothing when hidden; otherwise the
   * text, number or select component for the tags "text", "number" and
   * "select"; nothing for any other tag.
   */
  function RenderField(f: Field, index: nat): (r: Option<Widget>)
    ensures r.Some? <==> Renderable(f)
    ensures f.hidden ==> r == None
    ensures !f.hidden && f.typeTag == "text" ==> r == Some(Widget(index, TextWidget, f))
    ensures !f.hidden && f.typeTag == "number" ==> r == Some(Widget(index, NumberWidget, f))
    ensures !f.hidden && f.typeTag == "select" ==> r == Some(Widget(index, SelectWidget, f))
    ensures f.typeTag != "text" && f.typeTag != "number" && f.typeTag != "select" ==> r == None
  {
    if f.hidden then None
    else
      match ParseFieldType(f.typeTag)
      case Some(t) => Some(Widget(index, KindFor(t), f))
      case None => None
  }

  /** `fields.map(...)`: one entry per field, in list order, each the field rendered at its index. */
  function RenderFields(fields: seq<Field>): (out: seq<Option<Widget>>)
    ensures |out| == |fields|
  {
    seq(|fields|, i requires 0 <= i < |fields| => RenderField(fields[i], i))
  }

  /** What appears on screen: the widgets of the list, in order, with the nulls dropped. */
  function Shown(out: seq<Option<Widget>>): seq<Widget> {
    if out == [] then []
    else Shown(out[..|out| - 1]) + (if out[|out| - 1].Some? then [out[|out| - 1].value] else [])
  }

  /** The renderable fields, in list order. */
  function RenderableFields(fields: seq<Field>): seq<Field> {
    if fields == [] then []
    else RenderableFields(fields[..|fields| - 1]) + (if Renderable(fields[|fields| - 1]) then [fields[|fields| - 1]] else [])
  }

  /** The fields the widgets show, in order. */
  function FieldsOf(ws: seq<Widget>): (fs: seq<Field>)
    ensures |fs| == |ws|
  {
    seq(|ws|, i requires 0 <= i < |ws| => ws[i].field)
  }

  /** Rendering a longer list renders its prefix the same way. */
  lemma RenderFieldsPrefix(fields: seq<Field>)
    requires fields != []
    ensures RenderFields(fields) ==
      RenderFields(fields[..|fields| - 1]) + [RenderField(fields[|fields| - 1], |fields| - 1)]
  {
  }

  /**
   * The preview shows exactly the visible fields of a known type, each once,
   * in list order, each with the component its type calls for; the keys of
   * the shown widgets are their fields' indices, so they increase strictly.
   */
  lemma {:induction false} ShownAreRenderable(fields: seq<Field>)
    ensures FieldsOf(Shown(RenderFields(fields))) == RenderableFields(fields)
    ensures forall w :: w in Shown(RenderFields(fields)) ==>
      w.key < |fields| && fields[w.key] == w.field && ParseFieldType(w.field.typeTag).Some? &&
      w.kind == KindFor(ParseFieldType(w.field.typeTag).value)
    ensures forall i, j :: 0 <= i < j < |Shown(RenderFields(fields))| ==>
      Shown(RenderFields(fields))[i].key < Shown(RenderFields(fields))[j].key
  {
    if fields != [] {
      var n := |fields| - 1;
      var prefix := fields[..n];
      ShownAreRenderable(prefix);
      RenderFieldsPrefix(fields);
      var out := RenderFields(fields);
      assert out[..|out| - 1] == RenderFields(prefix);
      var before := Shown(RenderFields(prefix));
      var last := RenderField(fields[n], n);
      if last.Some? {
        assert Shown(out) == before + [last.value];
        assert FieldsOf(before + [last.value]) == FieldsOf(before) + [fields[n]];
      } else {
        assert Shown(out) == before;
      }
    }
  }

  /** The number of widgets shown is the number of visible fields of a known type. */
  lemma ShownCount(fields: seq<Field>)
    ensures |Shown(RenderFields(fields))| == |RenderableFields(fields)|
  {
    ShownAreRenderable(fields);
  }
}

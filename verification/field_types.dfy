/**
 * The field data model: the builder/preview mode, the closed enumeration of
 * field types with their string tags, and the field record.
 */
module FieldTypes {
  import opened Wrappers

  /** The two screens of the application: building a form or previewing it. */
  datatype FormMode = Build | Preview

  /** The string literal each mode is written as. */
  function FormModeTag(m: FormMode): string {
    match m
    case Build => "build"
    case Preview => "preview"
  }

  /** Reads a mode back from its string literal; any other string is not a mode. */
  function ParseFormMode(s: string): (r: Option<FormMode>)
    ensures forall m :: r == Some(m) <==> FormModeTag(m) == s
    ensures r.Some? <==> s == "build" || s == "preview"
  {
    if s == "build" then Some(Build)
    else if s == "preview" then Some(Preview)
    else None
  }

  /** The three kinds of input a form field can be. */
  datatype FieldType = Text | Number | Select

  /** The string value of each enumeration member. */
  function FieldTypeTag(t: FieldType): string {
    match t
    case Text => "text"
    case Number => "number"
    case Select => "select"
  }

  /**
   * Reads a field type back from its string value: exactly the three tags are
   * recognised, and each one gives back the member it came from.
   */
  function ParseFieldType(s: string): (r: Option<FieldType>)
    ensures forall t :: r == Some(t) <==> FieldTypeTag(t) == s
    ensures r.Some? <==> s == "text" || s == "number" || s == "select"
  {
    if s == "text" then Some(Text)
    else if s == "number" then Some(Number)
    else if s == "select" then Some(Select)
    else None
  }

  /** Distinct field types have distinct tags. */
  lemma FieldTypeTagInjective(a: FieldType, b: FieldType)
    ensures FieldTypeTag(a) == FieldTypeTag(b) ==> a == b
  {
    assert ParseFieldType(FieldTypeTag(a)) == Some(a);
  }

  /**
   * One form field. `typeTag` holds the run-time value of the field's `type`
   * attribute: it is declared as a `FieldType`, but it is filled from an unchecked
   * cast of a select box's value, so any string can reach it. `options` is the
   * optional list of choices of a select field.
   */
  datatype Field = Field(
    typeTag: string,
    title: string,
    required: bool,
    hidden: bool,
    helperText: string,
    options: Option<seq<string>>)
}

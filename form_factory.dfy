/**
 * The form-field factory: which input widget a schema property gets, how it
 * is wrapped, when its error is shown, how a widget writes its value back
 * into the form, and the rules of the entity-id field.
 */
module FormFactory {
  import opened Wrappers
  import opened JsValues

  // ---------------------------------------------------------------------
  // Schema properties
  // ---------------------------------------------------------------------

  /** A user-supplied field component, known here only by its name. */
  datatype Component = Component(name: string)

  /**
   * The parts of a property's `config` the factory looks at. A missing
   * `config` is the default with nothing set; `enumValues` and `storageMeta`
   * are objects, so only their presence matters.
   */
  datatype FieldConfig = FieldConfig(
    field: Option<Component>,
    enumValues: bool,
    storageMeta: bool,
    markdown: bool)

  /**
   * A property's data type; an array always describes its elements (`of`).
   * `OtherType` stands for any data type the factory has no branch for; its
   * `name` is none of the seven names below (see `KnownTypeName`).
   */
  datatype DataType =
    | StringType
    | NumberType
    | BooleanType
    | TimestampType
    | ReferenceType
    | MapType
    | ArrayOf(of: Property)
    | OtherType(name: string)

  datatype Property = Property(
    dataType: DataType,
    disabled: bool,
    required: bool,
    config: FieldConfig)

  predicate KnownTypeName(name: string) {
    name in {"string", "number", "boolean", "timestamp", "reference", "map", "array"}
  }

  /** The data types as they can occur in a schema: an `OtherType` does not reuse a known name. */
  predicate WellFormedDataType(t: DataType) {
    t.OtherType? ==> !KnownTypeName(t.name)
  }

  /** The name a data type has in the schema, used in the "not supported" message. */
  function DataTypeName(t: DataType): (name: string)
    ensures WellFormedDataType(t) ==> (KnownTypeName(name) <==> !t.OtherType?)
  {
    match t
    case StringType => "string"
    case NumberType => "number"
    case BooleanType => "boolean"
    case TimestampType => "timestamp"
    case ReferenceType => "reference"
    case MapType => "map"
    case ArrayOf(_) => "array"
    case OtherType(name) => name
  }

  // ---------------------------------------------------------------------
  // Widget dispatch (createFormField)
  // ---------------------------------------------------------------------

  datatype Widget =
    | DisabledField
    | CustomField(component: Component)
    | ArrayEnumSelect
    | StorageUploadField
    | ArrayDefaultField
    | MapField
    | ReferenceField
    | DateTimeField
    | SwitchField
    | Select
    | MarkdownField
    | TextField

  /** Array elements that can be picked from a list of enum values. */
  predicate EnumerableElement(of: Property) {
    (of.dataType.StringType? || of.dataType.NumberType?) && of.config.enumValues
  }

  /**
   * The widget a property is rendered with, tried in the source's order;
   * `None` when no branch applies and the field is reported as not supported.
   */
  function SelectWidget(p: Property): (r: Option<Widget>)
    // a disabled property is always shown read-only, whatever else it says
    ensures p.disabled ==> r == Some(DisabledField)
    // otherwise a custom component always wins
    ensures !p.disabled && p.config.field.Some? ==> r == Some(CustomField(p.config.field.value))
    // a custom component is only ever used as it was given
    ensures r.Some? && r.value.CustomField? ==> p.config.field == Some(r.value.component)
    // only an unknown data type, neither disabled nor customised, is unsupported
    ensures r.None? <==> !p.disabled && p.config.field.None? && p.dataType.OtherType?
    // the three outcomes for arrays; enum values beat storage metadata
    ensures r == Some(ArrayEnumSelect) <==>
      !p.disabled && p.config.field.None? && p.dataType.ArrayOf? && EnumerableElement(p.dataType.of)
    ensures r == Some(StorageUploadField) && p.dataType.ArrayOf? <==>
      !p.disabled && p.config.field.None? && p.dataType.ArrayOf? &&
      !EnumerableElement(p.dataType.of) &&
      p.dataType.of.dataType.StringType? && p.dataType.of.config.storageMeta
    ensures r == Some(ArrayDefaultField) <==>
      !p.disabled && p.config.field.None? && p.dataType.ArrayOf? &&
      !EnumerableElement(p.dataType.of) &&
      !(p.dataType.of.dataType.StringType? && p.dataType.of.config.storageMeta)
    // strings: storage metadata, then markdown, then enum values, then plain text
    ensures r == Some(StorageUploadField) && p.dataType.StringType? <==>
      !p.disabled && p.config.field.None? && p.dataType.StringType? && p.config.storageMeta
    ensures r == Some(MarkdownField) <==>
      !p.disabled && p.config.field.None? && p.dataType.StringType? &&
      !p.config.storageMeta && p.config.markdown
    // numbers and strings: enum values give a select, otherwise a text field
    ensures r == Some(Select) <==>
      !p.disabled && p.config.field.None? && p.config.enumValues &&
      (p.dataType.NumberType? ||
       (p.dataType.StringType? && !p.config.storageMeta && !p.config.markdown))
    ensures r == Some(TextField) <==>
      !p.disabled && p.config.field.None? && !p.config.enumValues &&
      (p.dataType.NumberType? ||
       (p.dataType.StringType? && !p.config.storageMeta && !p.config.markdown))
    // the other data types each have their own widget
    ensures !p.disabled && p.config.field.None? ==>
      (p.dataType.MapType? <==> r == Some(MapField)) &&
      (p.dataType.ReferenceType? <==> r == Some(ReferenceField)) &&
      (p.dataType.TimestampType? <==> r == Some(DateTimeField)) &&
      (p.dataType.BooleanType? <==> r == Some(SwitchField))
  {
    if p.disabled then Some(DisabledField)
    else if p.config.field.Some? then Some(CustomField(p.config.field.value))
    else match p.dataType
      case ArrayOf(of) =>
        if EnumerableElement(of) then Some(ArrayEnumSelect)
        else if of.dataType.StringType? && of.config.storageMeta then Some(StorageUploadField)
        else Some(ArrayDefaultField)
      case MapType => Some(MapField)
      case ReferenceType => Some(ReferenceField)
      case TimestampType => Some(DateTimeField)
      case BooleanType => Some(SwitchField)
      case NumberType =>
        if p.config.enumValues then Some(Select) else Some(TextField)
      case StringType =>
        if p.config.storageMeta then Some(StorageUploadField)
        else if p.config.markdown then Some(MarkdownField)
        else if p.config.enumValues then Some(Select)
        else Some(TextField)
      case OtherType(_) => None
  }

  /**
   * Formik's two field wrappers: `Field` re-renders on every change of the
   * form, `FastField` only when its own slice changes.
   */
  datatype Wrapper = FieldWrapper | FastFieldWrapper

  /** What `createFormField` returns: a wrapped widget, or the "not supported" note. */
  datatype FormField =
    | Built(wrapper: Wrapper, widget: Widget, key: string, name: string, required: bool)
    | NotSupported(message: string)

  /** The wrapper `buildFieldInternal` chooses: `Field` exactly for custom components. */
  function ChooseWrapper(p: Property): (w: Wrapper)
    ensures w == FieldWrapper <==> p.config.field.Some?
  {
    if p.config.field.Some? then FieldWrapper else FastFieldWrapper
  }

  function CreateFormField(name: string, p: Property): (f: FormField)
    ensures f.Built? <==> SelectWidget(p).Some?
    ensures f.Built? ==>
      f.widget == SelectWidget(p).value && f.name == name &&
      f.key == "form_field_" + name && f.required == p.required
    // the wrapper follows `config.field` even when the property is also disabled
    ensures f.Built? ==> (f.wrapper == FieldWrapper <==> p.config.field.Some?)
    ensures f.NotSupported? ==>
      f.message == "Currently the field " + DataTypeName(p.dataType) + " is not supported"
  {
    match SelectWidget(p)
    case Some(w) => Built(ChooseWrapper(p), w, "form_field_" + name, name, p.required)
    case None => NotSupported("Currently the field " + DataTypeName(p.dataType) + " is not supported")
  }

  // ---------------------------------------------------------------------
  // Error display (inside buildFieldInternal's render function)
  // ---------------------------------------------------------------------

  /**
   * `error && touched && (!Array.isArray(error) || !!error.filter(e => !!e).length)`,
   * read for its truthiness.
   */
  function ShowError(error: JsValue, touched: JsValue): (r: bool)
    ensures r <==>
      Truthy(error) && Truthy(touched) &&
      (!error.Arr? || exists i :: 0 <= i < |error.elems| && Truthy(error.elems[i]))
  {
    FilterTruthyNonEmpty(if error.Arr? then error.elems else []);
    Truthy(error) && Truthy(touched) && (!error.Arr? || |FilterTruthy(error.elems)| > 0)
  }

  /** `getIn(map, name)` on a flat field name: missing entries read as undefined. */
  function Lookup(m: map<string, JsValue>, name: string): (v: JsValue)
    ensures name !in m ==> v == Undefined
    ensures name in m ==> v == m[name]
  {
    if name in m then m[name] else Undefined
  }

  /** What the render function hands to the widget and shows below it. */
  datatype FieldView = FieldView(
    error: JsValue,
    touched: JsValue,
    showError: bool,
    isSubmitting: bool,
    showUpdatedNote: bool)

  function RenderField(
    errors: map<string, JsValue>, touched: map<string, JsValue>, name: string,
    isSubmitting: bool, underlyingValueHasChanged: bool): (v: FieldView)
    // an untouched field never shows its error
    ensures Lookup(touched, name) == Undefined ==> !v.showError
    // a field without an error never shows one
    ensures name !in errors ==> !v.showError
    ensures v.showError == ShowError(Lookup(errors, name), Lookup(touched, name))
    // "updated in the database" note: only while the form is not being submitted
    ensures v.showUpdatedNote <==> underlyingValueHasChanged && !isSubmitting
    ensures v.isSubmitting == isSubmitting
  {
    var e := Lookup(errors, name);
    var t := Lookup(touched, name);
    FieldView(e, t, ShowError(e, t), isSubmitting, underlyingValueHasChanged && !isSubmitting)
  }

  // ---------------------------------------------------------------------
  // Writing a value back (the setValue closure)
  // ---------------------------------------------------------------------

  /** The form-state updates, in the order they are issued. */
  datatype FormUpdate = TouchedUpdate(name: string) | ValueUpdate(name: string, value: JsValue)

  /** The parts of Formik's form state a field writes to. */
  class FormState {
    var values: map<string, JsValue>
    var touched: map<string, JsValue>
    var errors: map<string, JsValue>
    var updates: seq<FormUpdate>

    constructor (values: map<string, JsValue>, errors: map<string, JsValue>)
      ensures this.values == values && this.errors == errors
      ensures touched == map[] && updates == []
    {
      this.values := values;
      this.errors := errors;
      touched := map[];
      updates := [];
    }

    /** `setFieldTouched(name)`: the touched flag defaults to true. */
    method SetFieldTouched(name: string)
      modifies this
      ensures touched == old(touched)[name := Bool(true)]
      ensures updates == old(updates) + [TouchedUpdate(name)]
      ensures values == old(values) && errors == old(errors)
    {
      touched := touched[name := Bool(true)];
      updates := updates + [TouchedUpdate(name)];
    }

    method SetFieldValue(name: string, value: JsValue)
      modifies this
      ensures values == old(values)[name := value]
      ensures updates == old(updates) + [ValueUpdate(name, value)]
      ensures touched == old(touched) && errors == old(errors)
    {
      values := values[name := value];
      updates := updates + [ValueUpdate(name, value)];
    }

    /** A widget's `setValue`: first mark the field touched, then store the value, both under its name. */
    method SetValue(name: string, value: JsValue)
      modifies this
      ensures updates == old(updates) + [TouchedUpdate(name), ValueUpdate(name, value)]
      ensures touched == old(touched)[name := Bool(true)]
      ensures values == old(values)[name := value]
      ensures errors == old(errors)
      // from now on the field shows its error exactly when it has one worth showing
      ensures RenderField(errors, touched, name, false, false).showError <==>
        var e := Lookup(errors, name);
        Truthy(e) && (!e.Arr? || exists i :: 0 <= i < |e.elems| && Truthy(e.elems[i]))
    {
      SetFieldTouched(name);
      SetFieldValue(name, value);
    }
  }

  // ---------------------------------------------------------------------
  // The entity-id field (createCustomIdField)
  // ---------------------------------------------------------------------

  datatype EntityStatus = New | Existing | Copy

  /**
   * A schema's `customId`: absent, a flag, or an object of enum values
   * (keys with labels). `null` is kept apart because `typeof null` is
   * "object" in JavaScript while `null` itself is falsy.
   */
  datatype CustomId =
    | NoCustomId
    | NullCustomId
    | CustomIdFlag(allowed: bool)
    | CustomIdEnum(entries: seq<(string, string)>)

  predicate CustomIdTruthy(c: CustomId)
    ensures CustomIdTruthy(c) <==> c == CustomIdFlag(true) || c.CustomIdEnum?
  {
    match c
    case NoCustomId => false
    case NullCustomId => false
    case CustomIdFlag(b) => b
    case CustomIdEnum(_) => true
  }

  /** `typeof schema.customId === "object"`. */
  predicate CustomIdIsObject(c: CustomId)
    // of the objects, only enum values are also truthy
    ensures CustomIdIsObject(c) && CustomIdTruthy(c) <==> c.CustomIdEnum?
    ensures CustomIdIsObject(c) && !CustomIdTruthy(c) <==> c == NullCustomId
  {
    c.NullCustomId? || c.CustomIdEnum?
  }

  datatype Entity = Entity(id: string)

  /** The inputs the id field can render: a select over the enum keys, or a text input (with a copy button when an entity exists). */
  datatype IdInput = IdSelect | IdTextInput(copyButton: bool)

  datatype IdField = IdField(
    labelText: string,
    disabled: bool,
    value: Option<string>,
    inputs: seq<IdInput>)

  const AutomaticIdLabel := "Id is set automatically"

  function CustomIdField(customId: CustomId, status: EntityStatus, entity: Option<Entity>): (f: IdField)
    ensures f.disabled <==> status == Existing || !CustomIdTruthy(customId)
    ensures f.labelText == AutomaticIdLabel <==> status == New || (status == Copy && f.disabled)
    ensures f.labelText != AutomaticIdLabel ==> f.labelText == "Id"
    ensures f.value.Some? <==> entity.Some? && status == Existing
    ensures f.value.Some? ==> f.value.value == entity.value.id
    // the id of an existing entity is shown, and cannot be edited
    ensures f.value.Some? ==> f.disabled
    // a text input exactly when customId is not an object, a select exactly for enum values
    ensures IdTextInput(entity.Some?) in f.inputs <==> !CustomIdIsObject(customId)
    ensures IdSelect in f.inputs <==> customId.CustomIdEnum?
    ensures |f.inputs| == (if customId.NullCustomId? then 0 else 1)
    // an editable id is an enum choice or free text; the label is then "Id" unless the entity is new
    ensures !f.disabled && status != New ==> f.labelText == "Id"
  {
    var disabled := status == Existing || !CustomIdTruthy(customId);
    var hasEnumValues := CustomIdIsObject(customId);
    var labelText := if status == New || (status == Copy && disabled) then AutomaticIdLabel else "Id";
    var value := if entity.Some? && status == Existing then Some(entity.value.id) else None;
    var select := if hasEnumValues && CustomIdTruthy(customId) then [IdSelect] else [];
    var text := if !hasEnumValues then [IdTextInput(entity.Some?)] else [];
    IdField(labelText, disabled, value, select + text)
  }
}

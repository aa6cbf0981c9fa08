/**
 * The per-ticket user-field editor (components/DynamicUserFields.tsx): which
 * rows are shown for a template's field definitions, what each input shows
 * for the current value, and what each control hands to `onChange`.
 * Styling is not modelled; a rendered row is its key, its label and its input.
 */
module DynamicUserFields {
  import opened Wrappers
  import opened JsValues

  /** `data_type`; any other string reaches the `default` branch. */
  datatype FieldType = NumberField | BooleanField | TextField | ListField | OtherField(name: string)

  datatype FieldDefinition = FieldDefinition(fieldLabel: string, dataType: FieldType)

  /** One entry of `Object.entries(fields)`, in the object's own key order. */
  datatype Entry = Entry(key: string, def: FieldDefinition)

  /**
   * A rendered input. `Stepper` shows `shown` and emits `minus`/`plus` from its
   * two buttons; `Toggle` highlights YES when `on` and emits `true`/`false`;
   * `TextBox` shows `shown` and emits whatever is typed.
   */
  datatype Input =
    | Stepper(shown: Value, minus: Value, plus: Value)
    | Toggle(on: bool)
    | TextBox(shown: Value)

  datatype Row = Row(key: string, fieldLabel: string, input: Input)

  /** `typeof value === 'number' ? value : 0` (`NaN` is a number too). */
  function StepperValue(value: Value): (r: Value)
    ensures value.Num? || value.NaN? ==> r == value
    ensures !(value.Num? || value.NaN?) ==> r == Num(0)
  {
    if value.Num? || value.NaN? then value else Num(0)
  }

  /** `Math.max(0, numVal - 1)`; `NaN` stays `NaN`. */
  function Decrement(v: Value): (r: Value)
    requires v.Num? || v.NaN?
    ensures v.Num? ==> r.Num? && r.n >= 0
    ensures v.Num? && v.n >= 1 ==> r.n == v.n - 1
    ensures v.Num? && v.n < 1 ==> r.n == 0
    ensures v.NaN? ==> r == NaN
  {
    if v.NaN? then NaN else if v.n - 1 > 0 then Num(v.n - 1) else Num(0)
  }

  /** `numVal + 1`; `NaN` stays `NaN`. */
  function Increment(v: Value): (r: Value)
    requires v.Num? || v.NaN?
    ensures v.Num? ==> r == Num(v.n + 1)
    ensures v.NaN? ==> r == NaN
  {
    if v.NaN? then NaN else Num(v.n + 1)
  }

  /** `value === true || value === 'true'`. */
  predicate IsOn(value: Value) {
    value == Bool(true) || value == Str("true")
  }

  /** `value || ''`. */
  function TextValue(value: Value): (r: Value)
    ensures Truthy(value) ==> r == value
    ensures !Truthy(value) ==> r == Str("")
  {
    if Truthy(value) then value else Str("")
  }

  /** `renderInput`: the input a definition gets for the current value. */
  function RenderInput(def: FieldDefinition, value: Value): (r: Input)
    ensures def.dataType == NumberField ==>
      var n := StepperValue(value);
      r == Stepper(n, Decrement(n), Increment(n))
    ensures def.dataType == BooleanField ==> r == Toggle(IsOn(value))
    ensures !(def.dataType == NumberField || def.dataType == BooleanField) ==> r == TextBox(TextValue(value))
  {
    match def.dataType
    case NumberField =>
      var n := StepperValue(value);
      Stepper(n, Decrement(n), Increment(n))
    case BooleanField => Toggle(IsOn(value))
    case _ => TextBox(TextValue(value))
  }

  /** The rows rendered for `fields`; `None` is the component returning `null`. */
  function RenderRows(entries: seq<Entry>, values: map<string, Value>): (rows: seq<Row>)
    ensures |rows| == |entries|
    ensures forall i :: 0 <= i < |entries| ==>
      rows[i] == Row(entries[i].key, entries[i].def.fieldLabel, RenderInput(entries[i].def, Get(values, entries[i].key)))
  {
    seq(|entries|, i requires 0 <= i < |entries| =>
      Row(entries[i].key, entries[i].def.fieldLabel, RenderInput(entries[i].def, Get(values, entries[i].key))))
  }

  /** `DynamicUserFields`: nothing for missing or empty `fields`, else one row per entry. */
  function Render(fields: Option<seq<Entry>>, values: map<string, Value>): (r: Option<seq<Row>>)
    ensures fields.None? || fields.value == [] ==> r.None?
    ensures fields.Some? && fields.value != [] ==>
      r.Some? && |r.value| == |fields.value|
      && (forall i :: 0 <= i < |fields.value| ==> r.value[i].key == fields.value[i].key)
  {
    if fields.None? || fields.value == [] then None else Some(RenderRows(fields.value, values))
  }

  /** A number field's minus button never emits a negative count. */
  lemma StepperNeverNegative(def: FieldDefinition, value: Value)
    requires def.dataType == NumberField
    ensures var r := RenderInput(def, value);
      r.Stepper? && (r.minus.Num? ==> r.minus.n >= 0)
  {
  }

  /**
   * Stepping up and then down, as the editor re-renders with each emitted
   * value, returns to the starting count; stepping down then up does so from
   * any positive count.
   */
  lemma {:induction false} StepperRoundTrip(def: FieldDefinition, value: Value)
    requires def.dataType == NumberField
    ensures var up := RenderInput(def, value).plus;
      value.Num? && value.n >= 0 ==> RenderInput(def, up).minus == value
    ensures var down := RenderInput(def, value).minus;
      value.Num? && value.n >= 1 ==> RenderInput(def, down).plus == value
    ensures !(value.Num? || value.NaN?) ==> RenderInput(def, value).shown == Num(0)
  {
    var n := StepperValue(value);
    if value.Num? {
      assert n == value;
      var up := Increment(n);
      assert StepperValue(up) == up;
      var down := Decrement(n);
      assert StepperValue(down) == down;
    }
  }

  /** The YES button's value reads back as on, the NO button's as off. */
  lemma ToggleReadsBack(def: FieldDefinition)
    requires def.dataType == BooleanField
    ensures RenderInput(def, Bool(true)) == Toggle(true)
    ensures RenderInput(def, Bool(false)) == Toggle(false)
    ensures RenderInput(def, Str("true")) == Toggle(true)
    ensures RenderInput(def, Str("false")) == Toggle(false)
  {
  }

  /** A text input shows back what was typed, and the empty string for a missing value. */
  lemma TextReadsBack(def: FieldDefinition, typed: string)
    requires !(def.dataType == NumberField || def.dataType == BooleanField)
    ensures RenderInput(def, Str(typed)) == TextBox(Str(typed))
    ensures RenderInput(def, Undefined) == TextBox(Str(""))
  {
  }
}

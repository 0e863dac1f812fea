/** The control panel's schema defaults and value store (app/hooks/useControlPanel.tsx). */
module ControlPanel {
  import opened Wrappers

  /** An HSVA colour as produced by the colour library. */
  datatype Hsva = Hsva(h: real, s: real, v: real, a: real)

  /** `hexToHsva('#000000')`: opaque black. */
  const Black: Hsva := Hsva(0.0, 0.0, 0.0, 1.0)

  /** A field's type with its optional `defaultValue`. */
  datatype FieldKind =
    | Percentage(percentDefault: Option<real>)
    | Color(colorDefault: Option<Hsva>)
    | Vector(vectorDefault: Option<(real, real)>)

  datatype Field = Field(name: string, kind: FieldKind)

  datatype Fieldset = Fieldset(name: string, fields: seq<Field>)

  /** A stored value, of the type its field's kind calls for. */
  datatype Value = PercentValue(p: real) | ColorValue(c: Hsva) | VectorValue(x: real, y: real)

  /** The value a field's kind stores. */
  predicate HasKindOf(v: Value, kind: FieldKind) {
    match kind
    case Percentage(_) => v.PercentValue?
    case Color(_) => v.ColorValue?
    case Vector(_) => v.VectorValue?
  }

  /** `getDefaultFieldValue`: the explicit default when there is one, else 50, black or [0, 0]. */
  function DefaultFieldValue(field: Field): (v: Value)
    ensures HasKindOf(v, field.kind)
    ensures field.kind == Percentage(None) ==> v == PercentValue(50.0)
    ensures field.kind == Color(None) ==> v == ColorValue(Black)
    ensures field.kind == Vector(None) ==> v == VectorValue(0.0, 0.0)
    ensures field.kind.Percentage? && field.kind.percentDefault.Some? ==> v == PercentValue(field.kind.percentDefault.value)
    ensures field.kind.Color? && field.kind.colorDefault.Some? ==> v == ColorValue(field.kind.colorDefault.value)
    ensures field.kind.Vector? && field.kind.vectorDefault.Some? ==>
              v == VectorValue(field.kind.vectorDefault.value.0, field.kind.vectorDefault.value.1)
  {
    match field.kind
    case Percentage(d) => PercentValue(d.GetOr(50.0))
    case Color(d) => ColorValue(d.GetOr(Black))
    case Vector(d) => var (x, y) := d.GetOr((0.0, 0.0)); VectorValue(x, y)
  }

  type FieldValues = map<string, Value>
  type Data = map<string, FieldValues>

  /** The field values of one fieldset, assigned in field order: a later duplicate name wins. */
  function FieldDefaults(fields: seq<Field>): (m: FieldValues)
    decreases |fields|
  {
    if |fields| == 0 then map[]
    else FieldDefaults(fields[..|fields| - 1])[fields[|fields| - 1].name := DefaultFieldValue(fields[|fields| - 1])]
  }

  /** The whole result of `generateFields`, assigned in fieldset order. */
  function SchemaDefaults(schema: seq<Fieldset>): (d: Data)
    decreases |schema|
  {
    if |schema| == 0 then map[]
    else SchemaDefaults(schema[..|schema| - 1])[schema[|schema| - 1].name := FieldDefaults(schema[|schema| - 1].fields)]
  }

  /** The index of the last field named `name` in `fields`, if any. */
  predicate IsLastNamed(fields: seq<Field>, name: string, k: nat) {
    k < |fields| && fields[k].name == name && forall j :: k < j < |fields| ==> fields[j].name != name
  }

  /** A fieldset's defaults hold exactly its field names. */
  lemma {:induction false} FieldDefaultsKeys(fields: seq<Field>, name: string)
    ensures name in FieldDefaults(fields) <==> exists k: nat :: k < |fields| && fields[k].name == name
    decreases |fields|
  {
    if |fields| > 0 {
      var init := fields[..|fields| - 1];
      FieldDefaultsKeys(init, name);
      if fields[|fields| - 1].name != name && exists k: nat :: k < |fields| && fields[k].name == name {
        var k: nat :| k < |fields| && fields[k].name == name;
        assert init[k].name == name;
      }
    }
  }

  /** Each name maps to the default of the last field of that name. */
  lemma {:induction false} FieldDefaultsLast(fields: seq<Field>, name: string, k: nat)
    requires IsLastNamed(fields, name, k)
    ensures name in FieldDefaults(fields) && FieldDefaults(fields)[name] == DefaultFieldValue(fields[k])
    decreases |fields|
  {
    if k < |fields| - 1 {
      var init := fields[..|fields| - 1];
      assert IsLastNamed(init, name, k);
      FieldDefaultsLast(init, name, k);
    }
  }

  /** The index of the last fieldset named `name` in `schema`, if any. */
  predicate IsLastFieldset(schema: seq<Fieldset>, name: string, k: nat) {
    k < |schema| && schema[k].name == name && forall j :: k < j < |schema| ==> schema[j].name != name
  }

  /** The schema's defaults hold exactly its fieldset names. */
  lemma {:induction false} SchemaDefaultsKeys(schema: seq<Fieldset>, name: string)
    ensures name in SchemaDefaults(schema) <==> exists k: nat :: k < |schema| && schema[k].name == name
    decreases |schema|
  {
    if |schema| > 0 {
      var init := schema[..|schema| - 1];
      SchemaDefaultsKeys(init, name);
      if schema[|schema| - 1].name != name && exists k: nat :: k < |schema| && schema[k].name == name {
        var k: nat :| k < |schema| && schema[k].name == name;
        assert init[k].name == name;
      }
    }
  }

  /** Each name maps to the defaults of the last fieldset of that name. */
  lemma {:induction false} SchemaDefaultsLast(schema: seq<Fieldset>, name: string, k: nat)
    requires IsLastFieldset(schema, name, k)
    ensures name in SchemaDefaults(schema) && SchemaDefaults(schema)[name] == FieldDefaults(schema[k].fields)
    decreases |schema|
  {
    if k < |schema| - 1 {
      var init := schema[..|schema| - 1];
      assert IsLastFieldset(init, name, k);
      SchemaDefaultsLast(init, name, k);
    }
  }

  /** `generateFields`: the nested `forEach` loops, assigning one key at a time. */
  method GenerateFields(schema: seq<Fieldset>) returns (result: Data)
    ensures result == SchemaDefaults(schema)
  {
    result := map[];
    var i := 0;
    while i < |schema|
      invariant 0 <= i <= |schema|
      invariant result == SchemaDefaults(schema[..i])
    {
      var fields := schema[i].fields;
      var fieldResult: FieldValues := map[];
      var j := 0;
      while j < |fields|
        invariant 0 <= j <= |fields|
        invariant fieldResult == FieldDefaults(fields[..j])
      {
        assert fields[..j + 1][..j] == fields[..j];
        fieldResult := fieldResult[fields[j].name := DefaultFieldValue(fields[j])];
        j := j + 1;
      }
      assert fields[..j] == fields;
      assert schema[..i + 1][..i] == schema[..i];
      result := result[schema[i].name := fieldResult];
      i := i + 1;
    }
    assert schema[..i] == schema;
  }

  /** What a lookup yields: the value, JavaScript's `undefined` for a missing field, or a TypeError for a missing fieldset. */
  datatype Lookup = Found(value: Value) | UndefinedField | MissingFieldset

  /**
   * The provider's state. `set` makes a shallow copy of the top-level object and assigns
   * into the fieldset object it shares with that copy, so the fieldset changes in place; it
   * also adds a top-level `data` key holding the copy, whose fieldsets are those same objects.
   * That key is recorded by `hasDataKey`.
   */
  class ControlPanelStore {
    var fieldsets: Data
    var hasDataKey: bool

    constructor (schema: seq<Fieldset>)
      ensures fieldsets == SchemaDefaults(schema) && !hasDataKey
    {
      fieldsets := SchemaDefaults(schema);
      hasDataKey := false;
    }

    /** `get({ fieldsetKey, fieldKey })`. */
    function Get(fieldsetKey: string, fieldKey: string): (r: Lookup)
      reads this
      ensures fieldsetKey !in fieldsets <==> r == MissingFieldset
      ensures fieldsetKey in fieldsets && fieldKey in fieldsets[fieldsetKey] ==> r == Found(fieldsets[fieldsetKey][fieldKey])
      ensures fieldsetKey in fieldsets && fieldKey !in fieldsets[fieldsetKey] ==> r == UndefinedField
    {
      if fieldsetKey !in fieldsets then MissingFieldset
      else if fieldKey !in fieldsets[fieldsetKey] then UndefinedField
      else Found(fieldsets[fieldsetKey][fieldKey])
    }

    /** `set({ fieldsetKey, fieldKey, value })`; false models the TypeError of assigning into a missing fieldset. */
    method Set(fieldsetKey: string, fieldKey: string, value: Value) returns (ok: bool)
      modifies this
      ensures ok <==> fieldsetKey in old(fieldsets)
      ensures ok ==> fieldsets == old(fieldsets)[fieldsetKey := old(fieldsets)[fieldsetKey][fieldKey := value]]
      ensures ok ==> hasDataKey
      ensures !ok ==> fieldsets == old(fieldsets) && hasDataKey == old(hasDataKey)
      // afterwards the written value reads back, and every other value is as before
      ensures ok ==> Get(fieldsetKey, fieldKey) == Found(value)
      ensures forall fs, f :: (fs != fieldsetKey || f != fieldKey) ==> Get(fs, f) == old(Get(fs, f))
    {
      if fieldsetKey !in fieldsets {
        ok := false;
        return;
      }
      var fieldset := fieldsets[fieldsetKey];
      fieldset := fieldset[fieldKey := value];
      fieldsets := fieldsets[fieldsetKey := fieldset];
      hasDataKey := true;
      ok := true;
    }
  }

  /** The context value: `inactive` unless `show`, otherwise the schema and data with get and set. */
  datatype PanelContext = Inactive | Active(schema: seq<Fieldset>, data: Data)

  function ProvidedContext(show: bool, schema: seq<Fieldset>, data: Data): (c: PanelContext)
    ensures c.Inactive? <==> !show
    ensures c.Active? ==> c.schema == schema && c.data == data
  {
    if show then Active(schema, data) else Inactive
  }

  /** A number input's `valueAsNumber`: NaN for an empty or unparsable input. */
  datatype InputNumber = NaN | Num(n: real)

  /** `if (e.target.valueAsNumber)`: zero and NaN are falsy. */
  predicate Truthy(n: InputNumber) {
    n.Num? && n.n != 0.0
  }

  /** `VectorControl`'s X input: the new vector passed to `updateField`, or None when no update happens. */
  function UpdateVectorX(current: (real, real), input: InputNumber): (r: Option<(real, real)>)
    ensures r.Some? <==> Truthy(input)
    ensures r.Some? ==> r.value.0 == input.n && r.value.1 == current.1
  {
    if Truthy(input) then Some((input.n, current.1)) else None
  }

  /** `VectorControl`'s Y input. */
  function UpdateVectorY(current: (real, real), input: InputNumber): (r: Option<(real, real)>)
    ensures r.Some? <==> Truthy(input)
    ensures r.Some? ==> r.value.0 == current.0 && r.value.1 == input.n
  {
    if Truthy(input) then Some((current.0, input.n)) else None
  }

  /** Typing 0 (or clearing the input) is ignored: the coordinate cannot be set back to zero. */
  lemma ZeroIgnored(current: (real, real))
    ensures UpdateVectorX(current, Num(0.0)) == None && UpdateVectorY(current, Num(0.0)) == None
    ensures UpdateVectorX(current, NaN) == None && UpdateVectorY(current, NaN) == None
  {
  }
}

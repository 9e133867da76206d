/**
 * The edit form of a budget item (src/components/EditItemDialog.tsx): a
 * map from field key to the value being edited, seeded from the fields when
 * the dialog mounts, updated one key per keystroke, handed to `onSave`, and
 * a delete button guarded by a confirmation.
 *
 * The callbacks the dialog receives are not called here: each handler
 * returns the calls it makes, in order. `Number(text)` is not parsed either:
 * the number a keystroke's text reads as is a parameter.
 */
module EditItemDialog {

  datatype FieldType = TextField | NumberField

  /** A form value: the `string | number` union. */
  datatype Value = Str(s: string) | Num(x: real)

  datatype Field = Field(key: string, title: string, kind: FieldType, value: Value)

  /** A call the dialog makes to one of its callbacks. */
  datatype Call = Save(values: map<string, Value>) | Close | Delete

  /** A number field that holds 0 starts blank; every other field starts with its value. */
  function InitialValue(f: Field): (v: Value)
    ensures f.kind == NumberField && f.value == Num(0.0) ==> v == Str("")
    ensures !(f.kind == NumberField && f.value == Num(0.0)) ==> v == f.value
  {
    if f.kind == NumberField && f.value == Num(0.0) then Str("") else f.value
  }

  /**
   * `Object.fromEntries(fields.map(...))`: later entries overwrite earlier
   * ones with the same key, so there is at most one entry per field.
   */
  function InitialValues(fields: seq<Field>): (r: map<string, Value>)
    ensures |r| <= |fields|
    decreases |fields|
  {
    if fields == [] then map[]
    else
      var last := fields[|fields| - 1];
      InitialValues(fields[..|fields| - 1])[last.key := InitialValue(last)]
  }

  /** The map has an entry exactly for the fields' keys. */
  lemma {:induction false} InitialValuesKeys(fields: seq<Field>)
    ensures forall k :: k in InitialValues(fields) <==> exists i :: 0 <= i < |fields| && fields[i].key == k
    decreases |fields|
  {
    if fields != [] {
      var n := |fields| - 1;
      var p := fields[..n];
      InitialValuesKeys(p);
      assert forall i :: 0 <= i < n ==> p[i] == fields[i];
      assert InitialValues(fields).Keys == InitialValues(p).Keys + {fields[n].key};
    }
  }

  /** Each key holds the starting value of the last field with that key. */
  lemma {:induction false} InitialValuesLastWins(fields: seq<Field>, i: nat)
    requires i < |fields|
    requires forall j :: i < j < |fields| ==> fields[j].key != fields[i].key
    ensures fields[i].key in InitialValues(fields)
    ensures InitialValues(fields)[fields[i].key] == InitialValue(fields[i])
    decreases |fields|
  {
    var n := |fields| - 1;
    var p := fields[..n];
    assert InitialValues(fields) == InitialValues(p)[fields[n].key := InitialValue(fields[n])];
    if i < n {
      assert fields[n].key != fields[i].key;
      assert p[i] == fields[i];
      assert forall j :: i < j < |p| ==> p[j] == fields[j];
      InitialValuesLastWins(p, i);
    }
  }

  /** With distinct keys, one entry per field, holding that field's starting value. */
  lemma InitialValuesDistinct(fields: seq<Field>)
    requires forall i, j :: 0 <= i < j < |fields| ==> fields[i].key != fields[j].key
    ensures forall i :: 0 <= i < |fields| ==>
      fields[i].key in InitialValues(fields) && InitialValues(fields)[fields[i].key] == InitialValue(fields[i])
  {
    forall i | 0 <= i < |fields|
      ensures fields[i].key in InitialValues(fields) && InitialValues(fields)[fields[i].key] == InitialValue(fields[i])
    {
      InitialValuesLastWins(fields, i);
    }
  }

  /**
   * What a keystroke stores: for a number field, "" when the text is empty
   * and otherwise the number it reads as; for a text field, the text.
   */
  function EditedValue(kind: FieldType, text: string, parsed: real): (v: Value)
    ensures kind == TextField ==> v == Str(text)
    ensures kind == NumberField && text == "" ==> v == Str("")
    ensures kind == NumberField && text != "" ==> v == Num(parsed)
  {
    match kind
    case NumberField => if text == "" then Str("") else Num(parsed)
    case TextField => Str(text)
  }

  /** `{ ...v, [f.key]: ... }`: the edited key gets the new value and nothing else changes. */
  function Edit(values: map<string, Value>, f: Field, text: string, parsed: real): (r: map<string, Value>)
    ensures r.Keys == values.Keys + {f.key}
    ensures r[f.key] == EditedValue(f.kind, text, parsed)
    ensures forall k :: k in values && k != f.key ==> r[k] == values[k]
  {
    values[f.key := EditedValue(f.kind, text, parsed)]
  }

  /** The last keystroke in a field decides its value. */
  lemma EditLastWins(values: map<string, Value>, f: Field, t1: string, p1: real, t2: string, p2: real)
    ensures Edit(Edit(values, f, t1, p1), f, t2, p2) == Edit(values, f, t2, p2)
  {
  }

  /** Keystrokes in different fields do not interfere. */
  lemma EditCommutes(values: map<string, Value>, f: Field, t1: string, p1: real, g: Field, t2: string, p2: real)
    requires f.key != g.key
    ensures Edit(Edit(values, f, t1, p1), g, t2, p2) == Edit(Edit(values, g, t2, p2), f, t1, p1)
  {
    var l, r := Edit(Edit(values, f, t1, p1), g, t2, p2), Edit(Edit(values, g, t2, p2), f, t1, p1);
    assert l.Keys == r.Keys;
    forall k | k in l ensures l[k] == r[k] {
      if k != f.key && k != g.key {
        assert l[k] == values[k];
      }
    }
  }

  /**
   * The dialog's state: the value map and whether the delete confirmation is
   * open. `hasOnDelete` records whether an `onDelete` callback was passed; the
   * Delete button, the only way to open the confirmation, exists only then.
   */
  class Form {
    var values: map<string, Value>
    var showDeleteConfirm: bool
    const hasOnDelete: bool

    /** The confirmation can be open only if its Delete button was shown. */
    ghost predicate Valid()
      reads this
    {
      showDeleteConfirm ==> hasOnDelete
    }

    /** Mounting: the map from the fields, the confirmation closed. */
    constructor(fields: seq<Field>, onDeleteGiven: bool)
      ensures values == InitialValues(fields)
      ensures !showDeleteConfirm
      ensures hasOnDelete == onDeleteGiven
      ensures Valid()
    {
      values := InitialValues(fields);
      showDeleteConfirm := false;
      hasOnDelete := onDeleteGiven;
    }

    /** An input's `onChange`. */
    method OnChange(f: Field, text: string, parsed: real)
      modifies this
      ensures values == Edit(old(values), f, text, parsed)
      ensures showDeleteConfirm == old(showDeleteConfirm)
    {
      values := values[f.key := EditedValue(f.kind, text, parsed)];
    }

    /** `handleSave`: `onSave` with the current map, then `onClose`. */
    method HandleSave() returns (calls: seq<Call>)
      ensures calls == [Save(values), Close]
    {
      calls := [Save(values), Close];
    }

    /** The dialog's `onOpenChange`: closing it calls `onClose`. */
    method OnOpenChange(open: bool) returns (calls: seq<Call>)
      ensures calls == if open then [] else [Close]
    {
      calls := if open then [] else [Close];
    }

    /** The Delete button, rendered only when `onDelete` was given, opens the confirmation. */
    method RequestDelete()
      requires hasOnDelete
      modifies this
      ensures showDeleteConfirm
      ensures values == old(values)
      ensures Valid()
    {
      showDeleteConfirm := true;
    }

    /**
     * The confirmation's Delete action: `onDelete` when given, then `onClose`;
     * the confirmation closes. Reached through the open confirmation, the
     * callback is always there.
     */
    method ConfirmDelete() returns (calls: seq<Call>)
      requires Valid()
      modifies this
      ensures calls == if hasOnDelete then [Delete, Close] else [Close]
      ensures old(showDeleteConfirm) ==> calls == [Delete, Close]
      ensures !showDeleteConfirm
      ensures values == old(values)
      ensures Valid()
    {
      calls := if hasOnDelete then [Delete, Close] else [Close];
      showDeleteConfirm := false;
    }

    /** Cancelling the confirmation closes it and calls nothing. */
    method CancelDelete() returns (calls: seq<Call>)
      modifies this
      ensures calls == []
      ensures !showDeleteConfirm
      ensures values == old(values)
      ensures Valid()
    {
      calls := [];
      showDeleteConfirm := false;
    }
  }

  /**
   * A whole session: mount, one keystroke, save. What `onSave` receives is
   * the starting map with the edited key replaced.
   */
  method EditAndSave(fields: seq<Field>, f: Field, text: string, parsed: real) returns (calls: seq<Call>)
    ensures calls == [Save(Edit(InitialValues(fields), f, text, parsed)), Close]
  {
    var form := new Form(fields, false);
    form.OnChange(f, text, parsed);
    calls := form.HandleSave();
  }

  /**
   * Deleting: mount with an `onDelete`, press Delete, confirm. The dialog
   * calls `onDelete`, then `onClose`, and the map it held is the starting one.
   */
  method DeleteSession(fields: seq<Field>) returns (calls: seq<Call>, values: map<string, Value>)
    ensures calls == [Delete, Close]
    ensures values == InitialValues(fields)
  {
    var form := new Form(fields, true);
    form.RequestDelete();
    calls := form.ConfirmDelete();
    values := form.values;
  }
}

/** The Admin's template editor: the per-category field lists an item form shows,
    appending a default field, and editing one attribute of one field. */
module Templates {

  datatype FieldDef = FieldDef(fieldKey: string, fieldLabel: string, fieldType: string)

  /** Category name to its ordered field list. */
  type Catalog = map<string, seq<FieldDef>>

  /** The field "Add field" appends. */
  const NewField := FieldDef("new", "New field", "text")

  /** `templates[cat] || []`: an unknown category has no fields. */
  function FieldsOf(t: Catalog, cat: string): seq<FieldDef> {
    if cat in t then t[cat] else []
  }

  /** `addField`: appends the default field to `cat`, creating the category if needed. */
  function AddField(t: Catalog, cat: string): (t': Catalog)
    ensures t'.Keys == t.Keys + {cat}
    ensures FieldsOf(t', cat) == FieldsOf(t, cat) + [NewField]
    ensures forall c :: c != cat ==> FieldsOf(t', c) == FieldsOf(t, c)
  {
    t[cat := FieldsOf(t, cat) + [NewField]]
  }

  /** The three attributes the editor's inputs change. */
  datatype Attr = KeyAttr | LabelAttr | TypeAttr

  function GetAttr(f: FieldDef, a: Attr): string {
    match a
    case KeyAttr => f.fieldKey
    case LabelAttr => f.fieldLabel
    case TypeAttr => f.fieldType
  }

  /** `{ ...f, [a]: v }` */
  function SetAttr(f: FieldDef, a: Attr, v: string): FieldDef {
    match a
    case KeyAttr => f.(fieldKey := v)
    case LabelAttr => f.(fieldLabel := v)
    case TypeAttr => f.(fieldType := v)
  }

  /** `changeField`: sets attribute `a` of field `idx` of `cat` to `v`. The editor only
      calls it for a row it rendered, so the category exists and the index is in range. */
  function ChangeField(t: Catalog, cat: string, idx: nat, a: Attr, v: string): (t': Catalog)
    requires cat in t && idx < |t[cat]|
    ensures t'.Keys == t.Keys
    ensures |t'[cat]| == |t[cat]|
    ensures GetAttr(t'[cat][idx], a) == v
    ensures forall b :: b != a ==> GetAttr(t'[cat][idx], b) == GetAttr(t[cat][idx], b)
    ensures forall j :: 0 <= j < |t[cat]| && j != idx ==> t'[cat][j] == t[cat][j]
    ensures forall c :: c in t && c != cat ==> t'[c] == t[c]
  {
    t[cat := t[cat][idx := SetAttr(t[cat][idx], a, v)]]
  }

  /** Writing back the value an attribute already has changes nothing. */
  lemma ChangeFieldToCurrentIsIdentity(t: Catalog, cat: string, idx: nat, a: Attr)
    requires cat in t && idx < |t[cat]|
    ensures ChangeField(t, cat, idx, a, GetAttr(t[cat][idx], a)) == t
  {
    var f := t[cat][idx];
    assert SetAttr(f, a, GetAttr(f, a)) == f;
    assert t[cat][idx := f] == t[cat];
  }

  /** Of two edits to the same attribute, only the last one counts. */
  lemma ChangeFieldLastWins(t: Catalog, cat: string, idx: nat, a: Attr, v1: string, v2: string)
    requires cat in t && idx < |t[cat]|
    ensures ChangeField(ChangeField(t, cat, idx, a, v1), cat, idx, a, v2) == ChangeField(t, cat, idx, a, v2)
  {
    var f := t[cat][idx];
    var t1 := ChangeField(t, cat, idx, a, v1);
    assert t1[cat][idx] == SetAttr(f, a, v1);
    assert SetAttr(SetAttr(f, a, v1), a, v2) == SetAttr(f, a, v2);
    assert t1[cat][idx := SetAttr(f, a, v2)] == t[cat][idx := SetAttr(f, a, v2)];
  }
}

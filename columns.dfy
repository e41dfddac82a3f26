/** Column models: resolving `__` paths through foreign keys
    (`lookup_foreign_key_field`), one column per field name
    (`get_colmodels`, `field_to_colmodel`) and the default field names
    (`get_field_names`). */
module Columns {
  import opened Results
  import opened Text
  import opened Orm
  import opened Values

  /** The field a name denotes in model `m`: `fk__rest` follows the first
      field called `fk` through its relation and resolves `rest` in the
      related model. A missing `fk` is a FieldError, a `fk` that is not a
      relation has no `rel.to` (AttributeError), and a missing last name is
      FieldDoesNotExist. */
  function LookupForeignKeyField(reg: Registry, m: ModelName, name: string): Result<Field>
    decreases |name|
  {
    match FindDunder(name)
    case None =>
      (match GetField(reg(m), name)
       case None => Err(FieldDoesNotExist(name))
       case Some(f) => Ok(f))
    case Some(i) =>
      var fk, rest := name[..i], name[i + 2..];
      match FirstNamed(reg(m).fields, fk)
      case None => Err(FieldError(fk))
      case Some(f) =>
        match f.relTo
        case None => Err(AttributeError)
        case Some(to) => LookupForeignKeyField(reg, to, rest)
  }

  /** The `__`-separated segments of a name, as repeated `split('__', 1)`
      produces them. */
  function Segments(name: string): (r: seq<string>)
    ensures |r| >= 1
    decreases |name|
  {
    match FindDunder(name)
    case None => [name]
    case Some(i) => [name[..i]] + Segments(name[i + 2..])
  }

  function JoinDunder(parts: seq<string>): string
    requires |parts| >= 1
  {
    if |parts| == 1 then parts[0] else parts[0] + "__" + JoinDunder(parts[1..])
  }

  predicate HasDunder(s: string) {
    exists j :: 0 <= j < |s| - 1 && DunderAt(s, j)
  }

  /** Following a path of segments: every segment but the last must be a
      relation of the current model. */
  function FollowPath(reg: Registry, m: ModelName, path: seq<string>): Result<Field>
    requires |path| >= 1
    decreases |path|
  {
    if |path| == 1 then
      (match GetField(reg(m), path[0])
       case None => Err(FieldDoesNotExist(path[0]))
       case Some(f) => Ok(f))
    else
      match FirstNamed(reg(m).fields, path[0])
      case None => Err(FieldError(path[0]))
      case Some(f) =>
        match f.relTo
        case None => Err(AttributeError)
        case Some(to) => FollowPath(reg, to, path[1..])
  }

  /** The text before the first `__` holds none, and the name is that
      text, `__` and the rest. */
  lemma NoDunderBeforeFirst(name: string, i: nat)
    requires FindDunder(name) == Some(i)
    ensures !HasDunder(name[..i])
    ensures name == name[..i] + "__" + name[i + 2..]
  {
    var head := name[..i];
    forall j | 0 <= j < |head| - 1 ensures !DunderAt(head, j) {
      assert DunderAt(head, j) == DunderAt(name, j);
    }
    assert name[i..i + 2] == "__";
    assert name == name[..i] + name[i..i + 2] + name[i + 2..];
  }

  /** The segments of a name spell the name, and none contains `__`. */
  lemma {:induction false} SegmentsSpellName(name: string)
    ensures JoinDunder(Segments(name)) == name
    ensures forall k :: 0 <= k < |Segments(name)| ==> !HasDunder(Segments(name)[k])
    decreases |name|
  {
    match FindDunder(name)
    case None =>
    case Some(i) =>
      var rest := name[i + 2..];
      SegmentsSpellName(rest);
      NoDunderBeforeFirst(name, i);
      var segs := Segments(name);
      assert segs[0] == name[..i] && segs[1..] == Segments(rest);
      forall k | 0 <= k < |segs| ensures !HasDunder(segs[k]) {
        if k > 0 {
          assert segs[k] == Segments(rest)[k - 1];
        }
      }
  }

  /** Resolving a name follows the path of its segments. */
  lemma {:induction false} LookupFollowsSegments(reg: Registry, m: ModelName, name: string)
    ensures LookupForeignKeyField(reg, m, name) == FollowPath(reg, m, Segments(name))
    decreases |name|
  {
    match FindDunder(name)
    case None =>
    case Some(i) =>
      var rest := name[i + 2..];
      var segs := Segments(name);
      assert segs[0] == name[..i] && segs[1..] == Segments(rest);
      match FirstNamed(reg(m).fields, name[..i])
      case None =>
      case Some(f) =>
        match f.relTo
        case None =>
        case Some(to) => LookupFollowsSegments(reg, to, rest);
  }

  /** `field_to_colmodel`: a column for a field the model has. */
  function FieldToColmodel(f: Field, name: string): ColModel {
    map["name" := Str(name), "index" := Str(f.name), "label" := Str(f.verboseName), "editable" := Boolean(true)]
  }

  /** The column for a name that resolves to no field. */
  function UnknownColmodel(name: string): ColModel {
    map["name" := Str(name), "index" := Str(name), "label" := Str(name), "editable" := Boolean(false)]
  }

  /** A column model updated with the override for its name, if there is a
      non-empty one. */
  function WithOverride(c: ColModel, overrides: map<string, ColModel>, name: string): ColModel {
    if name in overrides && overrides[name] != map[] then c + overrides[name] else c
  }

  /** The column for one field name: only FieldDoesNotExist falls back to an
      uneditable column; every other error escapes. */
  function Colmodel(reg: Registry, m: ModelName, overrides: map<string, ColModel>, name: string): Result<ColModel> {
    match LookupForeignKeyField(reg, m, name)
    case Ok(f) => Ok(WithOverride(FieldToColmodel(f, name), overrides, name))
    case Err(FieldDoesNotExist(_)) => Ok(WithOverride(UnknownColmodel(name), overrides, name))
    case Err(e) => Err(e)
  }

  /** `Colmodel` as a function of the field name alone. */
  function ColumnBuilder(reg: Registry, m: ModelName, overrides: map<string, ColModel>): string -> Result<ColModel> {
    name => Colmodel(reg, m, overrides, name)
  }

  /** One column per field name, in order, or the first error. */
  function Colmodels(reg: Registry, m: ModelName, overrides: map<string, ColModel>, names: seq<string>): (r: Result<seq<ColModel>>)
    ensures r.Ok? ==> |r.value| == |names|
  {
    MapAll(ColumnBuilder(reg, m, overrides), names)
  }

  /** A name whose column can be built moves from the names still to do to
      the columns made so far. */
  lemma ColmodelsOkStep(reg: Registry, m: ModelName, overrides: map<string, ColModel>, names: seq<string>, i: nat,
                        acc: seq<ColModel>, c: ColModel)
    requires i < |names| && Colmodel(reg, m, overrides, names[i]) == Ok(c)
    ensures Prepend(acc, Colmodels(reg, m, overrides, names[i..])) == Prepend(acc + [c], Colmodels(reg, m, overrides, names[i + 1..]))
  {
    MapAllOkStep(ColumnBuilder(reg, m, overrides), names, i, acc, c);
  }

  /** A name whose column fails makes all the columns fail with its error. */
  lemma ColmodelsErrStep(reg: Registry, m: ModelName, overrides: map<string, ColModel>, names: seq<string>, i: nat,
                         acc: seq<ColModel>)
    requires i < |names| && Colmodel(reg, m, overrides, names[i]).Err?
    ensures Prepend(acc, Colmodels(reg, m, overrides, names[i..])) == Err(Colmodel(reg, m, overrides, names[i]).error)
  {
    MapAllErrStep(ColumnBuilder(reg, m, overrides), names, i, acc);
  }

  /** `get_field_names`: the configured names, or else the names of the
      model's local fields. */
  function FieldNames(fields: seq<string>, meta: Meta): seq<string> {
    if fields != [] then fields else Names(meta.localFields)
  }

  /** Every column gets exactly the keys of its base column and of its
      override, the override's values winning. */
  lemma OverrideMergedLast(c: ColModel, overrides: map<string, ColModel>, name: string)
    ensures var r := WithOverride(c, overrides, name);
      var o := if name in overrides then overrides[name] else map[];
      && r.Keys == c.Keys + o.Keys
      && (forall k :: k in o ==> r[k] == o[k])
      && (forall k :: k in c && k !in o ==> r[k] == c[k])
  {
  }

  /** The column for a field the model has is editable and indexed by the
      field's own name; one for a name without a field is uneditable and
      uses the name throughout; other errors escape. */
  lemma ColmodelCases(reg: Registry, m: ModelName, overrides: map<string, ColModel>, name: string)
    ensures var r := Colmodel(reg, m, overrides, name);
      var o := if name in overrides then overrides[name] else map[];
      match LookupForeignKeyField(reg, m, name)
      case Ok(f) =>
        && r.Ok?
        && r.value.Keys == {"name", "index", "label", "editable"} + o.Keys
        && (forall k :: k in o ==> r.value[k] == o[k])
        && ("name" !in o ==> r.value["name"] == Str(name))
        && ("index" !in o ==> r.value["index"] == Str(f.name))
        && ("label" !in o ==> r.value["label"] == Str(f.verboseName))
        && ("editable" !in o ==> r.value["editable"] == Boolean(true))
      case Err(FieldDoesNotExist(_)) =>
        && r.Ok?
        && r.value.Keys == {"name", "index", "label", "editable"} + o.Keys
        && (forall k :: k in o ==> r.value[k] == o[k])
        && (forall k :: k in {"name", "index", "label"} && k !in o ==> r.value[k] == Str(name))
        && ("editable" !in o ==> r.value["editable"] == Boolean(false))
      case Err(e) => r == Err(e)
  {
    match LookupForeignKeyField(reg, m, name)
    case Ok(f) =>
      OverrideMergedLast(FieldToColmodel(f, name), overrides, name);
    case Err(FieldDoesNotExist(_)) =>
      OverrideMergedLast(UnknownColmodel(name), overrides, name);
    case Err(e) =>
  }

  /** The columns are one per field name, in order, each the column for that
      name; the list fails exactly when some name's column does. */
  lemma ColmodelsShape(reg: Registry, m: ModelName, overrides: map<string, ColModel>, names: seq<string>)
    ensures var r := Colmodels(reg, m, overrides, names);
      && (r.Ok? <==> forall i :: 0 <= i < |names| ==> Colmodel(reg, m, overrides, names[i]).Ok?)
      && (r.Ok? ==> forall i :: 0 <= i < |names| ==> Colmodel(reg, m, overrides, names[i]) == Ok(r.value[i]))
      && (r.Err? ==> exists i :: 0 <= i < |names| && Colmodel(reg, m, overrides, names[i]) == Err(r.error)
                       && forall j :: 0 <= j < i ==> Colmodel(reg, m, overrides, names[j]).Ok?)
  {
    MapAllShape(ColumnBuilder(reg, m, overrides), names);
  }

  /** A column reached through a foreign key is indexed by the related
      field's own name, not by the path: `author__name` gets index `name`. */
  lemma PathColumnIndex(reg: Registry, m: ModelName, fk: string, rest: string, f: Field, to: ModelName, g: Field)
    requires !HasDunder(fk) && (fk == [] || fk[|fk| - 1] != '_') && !HasDunder(rest)
    requires FirstNamed(reg(m).fields, fk) == Some(f) && f.relTo == Some(to)
    requires GetField(reg(to), rest) == Some(g)
    ensures LookupForeignKeyField(reg, m, fk + "__" + rest) == Ok(g)
    ensures Colmodel(reg, m, map[], fk + "__" + rest).Ok?
    ensures Colmodel(reg, m, map[], fk + "__" + rest).value["index"] == Str(g.name)
    ensures Colmodel(reg, m, map[], fk + "__" + rest).value["name"] == Str(fk + "__" + rest)
  {
    var name := fk + "__" + rest;
    SegmentsOfPair(fk, rest);
    LookupFollowsSegments(reg, m, name);
    assert [fk, rest][1..] == [rest];
  }

  lemma SegmentsOfPair(fk: string, rest: string)
    requires !HasDunder(fk) && (fk == [] || fk[|fk| - 1] != '_') && !HasDunder(rest)
    ensures Segments(fk + "__" + rest) == [fk, rest]
  {
    var name := fk + "__" + rest;
    var i := |fk|;
    assert DunderAt(name, i);
    forall j | 0 <= j < i ensures !DunderAt(name, j) {
      if j < i - 1 {
        assert DunderAt(name, j) == DunderAt(fk, j);
      } else {
        assert name[j] == fk[|fk| - 1];
      }
    }
    var found := FindDunder(name);
    assert found == Some(i);
    assert name[..i] == fk && name[i + 2..] == rest;
    assert FindDunder(rest).None?;
  }
}

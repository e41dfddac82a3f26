/** The parts of the ORM the grid talks to, as data: model metadata, filter
    expressions (`Q` objects) and querysets as query descriptions. */
module Orm {
  import opened Results

  type ModelName = string

  /** A model field; `relTo` is `field.rel.to` for a relation (a
      `RelatedField`) and absent for any other field. */
  datatype Field = Field(name: string, verboseName: string, relTo: Option<ModelName>) {
    predicate IsRelated() {
      relTo.Some?
    }
  }

  /** `Model._meta`: `fields` are the concrete fields (`options.fields`, also
      what `get_field` searches), `localFields` those declared on the model
      itself (`local_fields`). */
  datatype Meta = Meta(fields: seq<Field>, localFields: seq<Field>, verboseNamePlural: string)

  /** The metadata of every model class. */
  type Registry = ModelName -> Meta

  /** The first field called `name`. */
  function FirstNamed(fields: seq<Field>, name: string): (r: Option<Field>)
    ensures r.Some? ==> r.value in fields && r.value.name == name
    ensures r.None? ==> forall i :: 0 <= i < |fields| ==> fields[i].name != name
  {
    if fields == [] then None
    else if fields[0].name == name then Some(fields[0])
    else FirstNamed(fields[1..], name)
  }

  /** The field found is the first one with the name: the fields before it
      all have other names. */
  lemma {:induction false} FirstNamedIsFirst(fields: seq<Field>, name: string)
    ensures var r := FirstNamed(fields, name);
      r.Some? ==> exists i :: 0 <= i < |fields| && fields[i] == r.value
                    && forall j :: 0 <= j < i ==> fields[j].name != name
  {
    if fields != [] && fields[0].name != name {
      FirstNamedIsFirst(fields[1..], name);
      var r := FirstNamed(fields, name);
      if r.Some? {
        var i :| 0 <= i < |fields[1..]| && fields[1..][i] == r.value
                 && forall j :: 0 <= j < i ==> fields[1..][j].name != name;
        assert fields[i + 1] == r.value;
        forall j | 0 <= j < i + 1 ensures fields[j].name != name {
          if j > 0 {
            assert fields[j] == fields[1..][j - 1];
          }
        }
      }
    }
  }

  /** `options.get_field(name)`; `None` stands for FieldDoesNotExist. */
  function GetField(meta: Meta, name: string): Option<Field> {
    FirstNamed(meta.fields, name)
  }

  /** `[f.name for f in fields]`. */
  function Names(fields: seq<Field>): seq<string> {
    seq(|fields|, i requires 0 <= i < |fields| => fields[i].name)
  }

  /** The right-hand side of a lookup keyword argument. */
  datatype LookupValue = Single(text: string) | Many(items: seq<string>)

  /** A `Q` object: one lookup `field__suffix=value`, negated for `~Q(...)`,
      or the conjunction `left & right` / disjunction `left | right`. */
  datatype Q =
    | Lookup(field: string, suffix: string, value: LookupValue, negated: bool)
    | And(left: Q, right: Q)
    | Or(left: Q, right: Q)

  /** What a row satisfies, given which single lookups it satisfies. */
  function Holds(q: Q, satisfies: (string, string, LookupValue) -> bool): bool {
    match q
    case Lookup(f, s, v, neg) => satisfies(f, s, v) != neg
    case And(l, r) => Holds(l, satisfies) && Holds(r, satisfies)
    case Or(l, r) => Holds(l, satisfies) || Holds(r, satisfies)
  }

  /** A queryset: the model it selects from, the `Q` objects passed to
      `filter` so far, and the `order_by` arguments. */
  datatype Query = Query(model: ModelName, filters: seq<Q>, ordering: seq<string>) {
    /** `queryset.filter(q)`. */
    function Filter(q: Q): Query {
      Query(model, filters + [q], ordering)
    }

    /** `queryset.order_by(*fields)` replaces any earlier ordering. */
    function OrderBy(fields: seq<string>): Query {
      Query(model, filters, fields)
    }
  }

  /** `model.objects.all()`. */
  function All(model: ModelName): Query {
    Query(model, [], [])
  }
}

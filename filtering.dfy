/** Reading the widget's search parameters (`JqGrid.get_filters`) and turning
    its rules into one `Q` object (`JqGrid.filter_items`). */
module Filtering {
  import opened Results
  import opened Text
  import opened Http
  import opened Orm
  import opened Operators

  /** One search rule: `{'op': ..., 'field': ..., 'data': ...}`. */
  datatype Rule = Rule(op: string, field: string, data: string)

  /** The filters dictionary: its `groupOp` and `rules` entries when present,
      and whether it holds any other key. */
  datatype Group = Group(groupOp: Option<string>, rules: Option<seq<Rule>>, otherKeys: bool) {
    /** A dictionary is true when it is not empty. */
    predicate Truthy() {
      groupOp.Some? || rules.Some? || otherKeys
    }
  }

  /** What `json.loads` makes of the `filters` parameter: a ValueError, or a
      dictionary. */
  datatype Parsed = Malformed | Decoded(group: Group)

  const EmptyAndGroup: Group := Group(Some("AND"), Some([]), false)

  // ---------------------------------------------------------------------------
  // get_filters

  /** A request parameter that is present and not empty. */
  predicate Given(v: Option<string>) {
    v.Some? && v.value != ""
  }

  /** The search the request asks for before toolbar rules are added: a
      malformed `filters` parameter, or the group it or the single-field
      search describes, if any. */
  datatype Search = MalformedFilters | Requested(group: Option<Group>)

  function RequestedSearch(q: QueryDict, parse: string -> Parsed): Search {
    var raw := q.Get("filters").GetOr("");
    if raw != "" then
      match parse(raw)
      case Malformed => MalformedFilters
      case Decoded(g) => Requested(Some(g))
    else
      var field, op, data := q.Get("searchField"), q.Get("searchOper"), q.Get("searchString");
      if Given(field) && Given(op) && Given(data) then
        Requested(Some(Group(Some("AND"), Some([Rule(op.value, field.value, data.value)]), false)))
      else
        Requested(None)
  }

  /** One `cn` rule for every key among `keys` that names a local field, in
      the order of `keys`. */
  function ToolbarRules(keys: seq<string>, q: QueryDict, fieldNames: seq<string>): seq<Rule> {
    if keys == [] then []
    else
      var before := ToolbarRules(keys[..|keys| - 1], q, fieldNames);
      var k := keys[|keys| - 1];
      if k in fieldNames then before + [Rule("cn", k, q.Get(k).GetOr(""))] else before
  }

  /** The requested group (an empty AND group in place of nothing, or of an
      empty dictionary) with the toolbar rules appended; appending to a
      dictionary without `rules` is a KeyError. */
  function WithToolbar(g: Option<Group>, q: QueryDict, fieldNames: seq<string>): Result<Group> {
    AppendToolbar(if g.None? || !g.value.Truthy() then EmptyAndGroup else g.value, q, fieldNames)
  }

  /** `base` with the toolbar rules appended to its `rules`. */
  function AppendToolbar(base: Group, q: QueryDict, fieldNames: seq<string>): Result<Group> {
    var toolbar := ToolbarRules(q.Keys(), q, fieldNames);
    if toolbar == [] then Ok(base)
    else
      match base.rules
      case None => Err(KeyError("rules"))
      case Some(rules) => Ok(base.(rules := Some(rules + toolbar)))
  }

  /** What `get_filters` returns, where `model` is what `get_model` gives and
      `fieldNames` the names of that model's local fields. */
  function Filters(q: QueryDict, parse: string -> Parsed, model: Result<ModelName>, reg: Registry): Result<Option<Group>> {
    match RequestedSearch(q, parse)
    case MalformedFilters => Ok(None)
    case Requested(g) =>
      match model
      case Err(e) => Err(e)
      case Ok(m) =>
        match WithToolbar(g, q, Names(reg(m).localFields))
        case Err(e) => Err(e)
        case Ok(group) => Ok(Some(group))
  }

  /** When `get_model` fails, a well-formed or absent `filters` parameter
      makes `get_filters` fail with the same error, before any toolbar rule
      is read. */
  lemma ModelErrorEscapes(q: QueryDict, parse: string -> Parsed, model: Result<ModelName>, reg: Registry)
    requires model.Err? && !RequestedSearch(q, parse).MalformedFilters?
    ensures Filters(q, parse, model, reg) == Err(model.error)
  {
  }

  /** A `filters` parameter that does not parse gives no filters at all. */
  lemma MalformedGivesNone(q: QueryDict, parse: string -> Parsed, model: Result<ModelName>, reg: Registry)
    requires Given(q.Get("filters")) && parse(q.Get("filters").value) == Malformed
    ensures Filters(q, parse, model, reg) == Ok(None)
  {
  }

  /** A non-empty `filters` parameter wins over the single-field search: the
      single-field parameters are not looked at. */
  lemma FiltersParameterFirst(q: QueryDict, parse: string -> Parsed, g: Group)
    requires Given(q.Get("filters")) && parse(q.Get("filters").value) == Decoded(g)
    ensures RequestedSearch(q, parse) == Requested(Some(g))
  {
  }

  /** Without a `filters` parameter, the single-field search makes one AND
      rule exactly when field, operator and string are all given. */
  lemma SingleFieldSearch(q: QueryDict, parse: string -> Parsed)
    requires !Given(q.Get("filters"))
    ensures RequestedSearch(q, parse).Requested?
    ensures RequestedSearch(q, parse).group.Some? <==>
      Given(q.Get("searchField")) && Given(q.Get("searchOper")) && Given(q.Get("searchString"))
    ensures RequestedSearch(q, parse).group.Some? ==>
      RequestedSearch(q, parse).group.value ==
        Group(Some("AND"), Some([Rule(q.Get("searchOper").value, q.Get("searchField").value, q.Get("searchString").value)]), false)
  {
  }

  /** The toolbar rules are `cn` rules on the keys that name local fields,
      one for each such key, carrying that key's value. */
  lemma {:induction false} ToolbarRulesExactly(keys: seq<string>, q: QueryDict, fieldNames: seq<string>)
    ensures var t := ToolbarRules(keys, q, fieldNames);
      && |t| <= |keys|
      && (forall j :: 0 <= j < |t| ==>
            t[j].op == "cn" && t[j].field in keys && t[j].field in fieldNames
            && t[j].data == q.Get(t[j].field).GetOr(""))
      && (forall k :: (k in keys && k in fieldNames) <==> (exists j :: 0 <= j < |t| && t[j].field == k))
      && (Distinct(keys) ==> forall i, j :: 0 <= i < j < |t| ==> t[i].field != t[j].field)
  {
    if keys != [] {
      var init := keys[..|keys| - 1];
      var k := keys[|keys| - 1];
      ToolbarRulesExactly(init, q, fieldNames);
      assert keys == init + [k];
      var t := ToolbarRules(keys, q, fieldNames);
      var before := ToolbarRules(init, q, fieldNames);
      if k in fieldNames {
        assert t == before + [Rule("cn", k, q.Get(k).GetOr(""))];
        assert t[|t| - 1].field == k;
        forall k' | k' in keys && k' in fieldNames
          ensures exists j :: 0 <= j < |t| && t[j].field == k'
        {
          if k' != k {
            var j :| 0 <= j < |before| && before[j].field == k';
            assert t[j] == before[j];
          }
        }
        if Distinct(keys) {
          assert Distinct(init) by {
            forall i, j | 0 <= i < j < |init| ensures init[i] != init[j] {
              assert init[i] == keys[i] && init[j] == keys[j];
            }
          }
          assert forall j :: 0 <= j < |init| ==> init[j] != k by {
            forall j | 0 <= j < |init| ensures init[j] != k {
              assert init[j] == keys[j];
            }
          }
          assert k !in init;
        }
      }
    }
  }

  /** The toolbar rules of two runs of keys are those of the first followed
      by those of the second. */
  lemma {:induction false} ToolbarRulesAppend(a: seq<string>, b: seq<string>, q: QueryDict, fieldNames: seq<string>)
    ensures ToolbarRules(a + b, q, fieldNames) == ToolbarRules(a, q, fieldNames) + ToolbarRules(b, q, fieldNames)
  {
    if b == [] {
      assert a + b == a;
    } else {
      var init := b[..|b| - 1];
      ToolbarRulesAppend(a, init, q, fieldNames);
      assert (a + b)[..|a + b| - 1] == a + init;
    }
  }

  /** The group `get_filters` returns holds the requested rules followed by
      the toolbar rules; with nothing requested, or an empty dictionary, it
      is an AND group of the toolbar rules alone. */
  lemma FiltersAppendToolbar(q: QueryDict, parse: string -> Parsed, m: ModelName, reg: Registry)
    requires RequestedSearch(q, parse).Requested?
    ensures var req := RequestedSearch(q, parse).group;
      var toolbar := ToolbarRules(q.Keys(), q, Names(reg(m).localFields));
      var r := Filters(q, parse, Ok(m), reg);
      && (req.None? ==> r == Ok(Some(Group(Some("AND"), Some(toolbar), false))))
      && (req.Some? && !req.value.Truthy() ==> r == Ok(Some(Group(Some("AND"), Some(toolbar), false))))
      && (req.Some? && req.value.Truthy() && req.value.rules.Some? ==>
            r == Ok(Some(req.value.(rules := Some(req.value.rules.value + toolbar)))))
      && (req.Some? && req.value.Truthy() && req.value.rules.None? ==>
            r == if toolbar == [] then Ok(req) else Err(KeyError("rules")))
  {
    var toolbar := ToolbarRules(q.Keys(), q, Names(reg(m).localFields));
    assert [] + toolbar == toolbar;
    if toolbar == [] {
      assert RequestedSearch(q, parse).group.Some? && RequestedSearch(q, parse).group.value.rules.Some? ==>
        RequestedSearch(q, parse).group.value.rules.value + toolbar == RequestedSearch(q, parse).group.value.rules.value;
    }
  }

  // ---------------------------------------------------------------------------
  // filter_items

  /** The `Q` object for one rule, against the table chosen by `ignoreCase`:
      an unknown field is FieldDoesNotExist, a relation is always searched
      with `eq`, an operator the table lacks is a KeyError, `__in` lookups
      get the comma-separated parts of the data, and excluding operators are
      negated. */
  function TranslateRule(table: map<Op, Entry>, meta: Meta, rule: Rule): Result<Q> {
    match GetField(meta, rule.field)
    case None => Err(FieldDoesNotExist(rule.field))
    case Some(f) =>
      var name := if f.IsRelated() then "eq" else rule.op;
      match OpNamed(name)
      case None => Err(KeyError(name))
      case Some(op) =>
        if op !in table then Err(KeyError(name))
        else
          var e := table[op];
          var value := if EndsWith(e.Format(), "__in") then Many(Split(rule.data, ',')) else Single(rule.data);
          Ok(Lookup(rule.field, e.suffix, value, e.exclude))
  }

  /** `TranslateRule` as a function of the rule alone. */
  function RuleTranslator(table: map<Op, Entry>, meta: Meta): Rule -> Result<Q> {
    rule => TranslateRule(table, meta, rule)
  }

  /** The rules' `Q` objects in order, or the first rule's error. */
  function TranslateAll(table: map<Op, Entry>, meta: Meta, rules: seq<Rule>): (r: Result<seq<Q>>)
    ensures r.Ok? ==> |r.value| == |rules|
  {
    MapAll(RuleTranslator(table, meta), rules)
  }

  /** `reduce(operator.ior, qs)` or `reduce(operator.iand, qs)`. */
  function Combine(disjunction: bool, qs: seq<Q>): Q
    requires |qs| > 0
  {
    if |qs| == 1 then qs[0]
    else
      var acc := Combine(disjunction, qs[..|qs| - 1]);
      if disjunction then Or(acc, qs[|qs| - 1]) else And(acc, qs[|qs| - 1])
  }

  /** A group is a disjunction when its `groupOp` is `OR` in any case. */
  predicate IsDisjunction(groupOp: string) {
    Upper(groupOp) == "OR"
  }

  /** What `filter_items` makes of the filters `get_filters` returned. */
  function ApplyFilters(table: map<Op, Entry>, meta: Meta, filters: Option<Group>, items: Query): Result<Query> {
    if filters.None? || !filters.value.Truthy() then Ok(items)
    else
      match filters.value.rules
      case None => Err(KeyError("rules"))
      case Some(rules) =>
        if rules == [] then Ok(items)
        else
          match TranslateAll(table, meta, rules)
          case Err(e) => Err(e)
          case Ok(qs) =>
            match filters.value.groupOp
            case None => Err(KeyError("groupOp"))
            case Some(g) => Ok(items.Filter(Combine(IsDisjunction(g), qs)))
  }

  /** One rule against the grid's table, for a field the model has. */
  lemma TranslateRuleCases(ignoreCase: bool, meta: Meta, rule: Rule, f: Field)
    requires GetField(meta, rule.field) == Some(f)
    ensures var name := if f.IsRelated() then "eq" else rule.op;
      var r := TranslateRule(Table(ignoreCase), meta, rule);
      && (OpNamed(name).None? ==> r == Err(KeyError(name)))
      && (OpNamed(name).Some? ==>
            var op := OpNamed(name).value;
            && r.Ok? && r.value.Lookup?
            && r.value.field == rule.field
            && r.value.suffix == Table(ignoreCase)[op].suffix
            && (r.value.negated <==> op.IsNegated())
            && (op in {In, Ni} ==> r.value.value == Many(Split(rule.data, ',')))
            && (op !in {In, Ni} ==> r.value.value == Single(rule.data)))
  {
    var name := if f.IsRelated() then "eq" else rule.op;
    if OpNamed(name).Some? {
      var op := OpNamed(name).value;
      ExcludeExactlyNegated(ignoreCase, op);
      InLookupOps(ignoreCase, op);
    }
  }

  /** A rule on a field the model does not have is FieldDoesNotExist,
      whatever its operator. */
  lemma UnknownFieldFails(table: map<Op, Entry>, meta: Meta, rule: Rule)
    requires GetField(meta, rule.field).None?
    ensures TranslateRule(table, meta, rule) == Err(FieldDoesNotExist(rule.field))
  {
  }

  /** A relation is searched with `eq` whatever operator the rule names. */
  lemma RelatedFieldUsesEq(table: map<Op, Entry>, meta: Meta, rule: Rule, f: Field)
    requires GetField(meta, rule.field) == Some(f) && f.IsRelated()
    ensures TranslateRule(table, meta, rule) == TranslateRule(table, meta, rule.(op := "eq"))
  {
  }

  /** A rule that translates moves from the rules still to translate to the
      `Q` objects made so far. */
  lemma TranslateAllOkStep(table: map<Op, Entry>, meta: Meta, rules: seq<Rule>, i: nat, acc: seq<Q>, q: Q)
    requires i < |rules| && TranslateRule(table, meta, rules[i]) == Ok(q)
    ensures Prepend(acc, TranslateAll(table, meta, rules[i..])) == Prepend(acc + [q], TranslateAll(table, meta, rules[i + 1..]))
  {
    MapAllOkStep(RuleTranslator(table, meta), rules, i, acc, q);
  }

  /** A rule that fails makes the whole translation fail with its error. */
  lemma TranslateAllErrStep(table: map<Op, Entry>, meta: Meta, rules: seq<Rule>, i: nat, acc: seq<Q>)
    requires i < |rules| && TranslateRule(table, meta, rules[i]).Err?
    ensures Prepend(acc, TranslateAll(table, meta, rules[i..])) == Err(TranslateRule(table, meta, rules[i]).error)
  {
    MapAllErrStep(RuleTranslator(table, meta), rules, i, acc);
  }

  /** Translating the rules succeeds with one `Q` object per rule, in order,
      or fails with the error of the first rule that fails. */
  lemma TranslateAllShape(table: map<Op, Entry>, meta: Meta, rules: seq<Rule>)
    ensures var r := TranslateAll(table, meta, rules);
      && (r.Ok? <==> forall i :: 0 <= i < |rules| ==> TranslateRule(table, meta, rules[i]).Ok?)
      && (r.Ok? ==> forall i :: 0 <= i < |rules| ==> TranslateRule(table, meta, rules[i]) == Ok(r.value[i]))
      && (r.Err? ==> exists i :: 0 <= i < |rules| && TranslateRule(table, meta, rules[i]) == Err(r.error)
                       && forall j :: 0 <= j < i ==> TranslateRule(table, meta, rules[j]).Ok?)
  {
    MapAllShape(RuleTranslator(table, meta), rules);
  }

  /** An OR group holds for a row exactly when one of its rules does. */
  lemma {:induction false} DisjunctionHolds(qs: seq<Q>, satisfies: (string, string, LookupValue) -> bool)
    requires |qs| > 0
    ensures Holds(Combine(true, qs), satisfies) <==> exists i :: 0 <= i < |qs| && Holds(qs[i], satisfies)
  {
    if |qs| > 1 {
      var init := qs[..|qs| - 1];
      DisjunctionHolds(init, satisfies);
      if Holds(Combine(true, qs), satisfies) && !Holds(qs[|qs| - 1], satisfies) {
        var i :| 0 <= i < |init| && Holds(init[i], satisfies);
        assert qs[i] == init[i];
      }
      if exists i :: 0 <= i < |qs| && Holds(qs[i], satisfies) {
        var i :| 0 <= i < |qs| && Holds(qs[i], satisfies);
        if i < |qs| - 1 {
          assert init[i] == qs[i];
        }
      }
    }
  }

  /** Any other group holds for a row exactly when all of its rules do. */
  lemma {:induction false} ConjunctionHolds(qs: seq<Q>, satisfies: (string, string, LookupValue) -> bool)
    requires |qs| > 0
    ensures Holds(Combine(false, qs), satisfies) <==> forall i :: 0 <= i < |qs| ==> Holds(qs[i], satisfies)
  {
    if |qs| > 1 {
      var init := qs[..|qs| - 1];
      ConjunctionHolds(init, satisfies);
      if Holds(Combine(false, qs), satisfies) {
        forall i | 0 <= i < |qs| ensures Holds(qs[i], satisfies) {
          if i < |qs| - 1 {
            assert init[i] == qs[i];
          }
        }
      }
      if forall i :: 0 <= i < |qs| ==> Holds(qs[i], satisfies) {
        forall i | 0 <= i < |init| ensures Holds(init[i], satisfies) {
          assert init[i] == qs[i];
        }
      }
    }
  }

  /** No filters, or no rules, leave the items unchanged; otherwise the items
      get one more `Q` object that holds when some rule holds (an `OR`
      group) or when every rule holds (any other group). */
  lemma ApplyFiltersMeaning(table: map<Op, Entry>, meta: Meta, filters: Option<Group>, items: Query,
                            satisfies: (string, string, LookupValue) -> bool)
    ensures filters.None? ==> ApplyFilters(table, meta, filters, items) == Ok(items)
    ensures filters.Some? && filters.value.rules == Some([]) ==> ApplyFilters(table, meta, filters, items) == Ok(items)
    ensures var r := ApplyFilters(table, meta, filters, items);
      filters.Some? && filters.value.Truthy() && filters.value.rules.Some? && filters.value.rules.value != []
      && filters.value.groupOp.Some? && r.Ok? ==>
        var rules := filters.value.rules.value;
        var qs := TranslateAll(table, meta, rules).value;
        && TranslateAll(table, meta, rules).Ok?
        && r.value.model == items.model && r.value.ordering == items.ordering
        && |r.value.filters| == |items.filters| + 1
        && r.value.filters[..|items.filters|] == items.filters
        && |qs| == |rules|
        && (IsDisjunction(filters.value.groupOp.value) ==>
              (Holds(r.value.filters[|items.filters|], satisfies) <==> exists i :: 0 <= i < |qs| && Holds(qs[i], satisfies)))
        && (!IsDisjunction(filters.value.groupOp.value) ==>
              (Holds(r.value.filters[|items.filters|], satisfies) <==> forall i :: 0 <= i < |qs| ==> Holds(qs[i], satisfies)))
  {
    var r := ApplyFilters(table, meta, filters, items);
    if filters.Some? && filters.value.Truthy() && filters.value.rules.Some? && filters.value.rules.value != []
      && filters.value.groupOp.Some? && r.Ok? {
      var qs := TranslateAll(table, meta, filters.value.rules.value).value;
      var g := filters.value.groupOp.value;
      assert r.value == items.Filter(Combine(IsDisjunction(g), qs));
      assert (items.filters + [Combine(IsDisjunction(g), qs)])[..|items.filters|] == items.filters;
      if IsDisjunction(g) {
        DisjunctionHolds(qs, satisfies);
      } else {
        ConjunctionHolds(qs, satisfies);
      }
    }
  }

  /** When `filter_items` succeeds or fails: an empty dictionary leaves the
      items, a dictionary without `rules` is a KeyError, and for a non-empty
      rule list the first failing rule's error reaches the caller, a missing
      `groupOp` is a KeyError once every rule translates, and otherwise the
      call succeeds. */
  lemma ApplyFiltersOutcome(table: map<Op, Entry>, meta: Meta, g: Group, items: Query)
    ensures !g.Truthy() ==> ApplyFilters(table, meta, Some(g), items) == Ok(items)
    ensures g.Truthy() && g.rules.None? ==> ApplyFilters(table, meta, Some(g), items) == Err(KeyError("rules"))
    ensures var r := ApplyFilters(table, meta, Some(g), items);
      g.Truthy() && g.rules.Some? && g.rules.value != [] ==>
        var t := TranslateAll(table, meta, g.rules.value);
        && (t.Err? ==> r == Err(t.error))
        && (t.Ok? && g.groupOp.None? ==> r == Err(KeyError("groupOp")))
        && (t.Ok? && g.groupOp.Some? ==> r.Ok?)
  {
  }
}

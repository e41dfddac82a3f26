/** The grid itself (`JqGrid`): what it resolves lazily and caches in its
    attributes (queryset, model, caption), its configuration, and the
    request pipeline get_queryset, filter_items, sort_items and
    paginate_items. */
module Grid {
  import opened Results
  import opened Text
  import opened Http
  import opened Orm
  import opened Values
  import opened Settings
  import opened Operators
  import opened Filtering
  import opened Sorting
  import opened Columns
  import opened Paging

  /** The class attributes a grid declares and never changes. */
  datatype Declared = Declared(
    registry: Registry,
    fields: seq<string>,
    allowEmpty: bool,
    extraConfig: Config,
    pagerId: string,
    url: Option<string>,
    colmodelOverrides: map<string, ColModel>)

  /** The attributes a grid fills in as it resolves them. */
  datatype Cache = Cache(queryset: Option<Query>, model: Option<ModelName>, caption: Option<string>)

  // ---------------------------------------------------------------------------
  // What each operation computes, and the attributes it leaves behind

  /** `get_queryset`: a copy of the declared queryset, else all objects of
      the declared model. */
  function QuerysetOf(c: Cache): Result<Query> {
    match c.queryset
    case Some(qs) => Ok(qs)
    case None =>
      match c.model
      case Some(m) => Ok(All(m))
      case None => Err(ImproperlyConfigured)
  }

  function WithQueryset(c: Cache): Cache {
    match QuerysetOf(c)
    case Ok(qs) => c.(queryset := Some(qs))
    case Err(_) => c
  }

  /** `get_model`: the declared model, else the queryset's model. */
  function ModelOf(c: Cache): Result<ModelName> {
    match c.model
    case Some(m) => Ok(m)
    case None =>
      match c.queryset
      case Some(qs) => Ok(qs.model)
      case None => Err(ImproperlyConfigured)
  }

  function WithModel(c: Cache): Cache {
    match ModelOf(c)
    case Ok(m) => c.(model := Some(m))
    case Err(_) => c
  }

  /** `get_field_names`. */
  function FieldNamesOf(d: Declared, c: Cache): Result<seq<string>> {
    if d.fields != [] then Ok(d.fields)
    else
      var m :- ModelOf(c);
      Ok(FieldNames(d.fields, d.registry(m)))
  }

  function AfterFieldNames(d: Declared, c: Cache): Cache {
    if d.fields != [] then c else WithModel(c)
  }

  /** The field names are the declared ones, with nothing resolved; else the
      names of the model's local fields in order, failing exactly when the
      model cannot be resolved, and caching it. They are the names the
      columns are built from. */
  lemma FieldNamesCases(d: Declared, c: Cache)
    ensures d.fields != [] ==> FieldNamesOf(d, c) == Ok(d.fields) && AfterFieldNames(d, c) == c
    ensures d.fields == [] ==> (FieldNamesOf(d, c).Err? <==> ModelOf(c).Err?)
    ensures d.fields == [] && ModelOf(c).Ok? ==>
      var r := FieldNamesOf(d, c).value;
      var local := d.registry(ModelOf(c).value).localFields;
      && |r| == |local| && (forall i :: 0 <= i < |r| ==> r[i] == local[i].name)
      && AfterFieldNames(d, c).model == Some(ModelOf(c).value)
    ensures ModelOf(c).Ok? ==> FieldNamesOf(d, c) == Ok(FieldNames(d.fields, d.registry(ModelOf(c).value)))
  {
  }

  /** `str(self.url)`. */
  function UrlText(url: Option<string>): string {
    match url
    case Some(u) => u
    case None => "None"
  }

  /** `get_caption`: the declared caption, else the model's capitalised
      plural name. */
  function CaptionOf(d: Declared, c: Cache): Result<string> {
    match c.caption
    case Some(t) => Ok(t)
    case None =>
      var m :- ModelOf(c);
      Ok(Capitalize(d.registry(m).verboseNamePlural))
  }

  function WithCaption(d: Declared, c: Cache): Cache {
    match CaptionOf(d, c)
    case Ok(t) => if c.caption.None? then WithModel(c).(caption := Some(t)) else c
    case Err(_) => c
  }

  /** `get_colmodels`. */
  function ColmodelsOf(d: Declared, c: Cache): Result<seq<ColModel>> {
    var m :- ModelOf(c);
    Colmodels(d.registry, m, d.colmodelOverrides, FieldNames(d.fields, d.registry(m)))
  }

  /** `get_config(False)`. */
  function ConfigOf(d: Declared, c: Cache): Result<Config> {
    var caption :- CaptionOf(d, c);
    var columns :- ColmodelsOf(d, WithCaption(d, c));
    Ok(MergeConfig(d.pagerId, d.extraConfig, UrlText(d.url), caption, columns))
  }

  function AfterConfig(d: Declared, c: Cache): Cache {
    WithModel(WithCaption(d, c))
  }

  /** `get_filters`. */
  function FiltersOf(d: Declared, c: Cache, q: QueryDict, parse: string -> Parsed): Result<Option<Group>> {
    Filters(q, parse, ModelOf(c), d.registry)
  }

  function AfterFilters(c: Cache, q: QueryDict, parse: string -> Parsed): Cache {
    if RequestedSearch(q, parse).MalformedFilters? then c else WithModel(c)
  }

  /** The operator table a configuration selects. */
  function FilterTable(config: Config): map<Op, Entry>
    requires "ignoreCase" in config
  {
    Table(Truthy(config["ignoreCase"]))
  }

  /** `filter_items`. */
  function FilterItemsOf(d: Declared, c: Cache, q: QueryDict, parse: string -> Parsed, items: Query): Result<Query> {
    var config :- ConfigOf(d, c);
    ConfigKeys(d, c);
    var c1 := AfterConfig(d, c);
    var filters :- FiltersOf(d, c1, q, parse);
    var m :- ModelOf(c1);
    ApplyFilters(FilterTable(config), d.registry(m), filters, items)
  }

  /** `get_paginate_by`; the default `rowNum` is looked up, and so the
      configuration built, even when the request has `rows`. */
  function PageSizeOf(d: Declared, c: Cache, q: QueryDict): Result<int> {
    var config :- ConfigOf(d, c);
    ConfigKeys(d, c);
    PageSize(q.Get("rows"), config["rowNum"])
  }

  /** `paginate_items`. */
  function PaginateItemsOf(d: Declared, c: Cache, q: QueryDict, items: Query,
                           pageExists: (Paginator, int) -> bool): Result<Pagination>
  {
    var size :- PageSizeOf(d, c, q);
    Paginate(size, d.allowEmpty, items, q.Get("page"), pageExists)
  }

  /** `get_items`: the queryset, filtered, sorted, then paginated. */
  function ItemsOf(d: Declared, c: Cache, q: QueryDict, parse: string -> Parsed,
                   accepts: seq<string> -> bool, pageExists: (Paginator, int) -> bool): Result<Pagination>
  {
    var qs :- QuerysetOf(c);
    var c1 := WithQueryset(c);
    var filtered :- FilterItemsOf(d, c1, q, parse, qs);
    var sorted := Sorted(q, filtered, accepts);
    PaginateItemsOf(d, AfterConfig(d, c1), q, sorted, pageExists)
  }

  function AfterItems(d: Declared, c: Cache): Cache {
    if QuerysetOf(c).Err? then c else AfterConfig(d, WithQueryset(c))
  }

  /** The items a pagination hands back. */
  function ItemsIn(p: Pagination): Query {
    match p
    case Unpaginated(items) => items
    case Paginated(page) => page.paginator.items
  }

  // ---------------------------------------------------------------------------
  // Properties

  /** The queryset and the model are defined together: both resolve or both
      fail, and the model is the queryset's own model when only one of them
      is declared. */
  lemma ResolversAgree(c: Cache)
    ensures QuerysetOf(c).Err? <==> ModelOf(c).Err?
    ensures QuerysetOf(c).Err? ==> QuerysetOf(c).error == ImproperlyConfigured && ModelOf(c).error == ImproperlyConfigured
    ensures c.queryset.None? || c.model.None? ==>
      QuerysetOf(c).Ok? ==> QuerysetOf(c).value.model == ModelOf(c).value
  {
  }

  /** Resolving again gives the same answer, and a cached answer stays put. */
  lemma ResolutionIsCached(d: Declared, c: Cache)
    ensures QuerysetOf(WithQueryset(c)) == QuerysetOf(c) && WithQueryset(WithQueryset(c)) == WithQueryset(c)
    ensures ModelOf(WithModel(c)) == ModelOf(c) && WithModel(WithModel(c)) == WithModel(c)
    ensures CaptionOf(d, WithCaption(d, c)) == CaptionOf(d, c) && WithCaption(d, WithCaption(d, c)) == WithCaption(d, c)
  {
  }

  /** What each resolver writes back: `get_queryset` stores the queryset it
      returns, with all of the model's objects unfiltered and unordered when
      only a model is declared; `get_model` stores a model it found;
      `get_caption` stores a caption it computed, together with the model
      it resolved on the way; a failed resolution writes nothing. */
  lemma CacheWrites(d: Declared, c: Cache)
    ensures c.queryset.None? && c.model.Some? ==>
      var qs := QuerysetOf(c).value;
      QuerysetOf(c).Ok? && qs.model == c.model.value && qs.filters == [] && qs.ordering == []
    ensures QuerysetOf(c).Ok? ==> WithQueryset(c) == c.(queryset := Some(QuerysetOf(c).value))
    ensures ModelOf(c).Ok? ==> WithModel(c) == c.(model := Some(ModelOf(c).value))
    ensures c.caption.None? && CaptionOf(d, c).Ok? ==>
      WithCaption(d, c) == c.(model := Some(ModelOf(c).value), caption := Some(CaptionOf(d, c).value))
    ensures c.caption.Some? ==> WithCaption(d, c) == c
    ensures QuerysetOf(c).Err? ==> WithQueryset(c) == c && WithModel(c) == c && WithCaption(d, c) == c
  {
  }

  /** A built configuration always has `ignoreCase` and `rowNum`; building
      it resolves and caches the model. */
  lemma ConfigKeys(d: Declared, c: Cache)
    ensures ConfigOf(d, c).Ok? ==>
      && "ignoreCase" in ConfigOf(d, c).value && "rowNum" in ConfigOf(d, c).value
      && ModelOf(c).Ok? && AfterConfig(d, c).model == Some(ModelOf(c).value)
  {
    if ConfigOf(d, c).Ok? {
      var caption := CaptionOf(d, c).value;
      var columns := ColmodelsOf(d, WithCaption(d, c)).value;
      ConfigKeepsSearchSettings(d.pagerId, d.extraConfig, UrlText(d.url), caption, columns);
    }
  }

  /** The configuration carries the grid's URL, its caption (the declared
      one, else the model's capitalised plural name) and one column model
      per field name, whatever the extra configuration says; the extra
      configuration wins over every default. */
  lemma ConfigShape(d: Declared, c: Cache)
    requires ConfigOf(d, c).Ok?
    ensures var config := ConfigOf(d, c).value;
      var m := ModelOf(c).value;
      && ModelOf(c).Ok?
      && config["url"] == Plain(Str(UrlText(d.url)))
      && config["caption"] == Plain(Str(if c.caption.Some? then c.caption.value
                                        else Capitalize(d.registry(m).verboseNamePlural)))
      && config["colModel"].ColModels?
      && |config["colModel"].columns| == |FieldNames(d.fields, d.registry(m))|
      && config["colModel"] == ColModels(Colmodels(d.registry, m, d.colmodelOverrides, FieldNames(d.fields, d.registry(m))).value)
      && (forall k :: k in d.extraConfig && k !in GridKeys ==> config[k] == d.extraConfig[k])
      && (forall k :: k in DefaultKeys && k !in d.extraConfig ==> config[k] == DefaultConfig(d.pagerId)[k])
  {
    var caption := CaptionOf(d, c).value;
    var columns := ColmodelsOf(d, WithCaption(d, c)).value;
    MergePrecedence(d.pagerId, d.extraConfig, UrlText(d.url), caption, columns);
  }

  /** Building the configuration twice gives the same configuration and
      leaves the same attributes behind. */
  lemma ConfigIdempotent(d: Declared, c: Cache)
    ensures ConfigOf(d, AfterConfig(d, c)) == ConfigOf(d, c)
    ensures AfterConfig(d, AfterConfig(d, c)) == AfterConfig(d, c)
  {
  }

  /** Unless the extra configuration says otherwise, searches ignore case. */
  lemma DefaultIgnoreCase(d: Declared, c: Cache)
    requires ConfigOf(d, c).Ok? && "ignoreCase" !in d.extraConfig
    ensures FilterTable(ConfigOf(d, c).value) == Table(true)
  {
    var caption := CaptionOf(d, c).value;
    var columns := ColmodelsOf(d, WithCaption(d, c)).value;
    ConfigKeepsSearchSettings(d.pagerId, d.extraConfig, UrlText(d.url), caption, columns);
  }

  /** Unless the extra configuration says otherwise, a request without `rows`
      gets ten rows per page. */
  lemma DefaultPageSize(d: Declared, c: Cache, q: QueryDict)
    requires ConfigOf(d, c).Ok? && "rowNum" !in d.extraConfig && q.Get("rows").None?
    ensures PageSizeOf(d, c, q) == Ok(10)
  {
    var caption := CaptionOf(d, c).value;
    var columns := ColmodelsOf(d, WithCaption(d, c)).value;
    ConfigKeepsSearchSettings(d.pagerId, d.extraConfig, UrlText(d.url), caption, columns);
  }

  /** A request that searches nothing (no `filters`, no complete single-field
      search, no parameter named after a local field) leaves the items as
      they are. */
  lemma NoSearchLeavesItems(d: Declared, c: Cache, q: QueryDict, parse: string -> Parsed, items: Query)
    requires ConfigOf(d, c).Ok?
    requires !Given(q.Get("filters"))
    requires !(Given(q.Get("searchField")) && Given(q.Get("searchOper")) && Given(q.Get("searchString")))
    requires forall k :: k in q.Keys() ==> k !in Names(d.registry(ModelOf(c).value).localFields)
    ensures FilterItemsOf(d, c, q, parse, items) == Ok(items)
  {
    ConfigKeys(d, c);
    var fieldNames := Names(d.registry(ModelOf(c).value).localFields);
    ToolbarRulesExactly(q.Keys(), q, fieldNames);
  }

  /** What the pipeline hands back is the grid's queryset, of the same model,
      with at most one more `Q` object. */
  lemma ItemsKeepQueryset(d: Declared, c: Cache, q: QueryDict, parse: string -> Parsed,
                          accepts: seq<string> -> bool, pageExists: (Paginator, int) -> bool)
    requires ItemsOf(d, c, q, parse, accepts, pageExists).Ok?
    ensures var items := ItemsIn(ItemsOf(d, c, q, parse, accepts, pageExists).value);
      var qs := QuerysetOf(c).value;
      && QuerysetOf(c).Ok?
      && items.model == qs.model
      && |qs.filters| <= |items.filters| <= |qs.filters| + 1
      && items.filters[..|qs.filters|] == qs.filters
  {
    var qs := QuerysetOf(c).value;
    var c1 := WithQueryset(c);
    var filtered := FilterItemsOf(d, c1, q, parse, qs).value;
    var config := ConfigOf(d, c1).value;
    ConfigKeys(d, c1);
    var m := ModelOf(AfterConfig(d, c1)).value;
    var filters := FiltersOf(d, AfterConfig(d, c1), q, parse).value;
    ApplyFiltersMeaning(FilterTable(config), d.registry(m), filters, qs, (f, s, v) => true);
    assert filtered == ApplyFilters(FilterTable(config), d.registry(m), filters, qs).value;
    assert filtered.model == qs.model;
    assert |qs.filters| <= |filtered.filters| <= |qs.filters| + 1;
    assert filtered.filters[..|qs.filters|] == qs.filters;
    var sorted := Sorted(q, filtered, accepts);
    assert sorted.model == filtered.model && sorted.filters == filtered.filters;
    var size := PageSizeOf(d, AfterConfig(d, c1), q).value;
    PaginateCases(size, d.allowEmpty, sorted, q.Get("page"), pageExists);
    ChosenPageCases(Paginator(sorted, size, d.allowEmpty), q.Get("page"), pageExists);
  }

  // ---------------------------------------------------------------------------
  // The grid

  class JqGrid {
    const registry: Registry
    const fields: seq<string>
    const allowEmpty: bool
    const extraConfig: Config
    const pagerId: string
    const url: Option<string>
    const colmodelOverrides: map<string, ColModel>
    var queryset: Option<Query>
    var model: Option<ModelName>
    var caption: Option<string>

    function Declaration(): Declared {
      Declared(registry, fields, allowEmpty, extraConfig, pagerId, url, colmodelOverrides)
    }

    function Cached(): Cache
      reads this
    {
      Cache(queryset, model, caption)
    }

    /** A grid with every attribute given. */
    constructor (registry: Registry, queryset: Option<Query>, model: Option<ModelName>, fields: seq<string>,
                 allowEmpty: bool, extraConfig: Config, pagerId: string, url: Option<string>,
                 caption: Option<string>, colmodelOverrides: map<string, ColModel>)
      ensures this.registry == registry && this.fields == fields && this.allowEmpty == allowEmpty
      ensures this.extraConfig == extraConfig && this.pagerId == pagerId && this.url == url
      ensures this.colmodelOverrides == colmodelOverrides
      ensures Cached() == Cache(queryset, model, caption)
    {
      this.registry := registry;
      this.queryset := queryset;
      this.model := model;
      this.fields := fields;
      this.allowEmpty := allowEmpty;
      this.extraConfig := extraConfig;
      this.pagerId := pagerId;
      this.url := url;
      this.caption := caption;
      this.colmodelOverrides := colmodelOverrides;
    }

    /** A grid over a model that keeps every other class default. */
    constructor ForModel(registry: Registry, model: ModelName)
      ensures this.registry == registry && fields == [] && allowEmpty && extraConfig == map[]
      ensures pagerId == "#pager" && url.None? && colmodelOverrides == map[]
      ensures Cached() == Cache(None, Some(model), None)
    {
      this.registry := registry;
      this.queryset := None;
      this.model := Some(model);
      this.fields := [];
      this.allowEmpty := true;
      this.extraConfig := map[];
      this.pagerId := "#pager";
      this.url := None;
      this.caption := None;
      this.colmodelOverrides := map[];
    }

    method GetQueryset() returns (r: Result<Query>)
      modifies this`queryset
      ensures r == QuerysetOf(old(Cached()))
      ensures Cached() == WithQueryset(old(Cached()))
    {
      if queryset.Some? {
        r := Ok(queryset.value);
      } else if model.Some? {
        r := Ok(All(model.value));
      } else {
        return Err(ImproperlyConfigured);
      }
      queryset := Some(r.value);
    }

    method GetModel() returns (r: Result<ModelName>)
      modifies this`model
      ensures r == ModelOf(old(Cached()))
      ensures Cached() == WithModel(old(Cached()))
    {
      if model.Some? {
        r := Ok(model.value);
      } else if queryset.Some? {
        r := Ok(queryset.value.model);
        model := Some(r.value);
      } else {
        r := Err(ImproperlyConfigured);
      }
    }

    method GetFieldNames() returns (r: Result<seq<string>>)
      modifies this`model
      ensures r == FieldNamesOf(Declaration(), old(Cached()))
      ensures Cached() == AfterFieldNames(Declaration(), old(Cached()))
    {
      if fields != [] {
        return Ok(fields);
      }
      var m := GetModel();
      if m.Err? {
        return Err(m.error);
      }
      r := Ok(Names(registry(m.value).localFields));
    }

    function GetUrl(): string {
      UrlText(url)
    }

    method GetCaption() returns (r: Result<string>)
      modifies this`model, this`caption
      ensures r == CaptionOf(Declaration(), old(Cached()))
      ensures Cached() == WithCaption(Declaration(), old(Cached()))
    {
      if caption.None? {
        var m := GetModel();
        if m.Err? {
          return Err(m.error);
        }
        caption := Some(Capitalize(registry(m.value).verboseNamePlural));
      }
      r := Ok(caption.value);
    }

    method GetColmodels() returns (r: Result<seq<ColModel>>)
      modifies this`model
      ensures r == ColmodelsOf(Declaration(), old(Cached()))
      ensures Cached() == WithModel(old(Cached()))
    {
      var opts := GetModel();
      if opts.Err? {
        return Err(opts.error);
      }
      var m := opts.value;
      var namesResult := GetFieldNames();
      var names := namesResult.value;
      var colmodels: seq<ColModel> := [];
      var i := 0;
      ghost var all := Colmodels(registry, m, colmodelOverrides, names);
      assert names[0..] == names;
      assert all.Ok? ==> [] + all.value == all.value;
      while i < |names|
        invariant 0 <= i <= |names|
        invariant model == Some(m)
        invariant all == Prepend(colmodels, Colmodels(registry, m, colmodelOverrides, names[i..]))
      {
        var name := names[i];
        var colmodel := Colmodel(registry, m, colmodelOverrides, name);
        if colmodel.Err? {
          ColmodelsErrStep(registry, m, colmodelOverrides, names, i, colmodels);
          return Err(colmodel.error);
        }
        ColmodelsOkStep(registry, m, colmodelOverrides, names, i, colmodels, colmodel.value);
        colmodels := colmodels + [colmodel.value];
        i := i + 1;
      }
      assert colmodels + [] == colmodels;
      r := Ok(colmodels);
    }

    method GetConfig() returns (r: Result<Config>)
      modifies this`model, this`caption
      ensures r == ConfigOf(Declaration(), old(Cached()))
      ensures Cached() == AfterConfig(Declaration(), old(Cached()))
    {
      var config := DefaultConfig(pagerId);
      config := config + extraConfig;
      var u := GetUrl();
      var c := GetCaption();
      if c.Err? {
        return Err(c.error);
      }
      var columns := GetColmodels();
      if columns.Err? {
        return Err(columns.error);
      }
      config := config + map["url" := Plain(Str(u)), "caption" := Plain(Str(c.value)), "colModel" := ColModels(columns.value)];
      r := Ok(config);
    }

    method GetFilters(q: QueryDict, parse: string -> Parsed) returns (r: Result<Option<Group>>)
      modifies this`model
      ensures r == FiltersOf(Declaration(), old(Cached()), q, parse)
      ensures Cached() == AfterFilters(old(Cached()), q, parse)
    {
      var filters: Option<Group> := None;
      var raw := q.Get("filters").GetOr("");
      if raw != "" {
        match parse(raw)
        case Malformed => return Ok(None);
        case Decoded(g) => filters := Some(g);
      } else {
        var field, op, data := q.Get("searchField"), q.Get("searchOper"), q.Get("searchString");
        if Given(field) && Given(op) && Given(data) {
          filters := Some(Group(Some("AND"), Some([Rule(op.value, field.value, data.value)]), false));
        }
      }
      assert RequestedSearch(q, parse) == Requested(filters);
      var m := GetModel();
      if m.Err? {
        return Err(m.error);
      }
      var fieldNames := Names(registry(m.value).localFields);
      if filters.None? || !filters.value.Truthy() {
        filters := Some(EmptyAndGroup);
      }
      var group := AddToolbarRules(filters.value, q, fieldNames);
      if group.Err? {
        return Err(group.error);
      }
      r := Ok(Some(group.value));
    }

    /** The loop of `get_filters` that appends a `cn` rule for every request
        parameter named after a local field. */
    static method AddToolbarRules(filters: Group, q: QueryDict, fieldNames: seq<string>) returns (r: Result<Group>)
      ensures r == AppendToolbar(filters, q, fieldNames)
    {
      var group := filters;
      var keys := q.Keys();
      KeysExactly(q.pairs);
      var i := 0;
      assert keys[..0] == [];
      if filters.rules.Some? {
        assert filters.rules.value + [] == filters.rules.value;
      }
      while i < |keys|
        invariant 0 <= i <= |keys|
        invariant filters.rules.None? ==> group == filters && ToolbarRules(keys[..i], q, fieldNames) == []
        invariant filters.rules.Some? ==>
          group == filters.(rules := Some(filters.rules.value + ToolbarRules(keys[..i], q, fieldNames)))
      {
        var param := keys[i];
        assert keys[..i + 1][..i] == keys[..i];
        if param in fieldNames {
          if group.rules.None? {
            ToolbarRulesAppend(keys[..i + 1], keys[i + 1..], q, fieldNames);
            assert keys[..i + 1] + keys[i + 1..] == keys;
            return Err(KeyError("rules"));
          }
          var value := q.Get(param).value;
          assert ToolbarRules(keys[..i + 1], q, fieldNames)
            == ToolbarRules(keys[..i], q, fieldNames) + [Rule("cn", param, value)];
          assert group.rules.value + [Rule("cn", param, value)]
            == filters.rules.value + ToolbarRules(keys[..i + 1], q, fieldNames);
          group := group.(rules := Some(group.rules.value + [Rule("cn", param, value)]));
        } else {
          assert ToolbarRules(keys[..i + 1], q, fieldNames) == ToolbarRules(keys[..i], q, fieldNames);
        }
        i := i + 1;
      }
      assert keys[..|keys|] == keys;
      r := Ok(group);
    }

    method FilterItems(q: QueryDict, items: Query, parse: string -> Parsed) returns (r: Result<Query>)
      modifies this`model, this`caption
      ensures r == FilterItemsOf(Declaration(), old(Cached()), q, parse, items)
      ensures Cached() == AfterConfig(Declaration(), old(Cached()))
    {
      var config := GetConfig();
      if config.Err? {
        return Err(config.error);
      }
      ConfigKeys(Declaration(), old(Cached()));
      var filterMap := BaseTable();
      if Truthy(config.value["ignoreCase"]) {
        filterMap := filterMap + CaseInsensitiveOverlay();
      }
      var found := GetFilters(q, parse);
      if found.Err? {
        return Err(found.error);
      }
      var filters := found.value;
      if filters.None? || !filters.value.Truthy() {
        return Ok(items);
      }
      if filters.value.rules.None? {
        return Err(KeyError("rules"));
      }
      var rules := filters.value.rules.value;
      if rules == [] {
        return Ok(items);
      }
      var qFilters := RuleFilters(filterMap, model.value, rules);
      if qFilters.Err? {
        return Err(qFilters.error);
      }
      if filters.value.groupOp.None? {
        return Err(KeyError("groupOp"));
      }
      r := Ok(items.Filter(Combine(IsDisjunction(filters.value.groupOp.value), qFilters.value)));
    }

    /** The loop of `filter_items` that makes one `Q` object per rule,
        looking the model up again for every rule. */
    method RuleFilters(filterMap: map<Op, Entry>, m: ModelName, rules: seq<Rule>) returns (r: Result<seq<Q>>)
      requires model == Some(m)
      modifies this`model
      ensures r == TranslateAll(filterMap, registry(m), rules)
      ensures Cached() == old(Cached())
    {
      var qFilters: seq<Q> := [];
      var i := 0;
      ghost var all := TranslateAll(filterMap, registry(m), rules);
      assert rules[0..] == rules;
      assert all.Ok? ==> [] + all.value == all.value;
      while i < |rules|
        invariant 0 <= i <= |rules|
        invariant model == Some(m)
        invariant all == Prepend(qFilters, TranslateAll(filterMap, registry(m), rules[i..]))
      {
        var filter := RuleFilter(filterMap, m, rules[i]);
        if filter.Err? {
          TranslateAllErrStep(filterMap, registry(m), rules, i, qFilters);
          return Err(filter.error);
        }
        TranslateAllOkStep(filterMap, registry(m), rules, i, qFilters, filter.value);
        qFilters := qFilters + [filter.value];
        i := i + 1;
      }
      assert qFilters + [] == qFilters;
      r := Ok(qFilters);
    }

    /** One pass of that loop: `get_model()` again, then the rule's `Q`
        object. */
    method RuleFilter(filterMap: map<Op, Entry>, m: ModelName, rule: Rule) returns (r: Result<Q>)
      requires model == Some(m)
      modifies this`model
      ensures r == TranslateRule(filterMap, registry(m), rule)
      ensures model == Some(m)
    {
      var opts := GetModel();
      r := TranslateRule(filterMap, registry(opts.value), rule);
    }

    static method SortItems(q: QueryDict, items: Query, accepts: seq<string> -> bool) returns (r: Query)
      ensures r == Sorted(q, items, accepts)
    {
      r := items;
      var sidx := q.Get("sidx");
      if sidx.Some? {
        var orderByList: seq<string> := [];
        var sord := q.Get("sord");
        var sidxList := SortItemsOf(sidx.value);
        var i := 0;
        while i < |sidxList|
          invariant 0 <= i <= |sidxList|
          invariant |orderByList| == i
          invariant forall j :: 0 <= j < i ==> orderByList[j] == OrderTerm(sidxList[j], sord)
        {
          var ordering := Split(sidxList[i], ' ');
          var orderBy: string;
          if |ordering| > 1 {
            orderBy := (if ordering[1] == "desc" then "-" else "") + ordering[0];
          } else {
            orderBy := (if sord == Some("desc") then "-" else "") + ordering[0];
          }
          orderByList := orderByList + [orderBy];
          i := i + 1;
        }
        assert orderByList == OrderByList(sidx.value, sord);
        if accepts(orderByList) {
          r := items.OrderBy(orderByList);
        }
      }
    }

    method GetPaginateBy(q: QueryDict) returns (r: Result<int>)
      modifies this`model, this`caption
      ensures r == PageSizeOf(Declaration(), old(Cached()), q)
      ensures Cached() == AfterConfig(Declaration(), old(Cached()))
    {
      var config := GetConfig();
      if config.Err? {
        return Err(config.error);
      }
      ConfigKeys(Declaration(), old(Cached()));
      r := PageSize(q.Get("rows"), config.value["rowNum"]);
    }

    method PaginateItems(q: QueryDict, items: Query, pageExists: (Paginator, int) -> bool) returns (r: Result<Pagination>)
      modifies this`model, this`caption
      ensures r == PaginateItemsOf(Declaration(), old(Cached()), q, items, pageExists)
      ensures Cached() == AfterConfig(Declaration(), old(Cached()))
    {
      var paginateBy := GetPaginateBy(q);
      if paginateBy.Err? {
        return Err(paginateBy.error);
      }
      if paginateBy.value == 0 {
        return Ok(Unpaginated(items));
      }
      var paginator := Paginator(items, paginateBy.value, allowEmpty);
      var number := RequestedPage(q.Get("page"));
      if number.Some? && pageExists(paginator, number.value) {
        return Ok(Paginated(Page(paginator, number.value)));
      }
      if !pageExists(paginator, 1) {
        return Err(InvalidPage);
      }
      r := Ok(Paginated(Page(paginator, 1)));
    }

    method GetItems(q: QueryDict, parse: string -> Parsed, accepts: seq<string> -> bool,
                    pageExists: (Paginator, int) -> bool) returns (r: Result<Pagination>)
      modifies this`queryset, this`model, this`caption
      ensures r == ItemsOf(Declaration(), old(Cached()), q, parse, accepts, pageExists)
      ensures Cached() == AfterItems(Declaration(), old(Cached()))
    {
      var items := GetQueryset();
      if items.Err? {
        return Err(items.error);
      }
      ghost var c1 := Cached();
      var filtered := FilterItems(q, items.value, parse);
      if filtered.Err? {
        return Err(filtered.error);
      }
      var sorted := SortItems(q, filtered.value, accepts);
      r := PaginateItems(q, sorted, pageExists);
      ConfigIdempotent(Declaration(), c1);
    }
  }
}

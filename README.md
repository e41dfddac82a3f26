# django-jqgrid's `JqGrid`, modelled in Dafny

`JqGrid` connects a Django model or queryset to the jqGrid JavaScript widget.
On one side it builds the widget's configuration: the defaults, the grid's
`extra_config`, its URL, its caption, and one column model per field. On the
other side it answers the widget's data requests. A request can carry:

- a search: a JSON `filters` group, a single-field search
  (`searchField`, `searchOper`, `searchString`), or toolbar parameters named
  after the model's fields;
- a sort order (`sidx`, `sord`);
- a page (`rows`, `page`).

The grid turns these into `filter`, `order_by` and pagination on the
queryset. It resolves its queryset, model and caption lazily and caches them
in its own attributes.

The project has one module per concern:

| module | file | what it holds |
|---|---|---|
| `Results` | results.dfy | `Option`, `Result` and the Python exceptions the grid raises or lets through, as values; `MapAll`, the loop shape shared by `get_colmodels` and the rule loop of `filter_items` (one result per item, or the first error) |
| `Text` | text.dfy | the Python string operations the grid uses: `split`, `strip`, finding `__`, `endswith`, `upper`, `capitalize`, `int()`, `str()` |
| `Http` | http.dfy | `request.GET`, which can hold a key several times |
| `Orm` | orm.dfy | model metadata, fields, `Q` objects and querysets |
| `Values` | values.dfy | configuration values and Python truthiness |
| `Settings` | settings.dfy | `get_default_config` and the merge order of `get_config` |
| `Operators` | operators.dfy | the `filter_map` from widget operators to ORM lookups |
| `Filtering` | filtering.dfy | `get_filters` and the rule translation of `filter_items` |
| `Sorting` | sorting.dfy | `sort_items` |
| `Columns` | columns.dfy | `lookup_foreign_key_field`, `get_colmodels`, `field_to_colmodel`, `get_field_names` |
| `Paging` | paging.dfy | `get_paginate_by` and `paginate_items` |
| `Grid` | grid.dfy | the class `JqGrid`, and the functions that specify its methods |

`JqGrid` is a class. Its declared attributes are `const` fields. The three
attributes it fills in as it goes are `var` fields: `queryset`, `model` and
`caption`. Each method is proved against a pure function of the declared
attributes and the old cached ones: `ConfigOf`, `FilterItemsOf`, `ItemsOf`
and so on. Its postcondition also gives the cached attributes it leaves
behind: `AfterConfig`, `AfterItems` and so on. The lemmas about those
functions state what the grid promises.

The database and the libraries the grid calls are parameters:

- **Model metadata** is a function `Registry` from model names to `Meta`.
- **A queryset** is a value: its model, the `Q` objects passed to `filter`,
  and the `order_by` arguments.
- **Parsing JSON.** `json.loads` of the `filters` parameter is a parameter
  `parse`. It returns either a ValueError or a decoded group.
- **Ordering.** Whether `order_by` accepts its arguments or raises
  FieldError is a parameter `accepts`.
- **Pages.** Which page numbers `Paginator.page` accepts is a parameter
  `pageExists`.

## Model

| member | source | states |
|---|---|---|
| Text.Split | jqgrid.py:167 | `data.split(',')` always yields at least one piece |
| Text.JoinOfSplit | jqgrid.py:188-190 | joining the pieces of a split with the separator gives the string back |
| Text.SplitPiecesLackSeparator | jqgrid.py:188-190 | no piece of a split contains the separator |
| Text.SplitWithoutSeparator | jqgrid.py:190 | a string without the separator splits into itself alone |
| Text.SplitAfterPiece | jqgrid.py:190 | splitting a separator-free piece, the separator and a rest gives the piece followed by the pieces of the rest |
| Text.SplitOfJoin | jqgrid.py:190 | separator-free pieces, joined and split again, come back unchanged |
| Text.TrimLeftOfPadded | jqgrid.py:188 | stripping the left drops exactly a whitespace prefix in front of a non-space character |
| Text.TrimRightOfPadded | jqgrid.py:188 | stripping the right drops exactly a whitespace suffix after a non-space character |
| Text.StripRemovesPadding | jqgrid.py:188 | `strip()` of an unpadded text with whitespace around it gives the text back |
| Text.StripIsUnpadded | jqgrid.py:188 | what `strip()` returns has no whitespace at either end |
| Text.StripWithin | jqgrid.py:188 | `strip()` only removes characters: every character it keeps was in the text |
| Text.Strip | jqgrid.py:188 | `strip()` with Python's whitespace set; `Text.StripIsUnpadded`, `Text.StripWithin` and `Text.StripRemovesPadding` state what it keeps |
| Text.TrimLeftUnpaddedStart | jqgrid.py:188 | after stripping the left, the text is empty or starts with a non-space character |
| Text.TrimRightKeepsStart | jqgrid.py:188 | stripping the right of a text that starts with a non-space character leaves no whitespace at either end |
| Text.FindDunder | jqgrid.py:286-287 | the index where the first `__` starts, or none when the name contains no `__` |
| Text.Upper | jqgrid.py:176 | `upper()` keeps the length |
| Text.UpperIsOr | jqgrid.py:176 | `groupOp.upper() == 'OR'` holds for exactly `or`, `oR`, `Or` and `OR` |
| Text.Capitalize | jqgrid.py:269 | `capitalize()` keeps the length |
| Text.NatToString | jqgrid.py:205 | the source never prints a number; this is the reference inverse of `int()` that `ParseIntOfString` round-trips through: a non-empty run of digits |
| Text.DigitsOfNat | jqgrid.py:205 | the digits of `str(n)` read back as `n` |
| Text.ParseIntOfString | jqgrid.py:205 | `int(str(n)) == n` for every integer |
| Text.ParseInt | jqgrid.py:205 | `int()` of a string, `None` for the ValueError; `Text.ParseIntOfString` states that it reads back every number, and `Paging.PageSizeCases` what the page size makes of it |
| Http.KeysExactly | jqgrid.py:115-117 | iterating `request.GET` visits each key once, and visits exactly the keys that have a value |
| Http.QueryDict.Get | jqgrid.py:117 | `request.GET[param]`: the last value sent for the key; `Http.KeysExactly` states that exactly the iterated keys have one |
| Http.QueryDict.Keys | jqgrid.py:115 | `for param in request.GET`; `Http.KeysExactly` states that each sent key is visited once |
| Orm.FirstNamed | jqgrid.py:288-292 | a field with the name, or none when no field has it |
| Orm.FirstNamedIsFirst | jqgrid.py:288-290 | the field found is the first with the name (`fields[0]` of the matches): every field before it has another name |
| Orm.GetField | jqgrid.py:161 | `_meta.get_field(name)`, here and at line 296: the first field with the name, or none for FieldDoesNotExist; `Orm.FirstNamed` and `Orm.FirstNamedIsFirst` state it |
| Orm.Names | jqgrid.py:109 | `[f.name for f in ...local_fields]`; that it gives one name per local field, in order, is stated by `Grid.FieldNamesCases`, and what the toolbar makes of the names by `Filtering.ToolbarRulesExactly` |
| Orm.Query.Filter | jqgrid.py:180 | a stand-in for Django's `queryset.filter`, which is not part of this model: it records the `Q` object; what the grid gets from it is stated by `Filtering.ApplyFiltersMeaning` and `Grid.ItemsKeepQueryset` |
| Orm.Query.OrderBy | jqgrid.py:197 | a stand-in for Django's `queryset.order_by`, which is not part of this model: it records the arguments; what the grid passes to it is stated by `Grid.JqGrid.SortItems` and `Sorting.OrderByListShape` |
| Orm.All | jqgrid.py:61 | `model.objects.all()`: all of the model's objects, unfiltered and unordered, as `Grid.CacheWrites` states |
| Settings.DefaultsHold | jqgrid.py:237-261 | the defaults have exactly the fifteen default keys, with `ignoreCase` true and `rowNum` 10 |
| Settings.MergePrecedence | jqgrid.py:272-279 | the merged configuration has exactly the default, extra and grid keys; `url`, `caption` and `colModel` always come from the grid; otherwise the extra configuration wins over the defaults |
| Settings.ConfigKeepsSearchSettings | jqgrid.py:272-279 | `ignoreCase` and `rowNum` are always present, and are true and 10 unless the extra configuration sets them |
| Settings.DefaultConfig | jqgrid.py:237-261 | `get_default_config`; `Settings.DefaultsHold` states its keys and search settings |
| Settings.MergeConfig | jqgrid.py:272-279 | the three `update` calls of `get_config`; `Settings.MergePrecedence` states which value wins |
| Operators.OpNamedIsName | jqgrid.py:125-141 | a name denotes an operator exactly when it is that operator's wire name |
| Operators.OpNamed | jqgrid.py:164 | the operator a rule's `op` names in `filter_map`; `Operators.OpNamedIsName` states that it is the inverse of the operators' wire names |
| Operators.ExcludeExactlyNegated | jqgrid.py:125-152 | the table has an entry for every operator, in both modes; exactly `ne`, `bn`, `en`, `nc` and `ni` use `exclude` |
| Operators.NegatedSharesLookup | jqgrid.py:125-152 | each negated operator uses the same lookup as its positive counterpart |
| Operators.IgnoreCaseSwitchesTextOps | jqgrid.py:142-152 | `ignoreCase` switches exactly the eight text operators to the `i`-prefixed lookup and keeps whether they exclude |
| Operators.FormatEndsWithIn | jqgrid.py:166 | a lookup format ends in `__in` exactly when its lookup is `in`, for the table's suffixes |
| Operators.InLookupOps | jqgrid.py:166-167 | only `in` and `ni` make an `__in` lookup, in either mode |
| Operators.Table | jqgrid.py:125-152 | `filter_map`, with the case-insensitive overlay when `ignoreCase` is on; its entries are stated by `Operators.ExcludeExactlyNegated`, `Operators.NegatedSharesLookup` and `Operators.IgnoreCaseSwitchesTextOps` |
| Filtering.MalformedGivesNone | jqgrid.py:89-94 | a `filters` parameter that does not parse makes `get_filters` return `None` |
| Filtering.FiltersParameterFirst | jqgrid.py:89-92 | a non-empty `filters` parameter wins over the single-field search |
| Filtering.SingleFieldSearch | jqgrid.py:96-106 | without `filters`, one AND rule exists exactly when field, operator and string are all given and non-empty |
| Filtering.RequestedSearch | jqgrid.py:84-106 | the group the `filters` parameter or the single-field search asks for; `Filtering.MalformedGivesNone`, `Filtering.FiltersParameterFirst` and `Filtering.SingleFieldSearch` state its cases |
| Filtering.ToolbarRulesExactly | jqgrid.py:115-117 | the toolbar rules are `cn` rules carrying each key's value, one for each request key that names a local field, with no key twice |
| Filtering.ToolbarRulesAppend | jqgrid.py:115-117 | the toolbar rules of two runs of keys are those of the first followed by those of the second |
| Filtering.ToolbarRules | jqgrid.py:115-117 | the `cn` rules of the toolbar loop; `Filtering.ToolbarRulesExactly` and `Filtering.ToolbarRulesAppend` state them |
| Filtering.AppendToolbar | jqgrid.py:110-117 | the toolbar loop of `get_filters`; `Grid.JqGrid.AddToolbarRules` is proved equal to it, and `Filtering.FiltersAppendToolbar` states its result |
| Filtering.WithToolbar | jqgrid.py:110-117 | the empty AND group in place of nothing or an empty dictionary, then the toolbar rules; `Filtering.FiltersAppendToolbar` states its result |
| Filtering.FiltersAppendToolbar | jqgrid.py:108-119 | the returned group is the requested rules followed by the toolbar rules; with nothing requested or an empty dictionary it is an AND group of the toolbar rules alone; a requested group without `rules` is a KeyError as soon as a toolbar rule is added |
| Filtering.ModelErrorEscapes | jqgrid.py:109 | when `get_model` fails and `filters` is well formed or absent, `get_filters` fails with that error |
| Filtering.Filters | jqgrid.py:84-119 | `get_filters`; its cases are stated by `Filtering.MalformedGivesNone`, `Filtering.ModelErrorEscapes` and `Filtering.FiltersAppendToolbar` |
| Filtering.TranslateRuleCases | jqgrid.py:158-174 | a rule on a known field: an unknown operator is a KeyError; otherwise the `Q` object has the table's lookup, is negated exactly for negated operators, and gets the comma-separated parts only for `in` and `ni` |
| Filtering.RelatedFieldUsesEq | jqgrid.py:161-163 | a relation is searched with `eq` whatever operator the rule names |
| Filtering.UnknownFieldFails | jqgrid.py:161 | a rule naming a field the model lacks is FieldDoesNotExist, whatever its operator |
| Filtering.TranslateRule | jqgrid.py:158-174 | the `Q` object of one rule; `Filtering.UnknownFieldFails`, `Filtering.TranslateRuleCases` and `Filtering.RelatedFieldUsesEq` state its cases |
| Filtering.TranslateAll | jqgrid.py:157-174 | a translation that succeeds has one `Q` object per rule |
| Filtering.TranslateAllOkStep | jqgrid.py:158-174 | a rule that translates moves from the rules still to translate to the `Q` objects made so far |
| Filtering.TranslateAllErrStep | jqgrid.py:158-174 | a rule that fails makes the whole translation fail with its error |
| Filtering.TranslateAllShape | jqgrid.py:157-174 | translation succeeds exactly when every rule does, with rule `i`'s `Q` object at position `i`; a failure is the error of the first failing rule |
| Filtering.DisjunctionHolds | jqgrid.py:176-177 | the OR-combined `Q` object holds exactly when one of the rules holds |
| Filtering.ConjunctionHolds | jqgrid.py:178-179 | the AND-combined `Q` object holds exactly when every rule holds |
| Filtering.Combine | jqgrid.py:176-179 | `reduce(operator.ior, ...)` or `reduce(operator.iand, ...)`; `Filtering.DisjunctionHolds` and `Filtering.ConjunctionHolds` state what the result means |
| Filtering.IsDisjunction | jqgrid.py:176 | `groupOp.upper() == 'OR'`; `Text.UpperIsOr` states exactly which spellings it accepts |
| Filtering.ApplyFiltersMeaning | jqgrid.py:153-180 | no filters or no rules leave the items as they are; a successful call with rules adds exactly one `Q` object, which holds when some rule holds (OR) or when all rules hold (any other `groupOp`) |
| Filtering.ApplyFiltersOutcome | jqgrid.py:153-180 | an empty dictionary leaves the items; a missing `rules` is a KeyError; with rules, the first failing rule's error reaches the caller, a missing `groupOp` is a KeyError once all rules translate, and otherwise the call succeeds |
| Filtering.ApplyFilters | jqgrid.py:153-180 | the body of `filter_items` after `get_filters`; `Filtering.ApplyFiltersOutcome` states when it succeeds and `Filtering.ApplyFiltersMeaning` what it then adds |
| Sorting.SortItemsOf | jqgrid.py:188 | one sort item per comma-separated part of `sidx`; no item holds a comma or has whitespace at either end |
| Sorting.SortItemsOfJoin | jqgrid.py:188 | unpadded comma-free items, written with whitespace around them and joined by commas, come back as exactly those items |
| Sorting.OrderTermShape | jqgrid.py:190-194 | an `order_by` argument is the item's field, prefixed by `-` exactly when the governing direction is `desc` |
| Sorting.OwnDirectionOverrides | jqgrid.py:191-192 | an item with its own direction ignores `sord` |
| Sorting.SordAppliesToBareItem | jqgrid.py:193-194 | an item without a direction follows `sord` |
| Sorting.OrderByListShape | jqgrid.py:186-195 | one `order_by` argument per sort item, in order, each ending with the item's field |
| Sorting.OrderTerm | jqgrid.py:190-194 | one `order_by` argument; `Sorting.OrderTermShape`, `Sorting.OwnDirectionOverrides` and `Sorting.SordAppliesToBareItem` state it |
| Sorting.OrderByList | jqgrid.py:186-195 | the `order_by` arguments of `sidx`; `Sorting.OrderByListShape` states them |
| Sorting.SortedCases | jqgrid.py:182-200 | without `sidx`, or when `order_by` raises FieldError, the items come back unchanged; otherwise only their ordering changes, to `Sorting.OrderByList` of `sidx` and `sord` |
| Sorting.Sorted | jqgrid.py:182-200 | `sort_items`; its cases are stated by `Sorting.SortedCases`, and `Grid.JqGrid.SortItems` is proved equal to it |
| Columns.NoDunderBeforeFirst | jqgrid.py:286-287 | the text before the first `__` contains no `__`, and the name is that text, `__` and the rest |
| Columns.SegmentsSpellName | jqgrid.py:286-287 | the segments of repeated `split('__', 1)` spell the name, and none contains `__` |
| Columns.LookupFollowsSegments | jqgrid.py:284-296 | resolving a name follows its segments: each segment but the last must be a relation of the current model |
| Columns.LookupForeignKeyField | jqgrid.py:284-296 | `lookup_foreign_key_field`; `Columns.LookupFollowsSegments` states that it follows the name's segments |
| Columns.SegmentsOfPair | jqgrid.py:286-287 | `fk__rest` splits into `fk` and `rest` when neither contains `__` and `fk` does not end in `_` |
| Columns.PathColumnIndex | jqgrid.py:284-304 | a column reached through a foreign key is named by its path but indexed by the related field's own name |
| Columns.Colmodels | jqgrid.py:298-317 | building the columns, when it succeeds, gives one column per field name |
| Columns.ColmodelsOkStep | jqgrid.py:301-316 | a name whose column can be built moves from the names still to do to the columns made so far |
| Columns.ColmodelsErrStep | jqgrid.py:301-316 | a name whose column fails (with an error other than FieldDoesNotExist) makes all the columns fail with that error |
| Columns.FieldNames | jqgrid.py:319-323 | the names the columns are built from; `Grid.FieldNamesCases` states that they are what `get_field_names` returns |
| Columns.OverrideMergedLast | jqgrid.py:312-315 | a column has the keys of its base column and of its override, and the override's values win |
| Columns.WithOverride | jqgrid.py:312-315 | `colmodel.update(override)` for a non-empty override; `Columns.OverrideMergedLast` states the merged keys and values |
| Columns.ColmodelCases | jqgrid.py:302-316 | a known field gives an editable column indexed by the field's name; an unknown name gives an uneditable column named after itself; other errors escape; the override's values win |
| Columns.FieldToColmodel | jqgrid.py:325-333 | `field_to_colmodel`: the column for a known field; `Columns.ColmodelCases` and `Columns.PathColumnIndex` state its name, index, label and editable flag |
| Columns.UnknownColmodel | jqgrid.py:305-311 | the uneditable column for a name that is no field; `Columns.ColmodelCases` states its entries |
| Columns.Colmodel | jqgrid.py:301-316 | the column of one field name; `Columns.ColmodelCases` and `Columns.OverrideMergedLast` state it |
| Columns.ColmodelsShape | jqgrid.py:298-317 | the columns succeed exactly when each name's column does, in order; a failure is the error of the first name whose column fails |
| Paging.PageSizeCases | jqgrid.py:202-208 | a `rows` number sets the page size; an unparsable `rows` gives 10; without `rows` the configured number decides; only a setting that is neither a number nor a string fails |
| Paging.RequestedPageOfNumber | jqgrid.py:217-220 | a page number written in the request is the page asked for, and no `page` parameter asks for page 1 |
| Paging.RequestedPage | jqgrid.py:217-220 | `int(page)` with 1 for a missing `page`; `Paging.RequestedPageOfNumber` states that it reads back a written page number |
| Paging.ChosenPageCases | jqgrid.py:217-223 | the chosen page exists and is the requested one or page 1; an existing requested page is chosen; InvalidPage exactly when neither it nor page 1 exists |
| Paging.FirstPage | jqgrid.py:223 | `paginator.page(1)`, whose InvalidPage escapes; `Paging.ChosenPageCases` states when the fallback fails |
| Paging.PaginateCases | jqgrid.py:210-224 | a page size of 0 returns the items unpaginated; any other size paginates them with that size and `allow_empty` |
| Paging.PageSize | jqgrid.py:202-208 | `int(rows)` with its fallback; `Paging.PageSizeCases` states its cases |
| Paging.ChosenPage | jqgrid.py:217-223 | the page `paginate_items` lands on; `Paging.ChosenPageCases` states it |
| Paging.Paginate | jqgrid.py:210-224 | `paginate_items` once the page size is known; `Paging.PaginateCases` states it |
| Grid.UrlText | jqgrid.py:263-264 | `str(self.url)`: the URL, or the text `None`; `Grid.ConfigShape` states that the configuration's `url` is this text, whatever the extra configuration says |
| Grid.ResolversAgree | jqgrid.py:57-75 | queryset and model resolve together or fail together with ImproperlyConfigured; with only one declared, the model is the queryset's model |
| Grid.ResolutionIsCached | jqgrid.py:57-75 | resolving the queryset, the model or the caption a second time gives the same answer and changes nothing more |
| Grid.CacheWrites | jqgrid.py:57-75 | what each resolver stores (and, for `get_caption`, lines 267-269): the queryset, all of the model's objects when only a model is declared, the found model, and the computed caption with the model resolved for it; a failure stores nothing |
| Grid.WithQueryset | jqgrid.py:64 | the attribute write of `get_queryset`; `Grid.CacheWrites` and `Grid.ResolutionIsCached` state it |
| Grid.WithModel | jqgrid.py:72 | the attribute write of `get_model`; `Grid.CacheWrites` and `Grid.ResolutionIsCached` state it |
| Grid.WithCaption | jqgrid.py:267-269 | the attribute writes of `get_caption`; `Grid.CacheWrites` and `Grid.ResolutionIsCached` state them |
| Grid.QuerysetOf | jqgrid.py:57-65 | `get_queryset`; `Grid.ResolversAgree` and `Grid.ResolutionIsCached` state it, and `Grid.JqGrid.GetQueryset` is proved equal to it |
| Grid.ModelOf | jqgrid.py:67-75 | `get_model`; `Grid.ResolversAgree` and `Grid.ResolutionIsCached` state it, and `Grid.JqGrid.GetModel` is proved equal to it |
| Grid.FieldNamesCases | jqgrid.py:319-323 | the declared field names with nothing resolved; else the local field names in order, failing exactly when the model cannot be resolved, and caching it; the columns are built from these names |
| Grid.FieldNamesOf | jqgrid.py:319-323 | `get_field_names`, reusing `Columns.FieldNames` once the model is resolved; `Grid.FieldNamesCases` states its cases |
| Grid.CaptionOf | jqgrid.py:266-270 | `get_caption`; `Grid.ResolutionIsCached` and `Grid.ConfigShape` state it, and `Grid.JqGrid.GetCaption` is proved equal to it |
| Grid.ConfigKeys | jqgrid.py:272-282 | a built configuration has `ignoreCase` and `rowNum`, and building it caches the model |
| Grid.ConfigShape | jqgrid.py:272-282 | the configuration has the URL, the caption (declared, or the capitalised plural name), and one column per field name; extra settings win over defaults |
| Grid.ColmodelsOf | jqgrid.py:298-317 | `get_colmodels`; `Columns.ColmodelsShape` and `Grid.ConfigShape` state it |
| Grid.ConfigIdempotent | jqgrid.py:266-282 | building the configuration twice gives the same configuration and the same cached attributes |
| Grid.ConfigOf | jqgrid.py:272-282 | `get_config(False)`; `Grid.ConfigShape`, `Grid.ConfigKeys` and `Grid.ConfigIdempotent` state it |
| Grid.DefaultIgnoreCase | jqgrid.py:142-152 | unless the extra configuration sets `ignoreCase`, searches use the case-insensitive table |
| Grid.FilterTable | jqgrid.py:142 | the table `get_config(False)['ignoreCase']` selects; `Grid.DefaultIgnoreCase` states the default |
| Grid.DefaultPageSize | jqgrid.py:202-208 | unless the extra configuration sets `rowNum`, a request without `rows` gets 10 rows per page |
| Grid.PageSizeOf | jqgrid.py:202-208 | `get_paginate_by`; `Paging.PageSizeCases` and `Grid.DefaultPageSize` state it |
| Grid.PaginateItemsOf | jqgrid.py:210-224 | `paginate_items`; `Paging.PaginateCases` and `Paging.ChosenPageCases` state it |
| Grid.NoSearchLeavesItems | jqgrid.py:153-155 | a request with no search and no field-named parameter leaves the items as they are |
| Grid.FiltersOf | jqgrid.py:84-119 | `get_filters` on the grid's resolved model; `Filtering.FiltersAppendToolbar`, `Filtering.MalformedGivesNone` and `Filtering.ModelErrorEscapes` state it |
| Grid.FilterItemsOf | jqgrid.py:121-180 | `filter_items`; `Grid.NoSearchLeavesItems`, `Grid.DefaultIgnoreCase`, `Filtering.ApplyFiltersOutcome` and `Filtering.ApplyFiltersMeaning` state it |
| Grid.ItemsKeepQueryset | jqgrid.py:77-82 | the items handed back are the grid's queryset, of the same model, with at most one more `Q` object |
| Grid.ItemsOf | jqgrid.py:77-82 | `get_items`; `Grid.ItemsKeepQueryset` states what it hands back |
| Grid.JqGrid.constructor | jqgrid.py:45-55 | a grid with every class attribute given |
| Grid.JqGrid.ForModel | jqgrid.py:45-55 | a grid over a model that keeps every other class default |
| Grid.JqGrid.GetQueryset | jqgrid.py:57-65 | returns the declared queryset, else all objects of the model, else ImproperlyConfigured; caches the queryset |
| Grid.JqGrid.GetModel | jqgrid.py:67-75 | returns the declared model, else the queryset's model (and caches it), else ImproperlyConfigured |
| Grid.JqGrid.GetFieldNames | jqgrid.py:319-323 | returns the declared field names, else the model's local field names |
| Grid.JqGrid.GetUrl | jqgrid.py:263-264 | `str(self.url)` of the grid's own URL; `Grid.JqGrid.GetConfig` puts it in the configuration, as `Grid.ConfigShape` states |
| Grid.JqGrid.GetCaption | jqgrid.py:266-270 | returns the declared caption, else caches and returns the model's capitalised plural name |
| Grid.JqGrid.GetColmodels | jqgrid.py:298-317 | the loop builds exactly `ColmodelsOf`: one column per field name, or the first error that is not FieldDoesNotExist |
| Grid.JqGrid.GetConfig | jqgrid.py:272-282 | returns `ConfigOf` and leaves `AfterConfig` behind |
| Grid.JqGrid.GetFilters | jqgrid.py:84-119 | returns `get_filters`' group, including the toolbar rules, or `None` for malformed `filters` |
| Grid.JqGrid.AddToolbarRules | jqgrid.py:115-117 | the loop appends exactly the toolbar rules, or raises KeyError when the group has no `rules` |
| Grid.JqGrid.FilterItems | jqgrid.py:121-180 | returns `FilterItemsOf` and leaves `AfterConfig` behind |
| Grid.JqGrid.RuleFilters | jqgrid.py:157-174 | the loop builds exactly the translated rules, or the first rule's error; the cached attributes stay as they were |
| Grid.JqGrid.RuleFilter | jqgrid.py:159-174 | one pass of the rule loop: it looks the model up again, keeps it cached, and returns the rule's `Q` object or its error |
| Grid.JqGrid.SortItems | jqgrid.py:182-200 | the loop builds exactly the `order_by` arguments of `sidx`; the result is the items ordered by them, or the items unchanged when `sidx` is absent or `order_by` refuses |
| Grid.JqGrid.GetPaginateBy | jqgrid.py:202-208 | returns `PageSizeOf`, building the configuration even when `rows` is given |
| Grid.JqGrid.PaginateItems | jqgrid.py:210-224 | returns the chosen page of a paginator of the page size, or the items unpaginated for size 0 |
| Grid.JqGrid.GetItems | jqgrid.py:77-82 | returns `ItemsOf`: the queryset, filtered, sorted, paginated; leaves `AfterItems` behind |

## Left out

- `get_json` and `json_encode` (jqgrid.py:40-42, 226-235): they serialise rows the database returns, and the database is not modelled.
- `get_config(as_json=True)` is not modelled, because it is JSON encoding. `get_config(False)` is modelled.
- `json.loads` is a parameter. A `filters` value that decodes to something other than a dictionary is not modelled. So are rules that lack `op`, `field` or `data`, and rule values that are not strings.
- `smart_str` is the identity on text.
- `Paginator`'s arithmetic (page count, `object_list` slicing, orphans) is not modelled: it belongs to Django, whose source is not part of this model. Which page numbers exist is the parameter `pageExists`, and a page is represented by its paginator and its number.
- `order_by`'s check of field names is the parameter `accepts`.
- `_meta.get_field` is modelled as the first field of `fields` with that name. Many-to-many fields, reverse relations and Django's name cache are not modelled.
- `upper()`, `capitalize()` and `int()` work on ASCII letters and ASCII digits only. Digit separators (`_`) in `int()` are not modelled, and neither is Unicode case mapping.
- `int()` of a float, a list or a dictionary in `rowNum` is modelled as TypeError. In Python, a float truncates, and floats are not modelled.
- A `rules` entry that is JSON `null` is read as a missing `rules` entry, and so as a KeyError. In the source it leaves the items unchanged (jqgrid.py:154), or raises TypeError when a toolbar rule is added to it (jqgrid.py:117). A `groupOp` that is not a string, on which `.upper()` raises AttributeError (jqgrid.py:176), is not modelled either: the decoded group holds `groupOp` and `rules` only as text and as a list of rules.
- `request.GET.get('_search')` (jqgrid.py:85) is read but never used, so it is not modelled.
- `_clone()` of the queryset is modelled as the same queryset value. Querysets are values here, so only aliasing differs.
- The order of keys in dictionaries is not modelled; configurations and column models are maps. `QueryDict.Keys` gives keys in first-occurrence order, which is the insertion order of Python 3.7 and later dictionaries. Under Python 2, which the source's `u"..."` literals also target, the order of `request.GET`'s keys is arbitrary, so the order of the toolbar rules is not fixed there.

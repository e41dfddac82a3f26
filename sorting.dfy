/** Turning the widget's `sidx` / `sord` parameters into `order_by`
    arguments (`JqGrid.sort_items`). */
module Sorting {
  import opened Results
  import opened Text
  import opened Http
  import opened Orm

  /** The sort items of `sidx`: its comma-separated parts, each stripped.
      There is one item per part; no item holds a comma or starts or ends
      with whitespace. */
  function SortItemsOf(sidx: string): (r: seq<string>)
    ensures |r| == |Split(sidx, ',')|
    ensures forall i :: 0 <= i < |r| ==> Unpadded(r[i]) && ',' !in r[i]
  {
    var parts := Split(sidx, ',');
    SplitPiecesLackSeparator(sidx, ',');
    StripEach(parts);
    seq(|parts|, i requires 0 <= i < |parts| => Strip(parts[i]))
  }

  /** Stripping comma-free parts leaves them comma-free and unpadded. */
  lemma StripEach(parts: seq<string>)
    requires forall i :: 0 <= i < |parts| ==> ',' !in parts[i]
    ensures forall i :: 0 <= i < |parts| ==> Unpadded(Strip(parts[i])) && ',' !in Strip(parts[i])
  {
    forall i | 0 <= i < |parts|
      ensures Unpadded(Strip(parts[i])) && ',' !in Strip(parts[i])
    {
      StripIsUnpadded(parts[i]);
      StripWithin(parts[i]);
    }
  }

  /** Listing sort items with commas gives them back: `sidx` built from
      unpadded comma-free items, each with whitespace around it, splits into
      exactly those items. */
  lemma SortItemsOfJoin(pad: seq<string>, items: seq<string>)
    requires |items| >= 1 && |pad| == |items|
    requires forall i :: 0 <= i < |items| ==> Unpadded(items[i]) && ',' !in items[i]
    requires forall i :: 0 <= i < |pad| ==> AllSpace(pad[i])
    ensures SortItemsOf(Join(Padded(pad, items), ',')) == items
  {
    var parts := Padded(pad, items);
    forall i | 0 <= i < |parts| ensures ',' !in parts[i] {
      assert parts[i] == pad[i] + items[i] + pad[i];
      assert forall j :: 0 <= j < |pad[i]| ==> IsSpace(pad[i][j]);
    }
    SplitOfJoin(parts, ',');
    forall i | 0 <= i < |items| ensures Strip(parts[i]) == items[i] {
      StripRemovesPadding(pad[i], items[i], pad[i]);
    }
  }

  /** Each item with the matching whitespace on both sides. */
  function Padded(pad: seq<string>, items: seq<string>): seq<string>
    requires |pad| == |items|
  {
    seq(|items|, i requires 0 <= i < |items| => pad[i] + items[i] + pad[i])
  }

  /** The field an item names: its first space-separated token. */
  function FieldOf(item: string): string {
    Split(item, ' ')[0]
  }

  /** The direction that governs an item: its own second token when it has
      one, `sord` otherwise. */
  function Direction(item: string, sord: Option<string>): Option<string> {
    var ordering := Split(item, ' ');
    if |ordering| > 1 then Some(ordering[1]) else sord
  }

  /** One `order_by` argument. */
  function OrderTerm(item: string, sord: Option<string>): string {
    var ordering := Split(item, ' ');
    if |ordering| > 1 then
      (if ordering[1] == "desc" then "-" else "") + ordering[0]
    else
      (if sord == Some("desc") then "-" else "") + ordering[0]
  }

  /** The `order_by` arguments for `sidx`, one per sort item, in order. */
  function OrderByList(sidx: string, sord: Option<string>): seq<string> {
    var items := SortItemsOf(sidx);
    seq(|items|, i requires 0 <= i < |items| => OrderTerm(items[i], sord))
  }

  /** The queryset `sort_items` returns; `accepts` says whether `order_by`
      takes the arguments or raises FieldError, which leaves the items as
      they were. */
  function Sorted(q: QueryDict, items: Query, accepts: seq<string> -> bool): Query {
    match q.Get("sidx")
    case None => items
    case Some(sidx) =>
      var fields := OrderByList(sidx, q.Get("sord"));
      if accepts(fields) then items.OrderBy(fields) else items
  }

  /** Without `sidx`, or when `order_by` refuses the arguments, the items
      come back unchanged; otherwise only their ordering changes, to the
      arguments built from `sidx` and `sord`. */
  lemma SortedCases(q: QueryDict, items: Query, accepts: seq<string> -> bool)
    ensures q.Get("sidx").None? ==> Sorted(q, items, accepts) == items
    ensures q.Get("sidx").Some? && !accepts(OrderByList(q.Get("sidx").value, q.Get("sord"))) ==>
      Sorted(q, items, accepts) == items
    ensures var r := Sorted(q, items, accepts);
      q.Get("sidx").Some? && accepts(OrderByList(q.Get("sidx").value, q.Get("sord"))) ==>
        r.model == items.model && r.filters == items.filters
        && r.ordering == OrderByList(q.Get("sidx").value, q.Get("sord"))
  {
  }

  /** An order term is the item's field, prefixed by `-` exactly when the
      governing direction is `desc`. */
  lemma OrderTermShape(item: string, sord: Option<string>)
    ensures var t := OrderTerm(item, sord);
      && EndsWith(t, FieldOf(item))
      && (t == FieldOf(item) || t == "-" + FieldOf(item))
      && (t == "-" + FieldOf(item) <==> Direction(item, sord) == Some("desc"))
  {
    var t, f := OrderTerm(item, sord), FieldOf(item);
    if t == "-" + f {
      assert |t| == |f| + 1;
    }
    assert t[|t| - |f|..] == f;
  }

  /** An item's own direction wins over `sord`: `"a asc"` sorts ascending
      whatever `sord` says. */
  lemma OwnDirectionOverrides(field: string, dir: string, sord: Option<string>)
    requires ' ' !in field && ' ' !in dir
    ensures OrderTerm(field + " " + dir, sord) == if dir == "desc" then "-" + field else field
  {
    SplitOfJoin([field, dir], ' ');
    assert Join([field, dir], ' ') == field + " " + dir by {
      assert [field, dir][1..] == [dir];
    }
  }

  /** An item with no direction of its own follows `sord`. */
  lemma SordAppliesToBareItem(field: string, sord: Option<string>)
    requires ' ' !in field
    ensures OrderTerm(field, sord) == if sord == Some("desc") then "-" + field else field
  {
    SplitWithoutSeparator(field, ' ');
  }

  /** One `order_by` argument per comma-separated item of `sidx`, in order,
      each ending with the field the stripped item names. */
  lemma OrderByListShape(sidx: string, sord: Option<string>)
    ensures var r := OrderByList(sidx, sord);
      && |r| == |Split(sidx, ',')|
      && forall i :: 0 <= i < |r| ==>
           var item := Strip(Split(sidx, ',')[i]);
           r[i] == OrderTerm(item, sord) && EndsWith(r[i], FieldOf(item))
  {
    var r := OrderByList(sidx, sord);
    forall i | 0 <= i < |r|
      ensures EndsWith(r[i], FieldOf(Strip(Split(sidx, ',')[i])))
    {
      OrderTermShape(Strip(Split(sidx, ',')[i]), sord);
    }
  }
}

/** The page size (`JqGrid.get_paginate_by`) and the page a request lands on
    (`JqGrid.paginate_items`). */
module Paging {
  import opened Results
  import opened Text
  import opened Orm
  import opened Values

  /** The page size when the `rows` setting does not spell a number. */
  const FallbackPageSize: int := 10

  /** `int(rows)`, where `rows` is the request's `rows` parameter or else the
      configured `rowNum`. A ValueError gives ten rows; converting a setting
      that is neither a number nor a string raises TypeError. */
  function PageSize(rows: Option<string>, rowNum: Setting): Result<int> {
    match rows
    case Some(s) => Ok(ParseInt(s).GetOr(FallbackPageSize))
    case None =>
      match rowNum
      case Plain(Int(i)) => Ok(i)
      case Plain(Boolean(b)) => Ok(if b then 1 else 0)
      case Plain(Str(s)) => Ok(ParseInt(s).GetOr(FallbackPageSize))
      case _ => Err(TypeError)
  }

  /** `Paginator(items, per_page, allow_empty_first_page=...)`. */
  datatype Paginator = Paginator(items: Query, perPage: int, allowEmptyFirstPage: bool)

  /** `paginator.page(number)`. */
  datatype Page = Page(paginator: Paginator, number: int)

  /** What `paginate_items` returns: the items themselves when the page size
      is zero, otherwise a page of a paginator (whose `object_list` the
      paginator determines). */
  datatype Pagination = Unpaginated(items: Query) | Paginated(page: Page)

  /** `int(page)` of the `page` parameter, 1 when there is none; `None`
      stands for the ValueError. */
  function RequestedPage(page: Option<string>): Option<int> {
    match page
    case None => Some(1)
    case Some(s) => ParseInt(s)
  }

  /** `paginator.page(1)`, which raises InvalidPage when even the first page
      does not exist. */
  function FirstPage(p: Paginator, pageExists: (Paginator, int) -> bool): Result<Page> {
    if pageExists(p, 1) then Ok(Page(p, 1)) else Err(InvalidPage)
  }

  /** The requested page if it parses and exists, the first page otherwise;
      `pageExists` says which page numbers the paginator accepts. */
  function ChosenPage(p: Paginator, page: Option<string>, pageExists: (Paginator, int) -> bool): Result<Page> {
    match RequestedPage(page)
    case Some(n) => if pageExists(p, n) then Ok(Page(p, n)) else FirstPage(p, pageExists)
    case None => FirstPage(p, pageExists)
  }

  /** `paginate_items` once the page size is known. */
  function Paginate(perPage: int, allowEmpty: bool, items: Query, page: Option<string>,
                    pageExists: (Paginator, int) -> bool): Result<Pagination>
  {
    if perPage == 0 then Ok(Unpaginated(items))
    else
      var chosen :- ChosenPage(Paginator(items, perPage, allowEmpty), page, pageExists);
      Ok(Paginated(chosen))
  }

  /** A `rows` parameter that spells a number sets the page size to it; one
      that does not gives ten rows; without one, the configured `rowNum`
      decides, ten by default. */
  lemma PageSizeCases(rows: Option<string>, rowNum: Setting, n: int)
    ensures rows == Some(IntToString(n)) ==> PageSize(rows, rowNum) == Ok(n)
    ensures rows.Some? && ParseInt(rows.value).None? ==> PageSize(rows, rowNum) == Ok(FallbackPageSize)
    ensures rows.None? && rowNum == Plain(Int(n)) ==> PageSize(rows, rowNum) == Ok(n)
    ensures rows.None? && rowNum == Plain(Str(IntToString(n))) ==> PageSize(rows, rowNum) == Ok(n)
    ensures PageSize(rows, rowNum).Err? <==> rows.None? && !(rowNum.Plain? && (rowNum.v.Int? || rowNum.v.Boolean? || rowNum.v.Str?))
  {
    ParseIntOfString(n);
  }

  /** A page number written out in the request is the number asked for, and
      no `page` parameter asks for the first page. */
  lemma RequestedPageOfNumber(n: int)
    ensures RequestedPage(Some(IntToString(n))) == Some(n)
    ensures RequestedPage(None) == Some(1)
  {
    ParseIntOfString(n);
  }

  /** The chosen page exists and is the requested one or the first; a
      requested page that exists is chosen; the choice fails, with
      InvalidPage, exactly when neither the requested page nor the first
      one exists. */
  lemma ChosenPageCases(p: Paginator, page: Option<string>, pageExists: (Paginator, int) -> bool)
    ensures var r := ChosenPage(p, page, pageExists);
      var req := RequestedPage(page);
      && (r.Ok? ==> r.value.paginator == p && pageExists(p, r.value.number)
                    && (req == Some(r.value.number) || r.value.number == 1))
      && (req.Some? && pageExists(p, req.value) ==> r == Ok(Page(p, req.value)))
      && (r.Err? <==> !pageExists(p, 1) && !(req.Some? && pageExists(p, req.value)))
      && (r.Err? ==> r.error == InvalidPage)
  {
  }

  /** A page size of zero turns pagination off; any other size paginates the
      items with that size and the grid's `allow_empty` setting. */
  lemma PaginateCases(perPage: int, allowEmpty: bool, items: Query, page: Option<string>,
                      pageExists: (Paginator, int) -> bool)
    ensures perPage == 0 ==> Paginate(perPage, allowEmpty, items, page, pageExists) == Ok(Unpaginated(items))
    ensures var r := Paginate(perPage, allowEmpty, items, page, pageExists);
      perPage != 0 ==>
        && (r.Ok? ==> r.value.Paginated? && r.value.page.paginator == Paginator(items, perPage, allowEmpty))
        && (r.Ok? <==> ChosenPage(Paginator(items, perPage, allowEmpty), page, pageExists).Ok?)
  {
  }
}

/** The table from the widget's search operators to ORM lookups
    (`filter_map` in `JqGrid.filter_items`). */
module Operators {
  import opened Results
  import opened Text

  /** A lookup `field__suffix`, used through `exclude` (negated) or not. */
  datatype Entry = Entry(suffix: string, exclude: bool) {
    /** The lookup's format string, `%(field)s__<suffix>`. */
    function Format(): string {
      "%(field)s__" + suffix
    }
  }

  /** The widget's search operators. */
  datatype Op = Ne | Bn | En | Nc | Ni | In | Eq | Bw | Gt | Ge | Lt | Le | Ew | Cn {
    /** The operator's name on the wire. */
    function Name(): string {
      match this
      case Ne => "ne"
      case Bn => "bn"
      case En => "en"
      case Nc => "nc"
      case Ni => "ni"
      case In => "in"
      case Eq => "eq"
      case Bw => "bw"
      case Gt => "gt"
      case Ge => "ge"
      case Lt => "lt"
      case Le => "le"
      case Ew => "ew"
      case Cn => "cn"
    }

    /** The operators that exclude what they match. */
    predicate IsNegated() {
      this in {Ne, Bn, En, Nc, Ni}
    }

    /** The operators that compare text and so have a case-insensitive lookup. */
    predicate IsText() {
      this in {Ne, Eq, Bn, Bw, En, Ew, Nc, Cn}
    }

    /** The operator a negated operator negates. */
    function Positive(): Op {
      match this
      case Ne => Eq
      case Bn => Bw
      case En => Ew
      case Nc => Cn
      case Ni => In
      case _ => this
    }
  }

  /** The operator a name denotes, if any. */
  function OpNamed(name: string): Option<Op> {
    if name == "ne" then Some(Ne)
    else if name == "bn" then Some(Bn)
    else if name == "en" then Some(En)
    else if name == "nc" then Some(Nc)
    else if name == "ni" then Some(Ni)
    else if name == "in" then Some(In)
    else if name == "eq" then Some(Eq)
    else if name == "bw" then Some(Bw)
    else if name == "gt" then Some(Gt)
    else if name == "ge" then Some(Ge)
    else if name == "lt" then Some(Lt)
    else if name == "le" then Some(Le)
    else if name == "ew" then Some(Ew)
    else if name == "cn" then Some(Cn)
    else None
  }

  /** A name denotes an operator exactly when it is that operator's name. */
  lemma OpNamedIsName(name: string, op: Op)
    ensures OpNamed(name) == Some(op) <==> op.Name() == name
  {
  }

  /** Every operator. */
  const AllOps: set<Op> := {Ne, Bn, En, Nc, Ni, In, Eq, Bw, Gt, Ge, Lt, Le, Ew, Cn}

  /** An operator's case-sensitive lookup. */
  function BaseEntry(op: Op): Entry {
    match op
    case Ne => Entry("exact", true)
    case Bn => Entry("startswith", true)
    case En => Entry("endswith", true)
    case Nc => Entry("contains", true)
    case Ni => Entry("in", true)
    case In => Entry("in", false)
    case Eq => Entry("exact", false)
    case Bw => Entry("startswith", false)
    case Gt => Entry("gt", false)
    case Ge => Entry("gte", false)
    case Lt => Entry("lt", false)
    case Le => Entry("lte", false)
    case Ew => Entry("endswith", false)
    case Cn => Entry("contains", false)
  }

  /** A text operator's case-insensitive lookup. */
  function FoldedEntry(op: Op): Entry
    requires op.IsText()
  {
    match op
    case Ne => Entry("iexact", true)
    case Eq => Entry("iexact", false)
    case Bn => Entry("istartswith", true)
    case Bw => Entry("istartswith", false)
    case En => Entry("iendswith", true)
    case Ew => Entry("iendswith", false)
    case Nc => Entry("icontains", true)
    case Cn => Entry("icontains", false)
  }

  /** The case-sensitive table. */
  function BaseTable(): map<Op, Entry> {
    map op | op in AllOps :: BaseEntry(op)
  }

  /** The entries that `ignoreCase` replaces. */
  function CaseInsensitiveOverlay(): map<Op, Entry> {
    map op | op in AllOps && op.IsText() :: FoldedEntry(op)
  }

  /** The table `filter_items` uses: the base table, updated with the
      overlay when the configuration asks to ignore case. */
  function Table(ignoreCase: bool): map<Op, Entry> {
    if ignoreCase then BaseTable() + CaseInsensitiveOverlay() else BaseTable()
  }

  /** The table has an entry for every operator, and exactly the negated
      ones exclude. */
  lemma ExcludeExactlyNegated(ignoreCase: bool, op: Op)
    ensures op in Table(ignoreCase)
    ensures Table(ignoreCase)[op].exclude <==> op.IsNegated()
  {
    assert op in AllOps;
  }

  /** A negated operator uses the same lookup as its positive counterpart. */
  lemma NegatedSharesLookup(ignoreCase: bool, op: Op)
    requires op.IsNegated()
    ensures op.Positive() != op && !op.Positive().IsNegated()
    ensures Table(ignoreCase)[op].suffix == Table(ignoreCase)[op.Positive()].suffix
  {
    assert op in AllOps && op.Positive() in AllOps;
  }

  /** `ignoreCase` switches exactly the text operators to the `i`-prefixed
      lookup and keeps whether they exclude. */
  lemma IgnoreCaseSwitchesTextOps(op: Op)
    ensures Table(true)[op].exclude == Table(false)[op].exclude
    ensures op.IsText() ==> Table(true)[op].suffix == "i" + Table(false)[op].suffix
    ensures !op.IsText() ==> Table(true)[op] == Table(false)[op]
  {
    assert op in AllOps;
    if op.IsText() {
      assert Table(true)[op] == FoldedEntry(op) && Table(false)[op] == BaseEntry(op);
      FoldedPrefixesI(op);
    }
  }

  lemma FoldedPrefixesI(op: Op)
    requires op.IsText()
    ensures FoldedEntry(op).suffix == "i" + BaseEntry(op).suffix
    ensures FoldedEntry(op).exclude == BaseEntry(op).exclude
  {
    match op
    case Ne => assert "iexact" == "i" + "exact";
    case Eq => assert "iexact" == "i" + "exact";
    case Bn => assert "istartswith" == "i" + "startswith";
    case Bw => assert "istartswith" == "i" + "startswith";
    case En => assert "iendswith" == "i" + "endswith";
    case Ew => assert "iendswith" == "i" + "endswith";
    case Nc => assert "icontains" == "i" + "contains";
    case Cn => assert "icontains" == "i" + "contains";
  }

  lemma FormatEndsWithIn(e: Entry)
    requires e.suffix == "in" || (e.suffix != [] && e.suffix[|e.suffix| - 1] != 'n')
    ensures EndsWith(e.Format(), "__in") <==> e.suffix == "in"
  {
    var f := e.Format();
    if e.suffix == "in" {
      assert f[|f| - 4..] == "__in";
    } else {
      assert f[|f| - 1] == e.suffix[|e.suffix| - 1];
      assert "__in"[3] == 'n';
      if EndsWith(f, "__in") {
        assert f[|f| - 4..][3] == f[|f| - 1];
      }
    }
  }

  /** Only the two membership operators make a `__in` lookup. */
  lemma InLookupOps(ignoreCase: bool, op: Op)
    ensures EndsWith(Table(ignoreCase)[op].Format(), "__in") <==> op in {In, Ni}
  {
    assert op in AllOps;
    var e := Table(ignoreCase)[op];
    assert e.suffix == "in" <==> op in {In, Ni};
    assert e.suffix == "in" || e.suffix[|e.suffix| - 1] != 'n';
    FormatEndsWithIn(e);
  }
}

/** The company directory page (src/pages/EmpresasPage.tsx): its search,
    filter, sort and page state, the handlers that change that state, the
    query that one fetch composes from it, and the pagination arithmetic. */
module Empresas {
  import opened Wrappers
  import opened Strings
  import opened Sequences

  /** ITEMS_PER_PAGE: rows requested per page. */
  const ItemsPerPage: nat := 9

  /** A calendar day, already rendered as the `yyyy-MM-dd` text the query
      sends for it. */
  type Day = string

  /** A date-range picker selection: either end may be unset. */
  datatype DateRange = DateRange(from: Option<Day>, to: Option<Day>)

  datatype SortOrder = Asc | Desc

  function Flip(o: SortOrder): SortOrder {
    if o == Asc then Desc else Asc
  }

  /** The seven keys of the page's filter record. */
  datatype FilterKey =
    | SetorAtuacaoId | Estado | Cidade | PorteEmpresa | StatusEmpresa
    | DataFundacaoInicio | DataFundacaoFim

  /** The filter record; the empty string means "no filter on this key". */
  datatype Filters = Filters(
    setorAtuacaoId: string, estado: string, cidade: string,
    porteEmpresa: string, statusEmpresa: string,
    dataFundacaoInicio: string, dataFundacaoFim: string)
  {
    function Get(k: FilterKey): string {
      match k
      case SetorAtuacaoId => setorAtuacaoId
      case Estado => estado
      case Cidade => cidade
      case PorteEmpresa => porteEmpresa
      case StatusEmpresa => statusEmpresa
      case DataFundacaoInicio => dataFundacaoInicio
      case DataFundacaoFim => dataFundacaoFim
    }

    /** `{ ...prev, [k]: v }`: key `k` now reads `v`, every other key reads
        what it read before. */
    function Set(k: FilterKey, v: string): (r: Filters)
      ensures r.Get(k) == v
      ensures forall k' :: k' != k ==> r.Get(k') == Get(k')
    {
      match k
      case SetorAtuacaoId => this.(setorAtuacaoId := v)
      case Estado => this.(estado := v)
      case Cidade => this.(cidade := v)
      case PorteEmpresa => this.(porteEmpresa := v)
      case StatusEmpresa => this.(statusEmpresa := v)
      case DataFundacaoInicio => this.(dataFundacaoInicio := v)
      case DataFundacaoFim => this.(dataFundacaoFim := v)
    }
  }

  const NoFilters := Filters("", "", "", "", "", "", "")

  /** The table column a filter key names. */
  function Column(k: FilterKey): string {
    match k
    case SetorAtuacaoId => "setor_atuacao_id"
    case Estado => "estado"
    case Cidade => "cidade"
    case PorteEmpresa => "porte_empresa"
    case StatusEmpresa => "status_empresa"
    case DataFundacaoInicio => "data_fundacao_inicio"
    case DataFundacaoFim => "data_fundacao_fim"
  }

  /** The keys that the fetch turns into an equality predicate; the two
      `data_fundacao_*` keys are held in the record but never queried. */
  predicate Queried(k: FilterKey) {
    !k.DataFundacaoInicio? && !k.DataFundacaoFim?
  }

  /** One row as the query returns it: a company joined with its sector's name. */
  datatype SetorRef = SetorRef(nome: string)
  datatype Empresa = Empresa(
    id: string, nomeFantasia: Option<string>, razaoSocial: string, cnpj: string,
    areaDeAtuacaoPrincipal: Option<string>, tagsDescritivas: Option<seq<string>>,
    setorAtuacaoId: Option<string>, setoresAtuacao: Option<SetorRef>,
    estado: Option<string>, cidade: Option<string>, porteEmpresa: Option<string>,
    dataFundacao: Option<string>, statusEmpresa: string, createdAt: string)

  datatype SetorAtuacao = SetorAtuacao(id: string, nome: string)

  // ---------------------------------------------------------------------
  // The abstract query

  /** One alternative of the text search. */
  datatype SearchCondition =
    | ILike(column: string, pattern: string)
    | ArrayContains(column: string, element: string)

  datatype Predicate =
    | AnyOf(conditions: seq<SearchCondition>)
    | Eq(column: string, value: string)
    | Gte(column: string, bound: Day)
    | Lte(column: string, bound: Day)

  datatype OrderClause = OrderClause(column: string, ascending: bool)

  /** Inclusive row offsets, as `range(from, to)` takes them. */
  datatype Window = Window(from: int, to: int)

  /** A query over `table` selecting `columns` with an exact count, narrowed
      by `predicates` (all must hold), then ordered and windowed. */
  datatype Query = Query(
    table: string, columns: string, exactCount: bool,
    predicates: seq<Predicate>, order: Option<OrderClause>, range: Option<Window>)

  const Table := "empresas"
  const Columns := "*, setores_atuacao(nome)"
  const DateColumn := "data_fundacao"

  /** The five alternatives of the text search for the lower-cased term. */
  function SearchConditions(lower: string): seq<SearchCondition> {
    var pattern := "%" + lower + "%";
    [ ILike("nome_fantasia", pattern), ILike("razao_social", pattern),
      ILike("cnpj", pattern), ILike("area_de_atuacao_principal", pattern),
      ArrayContains("tags_descritivas", lower) ]
  }

  /** Shapes a predicate of the query can have: the text search, an
      equality with a non-empty value, or a bound on the foundation date. */
  predicate WellFormed(p: Predicate) {
    match p
    case AnyOf(_) => true
    case Eq(_, v) => v != ""
    case Gte(col, _) => col == DateColumn
    case Lte(col, _) => col == DateColumn
  }

  function SearchPredicates(term: string): (r: seq<Predicate>)
    ensures |r| <= 1 && forall p :: p in r ==> WellFormed(p)
  {
    if term == "" then [] else [AnyOf(SearchConditions(Lower(term)))]
  }

  function EqIfSet(f: Filters, k: FilterKey): (r: seq<Predicate>)
    ensures |r| <= 1 && forall p :: p in r ==> WellFormed(p)
  {
    if f.Get(k) == "" then [] else [Eq(Column(k), f.Get(k))]
  }

  function FilterPredicates(f: Filters): (r: seq<Predicate>)
    ensures |r| <= 5 && forall p :: p in r ==> WellFormed(p)
  {
    AllWellFormed5(EqIfSet(f, SetorAtuacaoId), EqIfSet(f, Estado), EqIfSet(f, Cidade),
                   EqIfSet(f, PorteEmpresa), EqIfSet(f, StatusEmpresa));
    EqIfSet(f, SetorAtuacaoId) + EqIfSet(f, Estado) + EqIfSet(f, Cidade)
    + EqIfSet(f, PorteEmpresa) + EqIfSet(f, StatusEmpresa)
  }

  lemma AllWellFormed2(a: seq<Predicate>, b: seq<Predicate>)
    requires forall p :: p in a ==> WellFormed(p)
    requires forall p :: p in b ==> WellFormed(p)
    ensures forall p :: p in a + b ==> WellFormed(p)
  {
  }

  lemma AllWellFormed5(e1: seq<Predicate>, e2: seq<Predicate>, e3: seq<Predicate>, e4: seq<Predicate>, e5: seq<Predicate>)
    requires forall p :: p in e1 ==> WellFormed(p)
    requires forall p :: p in e2 ==> WellFormed(p)
    requires forall p :: p in e3 ==> WellFormed(p)
    requires forall p :: p in e4 ==> WellFormed(p)
    requires forall p :: p in e5 ==> WellFormed(p)
    ensures forall p :: p in e1 + e2 + e3 + e4 + e5 ==> WellFormed(p)
  {
    AllWellFormed2(e1, e2);
    AllWellFormed2(e1 + e2, e3);
    AllWellFormed2(e1 + e2 + e3, e4);
    AllWellFormed2(e1 + e2 + e3 + e4, e5);
  }

  function LowerDateBound(r: Option<DateRange>): (ps: seq<Predicate>)
    ensures |ps| <= 1 && forall p :: p in ps ==> WellFormed(p)
  {
    if r.Some? && r.value.from.Some? then [Gte(DateColumn, r.value.from.value)] else []
  }

  function UpperDateBound(r: Option<DateRange>): (ps: seq<Predicate>)
    ensures |ps| <= 1 && forall p :: p in ps ==> WellFormed(p)
  {
    if r.Some? && r.value.to.Some? then [Lte(DateColumn, r.value.to.value)] else []
  }

  function DatePredicates(r: Option<DateRange>): (ps: seq<Predicate>)
    ensures |ps| <= 2 && forall p :: p in ps ==> WellFormed(p)
  {
    AllWellFormed2(LowerDateBound(r), UpperDateBound(r));
    LowerDateBound(r) + UpperDateBound(r)
  }

  /** The row window of page `p`: `from = (p-1)*9`, `to = from + 8`. Every
      window holds nine rows and starts on a multiple of nine. */
  function PageWindow(p: int): (w: Window)
    ensures w.to - w.from + 1 == ItemsPerPage
    ensures w.from % ItemsPerPage == 0
  {
    var from := (p - 1) * ItemsPerPage;
    Window(from, from + ItemsPerPage - 1)
  }

  // ---------------------------------------------------------------------
  // The page's filter state as a value, and the handlers as transitions

  datatype Criteria = Criteria(
    searchTerm: string, filters: Filters, dateRange: Option<DateRange>,
    sortField: string, sortOrder: SortOrder, page: int)

  /** The state the page mounts with. */
  const InitialCriteria := Criteria("", NoFilters, None, "created_at", Desc, 1)

  /** The query one fetch sends for the given state. */
  function ComposeQuery(c: Criteria): (q: Query)
    ensures q.table == Table && q.columns == Columns && q.exactCount
    ensures |q.predicates| <= 8
    ensures forall p :: p in q.predicates ==> WellFormed(p)
    ensures q.order == Some(OrderClause(c.sortField, c.sortOrder == Asc))
    ensures q.range == Some(PageWindow(c.page))
  {
    AllWellFormed2(SearchPredicates(c.searchTerm), FilterPredicates(c.filters));
    AllWellFormed2(SearchPredicates(c.searchTerm) + FilterPredicates(c.filters), DatePredicates(c.dateRange));
    Query(Table, Columns, true,
          SearchPredicates(c.searchTerm) + FilterPredicates(c.filters) + DatePredicates(c.dateRange),
          Some(OrderClause(c.sortField, c.sortOrder == Asc)),
          Some(PageWindow(c.page)))
  }

  /** Appending the five equality steps one by one appends FilterPredicates. */
  lemma FilterPredicatesAppend(p: seq<Predicate>, f: Filters)
    ensures p + EqIfSet(f, SetorAtuacaoId) + EqIfSet(f, Estado) + EqIfSet(f, Cidade)
            + EqIfSet(f, PorteEmpresa) + EqIfSet(f, StatusEmpresa)
            == p + FilterPredicates(f)
  {
    var e1, e2, e3, e4, e5 := EqIfSet(f, SetorAtuacaoId), EqIfSet(f, Estado), EqIfSet(f, Cidade),
                              EqIfSet(f, PorteEmpresa), EqIfSet(f, StatusEmpresa);
    SeqAppend5(p, e1, e2, e3, e4, e5);
  }

  /** `Math.ceil(count / 9)`: the fewest pages of 9 that hold `count` rows;
      0 when there are no rows. */
  function TotalPages(count: nat): (r: nat)
    ensures count <= r * ItemsPerPage
    ensures (r - 1) * ItemsPerPage < count
    ensures r == 0 <==> count == 0
  {
    (count + ItemsPerPage - 1) / ItemsPerPage
  }

  /** Previous: `Math.max(1, p - 1)`, the larger of the two. */
  function PreviousPageOf(p: int): (r: int)
    ensures r >= 1 && r >= p - 1
    ensures r == 1 || r == p - 1
  {
    if p - 1 < 1 then 1 else p - 1
  }

  /** Next: `Math.min(totalPages, p + 1)`, the smaller of the two. */
  function NextPageOf(p: int, totalPages: int): (r: int)
    ensures r <= totalPages && r <= p + 1
    ensures r == totalPages || r == p + 1
  {
    if p + 1 < totalPages then p + 1 else totalPages
  }

  /** The sort selector's item value `${field}-${order}`. */
  function OrderName(o: SortOrder): string {
    if o == Asc then "asc" else "desc"
  }

  function SortValue(field: string, o: SortOrder): string {
    field + "-" + OrderName(o)
  }

  /** `const [field, order] = value.split('-')`. The order is cast without a
      check, and every later use only asks whether it is `'asc'`, so any other
      piece (or a missing one) behaves as descending. */
  function ParseSortValue(value: string): (r: (string, SortOrder))
    ensures '-' !in r.0
    ensures '-' !in value ==> r == (value, Desc)
  {
    var parts := Split(value, '-');
    SplitJoin(value, '-');
    var r := (parts[0], if |parts| > 1 && parts[1] == "asc" then Asc else Desc);
    if '-' in value then r else SplitWithoutSeparator(value, '-'); r
  }

  /** The six items the sort selector offers. */
  const SortOptions: seq<(string, SortOrder)> := [
    ("nome_fantasia", Asc), ("nome_fantasia", Desc),
    ("created_at", Desc), ("created_at", Asc),
    ("data_fundacao", Desc), ("data_fundacao", Asc) ]

  /** The user actions that change the page's state. */
  datatype Action =
    | TypeSearch(term: string)
    | ChangeFilter(key: FilterKey, value: string)
    | ChangeDateRange(range: Option<DateRange>)
    | ClearAll
    | SortBy(field: string)
    | SelectSort(value: string)
    | Previous
    | Next

  /** The state after one action; `totalPages` is what Next clamps to.
      Every change other than Previous/Next sends the user back to page 1;
      Previous/Next change the page and nothing else. */
  function Step(c: Criteria, a: Action, totalPages: int): (r: Criteria)
    ensures !IsNavigation(a) ==> r.page == 1
    ensures IsNavigation(a) ==> r == c.(page := r.page)
  {
    match a
    case TypeSearch(v) => c.(searchTerm := v, page := 1)
    case ChangeFilter(k, v) => c.(filters := c.filters.Set(k, v), page := 1)
    case ChangeDateRange(r) => c.(dateRange := r, page := 1)
    case ClearAll => c.(searchTerm := "", filters := NoFilters, dateRange := None, page := 1)
    case SortBy(f) =>
      if f == c.sortField then c.(sortOrder := Flip(c.sortOrder), page := 1)
      else c.(sortField := f, sortOrder := Asc, page := 1)
    case SelectSort(value) =>
      var parsed := ParseSortValue(value);
      c.(sortField := parsed.0, sortOrder := parsed.1, page := 1)
    case Previous => c.(page := PreviousPageOf(c.page))
    case Next => c.(page := NextPageOf(c.page, totalPages))
  }

  predicate IsNavigation(a: Action) {
    a.Previous? || a.Next?
  }

  // ---------------------------------------------------------------------
  // Properties of the transitions

  /** From any page in [1, totalPages], Previous and Next stay in that range. */
  lemma NavigationStaysInRange(c: Criteria, a: Action, totalPages: int)
    requires IsNavigation(a) && 1 <= c.page <= totalPages
    ensures 1 <= Step(c, a, totalPages).page <= totalPages
  {
  }

  /** Changing filter `k` to `v` sets that key only: the other six keys, the
      search term, the date range and the sort are as they were. */
  lemma FilterChangeTouchesOnlyKey(c: Criteria, k: FilterKey, v: string, totalPages: int)
    ensures Step(c, ChangeFilter(k, v), totalPages).filters.Get(k) == v
    ensures forall k' :: k' != k ==> Step(c, ChangeFilter(k, v), totalPages).filters.Get(k') == c.filters.Get(k')
    ensures Step(c, ChangeFilter(k, v), totalPages).(filters := c.filters, page := c.page) == c
  {
  }

  /** Sorting by the current field flips the order in place; doing it twice
      restores the original order. */
  lemma SortSameFieldTwice(c: Criteria, totalPages: int)
    ensures Step(c, SortBy(c.sortField), totalPages) == c.(sortOrder := Flip(c.sortOrder), page := 1)
    ensures Step(Step(c, SortBy(c.sortField), totalPages), SortBy(c.sortField), totalPages) == c.(page := 1)
  {
  }

  /** Sorting by another field selects it in ascending order. */
  lemma SortNewField(c: Criteria, f: string, totalPages: int)
    requires f != c.sortField
    ensures Step(c, SortBy(f), totalPages) == c.(sortField := f, sortOrder := Asc, page := 1)
  {
  }

  /** Clearing restores every default except the sort, and clearing twice is
      clearing once. */
  lemma ClearIdempotent(c: Criteria, totalPages: int)
    ensures Step(c, ClearAll, totalPages) == InitialCriteria.(sortField := c.sortField, sortOrder := c.sortOrder)
    ensures Step(Step(c, ClearAll, totalPages), ClearAll, totalPages) == Step(c, ClearAll, totalPages)
  {
  }

  /** Parsing the selector value of a field without '-' gives back that field
      and order. */
  lemma {:induction false} SortValueRoundTrip(field: string, o: SortOrder)
    requires '-' !in field
    ensures ParseSortValue(SortValue(field, o)) == (field, o)
  {
    var name := OrderName(o);
    assert '-' !in name;
    assert SortValue(field, o) == field + ['-'] + name;
    SplitAtFirstSeparator(field, '-', name);
    SplitWithoutSeparator(name, '-');
  }

  /** Every item the selector offers parses back to its own field and order,
      and choosing it resets the page. */
  lemma {:induction false} SortOptionsRoundTrip(c: Criteria, i: int, totalPages: int)
    requires 0 <= i < |SortOptions|
    ensures ParseSortValue(SortValue(SortOptions[i].0, SortOptions[i].1)) == SortOptions[i]
    ensures Step(c, SelectSort(SortValue(SortOptions[i].0, SortOptions[i].1)), totalPages)
            == c.(sortField := SortOptions[i].0, sortOrder := SortOptions[i].1, page := 1)
  {
    var opt := SortOptions[i];
    assert '-' !in opt.0;
    SortValueRoundTrip(opt.0, opt.1);
  }

  /** A Previous or Next button is disabled exactly when clicking it would
      leave the page where it is (for a page in range and no fetch running). */
  predicate PreviousDisabled(page: int, loading: bool) {
    page == 1 || loading
  }

  predicate NextDisabled(page: int, totalPages: int, loading: bool) {
    page == totalPages || loading
  }

  /** The Previous/Next controls are rendered only when there is more than
      one page. */
  predicate ShowPagination(totalPages: int) {
    totalPages > 1
  }

  /** The pager appears exactly when there are more than nine rows. */
  lemma PaginationShownIff(count: nat)
    ensures ShowPagination(TotalPages(count)) <==> count > ItemsPerPage
  {
    var t := TotalPages(count);
    if count > ItemsPerPage {
      assert t * ItemsPerPage > ItemsPerPage;
    } else {
      assert (t - 1) * ItemsPerPage < ItemsPerPage;
    }
  }

  lemma DisabledExactlyWhenNoMove(page: int, totalPages: int)
    requires 1 <= page <= totalPages
    ensures PreviousDisabled(page, false) <==> PreviousPageOf(page) == page
    ensures NextDisabled(page, totalPages, false) <==> NextPageOf(page, totalPages) == page
  {
  }

  // ---------------------------------------------------------------------
  // Properties of the composed query

  /** The text search is present exactly when the term is non-empty, and it
      then searches for the lower-cased term. */
  lemma SearchPredicateIff(c: Criteria, conds: seq<SearchCondition>)
    ensures AnyOf(conds) in ComposeQuery(c).predicates
            <==> c.searchTerm != "" && conds == SearchConditions(Lower(c.searchTerm))
  {
    var p := AnyOf(conds);
    InPredicates(c, p);
    var f := c.filters;
    assert p !in EqIfSet(f, SetorAtuacaoId) && p !in EqIfSet(f, Estado) && p !in EqIfSet(f, Cidade);
    assert p !in EqIfSet(f, PorteEmpresa) && p !in EqIfSet(f, StatusEmpresa);
    assert p !in FilterPredicates(f) && p !in DatePredicates(c.dateRange);
  }

  /** The key a column name belongs to. */
  function KeyOfColumn(col: string): Option<FilterKey> {
    if col == "setor_atuacao_id" then Some(SetorAtuacaoId)
    else if col == "estado" then Some(Estado)
    else if col == "cidade" then Some(Cidade)
    else if col == "porte_empresa" then Some(PorteEmpresa)
    else if col == "status_empresa" then Some(StatusEmpresa)
    else if col == "data_fundacao_inicio" then Some(DataFundacaoInicio)
    else if col == "data_fundacao_fim" then Some(DataFundacaoFim)
    else None
  }

  /** Distinct keys name distinct columns. */
  lemma ColumnInjective(k: FilterKey, k': FilterKey)
    ensures Column(k) == Column(k') ==> k == k'
  {
    assert KeyOfColumn(Column(k)) == Some(k);
    assert KeyOfColumn(Column(k')) == Some(k');
  }

  lemma EqInEqIfSet(f: Filters, k: FilterKey, k': FilterKey, v: string)
    ensures Eq(Column(k), v) in EqIfSet(f, k') <==> k == k' && f.Get(k) != "" && v == f.Get(k)
  {
    ColumnInjective(k, k');
  }

  lemma EqInFilterPredicates(f: Filters, k: FilterKey, v: string)
    requires Queried(k)
    ensures Eq(Column(k), v) in FilterPredicates(f) <==> f.Get(k) != "" && v == f.Get(k)
  {
    EqInEqIfSet(f, k, SetorAtuacaoId, v);
    EqInEqIfSet(f, k, Estado, v);
    EqInEqIfSet(f, k, Cidade, v);
    EqInEqIfSet(f, k, PorteEmpresa, v);
    EqInEqIfSet(f, k, StatusEmpresa, v);
  }

  /** The predicates of a query, piece by piece. */
  lemma InPredicates(c: Criteria, p: Predicate)
    ensures p in ComposeQuery(c).predicates
            <==> p in SearchPredicates(c.searchTerm) || p in FilterPredicates(c.filters) || p in DatePredicates(c.dateRange)
  {
  }

  /** A queried filter key contributes an equality predicate on its column
      exactly when its value is non-empty, and then with that value. */
  lemma EqPredicateIff(c: Criteria, k: FilterKey, v: string)
    requires Queried(k)
    ensures Eq(Column(k), v) in ComposeQuery(c).predicates
            <==> c.filters.Get(k) != "" && v == c.filters.Get(k)
  {
    InPredicates(c, Eq(Column(k), v));
    EqInFilterPredicates(c.filters, k, v);
  }

  /** The two `data_fundacao_*` keys of the filter record never reach the query. */
  lemma UnqueriedKeysIgnored(c: Criteria, k: FilterKey, v: string)
    requires !Queried(k)
    ensures ComposeQuery(c.(filters := c.filters.Set(k, v))) == ComposeQuery(c)
  {
    var f, g := c.filters, c.filters.Set(k, v);
    assert FilterPredicates(g) == FilterPredicates(f) by {
      assert forall k' :: Queried(k') ==> g.Get(k') == f.Get(k');
      assert EqIfSet(g, SetorAtuacaoId) == EqIfSet(f, SetorAtuacaoId);
      assert EqIfSet(g, Estado) == EqIfSet(f, Estado);
      assert EqIfSet(g, Cidade) == EqIfSet(f, Cidade);
      assert EqIfSet(g, PorteEmpresa) == EqIfSet(f, PorteEmpresa);
      assert EqIfSet(g, StatusEmpresa) == EqIfSet(f, StatusEmpresa);
    }
  }

  /** The lower bound on the foundation date is present exactly when the
      range has a start, and the upper bound exactly when it has an end.
      Both are applied as given, even when the start is after the end. */
  lemma DateBoundsIff(c: Criteria, b: Day)
    ensures Gte(DateColumn, b) in ComposeQuery(c).predicates
            <==> c.dateRange.Some? && c.dateRange.value.from == Some(b)
    ensures Lte(DateColumn, b) in ComposeQuery(c).predicates
            <==> c.dateRange.Some? && c.dateRange.value.to == Some(b)
  {
    BoundsOnlyFromDates(c, Gte(DateColumn, b));
    BoundsOnlyFromDates(c, Lte(DateColumn, b));
  }

  /** A date bound in the query can only come from the date steps. */
  lemma BoundsOnlyFromDates(c: Criteria, p: Predicate)
    requires p.Gte? || p.Lte?
    ensures p in ComposeQuery(c).predicates <==> p in DatePredicates(c.dateRange)
  {
    InPredicates(c, p);
    var f := c.filters;
    assert p !in EqIfSet(f, SetorAtuacaoId) && p !in EqIfSet(f, Estado) && p !in EqIfSet(f, Cidade);
    assert p !in EqIfSet(f, PorteEmpresa) && p !in EqIfSet(f, StatusEmpresa);
    assert p !in FilterPredicates(f);
  }

  /** With no search, no filter and no date bound, only the order clause and
      the window remain. */
  lemma EmptyCriteriaOnlyOrderAndRange(c: Criteria)
    requires c.searchTerm == "" && c.filters == NoFilters
    requires c.dateRange.None? || c.dateRange.value == DateRange(None, None)
    ensures ComposeQuery(c).predicates == []
    ensures ComposeQuery(c).order == Some(OrderClause(c.sortField, c.sortOrder == Asc))
    ensures ComposeQuery(c).range == Some(PageWindow(c.page))
  {
  }

  // ---------------------------------------------------------------------
  // Properties of the window arithmetic

  /** Each page's window holds exactly 9 rows and starts at a non-negative
      offset; page p+1 starts right after page p ends. */
  lemma WindowsTileRows(p: int)
    requires p >= 1
    ensures PageWindow(p).from >= 0
    ensures PageWindow(p).to - PageWindow(p).from + 1 == ItemsPerPage
    ensures PageWindow(p + 1).from == PageWindow(p).to + 1
  {
  }

  /** Every row offset lies in the window of exactly one page. */
  lemma RowOnExactlyOnePage(i: nat, p: int)
    requires p >= 1
    ensures PageWindow(p).from <= i <= PageWindow(p).to <==> p == i / ItemsPerPage + 1
  {
    var q := i / ItemsPerPage;
    assert q * ItemsPerPage <= i < (q + 1) * ItemsPerPage;
    if p <= q {
      assert (p - 1) * ItemsPerPage + ItemsPerPage - 1 < q * ItemsPerPage;
    } else if p >= q + 2 {
      assert (p - 1) * ItemsPerPage >= (q + 1) * ItemsPerPage;
    }
  }

  /** Pages 1..totalPages are exactly the pages whose window starts before
      the last matching row. */
  lemma PagesInRangeAreNonEmpty(count: nat, p: int)
    requires p >= 1
    ensures p <= TotalPages(count) <==> PageWindow(p).from < count
  {
    var t := TotalPages(count);
    if p <= t {
      assert (p - 1) * ItemsPerPage <= (t - 1) * ItemsPerPage;
    } else {
      assert (p - 1) * ItemsPerPage >= t * ItemsPerPage;
    }
  }

  /** 20 matching rows make 3 pages; the third window starts at offset 18,
      so it holds the last two rows. */
  lemma TwentyRowsExample()
    ensures TotalPages(20) == 3
    ensures PageWindow(3) == Window(18, 26)
    ensures NextPageOf(3, TotalPages(20)) == 3
  {
  }

  // ---------------------------------------------------------------------
  // Distinct-value options

  /** The values as present entries. */
  function AsPresent(r: seq<string>): (w: seq<Option<string>>)
    ensures |w| == |r| && forall i :: 0 <= i < |r| ==> w[i] == Some(r[i])
  {
    seq(|r|, i requires 0 <= i < |r| => Some(r[i]))
  }

  /** `data.filter(e => e)`: the present, non-empty values, in the order of
      the data and each as often as it occurs there. */
  function PresentValues(data: seq<Option<string>>): (r: seq<string>)
    ensures forall x :: x in r <==> x != "" && Some(x) in data
    ensures forall x :: multiset(r)[x] == if x != "" then multiset(data)[Some(x)] else 0
    ensures IsSubsequence(AsPresent(r), data)
    decreases |data|
  {
    if data == [] then []
    else
      var rest := PresentValues(data[1..]);
      var r := if data[0].Some? && data[0].value != "" then [data[0].value] + rest else rest;
      PresentMembershipStep(data, rest, r);
      PresentMultisetStep(data, rest, r);
      PresentOrderStep(data, rest, r);
      r
  }

  /** Keeping or dropping the first entry keeps the membership clause. */
  lemma PresentMembershipStep(data: seq<Option<string>>, rest: seq<string>, r: seq<string>)
    requires data != []
    requires forall x :: x in rest <==> x != "" && Some(x) in data[1..]
    requires r == if data[0].Some? && data[0].value != "" then [data[0].value] + rest else rest
    ensures forall x :: x in r <==> x != "" && Some(x) in data
  {
    assert data == [data[0]] + data[1..];
  }

  /** Keeping or dropping the first entry keeps the multiplicity clause. */
  lemma PresentMultisetStep(data: seq<Option<string>>, rest: seq<string>, r: seq<string>)
    requires data != []
    requires forall x :: multiset(rest)[x] == if x != "" then multiset(data[1..])[Some(x)] else 0
    requires r == if data[0].Some? && data[0].value != "" then [data[0].value] + rest else rest
    ensures forall x :: multiset(r)[x] == if x != "" then multiset(data)[Some(x)] else 0
  {
    assert data == [data[0]] + data[1..];
  }

  /** Keeping or dropping the first entry keeps the order clause. */
  lemma PresentOrderStep(data: seq<Option<string>>, rest: seq<string>, r: seq<string>)
    requires data != []
    requires IsSubsequence(AsPresent(rest), data[1..])
    requires r == if data[0].Some? && data[0].value != "" then [data[0].value] + rest else rest
    ensures IsSubsequence(AsPresent(r), data)
  {
    if data[0].Some? && data[0].value != "" {
      assert AsPresent(r)[0] == data[0] && AsPresent(r)[1..] == AsPresent(rest);
    }
  }

  /** `data?.filter(e => e) || []`: a missing list gives no options. */
  function OptionsFrom(data: Option<seq<Option<string>>>): (r: seq<string>)
    ensures forall x :: x in r <==> data.Some? && x != "" && Some(x) in data.value
  {
    if data.None? then [] else PresentValues(data.value)
  }

  /** The payload of a successful company fetch. */
  datatype FetchData = FetchData(rows: seq<Empresa>, count: Option<nat>)

  /** The directory page's state cells. */
  class EmpresasPage {
    var empresas: seq<Empresa>
    var loading: bool
    var searchTerm: string
    var filters: Filters
    var dateRange: Option<DateRange>
    var setores: seq<SetorAtuacao>
    var estados: seq<string>
    var cidades: seq<string>
    var sortField: string
    var sortOrder: SortOrder
    var currentPage: int
    var totalCount: nat

    /** The current page is always at least 1. */
    ghost predicate Valid()
      reads this
    {
      currentPage >= 1
    }

    /** The part of the state that determines the query. */
    function CurrentCriteria(): Criteria
      reads this
    {
      Criteria(searchTerm, filters, dateRange, sortField, sortOrder, currentPage)
    }

    function CurrentTotalPages(): nat
      reads this
    {
      TotalPages(totalCount)
    }

    constructor ()
      ensures Valid()
      ensures CurrentCriteria() == InitialCriteria
      ensures empresas == [] && loading && totalCount == 0
      ensures setores == [] && estados == [] && cidades == []
    {
      empresas, loading := [], true;
      searchTerm := "";
      filters := NoFilters;
      dateRange := None;
      setores, estados, cidades := [], [], [];
      sortField, sortOrder := "created_at", Desc;
      currentPage, totalCount := 1, 0;
    }

    /** The search box's change handler. */
    method SetSearchTerm(v: string)
      modifies this`searchTerm, this`currentPage
      ensures Valid()
      ensures CurrentCriteria() == Step(old(CurrentCriteria()), TypeSearch(v), old(CurrentTotalPages()))
    {
      searchTerm := v;
      currentPage := 1;
    }

    /** handleFilterChange. */
    method HandleFilterChange(k: FilterKey, v: string)
      modifies this`filters, this`currentPage
      ensures Valid()
      ensures CurrentCriteria() == Step(old(CurrentCriteria()), ChangeFilter(k, v), old(CurrentTotalPages()))
    {
      filters := filters.Set(k, v);
      currentPage := 1;
    }

    /** handleDateRangeChange. */
    method HandleDateRangeChange(r: Option<DateRange>)
      modifies this`dateRange, this`currentPage
      ensures Valid()
      ensures CurrentCriteria() == Step(old(CurrentCriteria()), ChangeDateRange(r), old(CurrentTotalPages()))
    {
      dateRange := r;
      currentPage := 1;
    }

    /** clearFilters. */
    method ClearFilters()
      modifies this`filters, this`dateRange, this`searchTerm, this`currentPage
      ensures Valid()
      ensures CurrentCriteria() == Step(old(CurrentCriteria()), ClearAll, old(CurrentTotalPages()))
    {
      filters := NoFilters;
      dateRange := None;
      searchTerm := "";
      currentPage := 1;
    }

    /** handleSort. */
    method HandleSort(f: string)
      modifies this`sortField, this`sortOrder, this`currentPage
      ensures Valid()
      ensures CurrentCriteria() == Step(old(CurrentCriteria()), SortBy(f), old(CurrentTotalPages()))
    {
      if f == sortField {
        sortOrder := Flip(sortOrder);
      } else {
        sortField := f;
        sortOrder := Asc;
      }
      currentPage := 1;
    }

    /** The sort selector's change handler. */
    method HandleSortSelect(value: string)
      modifies this`sortField, this`sortOrder, this`currentPage
      ensures Valid()
      ensures CurrentCriteria() == Step(old(CurrentCriteria()), SelectSort(value), old(CurrentTotalPages()))
    {
      var parsed := ParseSortValue(value);
      sortField, sortOrder := parsed.0, parsed.1;
      currentPage := 1;
    }

    /** The Previous button's click handler. */
    method PreviousPage()
      requires Valid()
      modifies this`currentPage
      ensures Valid()
      ensures CurrentCriteria() == Step(old(CurrentCriteria()), Previous, old(CurrentTotalPages()))
    {
      currentPage := PreviousPageOf(currentPage);
    }

    /** The Next button's click handler; the button exists only while there
        is more than one page. */
    method NextPage()
      requires Valid() && ShowPagination(CurrentTotalPages())
      modifies this`currentPage
      ensures Valid()
      ensures CurrentCriteria() == Step(old(CurrentCriteria()), Next, old(CurrentTotalPages()))
    {
      currentPage := NextPageOf(currentPage, TotalPages(totalCount));
    }

    /** The text-search step of fetchEmpresas. */
    method WithTextSearch(q: Query) returns (r: Query)
      ensures r == q.(predicates := q.predicates + SearchPredicates(searchTerm))
    {
      r := q;
      if searchTerm != "" {
        var searchLower := Lower(searchTerm);
        r := r.(predicates := r.predicates + [AnyOf(SearchConditions(searchLower))]);
      }
    }

    /** The equality-filter steps of fetchEmpresas, one per queried key. */
    method WithFieldFilters(q: Query) returns (r: Query)
      ensures r == q.(predicates := q.predicates + FilterPredicates(filters))
    {
      r := q;
      ghost var acc := r.predicates;
      if filters.setorAtuacaoId != "" {
        r := r.(predicates := r.predicates + [Eq("setor_atuacao_id", filters.setorAtuacaoId)]);
      }
      assert r.predicates == acc + EqIfSet(filters, SetorAtuacaoId);
      acc := r.predicates;
      if filters.estado != "" {
        r := r.(predicates := r.predicates + [Eq("estado", filters.estado)]);
      }
      assert r.predicates == acc + EqIfSet(filters, Estado);
      acc := r.predicates;
      if filters.cidade != "" {
        r := r.(predicates := r.predicates + [Eq("cidade", filters.cidade)]);
      }
      assert r.predicates == acc + EqIfSet(filters, Cidade);
      acc := r.predicates;
      if filters.porteEmpresa != "" {
        r := r.(predicates := r.predicates + [Eq("porte_empresa", filters.porteEmpresa)]);
      }
      assert r.predicates == acc + EqIfSet(filters, PorteEmpresa);
      acc := r.predicates;
      if filters.statusEmpresa != "" {
        r := r.(predicates := r.predicates + [Eq("status_empresa", filters.statusEmpresa)]);
      }
      assert r.predicates == acc + EqIfSet(filters, StatusEmpresa);
      FilterPredicatesAppend(q.predicates, filters);
    }

    /** The foundation-date steps of fetchEmpresas. */
    method WithDateBounds(q: Query) returns (r: Query)
      ensures r == q.(predicates := q.predicates + DatePredicates(dateRange))
    {
      r := q;
      if dateRange.Some? && dateRange.value.from.Some? {
        r := r.(predicates := r.predicates + [Gte(DateColumn, dateRange.value.from.value)]);
      }
      ghost var acc := r.predicates;
      assert acc == q.predicates + LowerDateBound(dateRange);
      if dateRange.Some? && dateRange.value.to.Some? {
        r := r.(predicates := r.predicates + [Lte(DateColumn, dateRange.value.to.value)]);
      }
      assert r.predicates == acc + UpperDateBound(dateRange);
      assert q.predicates + LowerDateBound(dateRange) + UpperDateBound(dateRange)
          == q.predicates + DatePredicates(dateRange);
    }

    /** fetchEmpresas up to its await: raise the loading flag and build the
        query step by step: text search, filters, date bounds, order, window. */
    method BeginFetch() returns (q: Query)
      modifies this`loading
      ensures loading
      ensures q == ComposeQuery(CurrentCriteria())
    {
      loading := true;
      q := Query(Table, Columns, true, [], None, None);
      q := WithTextSearch(q);
      q := WithFieldFilters(q);
      q := WithDateBounds(q);
      q := q.(order := Some(OrderClause(sortField, sortOrder == Asc)));
      var from := (currentPage - 1) * ItemsPerPage;
      var to := from + ItemsPerPage - 1;
      q := q.(range := Some(Window(from, to)));
      EmptyPrefix(SearchPredicates(searchTerm));
      assert q.predicates == ComposeQuery(CurrentCriteria()).predicates;
      assert q.range == ComposeQuery(CurrentCriteria()).range;
    }

    /** fetchEmpresas after its await. On success the rows are replaced and the
        count taken (0 when absent); on an error the rows are emptied and the
        previous count is kept. The loading flag drops either way. */
    method FinishFetch(response: Result<FetchData, string>)
      modifies this`empresas, this`totalCount, this`loading
      ensures !loading
      ensures response.Ok? ==> empresas == response.value.rows && totalCount == response.value.count.GetOr(0)
      ensures response.Err? ==> empresas == [] && totalCount == old(totalCount)
    {
      match response {
        case Err(_) =>
          empresas := [];
        case Ok(data) =>
          empresas := data.rows;
          totalCount := if data.count.Some? then data.count.value else 0;
      }
      loading := false;
    }

    /** fetchFilterOptions with its three responses: each list is replaced on
        success and kept on an error. */
    method LoadFilterOptions(
      setoresResponse: Result<Option<seq<SetorAtuacao>>, string>,
      estadosResponse: Result<Option<seq<Option<string>>>, string>,
      cidadesResponse: Result<Option<seq<Option<string>>>, string>)
      modifies this`setores, this`estados, this`cidades
      ensures setores == if setoresResponse.Ok? then setoresResponse.value.GetOr([]) else old(setores)
      ensures estados == if estadosResponse.Ok? then OptionsFrom(estadosResponse.value) else old(estados)
      ensures cidades == if cidadesResponse.Ok? then OptionsFrom(cidadesResponse.value) else old(cidades)
    {
      if setoresResponse.Ok? {
        setores := setoresResponse.value.GetOr([]);
      }
      if estadosResponse.Ok? {
        estados := OptionsFrom(estadosResponse.value);
      }
      if cidadesResponse.Ok? {
        cidades := OptionsFrom(cidadesResponse.value);
      }
    }
  }
}

/** The tender list page (src/pages/LicitacoesPage.tsx): all tenders are
    fetched once; the search box and the two selectors then narrow the list
    on the client. */
module Licitacoes {
  import opened Wrappers
  import opened Strings
  import opened Sequences

  datatype Licitacao = Licitacao(
    id: int, numero: string, orgao: string, objeto: string,
    modalidade: string, status: string,
    valorEstimado: Option<string>, dataAbertura: string)

  /** The selector values that mean "no restriction". */
  const AllStatuses := "todos"
  const AllModalidades := "todas"

  /** The lower-cased term occurs in the lower-cased number, agency or object. */
  predicate MatchesSearch(lic: Licitacao, term: string) {
    var t := Lower(term);
    Contains(Lower(lic.numero), t) || Contains(Lower(lic.orgao), t) || Contains(Lower(lic.objeto), t)
  }

  /** The search in terms of the reference definition of `includes`: the
      lower-cased term occurs at some index of one of the three lower-cased
      text fields. */
  lemma MatchesSearchIff(lic: Licitacao, term: string)
    ensures MatchesSearch(lic, term) <==>
              (exists k :: OccursAt(Lower(lic.numero), Lower(term), k))
              || (exists k :: OccursAt(Lower(lic.orgao), Lower(term), k))
              || (exists k :: OccursAt(Lower(lic.objeto), Lower(term), k))
  {
    ContainsIffOccurs(Lower(lic.numero), Lower(term));
    ContainsIffOccurs(Lower(lic.orgao), Lower(term));
    ContainsIffOccurs(Lower(lic.objeto), Lower(term));
  }

  /** The search ignores the case of the term: a term and its lower-cased
      form find the same tenders. */
  lemma SearchIgnoresTermCase(lic: Licitacao, term: string)
    ensures MatchesSearch(lic, term) <==> MatchesSearch(lic, Lower(term))
  {
    LowerIdempotent(term);
  }

  /** The rule `filteredLicitacoes` keeps a tender by. */
  predicate Matches(lic: Licitacao, term: string, status: string, modalidade: string) {
    && MatchesSearch(lic, term)
    && (status == AllStatuses || lic.status == status)
    && (modalidade == AllModalidades || lic.modalidade == modalidade)
  }

  /** `filteredLicitacoes`: the matching tenders, in list order, each as often
      as it occurs in the list. */
  function Filtered(xs: seq<Licitacao>, term: string, status: string, modalidade: string): (r: seq<Licitacao>)
    ensures forall x :: x in r <==> x in xs && Matches(x, term, status, modalidade)
    ensures forall x :: multiset(r)[x] == if Matches(x, term, status, modalidade) then multiset(xs)[x] else 0
    ensures IsSubsequence(r, xs)
    decreases |xs|
  {
    if xs == [] then []
    else
      var rest := Filtered(xs[1..], term, status, modalidade);
      assert xs == [xs[0]] + xs[1..];
      if Matches(xs[0], term, status, modalidade) then [xs[0]] + rest else rest
  }

  /** Every tender matches the empty search with both selectors on "all". */
  lemma MatchesDefaults(lic: Licitacao)
    ensures Matches(lic, "", AllStatuses, AllModalidades)
  {
    assert Lower("") == "";
    ContainsEmpty(Lower(lic.numero));
  }

  /** With an empty search and both selectors on "all", nothing is dropped. */
  lemma {:induction false} DefaultFiltersKeepAll(xs: seq<Licitacao>)
    ensures Filtered(xs, "", AllStatuses, AllModalidades) == xs
    decreases |xs|
  {
    if xs != [] {
      MatchesDefaults(xs[0]);
      DefaultFiltersKeepAll(xs[1..]);
      assert xs == [xs[0]] + xs[1..];
    }
  }

  /** No value appears twice. */
  ghost predicate NoDuplicates<T>(r: seq<T>) {
    forall i, j :: 0 <= i < j < |r| ==> r[i] != r[j]
  }

  /** The index of the first occurrence of `x` in `xs`. */
  function FirstIndex<T(==)>(xs: seq<T>, x: T): (k: nat)
    requires x in xs
    ensures k < |xs| && xs[k] == x
    ensures forall j :: 0 <= j < k ==> xs[j] != x
    decreases |xs|
  {
    if xs[0] == x then 0 else 1 + FirstIndex(xs[1..], x)
  }

  /** `Array.from(new Set(xs))`: the values of `xs` with repeats removed,
      each kept where it first occurs. */
  function Distinct(xs: seq<string>): (r: seq<string>)
    ensures forall x :: x in r <==> x in xs
    ensures NoDuplicates(r)
    decreases |xs|
  {
    if xs == [] then []
    else
      var init := xs[..|xs| - 1];
      var d := Distinct(init);
      assert forall x :: x in xs <==> x in init || x == xs[|xs| - 1] by {
        assert xs == init + [xs[|xs| - 1]];
      }
      if xs[|xs| - 1] in d then d else d + [xs[|xs| - 1]]
  }

  /** A first occurrence inside a prefix is a first occurrence in the whole. */
  lemma FirstIndexInPrefix<T>(xs: seq<T>, n: nat, x: T)
    requires n <= |xs| && x in xs[..n]
    ensures FirstIndex(xs, x) == FirstIndex(xs[..n], x)
  {
    var k := FirstIndex(xs[..n], x);
    var m := FirstIndex(xs, x);
    assert xs[k] == xs[..n][k] == x;
    assert m <= k;
    assert xs[..n][m] == xs[m] == x;
  }

  /** The distinct values come in the order of their first occurrence. */
  lemma {:induction false} DistinctFirstOccurrenceOrder(xs: seq<string>)
    ensures forall i, j :: 0 <= i < j < |Distinct(xs)| ==>
              FirstIndex(xs, Distinct(xs)[i]) < FirstIndex(xs, Distinct(xs)[j])
    decreases |xs|
  {
    if xs != [] {
      var n := |xs| - 1;
      var init := xs[..n];
      var d := Distinct(init);
      var last := xs[n];
      DistinctFirstOccurrenceOrder(init);
      assert init == xs[..n];
      forall i | 0 <= i < |d|
        ensures d[i] in xs && FirstIndex(xs, d[i]) == FirstIndex(init, d[i])
      {
        var t := FirstIndex(init, d[i]);
        assert xs[t] == d[i];
        FirstIndexInPrefix(xs, n, d[i]);
      }
      if last !in d {
        assert last !in init;
        assert FirstIndex(xs, last) == n;
        var r := d + [last];
        assert Distinct(xs) == r;
        forall i, j | 0 <= i < j < |r|
          ensures FirstIndex(xs, r[i]) < FirstIndex(xs, r[j])
        {
          assert r[i] == d[i];
          if j < |d| {
            assert r[j] == d[j];
          } else {
            assert r[j] == last;
          }
        }
      }
    }
  }

  /** The statuses of the list, one per tender: a value is in it exactly
      when some tender has that status. */
  function Statuses(xs: seq<Licitacao>): (r: seq<string>)
    ensures |r| == |xs| && forall i :: 0 <= i < |xs| ==> r[i] == xs[i].status
    ensures forall v :: v in r <==> exists i :: 0 <= i < |xs| && xs[i].status == v
  {
    seq(|xs|, i requires 0 <= i < |xs| => xs[i].status)
  }

  /** The modalities of the list, one per tender: a value is in it exactly
      when some tender has that modality. */
  function Modalidades(xs: seq<Licitacao>): (r: seq<string>)
    ensures |r| == |xs| && forall i :: 0 <= i < |xs| ==> r[i] == xs[i].modalidade
    ensures forall v :: v in r <==> exists i :: 0 <= i < |xs| && xs[i].modalidade == v
  {
    seq(|xs|, i requires 0 <= i < |xs| => xs[i].modalidade)
  }

  /** `statusUnicos`: every status that occurs, once each. */
  lemma StatusOptionsExact(xs: seq<Licitacao>, s: string)
    ensures s in Distinct(Statuses(xs)) <==> exists i :: 0 <= i < |xs| && xs[i].status == s
    ensures NoDuplicates(Distinct(Statuses(xs)))
  {
    if s in Statuses(xs) {
      var i :| 0 <= i < |xs| && Statuses(xs)[i] == s;
    }
  }

  /** `modalidadesUnicas`: every modality that occurs, once each. */
  lemma ModalidadeOptionsExact(xs: seq<Licitacao>, m: string)
    ensures m in Distinct(Modalidades(xs)) <==> exists i :: 0 <= i < |xs| && xs[i].modalidade == m
    ensures NoDuplicates(Distinct(Modalidades(xs)))
  {
    if m in Modalidades(xs) {
      var i :| 0 <= i < |xs| && Modalidades(xs)[i] == m;
    }
  }

  /** The colour of a tender's status badge. */
  datatype Badge = Green | Red | Yellow

  /** 'aberta' is green, 'encerrada' red, any other status yellow. */
  function StatusBadge(status: string): (b: Badge)
    ensures b == Green <==> status == "aberta"
    ensures b == Red <==> status == "encerrada"
  {
    if status == "aberta" then Green
    else if status == "encerrada" then Red
    else Yellow
  }

  /** The label shown for a status, in the badge and in the selector: it
      differs from the stored status only in its first character, which is
      upper-cased. */
  function StatusLabel(status: string): (r: string)
    ensures |r| == |status|
    ensures status != "" ==> r[0] == UpperChar(status[0]) && r[1..] == status[1..]
  {
    Capitalize(status)
  }

  /** The one query the page sends: all tenders, newest opening date first. */
  datatype ListQuery = ListQuery(table: string, columns: string, orderColumn: string, ascending: bool)

  const TenderQuery := ListQuery("licitacoes", "*", "data_abertura", false)

  /** The tender page's state cells. */
  class LicitacoesPage {
    var licitacoes: seq<Licitacao>
    var loading: bool
    var searchTerm: string
    var filterStatus: string
    var filterModalidade: string

    constructor ()
      ensures licitacoes == [] && loading && searchTerm == ""
      ensures filterStatus == AllStatuses && filterModalidade == AllModalidades
    {
      licitacoes, loading := [], true;
      searchTerm := "";
      filterStatus, filterModalidade := AllStatuses, AllModalidades;
    }

    /** The tenders currently shown: those of the list that match the three
        controls, in list order. */
    function Visible(): (r: seq<Licitacao>)
      reads this
      ensures forall x :: x in r <==> x in licitacoes && Matches(x, searchTerm, filterStatus, filterModalidade)
      ensures IsSubsequence(r, licitacoes)
    {
      Filtered(licitacoes, searchTerm, filterStatus, filterModalidade)
    }

    /** The status selector's options after "all": every status of the list,
        once each. */
    function StatusOptions(): (r: seq<string>)
      reads this
      ensures forall s :: s in r <==> exists i :: 0 <= i < |licitacoes| && licitacoes[i].status == s
      ensures NoDuplicates(r)
    {
      Distinct(Statuses(licitacoes))
    }

    /** The modality selector's options after "all": every modality of the
        list, once each. */
    function ModalidadeOptions(): (r: seq<string>)
      reads this
      ensures forall m :: m in r <==> exists i :: 0 <= i < |licitacoes| && licitacoes[i].modalidade == m
      ensures NoDuplicates(r)
    {
      Distinct(Modalidades(licitacoes))
    }

    method SetSearchTerm(v: string)
      modifies this`searchTerm
      ensures searchTerm == v
    {
      searchTerm := v;
    }

    method SetFilterStatus(v: string)
      modifies this`filterStatus
      ensures filterStatus == v
    {
      filterStatus := v;
    }

    method SetFilterModalidade(v: string)
      modifies this`filterModalidade
      ensures filterModalidade == v
    {
      filterModalidade := v;
    }

    /** fetchLicitacoes up to its await. */
    method BeginFetch() returns (q: ListQuery)
      modifies this`loading
      ensures loading && q == TenderQuery
    {
      loading := true;
      q := ListQuery("licitacoes", "*", "data_abertura", false);
    }

    /** fetchLicitacoes after its await: the rows on success, an empty list on
        an error; the loading flag drops either way. */
    method FinishFetch(response: Result<seq<Licitacao>, string>)
      modifies this`licitacoes, this`loading
      ensures !loading
      ensures licitacoes == if response.Ok? then response.value else []
    {
      if response.Err? {
        licitacoes := [];
      } else {
        licitacoes := response.value;
      }
      loading := false;
    }
  }
}

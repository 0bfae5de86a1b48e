/**
 * The client and supplier list page: a fixed list of two clients, filtered by
 * the search box on company name (case-insensitively) or CNPJ (exactly), and
 * shown one page at a time.
 */
module ClienteIndex {
  import opened Text
  import Lists
  import Paging

  datatype Cliente = Cliente(cnpj: string, razaoSocial: string)

  /** The page's built-in list, in display order. */
  const ClientesMock: seq<Cliente> := [
    Cliente("07.376.385/0001-35", "SDB BOMBONIERE LTDA – ME"),
    Cliente("52.659.679/0001-29", "PAES E DOCES TRIGONELA LTDA – EPP")
  ]

  /** The predicate of `filteredClientes`: the CNPJ is matched case-sensitively. */
  predicate Matches(c: Cliente, search: string): (b: bool)
    ensures search == "" ==> b
    ensures search == c.razaoSocial || search == c.cnpj ==> b
  {
    IncludesIgnoringCase(c.razaoSocial, search) || Includes(c.cnpj, search)
  }

  /** `clientesMock.filter(...)`: the clients matching `search`, in list order. */
  function FilterClientes(search: string): (r: seq<Cliente>)
    ensures |r| <= |ClientesMock|
    ensures forall i :: 0 <= i < |r| ==> r[i] in ClientesMock && Matches(r[i], search)
    ensures forall i :: 0 <= i < |ClientesMock| && Matches(ClientesMock[i], search) ==> ClientesMock[i] in r
    ensures Lists.IsSubsequence(r, ClientesMock)
  {
    Lists.Filter(ClientesMock, c => Matches(c, search))
  }

  /** An empty search box shows both clients. */
  lemma EmptySearchKeepsAll()
    ensures FilterClientes("") == ClientesMock
  {
    IncludesTrivial(ClientesMock[0].cnpj);
    IncludesTrivial(ClientesMock[1].cnpj);
    Lists.FilterKeepsAll(ClientesMock, c => Matches(c, ""));
  }

  /** A CNPJ prefix picks out the one client it belongs to. */
  lemma CnpjPrefixSelectsOne()
    ensures FilterClientes("52.659") == [ClientesMock[1]]
  {
    FirstLacksNine();
    assert "52.659" <= ClientesMock[1].cnpj;
    Lists.FilterKeepsSecond(ClientesMock[0], ClientesMock[1], c => Matches(c, "52.659"));
  }

  /** The first client holds no '9', in its CNPJ or its company name. */
  lemma FirstLacksNine()
    ensures !Matches(ClientesMock[0], "52.659")
  {
    assert '9' !in "07.376.385/0001-35" && '9' !in "SDB BOMBONIERE LTDA – ME";
    ExcludedByChar(ClientesMock[0], "52.659", '9');
  }

  /** A search holding a non-letter that neither field holds excludes the client. */
  lemma ExcludedByChar(c: Cliente, search: string, ch: char)
    requires ch in search && !IsUpper(ch) && !('a' <= ch <= 'z')
    requires ch !in c.cnpj && ch !in c.razaoSocial
    ensures !Matches(c, search)
  {
    MissingCharExcludes(c.cnpj, search, ch);
    LowerKeepsAbsentChar(c.razaoSocial, ch);
    var k :| 0 <= k < |search| && search[k] == ch;
    assert Lower(search)[k] == ch;
    MissingCharExcludes(Lower(c.razaoSocial), Lower(search), ch);
  }

  /** The page's React state. */
  class ClientePage {
    var page: nat
    var rowsPerPage: nat
    var search: string

    constructor ()
      ensures page == 0 && rowsPerPage == 5 && search == ""
    {
      page, rowsPerPage, search := 0, 5, "";
    }

    /** `handleChangePage`: only the page changes. */
    method HandleChangePage(newPage: nat)
      modifies this
      ensures page == newPage && rowsPerPage == old(rowsPerPage) && search == old(search)
    {
      page := newPage;
    }

    /** `handleChangeRowsPerPage` (the pagination control): the new size, back to the first page. */
    method HandleChangeRowsPerPage(value: nat)
      modifies this
      ensures rowsPerPage == value && page == 0 && search == old(search)
    {
      rowsPerPage := value;
      page := 0;
    }

    /** The "Exibir" select's `onChange`: the new size, the page is NOT reset. */
    method SelectRowsPerPage(value: nat)
      modifies this
      ensures rowsPerPage == value && page == old(page) && search == old(search)
    {
      rowsPerPage := value;
    }

    /** The search box's `onChange`: the page is not reset. */
    method SetSearch(text: string)
      modifies this
      ensures search == text && page == old(page) && rowsPerPage == old(rowsPerPage)
    {
      search := text;
    }

    /** The table body: the current page of the filtered clients. */
    function Rows(): (r: seq<Cliente>)
      reads this
      ensures |r| <= rowsPerPage
      ensures forall i :: 0 <= i < |r| ==> r[i] in ClientesMock && Matches(r[i], search)
      ensures r != [] <==> rowsPerPage > 0 && page * rowsPerPage < Count()
    {
      var filtered := FilterClientes(search);
      ShownClientsMatch(filtered, search, page, rowsPerPage);
      Paging.PageWindow(filtered, page, rowsPerPage)
    }

    /** The `count` handed to the pagination control. */
    function Count(): (n: nat)
      reads this
      ensures n <= |ClientesMock|
      ensures search == "" ==> n == |ClientesMock|
    {
      EmptySearchKeepsAll();
      |FilterClientes(search)|
    }
  }

  /** Every client a page of the filtered list shows is a matching client of the list. */
  lemma ShownClientsMatch(filtered: seq<Cliente>, search: string, page: nat, rows: nat)
    requires forall i :: 0 <= i < |filtered| ==> filtered[i] in ClientesMock && Matches(filtered[i], search)
    ensures forall i :: 0 <= i < |Paging.PageWindow(filtered, page, rows)| ==>
      Paging.PageWindow(filtered, page, rows)[i] in ClientesMock && Matches(Paging.PageWindow(filtered, page, rows)[i], search)
  {
    var q := search;
    Paging.WindowKeeps(filtered, page, rows, x => x in ClientesMock && Matches(x, q));
  }
}

/**
 * The service list page: the fetched services filtered by the search box on
 * name or description, case-insensitively, and shown one page at a time.
 */
module ServicoIndex {
  import opened Options
  import opened Text
  import Lists
  import Paging

  /** The fields of a service the page filters on and shows. */
  datatype Service = Service(id: int, name: string, description: string, isActive: bool)

  /** `serviceResponse?.data.content || []`: no services until a response arrives. */
  function LoadedServices(content: Option<seq<Service>>): (r: seq<Service>)
    ensures content.None? ==> r == []
    ensures content.Some? ==> r == content.value
  {
    content.GetOr([])
  }

  /** The predicate of `filteredServices`. */
  predicate Matches(s: Service, search: string): (b: bool)
    ensures search == "" ==> b
    ensures search == s.name || search == s.description ==> b
  {
    IncludesIgnoringCase(s.name, search) || IncludesIgnoringCase(s.description, search)
  }

  /** `services.filter(...)`: the services matching `search`, in their original order. */
  function FilterServices(services: seq<Service>, search: string): (r: seq<Service>)
    ensures |r| <= |services|
    ensures forall i :: 0 <= i < |r| ==> r[i] in services && Matches(r[i], search)
    ensures forall i :: 0 <= i < |services| && Matches(services[i], search) ==> services[i] in r
    ensures Lists.IsSubsequence(r, services)
  {
    Lists.Filter(services, s => Matches(s, search))
  }

  /** An empty search box keeps every service. */
  lemma EmptySearchKeepsAll(services: seq<Service>)
    ensures FilterServices(services, "") == services
  {
    forall i | 0 <= i < |services| ensures Matches(services[i], "") {
      IncludesTrivial(Lower(services[i].name));
    }
    Lists.FilterKeepsAll(services, s => Matches(s, ""));
  }

  /** The filter does not depend on the case of the search text. */
  lemma SearchIsCaseBlind(services: seq<Service>, search: string)
    ensures FilterServices(services, Lower(search)) == FilterServices(services, search)
  {
    forall i | 0 <= i < |services| ensures Matches(services[i], Lower(search)) == Matches(services[i], search) {
      IncludesIgnoringCaseIsCaseBlind(services[i].name, search);
      IncludesIgnoringCaseIsCaseBlind(services[i].description, search);
    }
    Lists.FilterCongruent(services, s => Matches(s, Lower(search)), s => Matches(s, search));
  }

  /** The page's React state. */
  class ServicePage {
    var page: nat
    var rowsPerPage: nat
    var search: string

    constructor ()
      ensures page == 0 && rowsPerPage == 5 && search == ""
    {
      page, rowsPerPage, search := 0, 5, "";
    }

    /** `handleChangePage`: only the page changes. */
    method HandleChangePage(newPage: nat)
      modifies this
      ensures page == newPage && rowsPerPage == old(rowsPerPage) && search == old(search)
    {
      page := newPage;
    }

    /** `handleChangeRowsPerPage`: the new page size, back to the first page. */
    method HandleChangeRowsPerPage(value: nat)
      modifies this
      ensures rowsPerPage == value && page == 0 && search == old(search)
    {
      rowsPerPage := value;
      page := 0;
    }

    /** The search box's `onChange`: the page is NOT reset. */
    method SetSearch(text: string)
      modifies this
      ensures search == text && page == old(page) && rowsPerPage == old(rowsPerPage)
    {
      search := text;
    }

    /** The table body: the current page of the filtered services. */
    function Rows(services: seq<Service>): (r: seq<Service>)
      reads this
      ensures |r| <= rowsPerPage
      ensures forall i :: 0 <= i < |r| ==> r[i] in services && Matches(r[i], search)
      ensures r != [] <==> rowsPerPage > 0 && page * rowsPerPage < Count(services)
    {
      var filtered := FilterServices(services, search);
      var r := Paging.PageWindow(filtered, page, rowsPerPage);
      var q := search;
      Paging.WindowKeeps(filtered, page, rowsPerPage, x => x in services && Matches(x, q));
      r
    }

    /** The `count` handed to the pagination control. */
    function Count(services: seq<Service>): (n: nat)
      reads this
      ensures n <= |services|
      ensures search == "" ==> n == |services|
    {
      EmptySearchKeepsAll(services);
      |FilterServices(services, search)|
    }
  }
}

/** The company management screen: its `companies` list, the delete handler
    that replaces it, the add and edit handlers that only close their dialog,
    the search box and the status badge. */
module Companies {
  import opened Models
  import opened Text
  import Lists

  /** The list after `handleDeleteCompany(id)`. */
  function CompaniesWithout(cs: seq<Company>, id: string): seq<Company>
  {
    Lists.Filter(cs, (c: Company) => c.id != id)
  }

  /** The search box's test: name, description or a non-empty tenant name
      contains the query, ignoring case. */
  predicate CompanyMatches(c: Company, query: string)
  {
    ContainsIgnoringCase(c.name, query)
    || ContainsIgnoringCase(c.description, query)
    || (Truthy(c.tenantName) && ContainsIgnoringCase(c.tenantName.value, query))
  }

  /** `filteredCompanies`. */
  function FilteredCompanies(cs: seq<Company>, query: string): seq<Company>
  {
    Lists.Filter(cs, (c: Company) => CompanyMatches(c, query))
  }

  /** The status badge's variant. */
  function CompanyBadge(status: EntityStatus): BadgeVariant
  {
    if status == Active then Default else Secondary
  }

  /** Delete removes every company with the id, keeps each other company as
      often as it occurred, and keeps their order. */
  lemma DeleteCompanyRemovesOnlyTarget(cs: seq<Company>, id: string)
    ensures var r := CompaniesWithout(cs, id);
      && (forall c :: c in r <==> c in cs && c.id != id)
      && (forall c :: multiset(r)[c] == if c.id != id then multiset(cs)[c] else 0)
      && Lists.IsSubsequence(r, cs)
  {
    Lists.FilterCounts(cs, (c: Company) => c.id != id);
    Lists.FilterIsSubsequence(cs, (c: Company) => c.id != id);
  }

  /** Search keeps, in order, exactly the matching companies. */
  lemma CompanySearchKeepsMatchesInOrder(cs: seq<Company>, query: string)
    ensures var r := FilteredCompanies(cs, query);
      && (forall c :: c in r <==> c in cs && CompanyMatches(c, query))
      && Lists.IsSubsequence(r, cs)
  {
    Lists.FilterIsSubsequence(cs, (c: Company) => CompanyMatches(c, query));
  }

  /** An empty query shows every company. */
  lemma EmptyCompanySearchShowsAll(cs: seq<Company>)
    ensures FilteredCompanies(cs, "") == cs
  {
    forall c | c in cs ensures CompanyMatches(c, "") {
      EmptyQueryMatches(c.name);
    }
    Lists.FilterKeepsAll(cs, (c: Company) => CompanyMatches(c, ""));
  }

  /** A company is found by its tenant's name, typed in any case. */
  lemma CompanySearchFindsByTenant(cs: seq<Company>, c: Company)
    requires c in cs && Truthy(c.tenantName)
    ensures c in FilteredCompanies(cs, c.tenantName.value)
    ensures c in FilteredCompanies(cs, ToLower(c.tenantName.value))
  {
    SelfMatches(c.tenantName.value);
    QueryCaseIrrelevant(c.tenantName.value, c.tenantName.value);
  }

  /** The badge tells the two statuses apart, "default" for active. */
  lemma CompanyBadgeSeparatesStatuses(s: EntityStatus, t: EntityStatus)
    ensures CompanyBadge(s) == Default <==> s == Active
    ensures s != t ==> CompanyBadge(s) != CompanyBadge(t)
  {
  }

  /** The screen's state. */
  class CompanyDirectory {
    var companies: seq<Company>
    var isAddDialogOpen: bool
    var isEditDialogOpen: bool

    constructor (initial: seq<Company>)
      ensures companies == initial && !isAddDialogOpen && !isEditDialogOpen
    {
      companies := initial;
      isAddDialogOpen := false;
      isEditDialogOpen := false;
    }

    /** `handleAddCompany`, once its delay has passed: the dialog closes and
        the list is unchanged. */
    method AddCompany()
      modifies this`isAddDialogOpen
      ensures !isAddDialogOpen && companies == old(companies)
    {
      isAddDialogOpen := false;
    }

    /** `handleEditCompany`, once its delay has passed: the dialog closes and
        the list is unchanged. */
    method EditCompany()
      modifies this`isEditDialogOpen
      ensures !isEditDialogOpen && companies == old(companies)
    {
      isEditDialogOpen := false;
    }

    /** `handleDeleteCompany(id)`, once its delay has passed. */
    method DeleteCompany(id: string)
      modifies this`companies
      ensures companies == CompaniesWithout(old(companies), id)
      ensures forall c :: c in companies <==> c in old(companies) && c.id != id
    {
      companies := CompaniesWithout(companies, id);
    }
  }
}

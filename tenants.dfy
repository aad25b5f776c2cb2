/** The tenant management screen: its `tenants` list, the delete handler
    that replaces it, the add and edit handlers that only close their dialog,
    the search box and the status badge. */
module Tenants {
  import opened Models
  import opened Text
  import Lists

  /** The list after `handleDeleteTenant(id)`. */
  function TenantsWithout(ts: seq<Tenant>, id: string): seq<Tenant>
  {
    Lists.Filter(ts, (t: Tenant) => t.id != id)
  }

  /** The search box's test: name or description contains the query,
      ignoring case. */
  predicate TenantMatches(t: Tenant, query: string)
  {
    ContainsIgnoringCase(t.name, query) || ContainsIgnoringCase(t.description, query)
  }

  /** `filteredTenants`. */
  function FilteredTenants(ts: seq<Tenant>, query: string): seq<Tenant>
  {
    Lists.Filter(ts, (t: Tenant) => TenantMatches(t, query))
  }

  /** The status badge's variant. */
  function TenantBadge(status: EntityStatus): BadgeVariant
  {
    if status == Active then Default else Secondary
  }

  /** Delete removes every tenant with the id, keeps each other tenant as
      often as it occurred, and keeps their order. */
  lemma DeleteTenantRemovesOnlyTarget(ts: seq<Tenant>, id: string)
    ensures var r := TenantsWithout(ts, id);
      && (forall t :: t in r <==> t in ts && t.id != id)
      && (forall t :: multiset(r)[t] == if t.id != id then multiset(ts)[t] else 0)
      && Lists.IsSubsequence(r, ts)
  {
    Lists.FilterCounts(ts, (t: Tenant) => t.id != id);
    Lists.FilterIsSubsequence(ts, (t: Tenant) => t.id != id);
  }

  /** Search keeps, in order, exactly the matching tenants. */
  lemma TenantSearchKeepsMatchesInOrder(ts: seq<Tenant>, query: string)
    ensures var r := FilteredTenants(ts, query);
      && (forall t :: t in r <==> t in ts && TenantMatches(t, query))
      && Lists.IsSubsequence(r, ts)
  {
    Lists.FilterIsSubsequence(ts, (t: Tenant) => TenantMatches(t, query));
  }

  /** An empty query shows every tenant. */
  lemma EmptyTenantSearchShowsAll(ts: seq<Tenant>)
    ensures FilteredTenants(ts, "") == ts
  {
    forall t | t in ts ensures TenantMatches(t, "") {
      EmptyQueryMatches(t.name);
    }
    Lists.FilterKeepsAll(ts, (t: Tenant) => TenantMatches(t, ""));
  }

  /** The badge tells the two statuses apart, "default" for active. */
  lemma TenantBadgeSeparatesStatuses(s: EntityStatus, u: EntityStatus)
    ensures TenantBadge(s) == Default <==> s == Active
    ensures s != u ==> TenantBadge(s) != TenantBadge(u)
  {
  }

  /** The screen's state. */
  class TenantDirectory {
    var tenants: seq<Tenant>
    var isAddDialogOpen: bool
    var isEditDialogOpen: bool

    constructor (initial: seq<Tenant>)
      ensures tenants == initial && !isAddDialogOpen && !isEditDialogOpen
    {
      tenants := initial;
      isAddDialogOpen := false;
      isEditDialogOpen := false;
    }

    /** `handleAddTenant`: the dialog closes and the list is unchanged. */
    method AddTenant()
      modifies this`isAddDialogOpen
      ensures !isAddDialogOpen && tenants == old(tenants)
    {
      isAddDialogOpen := false;
    }

    /** `handleEditTenant`: the dialog closes and the list is unchanged. */
    method EditTenant()
      modifies this`isEditDialogOpen
      ensures !isEditDialogOpen && tenants == old(tenants)
    {
      isEditDialogOpen := false;
    }

    /** `handleDeleteTenant(id)`. */
    method DeleteTenant(id: string)
      modifies this`tenants
      ensures tenants == TenantsWithout(old(tenants), id)
      ensures forall t :: t in tenants <==> t in old(tenants) && t.id != id
    {
      tenants := TenantsWithout(tenants, id);
    }
  }
}

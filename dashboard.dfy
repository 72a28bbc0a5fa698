/**
 * The admin dashboard (src/pages/admin/Dashboard.tsx): three lists loaded once from the
 * record store, the counters shown on its cards, and its two short lists. Dates are
 * locale-formatted for display and are not modelled.
 */
module Dashboard {
  import opened JsArray
  import opened AdminTypes
  import opened StorageService

  const NO_CUSTOMERS := "Ingen kunder registrert ennå"
  const NO_ACTIVE_PROJECTS := "Ingen aktive prosjekter"

  /** How many entries each short list shows. */
  const LIST_LENGTH := 5

  function IsInProgress(p: Project): bool { p.status == InProgress }
  function IsCompleted(p: Project): bool { p.status == Completed }
  function IsInactive(k: ApiKey): bool { !k.active }

  /** `activeProjects`: how many projects are in progress (pågående); none exactly when no project is. */
  function ActiveProjects(projects: seq<Project>): (r: nat)
    ensures r <= |projects|
    ensures r > 0 <==> exists i :: 0 <= i < |projects| && projects[i].status == InProgress
  {
    FilterNonEmpty(projects, IsInProgress);
    |Filter(projects, IsInProgress)|
  }

  /** `completedProjects`: how many projects are completed (fullført); none exactly when no project is. */
  function CompletedProjects(projects: seq<Project>): (r: nat)
    ensures r <= |projects|
    ensures r > 0 <==> exists i :: 0 <= i < |projects| && projects[i].status == Completed
  {
    FilterNonEmpty(projects, IsCompleted);
    |Filter(projects, IsCompleted)|
  }

  /** `inactiveApiKeys`; the key card's warning appears exactly when it is positive. */
  function InactiveApiKeys(keys: seq<ApiKey>): (r: nat)
    ensures r <= |keys|
    ensures r > 0 <==> exists i :: 0 <= i < |keys| && !keys[i].active
  {
    FilterNonEmpty(keys, IsInactive);
    |Filter(keys, IsInactive)|
  }

  /** No project is counted both as active and as completed. */
  lemma ProjectCountsBounded(projects: seq<Project>)
    ensures ActiveProjects(projects) + CompletedProjects(projects) <= |projects|
  {
    FilterDisjointBound(projects, IsInProgress, IsCompleted);
  }

  /** A list card: its empty-state message, or the entries it lists. */
  datatype Listing<T> = EmptyState(message: string) | Entries(entries: seq<T>)

  /** The newest-customers card: the first five customers in stored order. */
  function RecentCustomers(customers: seq<Customer>): (r: Listing<Customer>)
    ensures r.EmptyState? <==> customers == []
    ensures r.Entries? ==> r.entries <= customers
    ensures r.Entries? ==> |r.entries| == if |customers| < LIST_LENGTH then |customers| else LIST_LENGTH
  {
    if |customers| == 0 then EmptyState(NO_CUSTOMERS) else Entries(Take(customers, LIST_LENGTH))
  }

  /** The active-projects card: the first five projects in progress, in stored order. */
  function ActiveProjectList(projects: seq<Project>): (r: Listing<Project>)
    ensures r.EmptyState? <==> ActiveProjects(projects) == 0
    ensures r.Entries? ==> r.entries <= Filter(projects, IsInProgress)
    ensures r.Entries? ==> |r.entries| == if ActiveProjects(projects) < LIST_LENGTH then ActiveProjects(projects) else LIST_LENGTH
    ensures r.Entries? ==> forall p :: p in r.entries ==> p in projects && p.status == InProgress
  {
    var active := Filter(projects, IsInProgress);
    if |active| == 0 then EmptyState(NO_ACTIVE_PROJECTS) else Entries(Take(active, LIST_LENGTH))
  }

  /** With no project in progress the card shows its empty state, whatever else is stored. */
  lemma NoActiveProjectsShowsEmpty(projects: seq<Project>)
    requires forall i :: 0 <= i < |projects| ==> projects[i].status != InProgress
    ensures ActiveProjectList(projects) == EmptyState(NO_ACTIVE_PROJECTS)
  {
    FilterNonEmpty(projects, IsInProgress);
  }

  class DashboardPage {
    const store: Storage
    var customers: seq<Customer>
    var projects: seq<Project>
    var apiKeys: seq<ApiKey>

    constructor(store: Storage)
      ensures this.store == store && customers == [] && projects == [] && apiKeys == []
    {
      this.store := store;
      customers := [];
      projects := [];
      apiKeys := [];
    }

    /** The mount effect: the three lists become the stored lists. */
    method LoadEffect()
      modifies this
      ensures customers == store.GetCustomers()
      ensures projects == store.GetProjects()
      ensures apiKeys == store.GetApiKeys()
    {
      customers := store.GetCustomers();
      projects := store.GetProjects();
      apiKeys := store.GetApiKeys();
    }
  }
}

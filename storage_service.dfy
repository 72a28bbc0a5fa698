/**
 * The record store (src/utils/admin/storageService.ts).
 *
 * The browser's localStorage becomes a map from key to stored blob, held by a `Storage`
 * object that every operation reads and writes. A blob is either JSON the store wrote
 * itself, an empty string (falsy, so read as absent), or text that does not parse. Fresh
 * ids (`uuidv4`) and timestamps (`new Date().toISOString()`) are parameters.
 */
module StorageService {
  import opened Wrappers
  import opened JsArray
  import opened AdminTypes

  const CURRENT_USER_KEY := "n60_current_user"
  const USERS_KEY := "n60_users"
  const API_KEYS_KEY := "n60_api_keys"
  const CUSTOMERS_KEY := "n60_customers"
  const PROJECTS_KEY := "n60_projects"

  /** The JSON values the store writes under its keys. */
  datatype Stored =
    | UserList(users: seq<User>)
    | CurrentUserRecord(user: User)
    | ApiKeyList(keys: seq<ApiKey>)
    | CustomerList(customers: seq<Customer>)
    | ProjectList(projects: seq<Project>)

  datatype Blob = Json(value: Stored) | EmptyText | Malformed

  /**
   * `getItem`: the parsed value under `key`, or `None` when the caller's default applies:
   * the key is absent, its text is empty, or the text does not parse.
   */
  function GetItem(local: map<string, Blob>, key: string): (r: Option<Stored>)
    ensures r.None? <==> key !in local || local[key] == EmptyText || local[key] == Malformed
    ensures r.Some? ==> local[key] == Json(r.value)
  {
    if key in local && local[key].Json? then Some(local[key].value) else None
  }

  /** The two users `initializeUsers` creates, with the fresh ids it draws. */
  function DefaultUsers(adminId: string, consultantId: string): seq<User> {
    [User(adminId, "Admin Bruker", "admin@n60ai.no", Admin, None),
     User(consultantId, "Konsulent Bruker", "konsulent@n60ai.no", Consultant, None)]
  }

  /** The user list after `initializeUsers`: the defaults if there was none, else as it was. */
  function InitialUsers(users: seq<User>, adminId: string, consultantId: string): (r: seq<User>)
    ensures users == [] ==> |r| == 2 && r[0].role == Admin && r[1].role == Consultant
    ensures users != [] ==> r == users
  {
    if |users| == 0 then DefaultUsers(adminId, consultantId) else users
  }

  /** A second initialisation, whatever ids it draws, changes nothing. */
  lemma InitialUsersIdempotent(users: seq<User>, a1: string, c1: string, a2: string, c2: string)
    ensures InitialUsers(InitialUsers(users, a1, c1), a2, c2) == InitialUsers(users, a1, c1)
  {
  }

  function EmailIs(email: string): User -> bool { (u: User) => u.email == email }
  function ApiKeyIdIs(id: string): ApiKey -> bool { (k: ApiKey) => k.id == id }
  function ApiKeyIdIsNot(id: string): ApiKey -> bool { (k: ApiKey) => k.id != id }
  function CustomerIdIs(id: string): Customer -> bool { (c: Customer) => c.id == id }
  function CustomerIdIsNot(id: string): Customer -> bool { (c: Customer) => c.id != id }
  function ProjectIdIs(id: string): Project -> bool { (p: Project) => p.id == id }
  function ProjectIdIsNot(id: string): Project -> bool { (p: Project) => p.id != id }
  function OfCustomer(customerId: string): Project -> bool { (p: Project) => p.customerId == customerId }
  function NotOfCustomer(customerId: string): Project -> bool { (p: Project) => p.customerId != customerId }

  /**
   * The update pattern `i = findIndex(p); if (i !== -1) s[i] = f(s[i])`: `None` when no
   * record matches; otherwise only the first matching record is rewritten.
   */
  function UpdateFirst<T>(s: seq<T>, p: T -> bool, f: T -> T): (r: Option<seq<T>>)
    ensures r.None? <==> forall j :: 0 <= j < |s| ==> !p(s[j])
    ensures r.Some? ==> |r.value| == |s| && exists i :: 0 <= i < |s| && UpdatedAt(s, p, f, r.value, i)
  {
    var i := FindIndex(s, p);
    if i == -1 then None
    else
      assert UpdatedAt(s, p, f, s[i := f(s[i])], i);
      Some(s[i := f(s[i])])
  }

  /** `t` is `s` with its first `p`-record, at `i`, replaced by `f` of it and nothing else changed. */
  ghost predicate UpdatedAt<T>(s: seq<T>, p: T -> bool, f: T -> T, t: seq<T>, i: int)
    requires |t| == |s| && 0 <= i < |s|
  {
    && p(s[i])
    && (forall j :: 0 <= j < i ==> !p(s[j]))
    && t[i] == f(s[i])
    && (forall j :: 0 <= j < |s| && j != i ==> t[j] == s[j])
  }

  function ApiKeyMerger(u: ApiKeyUpdate): ApiKey -> ApiKey { (k: ApiKey) => MergeApiKey(k, u) }
  function CustomerMerger(u: CustomerUpdate, now: string): Customer -> Customer { (c: Customer) => MergeCustomer(c, u, now) }
  function ProjectMerger(u: ProjectUpdate, now: string): Project -> Project { (p: Project) => MergeProject(p, u, now) }

  /**
   * The delete pattern `filtered = s.filter(x => x.id !== id)`, reported as deleted when it
   * shrank: that is exactly when some record carried the id.
   */
  lemma DeleteReportsMatch<T>(s: seq<T>, keep: T -> bool, p: T -> bool)
    requires forall x :: keep(x) == !p(x)
    ensures |Filter(s, keep)| < |s| <==> exists i :: 0 <= i < |s| && p(s[i])
    ensures forall x :: x in Filter(s, keep) ==> !p(x)
  {
    FilterShrinks(s, keep);
  }

  /** After the cascade no project of the deleted customer remains. */
  lemma {:induction false} CascadeLeavesNone(projects: seq<Project>, customerId: string)
    ensures Filter(Filter(projects, NotOfCustomer(customerId)), OfCustomer(customerId)) == []
  {
    if projects != [] {
      CascadeLeavesNone(projects[1..], customerId);
    }
  }

  /** The cascade keeps every other customer's projects, in their order. */
  lemma {:induction false} CascadeKeepsOthers(projects: seq<Project>, customerId: string, other: string)
    requires other != customerId
    ensures Filter(Filter(projects, NotOfCustomer(customerId)), OfCustomer(other))
      == Filter(projects, OfCustomer(other))
  {
    if projects != [] {
      CascadeKeepsOthers(projects[1..], customerId, other);
    }
  }

  class Storage {
    /** The browser's localStorage. */
    var local: map<string, Blob>

    constructor()
      ensures local == map[]
    {
      local := map[];
    }

    /** `getItem(USERS_KEY, [])`. */
    function Users(): seq<User>
      reads this
    {
      match GetItem(local, USERS_KEY)
      case Some(UserList(users)) => users
      case _ => []
    }

    /** `getCurrentUser`: `getItem(CURRENT_USER_KEY, null)`. */
    function GetCurrentUser(): Option<User>
      reads this
    {
      match GetItem(local, CURRENT_USER_KEY)
      case Some(CurrentUserRecord(user)) => Some(user)
      case _ => None
    }

    /** `getApiKeys`. */
    function GetApiKeys(): seq<ApiKey>
      reads this
    {
      match GetItem(local, API_KEYS_KEY)
      case Some(ApiKeyList(keys)) => keys
      case _ => []
    }

    /** `getCustomers`. */
    function GetCustomers(): seq<Customer>
      reads this
    {
      match GetItem(local, CUSTOMERS_KEY)
      case Some(CustomerList(customers)) => customers
      case _ => []
    }

    /** `getProjects`. */
    function GetProjects(): seq<Project>
      reads this
    {
      match GetItem(local, PROJECTS_KEY)
      case Some(ProjectList(projects)) => projects
      case _ => []
    }

    /** `getCustomerById`: the first customer with the id. */
    function GetCustomerById(id: string): (r: Option<Customer>)
      reads this
      ensures r.Some? ==> r.value in GetCustomers() && r.value.id == id
      ensures r.None? <==> forall j :: 0 <= j < |GetCustomers()| ==> GetCustomers()[j].id != id
    {
      Find(GetCustomers(), CustomerIdIs(id))
    }

    /** `getProjectById`: the first project with the id. */
    function GetProjectById(id: string): (r: Option<Project>)
      reads this
      ensures r.Some? ==> r.value in GetProjects() && r.value.id == id
      ensures r.None? <==> forall j :: 0 <= j < |GetProjects()| ==> GetProjects()[j].id != id
    {
      Find(GetProjects(), ProjectIdIs(id))
    }

    /** `getProjectsByCustomerId`: the customer's projects in stored order. */
    function GetProjectsByCustomerId(customerId: string): (r: seq<Project>)
      reads this
      ensures forall p :: p in r <==> p in GetProjects() && p.customerId == customerId
    {
      Filter(GetProjects(), OfCustomer(customerId))
    }

    /** `initializeUsers`: writes the two default users only when there are no users. */
    method InitializeUsers(adminId: string, consultantId: string)
      modifies this
      ensures Users() == InitialUsers(old(Users()), adminId, consultantId)
      ensures old(Users()) == [] ==> local == old(local)[USERS_KEY := Json(UserList(DefaultUsers(adminId, consultantId)))]
      ensures old(Users()) != [] ==> local == old(local)
    {
      var users := Users();
      if |users| == 0 {
        local := local[USERS_KEY := Json(UserList(DefaultUsers(adminId, consultantId)))];
      }
    }

    /**
     * `loginUser`: the first user with the email becomes the current user; an unknown
     * email returns null and leaves the store, the current user included, untouched.
     */
    method LoginUser(email: string) returns (r: Option<User>)
      modifies this
      ensures r == Find(old(Users()), EmailIs(email))
      ensures r.Some? ==> r.value in old(Users()) && r.value.email == email
      ensures r.None? <==> forall j :: 0 <= j < |old(Users())| ==> old(Users())[j].email != email
      ensures r.Some? ==> local == old(local)[CURRENT_USER_KEY := Json(CurrentUserRecord(r.value))]
      ensures r.Some? ==> GetCurrentUser() == r
      ensures r.None? ==> local == old(local)
    {
      var users := Users();
      r := Find(users, EmailIs(email));
      if r.Some? {
        local := local[CURRENT_USER_KEY := Json(CurrentUserRecord(r.value))];
      }
    }

    /** `logoutUser`: removes the current user, and nothing else. */
    method LogoutUser()
      modifies this
      ensures local == old(local) - {CURRENT_USER_KEY}
      ensures GetCurrentUser() == None
    {
      local := local - {CURRENT_USER_KEY};
    }

    /** `saveApiKey`: appends one record with the fresh id and the creation time. */
    method SaveApiKey(apiKey: NewApiKey, id: string, now: string) returns (r: ApiKey)
      modifies this
      ensures r == ApiKey(id, apiKey.name, apiKey.key, apiKey.service, now, apiKey.active)
      ensures local == old(local)[API_KEYS_KEY := Json(ApiKeyList(old(GetApiKeys()) + [r]))]
      ensures GetApiKeys() == old(GetApiKeys()) + [r]
    {
      var keys := GetApiKeys();
      r := ApiKey(id, apiKey.name, apiKey.key, apiKey.service, now, apiKey.active);
      keys := keys + [r];
      local := local[API_KEYS_KEY := Json(ApiKeyList(keys))];
    }

    /** `updateApiKey`: merges the update into the first key with the id. */
    method UpdateApiKey(id: string, updates: ApiKeyUpdate) returns (r: Option<ApiKey>)
      modifies this
      ensures match UpdateFirst(old(GetApiKeys()), ApiKeyIdIs(id), ApiKeyMerger(updates))
        case None => r.None? && local == old(local)
        case Some(keys) =>
          && local == old(local)[API_KEYS_KEY := Json(ApiKeyList(keys))]
          && r == Some(MergeApiKey(old(GetApiKeys())[FindIndex(old(GetApiKeys()), ApiKeyIdIs(id))], updates))
    {
      var keys := GetApiKeys();
      var index := FindIndex(keys, ApiKeyIdIs(id));
      if index != -1 {
        keys := keys[index := MergeApiKey(keys[index], updates)];
        local := local[API_KEYS_KEY := Json(ApiKeyList(keys))];
        r := Some(keys[index]);
      } else {
        r := None;
      }
    }

    /** `deleteApiKey`: removes every key with the id; true iff one was there. */
    method DeleteApiKey(id: string) returns (deleted: bool)
      modifies this
      ensures deleted <==> exists i :: 0 <= i < |old(GetApiKeys())| && old(GetApiKeys())[i].id == id
      ensures deleted ==> local == old(local)[API_KEYS_KEY := Json(ApiKeyList(Filter(old(GetApiKeys()), ApiKeyIdIsNot(id))))]
      ensures !deleted ==> local == old(local)
    {
      var keys := GetApiKeys();
      var filtered := Filter(keys, ApiKeyIdIsNot(id));
      DeleteReportsMatch(keys, ApiKeyIdIsNot(id), ApiKeyIdIs(id));
      deleted := |filtered| < |keys|;
      if deleted {
        local := local[API_KEYS_KEY := Json(ApiKeyList(filtered))];
      }
    }

    /** `saveCustomer`: appends one record whose creation and update times are both `now`. */
    method SaveCustomer(customer: NewCustomer, id: string, now: string) returns (r: Customer)
      modifies this
      ensures r == Customer(id, customer.name, customer.contactPerson, customer.email, customer.phone, now, now)
      ensures local == old(local)[CUSTOMERS_KEY := Json(CustomerList(old(GetCustomers()) + [r]))]
      ensures GetCustomers() == old(GetCustomers()) + [r]
    {
      var customers := GetCustomers();
      r := Customer(id, customer.name, customer.contactPerson, customer.email, customer.phone, now, now);
      customers := customers + [r];
      local := local[CUSTOMERS_KEY := Json(CustomerList(customers))];
    }

    /** `updateCustomer`: merges the update into the first customer with the id and stamps `now`. */
    method UpdateCustomer(id: string, updates: CustomerUpdate, now: string) returns (r: Option<Customer>)
      modifies this
      ensures match UpdateFirst(old(GetCustomers()), CustomerIdIs(id), CustomerMerger(updates, now))
        case None => r.None? && local == old(local)
        case Some(customers) =>
          && local == old(local)[CUSTOMERS_KEY := Json(CustomerList(customers))]
          && r == Some(MergeCustomer(old(GetCustomers())[FindIndex(old(GetCustomers()), CustomerIdIs(id))], updates, now))
    {
      var customers := GetCustomers();
      var index := FindIndex(customers, CustomerIdIs(id));
      if index != -1 {
        customers := customers[index := MergeCustomer(customers[index], updates, now)];
        local := local[CUSTOMERS_KEY := Json(CustomerList(customers))];
        r := Some(customers[index]);
      } else {
        r := None;
      }
    }

    /**
     * `deleteCustomer`: removes every customer with the id and, when one was there, every
     * project of that customer; when none was there nothing is written.
     */
    method DeleteCustomer(id: string) returns (deleted: bool)
      modifies this
      ensures deleted <==> exists i :: 0 <= i < |old(GetCustomers())| && old(GetCustomers())[i].id == id
      ensures deleted ==> local == old(local)
        [CUSTOMERS_KEY := Json(CustomerList(Filter(old(GetCustomers()), CustomerIdIsNot(id))))]
        [PROJECTS_KEY := Json(ProjectList(Filter(old(GetProjects()), NotOfCustomer(id))))]
      ensures deleted ==> GetProjectsByCustomerId(id) == []
      ensures deleted ==> forall c :: c != id ==> GetProjectsByCustomerId(c) == old(GetProjectsByCustomerId(c))
      ensures !deleted ==> local == old(local)
    {
      var customers := GetCustomers();
      var filteredCustomers := Filter(customers, CustomerIdIsNot(id));
      DeleteReportsMatch(customers, CustomerIdIsNot(id), CustomerIdIs(id));
      deleted := |filteredCustomers| < |customers|;
      if deleted {
        local := local[CUSTOMERS_KEY := Json(CustomerList(filteredCustomers))];
        var projects := GetProjects();
        assert projects == old(GetProjects());
        var filteredProjects := Filter(projects, NotOfCustomer(id));
        local := local[PROJECTS_KEY := Json(ProjectList(filteredProjects))];
        assert GetProjects() == filteredProjects;
        CascadeLeavesNone(projects, id);
        forall c | c != id
          ensures GetProjectsByCustomerId(c) == old(GetProjectsByCustomerId(c))
        {
          CascadeKeepsOthers(projects, id, c);
        }
      }
    }

    /** `saveProject`: appends one record whose creation and update times are both `now`. */
    method SaveProject(project: NewProject, id: string, now: string) returns (r: Project)
      modifies this
      ensures r == Project(id, project.customerId, project.name, project.description, project.status,
                           now, now, project.designSpec, project.generatedComponents, project.repositoryUrl)
      ensures local == old(local)[PROJECTS_KEY := Json(ProjectList(old(GetProjects()) + [r]))]
      ensures GetProjects() == old(GetProjects()) + [r]
    {
      var projects := GetProjects();
      r := Project(id, project.customerId, project.name, project.description, project.status,
                   now, now, project.designSpec, project.generatedComponents, project.repositoryUrl);
      projects := projects + [r];
      local := local[PROJECTS_KEY := Json(ProjectList(projects))];
    }

    /** `updateProject`: merges the update into the first project with the id and stamps `now`. */
    method UpdateProject(id: string, updates: ProjectUpdate, now: string) returns (r: Option<Project>)
      modifies this
      ensures match UpdateFirst(old(GetProjects()), ProjectIdIs(id), ProjectMerger(updates, now))
        case None => r.None? && local == old(local)
        case Some(projects) =>
          && local == old(local)[PROJECTS_KEY := Json(ProjectList(projects))]
          && r == Some(MergeProject(old(GetProjects())[FindIndex(old(GetProjects()), ProjectIdIs(id))], updates, now))
    {
      var projects := GetProjects();
      var index := FindIndex(projects, ProjectIdIs(id));
      if index != -1 {
        projects := projects[index := MergeProject(projects[index], updates, now)];
        local := local[PROJECTS_KEY := Json(ProjectList(projects))];
        r := Some(projects[index]);
      } else {
        r := None;
      }
    }

    /** `deleteProject`: removes every project with the id; true iff one was there. */
    method DeleteProject(id: string) returns (deleted: bool)
      modifies this
      ensures deleted <==> exists i :: 0 <= i < |old(GetProjects())| && old(GetProjects())[i].id == id
      ensures deleted ==> local == old(local)[PROJECTS_KEY := Json(ProjectList(Filter(old(GetProjects()), ProjectIdIsNot(id))))]
      ensures !deleted ==> local == old(local)
    {
      var projects := GetProjects();
      var filtered := Filter(projects, ProjectIdIsNot(id));
      DeleteReportsMatch(projects, ProjectIdIsNot(id), ProjectIdIs(id));
      deleted := |filtered| < |projects|;
      if deleted {
        local := local[PROJECTS_KEY := Json(ProjectList(filtered))];
      }
    }
  }
}

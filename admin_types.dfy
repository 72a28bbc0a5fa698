/**
 * The records of the admin area (src/utils/admin/types.ts), the shapes the record store
 * takes for new records, and its partial updates.
 *
 * TypeScript's optional fields become `Option`s. A `Partial<T>` update is a record of
 * `Option`s: `None` is a key absent from the update object, `Some(v)` a key present with
 * value `v`; spreading the update over a record keeps the record's value where the key is
 * absent.
 */
module AdminTypes {
  import opened Wrappers

  datatype Role = Consultant | Admin

  datatype User = User(id: string, name: string, email: string, role: Role, avatar: Option<string>)

  datatype Customer = Customer(
    id: string,
    name: string,
    contactPerson: string,
    email: string,
    phone: Option<string>,
    createdAt: string,
    updatedAt: string)

  /** The four project states: planlagt, pågående, fullført and avbrutt. */
  datatype ProjectStatus = Planned | InProgress | Completed | Cancelled

  datatype GeneratedComponent = GeneratedComponent(name: string, code: string)

  /** The design specification is stored untyped and never inspected by the store. */
  type DesignSpec = string

  datatype Project = Project(
    id: string,
    customerId: string,
    name: string,
    description: string,
    status: ProjectStatus,
    createdAt: string,
    updatedAt: string,
    designSpec: Option<DesignSpec>,
    generatedComponents: Option<seq<GeneratedComponent>>,
    repositoryUrl: Option<string>)

  datatype Service = Lovable | GitHub | OpenAI | Claude

  datatype ApiKey = ApiKey(
    id: string,
    name: string,
    key: string,
    service: Service,
    createdAt: string,
    active: bool)

  /** `Omit<ApiKey, "id" | "createdAt">`: what a caller hands to `saveApiKey`. */
  datatype NewApiKey = NewApiKey(name: string, key: string, service: Service, active: bool)

  /** `Omit<Customer, "id" | "createdAt" | "updatedAt">`. */
  datatype NewCustomer = NewCustomer(name: string, contactPerson: string, email: string, phone: Option<string>)

  /** `Omit<Project, "id" | "createdAt" | "updatedAt">`. */
  datatype NewProject = NewProject(
    customerId: string,
    name: string,
    description: string,
    status: ProjectStatus,
    designSpec: Option<DesignSpec>,
    generatedComponents: Option<seq<GeneratedComponent>>,
    repositoryUrl: Option<string>)

  /** `Partial<ApiKey>`: every field, the id and the creation time included, may be overwritten. */
  datatype ApiKeyUpdate = ApiKeyUpdate(
    id: Option<string>,
    name: Option<string>,
    key: Option<string>,
    service: Option<Service>,
    createdAt: Option<string>,
    active: Option<bool>)

  /** `Partial<Omit<Customer, "id" | "createdAt">>`. */
  datatype CustomerUpdate = CustomerUpdate(
    name: Option<string>,
    contactPerson: Option<string>,
    email: Option<string>,
    phone: Option<string>,
    updatedAt: Option<string>)

  /** `Partial<Omit<Project, "id" | "createdAt">>`. */
  datatype ProjectUpdate = ProjectUpdate(
    customerId: Option<string>,
    name: Option<string>,
    description: Option<string>,
    status: Option<ProjectStatus>,
    updatedAt: Option<string>,
    designSpec: Option<DesignSpec>,
    generatedComponents: Option<seq<GeneratedComponent>>,
    repositoryUrl: Option<string>)

  /** A key of the update object overrides the record's field; an absent key keeps it. */
  function Override<T>(field: T, update: Option<T>): T {
    if update.Some? then update.value else field
  }

  /** An optional field: a present key sets it, an absent key keeps what the record had. */
  function OverrideOptional<T>(field: Option<T>, update: Option<T>): Option<T> {
    if update.Some? then update else field
  }

  const NO_API_KEY_CHANGES := ApiKeyUpdate(None, None, None, None, None, None)
  const NO_CUSTOMER_CHANGES := CustomerUpdate(None, None, None, None, None)
  const NO_PROJECT_CHANGES := ProjectUpdate(None, None, None, None, None, None, None, None)

  /** `{ ...k, ...u }` for an api key. */
  function MergeApiKey(k: ApiKey, u: ApiKeyUpdate): ApiKey {
    ApiKey(
      Override(k.id, u.id),
      Override(k.name, u.name),
      Override(k.key, u.key),
      Override(k.service, u.service),
      Override(k.createdAt, u.createdAt),
      Override(k.active, u.active))
  }

  /** `{ ...c, ...u, updatedAt: now }` for a customer: the id and creation time are kept. */
  function MergeCustomer(c: Customer, u: CustomerUpdate, now: string): Customer {
    Customer(
      c.id,
      Override(c.name, u.name),
      Override(c.contactPerson, u.contactPerson),
      Override(c.email, u.email),
      OverrideOptional(c.phone, u.phone),
      c.createdAt,
      now)
  }

  /** `{ ...p, ...u, updatedAt: now }` for a project: the id and creation time are kept. */
  function MergeProject(p: Project, u: ProjectUpdate, now: string): Project {
    Project(
      p.id,
      Override(p.customerId, u.customerId),
      Override(p.name, u.name),
      Override(p.description, u.description),
      Override(p.status, u.status),
      p.createdAt,
      now,
      OverrideOptional(p.designSpec, u.designSpec),
      OverrideOptional(p.generatedComponents, u.generatedComponents),
      OverrideOptional(p.repositoryUrl, u.repositoryUrl))
  }

  /** An empty update leaves an api key as it is. */
  lemma MergeApiKeyEmpty(k: ApiKey)
    ensures MergeApiKey(k, NO_API_KEY_CHANGES) == k
  {
  }

  /** Merging the same update twice is merging it once. */
  lemma MergeApiKeyIdempotent(k: ApiKey, u: ApiKeyUpdate)
    ensures MergeApiKey(MergeApiKey(k, u), u) == MergeApiKey(k, u)
  {
  }

  /**
   * A customer update keeps the id and the creation time, always stamps the new time, and
   * any `updatedAt` it carries has no effect; an empty update changes nothing else.
   */
  lemma MergeCustomerStamps(c: Customer, u: CustomerUpdate, now: string)
    ensures var r := MergeCustomer(c, u, now);
      r.id == c.id && r.createdAt == c.createdAt && r.updatedAt == now
    ensures MergeCustomer(c, u, now) == MergeCustomer(c, u.(updatedAt := None), now)
    ensures MergeCustomer(c, NO_CUSTOMER_CHANGES, now) == c.(updatedAt := now)
  {
  }

  /**
   * A project update keeps the id and the creation time, always stamps the new time, and
   * any `updatedAt` it carries has no effect; an empty update changes nothing else.
   */
  lemma MergeProjectStamps(p: Project, u: ProjectUpdate, now: string)
    ensures var r := MergeProject(p, u, now);
      r.id == p.id && r.createdAt == p.createdAt && r.updatedAt == now
    ensures MergeProject(p, u, now) == MergeProject(p, u.(updatedAt := None), now)
    ensures MergeProject(p, NO_PROJECT_CHANGES, now) == p.(updatedAt := now)
  {
  }
}

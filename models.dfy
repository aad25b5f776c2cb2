/** The records the dashboard keeps in its component state. Form and backend
    values that the code casts without checking (a coupon's status, a
    notification's type) stay strings, because the screens map them with a
    fallback branch. Dates are the strings the screens store. */
module Models {

  datatype Option<T> = None | Some(value: T)

  /** JavaScript truthiness of an optional string: present and non-empty. */
  predicate Truthy(s: Option<string>)
  {
    s.Some? && s.value != ""
  }

  /** The three roles; a signed-in user's role may also be null (`Option.None`). */
  datatype Role = SuperAdmin | Owner | User

  /** Status of tenants and companies. */
  datatype EntityStatus = Active | Inactive

  /** The `variant` values of the badge component that the tables use. */
  datatype BadgeVariant = Default | Secondary | Destructive | Outline

  datatype Tenant = Tenant(
    id: string,
    name: string,
    description: string,
    dataQuota: real,
    createdAt: string,
    status: EntityStatus,
    companiesCount: nat)

  datatype Company = Company(
    id: string,
    name: string,
    description: string,
    tenantId: string,
    tenantName: Option<string>,
    createdAt: string,
    status: EntityStatus,
    usersCount: nat,
    industry: Option<string>,
    size: Option<string>,
    website: Option<string>,
    address: Option<string>)

  /** A coupon; its numeric id stands for the decimal string the screen stores. */
  datatype Coupon = Coupon(
    id: nat,
    code: string,
    description: Option<string>,
    discountType: string,
    discountValue: real,
    startDate: string,
    endDate: string,
    maxUses: Option<real>,
    currentUses: nat,
    status: string,
    tenantId: Option<string>,
    companyId: Option<string>,
    createdAt: string,
    createdBy: string,
    minPurchaseAmount: Option<real>,
    maxDiscountAmount: Option<real>)

  /** A notification as the backend returns it (`type` is a keyword here, so `kind`). */
  datatype Notification = Notification(
    id: Option<string>,
    title: string,
    message: string,
    read: bool,
    kind: string,
    userId: string)

  /** The signed-in user the session holds. */
  datatype UserData = UserData(
    uid: string,
    email: Option<string>,
    displayName: Option<string>,
    photoURL: Option<string>,
    role: Option<Role>,
    tenantId: Option<string>,
    companyId: Option<string>)
}

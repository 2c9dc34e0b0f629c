/**
 * The relational schema of the rental bookkeeping application: one record
 * type per table, the tables together, and the integrity facts the store
 * keeps.  Amounts are integer cents, dates are integer day numbers, and a
 * text column that the forms may leave empty is the empty string.
 */
module Schema {
  import opened Passwords

  /** An account that manages properties. */
  datatype Owner = Owner(
    id: int,
    username: string,
    email: string,
    passwordHash: Digest,
    phone: string)

  /** A rental unit; `ownerId` is the only link to its owner. */
  datatype Property = Property(
    id: int,
    name: string,
    address: string,
    propertyType: string,
    bedrooms: int,
    bathrooms: int,
    areaSqft: int,
    monthlyRent: int,
    ownerId: int)

  /** A tenant; reaches its owner only through `propertyId`. */
  datatype Tenant = Tenant(
    id: int,
    name: string,
    email: string,
    phone: string,
    whatsappNumber: string,
    leaseStart: int,
    leaseEnd: int,
    securityDeposit: int,
    propertyId: int,
    isActive: bool)

  /** A payment received for a property. */
  datatype Payment = Payment(
    id: int,
    propertyId: int,
    tenantId: int,
    amount: int,
    paymentDate: int,
    paymentMethod: string,
    paymentType: string,
    status: string,
    notes: string)

  /** An expense booked against a property. */
  datatype Expense = Expense(
    id: int,
    propertyId: int,
    category: string,
    description: string,
    amount: int,
    expenseDate: int,
    vendor: string,
    receiptUrl: string)

  /** A maintenance request raised for a property. */
  datatype MaintenanceRequest = MaintenanceRequest(
    id: int,
    propertyId: int,
    tenantId: int,
    issueType: string,
    description: string,
    priority: string,
    status: string)

  /** The whole database. */
  datatype Tables = Tables(
    owners: seq<Owner>,
    properties: seq<Property>,
    tenants: seq<Tenant>,
    payments: seq<Payment>,
    expenses: seq<Expense>,
    maintenance: seq<MaintenanceRequest>)

  /** The errors an operation reports instead of changing the store. */
  datatype Error =
    | DuplicateEmail        // registration with an email already on file
    | DuplicateUsername     // the UNIQUE constraint on usernames rejects the insert
    | InvalidCredentials    // login with an unknown email or a wrong password
    | Unauthorized          // no one is logged in

  /** Default column values. */
  const PaymentStatusDefault := "completed"
  const MaintenanceCompleted := "completed"

  /**
   * The owners table: integer primary keys 1, 2, 3, ... in insertion order
   * (rows are never deleted), and no two owners share an email or a username.
   */
  predicate OwnersValid(owners: seq<Owner>) {
    && (forall i :: 0 <= i < |owners| ==> owners[i].id == i + 1)
    && (forall i, j :: 0 <= i < j < |owners| ==> owners[i].email != owners[j].email)
    && (forall i, j :: 0 <= i < j < |owners| ==> owners[i].username != owners[j].username)
  }

  /** Primary keys of the properties table, each property owned by an existing owner. */
  predicate PropertiesValid(properties: seq<Property>, ownerCount: nat) {
    && (forall i :: 0 <= i < |properties| ==> properties[i].id == i + 1)
    && (forall i :: 0 <= i < |properties| ==> 1 <= properties[i].ownerId <= ownerCount)
  }

  /**
   * What the store keeps true between requests.  Nothing is said about the
   * `propertyId` of tenants, payments, expenses and requests: the database
   * does not enforce those foreign keys and the handlers do not check them.
   */
  predicate WellFormed(db: Tables) {
    && OwnersValid(db.owners)
    && PropertiesValid(db.properties, |db.owners|)
    && (forall i :: 0 <= i < |db.tenants| ==> db.tenants[i].id == i + 1)
    && (forall i :: 0 <= i < |db.payments| ==> db.payments[i].id == i + 1)
    && (forall i :: 0 <= i < |db.expenses| ==> db.expenses[i].id == i + 1)
    && (forall i :: 0 <= i < |db.maintenance| ==> db.maintenance[i].id == i + 1)
  }
  /** Registering an owner under the next id, with an unused email and username, keeps the tables well formed. */
  lemma OwnerInsertKeepsWellFormed(db: Tables, o: Owner)
    requires WellFormed(db)
    requires o.id == |db.owners| + 1
    requires forall q :: q in db.owners ==> q.email != o.email && q.username != o.username
    ensures WellFormed(db.(owners := db.owners + [o]))
  {
  }

  /** Adding a property under the next id, for an existing owner, keeps the tables well formed. */
  lemma PropertyInsertKeepsWellFormed(db: Tables, p: Property)
    requires WellFormed(db)
    requires p.id == |db.properties| + 1 && 1 <= p.ownerId <= |db.owners|
    ensures WellFormed(db.(properties := db.properties + [p]))
  {
  }

  /** Adding a tenant under the next id keeps the tables well formed, whatever property it names. */
  lemma TenantInsertKeepsWellFormed(db: Tables, t: Tenant)
    requires WellFormed(db)
    requires t.id == |db.tenants| + 1
    ensures WellFormed(db.(tenants := db.tenants + [t]))
  {
  }

  /** Adding a payment under the next id keeps the tables well formed, whatever property it names. */
  lemma PaymentInsertKeepsWellFormed(db: Tables, x: Payment)
    requires WellFormed(db)
    requires x.id == |db.payments| + 1
    ensures WellFormed(db.(payments := db.payments + [x]))
  {
  }
}


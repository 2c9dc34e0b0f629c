/**
 * The owner-scoped read queries: the properties, tenants, payments and
 * expenses lists and the dashboard figures, each a function of the tables
 * and of the id of the owner who asks.  Properties are matched on their own
 * `ownerId`; every other table is joined through Property.
 */
module Queries {
  import opened Wrappers
  import opened Schema
  import opened Relational

  /** The row's property, joined by id, belongs to `uid` (`JOIN property ... WHERE property.owner_id = uid`). */
  predicate OwnsProperty(properties: seq<Property>, pid: int, uid: int) {
    exists p :: p in properties && p.id == pid && p.ownerId == uid
  }

  /** `filter_by(owner_id=uid)` on the properties table. */
  function OwnerIs(uid: int): (keep: Property -> bool)
    ensures forall p :: keep(p) <==> p.ownerId == uid
  {
    (p: Property) => p.ownerId == uid
  }

  /** The row filter of a query joined through Property. */
  function OwnedBy<T(!new)>(properties: seq<Property>, propertyOf: T -> int, uid: int): (keep: T -> bool)
    ensures forall x :: keep(x) <==> OwnsProperty(properties, propertyOf(x), uid)
  {
    (x: T) => OwnsProperty(properties, propertyOf(x), uid)
  }

  // Column accessors, as function values for the generic operations.
  function TenantProperty(t: Tenant): int { t.propertyId }
  function PaymentProperty(x: Payment): int { x.propertyId }
  function ExpenseProperty(e: Expense): int { e.propertyId }
  function RequestProperty(m: MaintenanceRequest): int { m.propertyId }
  function PaymentDate(x: Payment): int { x.paymentDate }
  function ExpenseDate(e: Expense): int { e.expenseDate }
  function MonthlyRent(p: Property): int { p.monthlyRent }
  function IsActive(t: Tenant): bool { t.isActive }
  function NotCompleted(m: MaintenanceRequest): bool { m.status != MaintenanceCompleted }

  /** The properties list: exactly the properties whose owner is `uid`. */
  function PropertiesOf(db: Tables, uid: int): (r: seq<Property>)
    ensures forall p :: p in r <==> p in db.properties && p.ownerId == uid
  {
    Filter(db.properties, OwnerIs(uid))
  }

  /** The tenants list: exactly the tenants whose property belongs to `uid`. */
  function TenantsOf(db: Tables, uid: int): (r: seq<Tenant>)
    ensures forall t :: t in r <==> t in db.tenants && OwnsProperty(db.properties, t.propertyId, uid)
  {
    Filter(db.tenants, OwnedBy(db.properties, TenantProperty, uid))
  }

  /** The payments list: the payments on `uid`'s properties, newest first. */
  function PaymentsOf(db: Tables, uid: int): (r: seq<Payment>)
    ensures forall x :: x in r <==> x in db.payments && OwnsProperty(db.properties, x.propertyId, uid)
    ensures multiset(r) == multiset(Filter(db.payments, OwnedBy(db.properties, PaymentProperty, uid)))
    ensures NonIncreasing(r, PaymentDate)
  {
    OrderByDesc(Filter(db.payments, OwnedBy(db.properties, PaymentProperty, uid)), PaymentDate)
  }

  /** The expenses list: the expenses of `uid`'s properties, newest first. */
  function ExpensesOf(db: Tables, uid: int): (r: seq<Expense>)
    ensures forall e :: e in r <==> e in db.expenses && OwnsProperty(db.properties, e.propertyId, uid)
    ensures multiset(r) == multiset(Filter(db.expenses, OwnedBy(db.properties, ExpenseProperty, uid)))
    ensures NonIncreasing(r, ExpenseDate)
  {
    OrderByDesc(Filter(db.expenses, OwnedBy(db.properties, ExpenseProperty, uid)), ExpenseDate)
  }

  /** The maintenance requests raised for `uid`'s properties (the join the dashboard counts over). */
  function MaintenanceOf(db: Tables, uid: int): (r: seq<MaintenanceRequest>)
    ensures forall m :: m in r <==> m in db.maintenance && OwnsProperty(db.properties, m.propertyId, uid)
  {
    Filter(db.maintenance, OwnedBy(db.properties, RequestProperty, uid))
  }

  /** The figures the dashboard shows. */
  datatype Stats = Stats(
    totalProperties: nat,
    activeTenants: nat,
    monthlyIncome: int,
    recentPayments: seq<Payment>,
    pendingMaintenance: nat)

  /** How many payments the dashboard lists. */
  const RecentPaymentsLimit := 5

  /** The dashboard: five queries, each scoped to `uid`, computed as the handler's SQL states them. */
  function Dashboard(db: Tables, uid: int): (s: Stats)
    ensures |s.recentPayments| <= RecentPaymentsLimit
  {
    var props := db.properties;
    Stats(
      |Filter(props, OwnerIs(uid))|,
      |Filter(db.tenants, And(OwnedBy(props, TenantProperty, uid), IsActive))|,
      SqlSum(Filter(props, OwnerIs(uid)), MonthlyRent).GetOr(0),
      Limit(OrderByDesc(Filter(db.payments, OwnedBy(props, PaymentProperty, uid)), PaymentDate), RecentPaymentsLimit),
      |Filter(db.maintenance, And(OwnedBy(props, RequestProperty, uid), NotCompleted))|)
  }

  /**
   * The dashboard's counts and total agree with the owner's lists: the number
   * of properties, the active tenants among the owner's tenants, the rents of
   * the owner's properties summed (0 when there are none), and the requests
   * for the owner's properties that are not completed.
   */
  lemma DashboardMatchesLists(db: Tables, uid: int)
    ensures Dashboard(db, uid).totalProperties == |PropertiesOf(db, uid)|
    ensures Dashboard(db, uid).activeTenants == |Filter(TenantsOf(db, uid), IsActive)|
    ensures Dashboard(db, uid).monthlyIncome == Sum(PropertiesOf(db, uid), MonthlyRent)
    ensures PropertiesOf(db, uid) == [] ==> Dashboard(db, uid).monthlyIncome == 0
    ensures Dashboard(db, uid).pendingMaintenance == |Filter(MaintenanceOf(db, uid), NotCompleted)|
  {
    FilterAnd(db.tenants, OwnedBy(db.properties, TenantProperty, uid), IsActive);
    FilterAnd(db.maintenance, OwnedBy(db.properties, RequestProperty, uid), NotCompleted);
  }

  /**
   * The dashboard's recent payments are the first min(5, n) rows of the
   * owner's payments list: newest first, and no payment left out is newer
   * than one shown.
   */
  lemma RecentPaymentsAreNewest(db: Tables, uid: int)
    ensures var recent, all := Dashboard(db, uid).recentPayments, PaymentsOf(db, uid);
      && |recent| == (if |all| < RecentPaymentsLimit then |all| else RecentPaymentsLimit)
      && (forall i :: 0 <= i < |recent| ==> recent[i] == all[i])
      && NonIncreasing(recent, PaymentDate)
      && (forall i, j :: 0 <= i < |recent| <= j < |all| ==> all[j].paymentDate <= recent[i].paymentDate)
  {
    LimitKeepsLargest(PaymentsOf(db, uid), PaymentDate, RecentPaymentsLimit);
  }

  /** With unique property ids, a property id leads to at most one owner. */
  lemma OwnerOfPropertyUnique(properties: seq<Property>, pid: int, a: int, b: int)
    requires forall i :: 0 <= i < |properties| ==> properties[i].id == i + 1
    requires OwnsProperty(properties, pid, a) && OwnsProperty(properties, pid, b)
    ensures a == b
  {
    var p :| p in properties && p.id == pid && p.ownerId == a;
    var q :| q in properties && q.id == pid && q.ownerId == b;
    var i :| 0 <= i < |properties| && properties[i] == p;
    var j :| 0 <= j < |properties| && properties[j] == q;
    assert i == j;
  }

  /**
   * Isolation between owners: no property, tenant, payment, expense or
   * maintenance request in owner `a`'s lists is in owner `b`'s.
   */
  lemma OwnersIsolated(db: Tables, a: int, b: int)
    requires WellFormed(db)
    requires a != b
    ensures forall p :: p in PropertiesOf(db, a) ==> p !in PropertiesOf(db, b)
    ensures forall t :: t in TenantsOf(db, a) ==> t !in TenantsOf(db, b)
    ensures forall x :: x in PaymentsOf(db, a) ==> x !in PaymentsOf(db, b)
    ensures forall e :: e in ExpensesOf(db, a) ==> e !in ExpensesOf(db, b)
    ensures forall m :: m in MaintenanceOf(db, a) ==> m !in MaintenanceOf(db, b)
  {
    forall pid | OwnsProperty(db.properties, pid, a)
      ensures !OwnsProperty(db.properties, pid, b)
    {
      if OwnsProperty(db.properties, pid, b) {
        OwnerOfPropertyUnique(db.properties, pid, a, b);
      }
    }
  }

  /** Adding a property adds it to its owner's properties list and to no other. */
  lemma PropertiesAfterInsert(db: Tables, p: Property, uid: int)
    ensures PropertiesOf(db.(properties := db.properties + [p]), uid)
      == PropertiesOf(db, uid) + if p.ownerId == uid then [p] else []
  {
    FilterSnoc(db.properties, p, OwnerIs(uid));
  }

  /** A property that `uid` does not own changes none of `uid`'s joined rows. */
  lemma JoinUnaffected<T(!new)>(rows: seq<T>, propertyOf: T -> int, properties: seq<Property>, p: Property, uid: int)
    requires p.ownerId != uid
    ensures Filter(rows, OwnedBy(properties + [p], propertyOf, uid)) == Filter(rows, OwnedBy(properties, propertyOf, uid))
  {
    forall i | 0 <= i < |rows|
      ensures OwnedBy(properties + [p], propertyOf, uid)(rows[i]) == OwnedBy(properties, propertyOf, uid)(rows[i])
    {
      OwnsPropertyUnaffected(properties, p, propertyOf(rows[i]), uid);
    }
    FilterExt(rows, OwnedBy(properties + [p], propertyOf, uid), OwnedBy(properties, propertyOf, uid));
  }

  /** Adding a property leaves every list of every other owner as it was. */
  lemma OthersUnaffectedByProperty(db: Tables, p: Property, uid: int)
    requires p.ownerId != uid
    ensures var db' := db.(properties := db.properties + [p]);
      && PropertiesOf(db', uid) == PropertiesOf(db, uid)
      && TenantsOf(db', uid) == TenantsOf(db, uid)
      && PaymentsOf(db', uid) == PaymentsOf(db, uid)
      && ExpensesOf(db', uid) == ExpensesOf(db, uid)
      && MaintenanceOf(db', uid) == MaintenanceOf(db, uid)
  {
    PropertiesAfterInsert(db, p, uid);
    JoinUnaffected(db.tenants, TenantProperty, db.properties, p, uid);
    JoinUnaffected(db.payments, PaymentProperty, db.properties, p, uid);
    JoinUnaffected(db.expenses, ExpenseProperty, db.properties, p, uid);
    JoinUnaffected(db.maintenance, RequestProperty, db.properties, p, uid);
  }

  /** Whether a property id leads to `uid` does not change when a property of someone else is added. */
  lemma OwnsPropertyUnaffected(properties: seq<Property>, p: Property, pid: int, uid: int)
    requires p.ownerId != uid
    ensures OwnsProperty(properties + [p], pid, uid) == OwnsProperty(properties, pid, uid)
  {
    if OwnsProperty(properties + [p], pid, uid) {
      var q :| q in properties + [p] && q.id == pid && q.ownerId == uid;
      assert q in properties;
    }
  }

  /** Adding a property leaves the dashboard of every other owner as it was. */
  lemma DashboardUnaffectedByProperty(db: Tables, p: Property, uid: int)
    requires p.ownerId != uid
    ensures Dashboard(db.(properties := db.properties + [p]), uid) == Dashboard(db, uid)
  {
    var props' := db.properties + [p];
    PropertiesAfterInsert(db, p, uid);
    JoinUnaffected(db.payments, PaymentProperty, db.properties, p, uid);
    forall i | 0 <= i < |db.tenants|
      ensures And(OwnedBy(props', TenantProperty, uid), IsActive)(db.tenants[i])
           == And(OwnedBy(db.properties, TenantProperty, uid), IsActive)(db.tenants[i])
    {
      OwnsPropertyUnaffected(db.properties, p, db.tenants[i].propertyId, uid);
    }
    FilterExt(db.tenants, And(OwnedBy(props', TenantProperty, uid), IsActive),
              And(OwnedBy(db.properties, TenantProperty, uid), IsActive));
    forall i | 0 <= i < |db.maintenance|
      ensures And(OwnedBy(props', RequestProperty, uid), NotCompleted)(db.maintenance[i])
           == And(OwnedBy(db.properties, RequestProperty, uid), NotCompleted)(db.maintenance[i])
    {
      OwnsPropertyUnaffected(db.properties, p, db.maintenance[i].propertyId, uid);
    }
    FilterExt(db.maintenance, And(OwnedBy(props', RequestProperty, uid), NotCompleted),
              And(OwnedBy(db.properties, RequestProperty, uid), NotCompleted));
  }

  /**
   * The monthly income does not depend on the order the properties are
   * stored in: any rearrangement of the properties table gives the same total.
   */
  lemma MonthlyIncomeOrderIndependent(db: Tables, properties: seq<Property>, uid: int)
    requires multiset(properties) == multiset(db.properties)
    ensures Dashboard(db.(properties := properties), uid).monthlyIncome == Dashboard(db, uid).monthlyIncome
  {
    var mine, mine' := Filter(db.properties, OwnerIs(uid)), Filter(properties, OwnerIs(uid));
    forall x ensures multiset(mine')[x] == multiset(mine)[x] {
    }
    assert multiset(mine') == multiset(mine);
    SqlSumOrderIndependent(mine', mine, MonthlyRent);
  }

  /**
   * The id of a new property is not checked against existing rows: a tenant
   * that already names that id lands in the new property's owner's list.
   */
  lemma DanglingTenantAdopted(db: Tables, p: Property, t: Tenant)
    requires t in db.tenants && t.propertyId == p.id
    ensures t in TenantsOf(db.(properties := db.properties + [p]), p.ownerId)
  {
    assert p in db.properties + [p];
  }

  /** A new tenant joins the list of whichever owner its `propertyId` leads to, and no other list. */
  lemma TenantsAfterInsert(db: Tables, t: Tenant, uid: int)
    ensures TenantsOf(db.(tenants := db.tenants + [t]), uid)
      == TenantsOf(db, uid) + if OwnsProperty(db.properties, t.propertyId, uid) then [t] else []
  {
    FilterSnoc(db.tenants, t, OwnedBy(db.properties, TenantProperty, uid));
  }

  /** A new payment joins, up to the order among equal dates, the list of the owner its `propertyId` leads to. */
  lemma PaymentsAfterInsert(db: Tables, x: Payment, uid: int)
    ensures var after := PaymentsOf(db.(payments := db.payments + [x]), uid);
      && (OwnsProperty(db.properties, x.propertyId, uid) ==> multiset(after) == multiset(PaymentsOf(db, uid)) + multiset{x})
      && (!OwnsProperty(db.properties, x.propertyId, uid) ==> after == PaymentsOf(db, uid))
  {
    FilterSnoc(db.payments, x, OwnedBy(db.properties, PaymentProperty, uid));
  }

  /**
   * The unchecked `property_id` of a new tenant: one that names owner `b`'s
   * property shows up in `b`'s tenants list and not in anyone else's, whoever
   * created it.
   */
  lemma ForeignTenantLandsWithPropertyOwner(db: Tables, t: Tenant, a: int, b: int)
    requires WellFormed(db)
    requires a != b
    requires OwnsProperty(db.properties, t.propertyId, b)
    ensures TenantsOf(db.(tenants := db.tenants + [t]), b) == TenantsOf(db, b) + [t]
    ensures TenantsOf(db.(tenants := db.tenants + [t]), a) == TenantsOf(db, a)
  {
    TenantsAfterInsert(db, t, a);
    TenantsAfterInsert(db, t, b);
    if OwnsProperty(db.properties, t.propertyId, a) {
      OwnerOfPropertyUnique(db.properties, t.propertyId, a, b);
    }
  }

  /** The same gap for payments: the payment goes to the list of the owner of the property it names. */
  lemma ForeignPaymentLandsWithPropertyOwner(db: Tables, x: Payment, a: int, b: int)
    requires WellFormed(db)
    requires a != b
    requires OwnsProperty(db.properties, x.propertyId, b)
    ensures x in PaymentsOf(db.(payments := db.payments + [x]), b)
    ensures PaymentsOf(db.(payments := db.payments + [x]), a) == PaymentsOf(db, a)
  {
    PaymentsAfterInsert(db, x, a);
    if OwnsProperty(db.properties, x.propertyId, a) {
      OwnerOfPropertyUnique(db.properties, x.propertyId, a, b);
    }
  }
}

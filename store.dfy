/**
 * The application as one object: the six tables the handlers read and
 * append to, and the session (the logged-in owner and the dark-mode
 * preference).  Each request handler is a method or a function here; a
 * handler guarded by login reports Unauthorized, and changes nothing, when
 * no one is logged in.
 */
module Rental {
  import opened Wrappers
  import opened Passwords
  import opened Schema
  import opened Relational
  import opened Accounts
  import opened Queries

  class Store {
    var owners: seq<Owner>
    var properties: seq<Property>
    var tenants: seq<Tenant>
    var payments: seq<Payment>
    var expenses: seq<Expense>
    var maintenance: seq<MaintenanceRequest>
    /** The id of the logged-in owner, if any. */
    var current: Option<int>
    /** The session's dark-mode preference. */
    var darkMode: bool

    /** The tables as one value, for the queries. */
    function Snapshot(): Tables
      reads this
    {
      Tables(owners, properties, tenants, payments, expenses, maintenance)
    }

    /** The store's invariant: well-formed tables, and a session that names an existing owner. */
    ghost predicate Valid()
      reads this
    {
      WellFormed(Snapshot()) && (current.Some? ==> 1 <= current.value <= |owners|)
    }

    /** Opens the database with whatever rows it already holds, with no one logged in. */
    constructor Open(db: Tables)
      requires WellFormed(db)
      ensures Valid()
      ensures Snapshot() == db && current == None && !darkMode
    {
      owners, properties, tenants := db.owners, db.properties, db.tenants;
      payments, expenses, maintenance := db.payments, db.expenses, db.maintenance;
      current, darkMode := None, false;
    }

    /**
     * /register: refuses an email already on file, then a username already
     * taken (the UNIQUE constraint fails the insert); otherwise appends one
     * owner holding the password's digest, under the next id.
     */
    method Register(username: string, email: string, password: string, phone: string, salt: string)
      returns (r: Result<int, Error>)
      requires Valid()
      modifies this`owners
      ensures Valid()
      ensures OwnerByEmail(old(owners), email).Some? ==>
        r == Failure(DuplicateEmail) && owners == old(owners)
      ensures OwnerByEmail(old(owners), email).None? && UsernameTaken(old(owners), username) ==>
        r == Failure(DuplicateUsername) && owners == old(owners)
      ensures OwnerByEmail(old(owners), email).None? && !UsernameTaken(old(owners), username) ==>
        && r == Success(|old(owners)| + 1)
        && owners == old(owners) + [Owner(|old(owners)| + 1, username, email, Hash(password, salt), phone)]
      ensures forall i, j :: 0 <= i < j < |owners| ==> owners[i].email != owners[j].email
    {
      if OwnerByEmail(owners, email).Some? {
        return Failure(DuplicateEmail);
      }
      if UsernameTaken(owners, username) {
        return Failure(DuplicateUsername);
      }
      var id := |owners| + 1;
      var row := Owner(id, username, email, Hash(password, salt), phone);
      OwnerInsertKeepsWellFormed(Snapshot(), row);
      owners := owners + [row];
      r := Success(id);
    }

    /**
     * /login: logs in the owner with `email` when `password` matches the
     * stored digest; otherwise reports InvalidCredentials and keeps the session.
     */
    method Login(email: string, password: string) returns (r: Result<int, Error>)
      requires Valid()
      modifies this`current
      ensures Valid()
      ensures r.Success? <==> exists o :: o in owners && o.email == email && Check(o.passwordHash, password)
      ensures r.Success? ==> current == Some(r.value)
      ensures r.Success? ==> exists o :: o in owners && o.id == r.value && o.email == email
      ensures r.Failure? ==> r.error == InvalidCredentials && current == old(current)
    {
      var found := Authenticate(owners, email, password);
      if found.Some? {
        var k :| 0 <= k < |owners| && owners[k] == found.value;
        current := Some(found.value.id);
        r := Success(found.value.id);
      } else {
        r := Failure(InvalidCredentials);
      }
    }

    /** /logout: ends the session; Unauthorized when there was none. */
    method Logout() returns (r: Outcome<Error>)
      requires Valid()
      modifies this`current
      ensures Valid()
      ensures current == None
      ensures r == if old(current).None? then Fail(Unauthorized) else Pass
    {
      if current.None? {
        return Fail(Unauthorized);
      }
      current := None;
      r := Pass;
    }

    /** /toggle_dark_mode: flips the preference; no login needed. */
    method ToggleDarkMode()
      modifies this`darkMode
      ensures darkMode == !old(darkMode)
    {
      darkMode := !darkMode;
    }

    /**
     * /add_property: appends a property owned by the logged-in owner.  That
     * owner's properties list gains exactly this row; every list of every
     * other owner stays as it was.
     */
    method AddProperty(name: string, address: string, propertyType: string, bedrooms: int,
                       bathrooms: int, areaSqft: int, monthlyRent: int)
      returns (r: Result<int, Error>)
      requires Valid()
      modifies this`properties
      ensures Valid()
      ensures current.None? ==> r == Failure(Unauthorized) && properties == old(properties)
      ensures current.Some? ==>
        var row := Property(|old(properties)| + 1, name, address, propertyType, bedrooms, bathrooms,
                            areaSqft, monthlyRent, current.value);
        && r == Success(row.id)
        && properties == old(properties) + [row]
        && PropertiesOf(Snapshot(), current.value) == PropertiesOf(old(Snapshot()), current.value) + [row]
      ensures current.Some? ==> forall o :: o != current.value ==>
        && PropertiesOf(Snapshot(), o) == PropertiesOf(old(Snapshot()), o)
        && TenantsOf(Snapshot(), o) == TenantsOf(old(Snapshot()), o)
        && PaymentsOf(Snapshot(), o) == PaymentsOf(old(Snapshot()), o)
        && ExpensesOf(Snapshot(), o) == ExpensesOf(old(Snapshot()), o)
        && MaintenanceOf(Snapshot(), o) == MaintenanceOf(old(Snapshot()), o)
        && Dashboard(Snapshot(), o) == Dashboard(old(Snapshot()), o)
    {
      if current.None? {
        return Failure(Unauthorized);
      }
      ghost var before := Snapshot();
      var uid := current.value;
      var row := Property(|properties| + 1, name, address, propertyType, bedrooms, bathrooms,
                          areaSqft, monthlyRent, uid);
      properties := properties + [row];
      ghost var after := Snapshot();
      assert after == before.(properties := before.properties + [row]);
      PropertyInsertKeepsWellFormed(before, row);
      assert PropertiesOf(after, uid) == PropertiesOf(before, uid) + [row] by {
        PropertiesAfterInsert(before, row, uid);
      }
      forall o | o != uid
        ensures && PropertiesOf(after, o) == PropertiesOf(before, o)
                && TenantsOf(after, o) == TenantsOf(before, o)
                && PaymentsOf(after, o) == PaymentsOf(before, o)
                && ExpensesOf(after, o) == ExpensesOf(before, o)
                && MaintenanceOf(after, o) == MaintenanceOf(before, o)
                && Dashboard(after, o) == Dashboard(before, o)
      {
        OthersUnaffectedByProperty(before, row, o);
        DashboardUnaffectedByProperty(before, row, o);
      }
      r := Success(row.id);
    }

    /**
     * /add_tenant: appends an active tenant for the given `propertyId`, which
     * is not checked against the logged-in owner: the row joins the tenants
     * list of whichever owner that property belongs to, if any.
     */
    method AddTenant(name: string, email: string, phone: string, whatsappNumber: string,
                     leaseStart: int, leaseEnd: int, securityDeposit: int, propertyId: int)
      returns (r: Result<int, Error>)
      requires Valid()
      modifies this`tenants
      ensures Valid()
      ensures current.None? ==> r == Failure(Unauthorized) && tenants == old(tenants)
      ensures current.Some? ==>
        var row := Tenant(|old(tenants)| + 1, name, email, phone, whatsappNumber, leaseStart, leaseEnd,
                          securityDeposit, propertyId, true);
        && r == Success(row.id)
        && tenants == old(tenants) + [row]
        && forall o :: TenantsOf(Snapshot(), o) ==
             TenantsOf(old(Snapshot()), o) + if OwnsProperty(properties, propertyId, o) then [row] else []
    {
      if current.None? {
        return Failure(Unauthorized);
      }
      ghost var before := Snapshot();
      var row := Tenant(|tenants| + 1, name, email, phone, whatsappNumber, leaseStart, leaseEnd,
                        securityDeposit, propertyId, true);
      tenants := tenants + [row];
      assert Snapshot() == before.(tenants := before.tenants + [row]);
      TenantInsertKeepsWellFormed(before, row);
      forall o
        ensures TenantsOf(Snapshot(), o) ==
          TenantsOf(before, o) + if OwnsProperty(properties, propertyId, o) then [row] else []
      {
        TenantsAfterInsert(before, row, o);
      }
      r := Success(row.id);
    }

    /**
     * /add_payment: appends a completed payment for the given `propertyId`
     * and `tenantId`, neither of them checked: the row joins, newest first,
     * the payments list of whichever owner that property belongs to.
     */
    method AddPayment(propertyId: int, tenantId: int, amount: int, paymentDate: int,
                      paymentMethod: string, paymentType: string, notes: string)
      returns (r: Result<int, Error>)
      requires Valid()
      modifies this`payments
      ensures Valid()
      ensures current.None? ==> r == Failure(Unauthorized) && payments == old(payments)
      ensures current.Some? ==>
        var row := Payment(|old(payments)| + 1, propertyId, tenantId, amount, paymentDate,
                           paymentMethod, paymentType, PaymentStatusDefault, notes);
        && r == Success(row.id)
        && payments == old(payments) + [row]
        && (forall o :: OwnsProperty(properties, propertyId, o) ==>
              multiset(PaymentsOf(Snapshot(), o)) == multiset(PaymentsOf(old(Snapshot()), o)) + multiset{row})
        && (forall o :: !OwnsProperty(properties, propertyId, o) ==>
              PaymentsOf(Snapshot(), o) == PaymentsOf(old(Snapshot()), o))
    {
      if current.None? {
        return Failure(Unauthorized);
      }
      ghost var before := Snapshot();
      var row := Payment(|payments| + 1, propertyId, tenantId, amount, paymentDate,
                         paymentMethod, paymentType, PaymentStatusDefault, notes);
      payments := payments + [row];
      assert Snapshot() == before.(payments := before.payments + [row]);
      PaymentInsertKeepsWellFormed(before, row);
      forall o
        ensures && (OwnsProperty(properties, propertyId, o) ==>
                      multiset(PaymentsOf(Snapshot(), o)) == multiset(PaymentsOf(before, o)) + multiset{row})
                && (!OwnsProperty(properties, propertyId, o) ==> PaymentsOf(Snapshot(), o) == PaymentsOf(before, o))
      {
        PaymentsAfterInsert(before, row, o);
      }
      r := Success(row.id);
    }

    /** /properties (and the property choices of the tenant and payment forms). */
    function ListProperties(): (r: Result<seq<Property>, Error>)
      reads this
      ensures r.Failure? <==> current.None?
      ensures r.Failure? ==> r.error == Unauthorized
      ensures r.Success? ==> forall p :: p in r.value <==> p in properties && p.ownerId == current.value
    {
      if current.None? then Failure(Unauthorized) else Success(PropertiesOf(Snapshot(), current.value))
    }

    /** /tenants. */
    function ListTenants(): (r: Result<seq<Tenant>, Error>)
      reads this
      ensures r.Failure? <==> current.None?
      ensures r.Failure? ==> r.error == Unauthorized
      ensures r.Success? ==> forall t :: t in r.value <==>
        t in tenants && OwnsProperty(properties, t.propertyId, current.value)
    {
      if current.None? then Failure(Unauthorized) else Success(TenantsOf(Snapshot(), current.value))
    }

    /** /payments. */
    function ListPayments(): (r: Result<seq<Payment>, Error>)
      reads this
      ensures r.Failure? <==> current.None?
      ensures r.Failure? ==> r.error == Unauthorized
      ensures r.Success? ==> forall x :: x in r.value <==>
        x in payments && OwnsProperty(properties, x.propertyId, current.value)
      ensures r.Success? ==> NonIncreasing(r.value, PaymentDate)
    {
      if current.None? then Failure(Unauthorized) else Success(PaymentsOf(Snapshot(), current.value))
    }

    /** /expenses. */
    function ListExpenses(): (r: Result<seq<Expense>, Error>)
      reads this
      ensures r.Failure? <==> current.None?
      ensures r.Failure? ==> r.error == Unauthorized
      ensures r.Success? ==> forall e :: e in r.value <==>
        e in expenses && OwnsProperty(properties, e.propertyId, current.value)
      ensures r.Success? ==> NonIncreasing(r.value, ExpenseDate)
    {
      if current.None? then Failure(Unauthorized) else Success(ExpensesOf(Snapshot(), current.value))
    }

    /** /dashboard. */
    function ShowDashboard(): (r: Result<Stats, Error>)
      reads this
      ensures r.Failure? <==> current.None?
      ensures r.Failure? ==> r.error == Unauthorized
      ensures r.Success? ==> |r.value.recentPayments| <= RecentPaymentsLimit
      ensures r.Success? ==> forall x :: x in r.value.recentPayments ==>
        x in payments && OwnsProperty(properties, x.propertyId, current.value)
    {
      if current.None? then Failure(Unauthorized)
      else
        RecentPaymentsAreNewest(Snapshot(), current.value);
        Success(Dashboard(Snapshot(), current.value))
    }
  }
}

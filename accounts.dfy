/**
 * Account lookups behind registration and login: the owner with a given
 * email (`filter_by(email=...).first()`), and the credential check.
 */
module Accounts {
  import opened Wrappers
  import opened Passwords
  import opened Schema

  /** The first owner, in table order, whose email is `email`. */
  function OwnerByEmail(owners: seq<Owner>, email: string): (r: Option<Owner>)
    ensures r.None? <==> forall o :: o in owners ==> o.email != email
    ensures r.Some? ==> r.value.email == email
    ensures r.Some? ==> exists i :: FirstWithEmail(owners, email, i) && owners[i] == r.value
    decreases |owners|
  {
    if |owners| == 0 then None
    else if owners[0].email == email then Some(owners[0])
    else
      var r := OwnerByEmail(owners[1..], email);
      assert r.Some? ==> exists i :: FirstWithEmail(owners, email, i) && owners[i] == r.value by {
        if r.Some? {
          var i :| FirstWithEmail(owners[1..], email, i) && owners[1..][i] == r.value;
          assert FirstWithEmail(owners, email, i + 1);
        }
      }
      assert r.None? ==> forall o :: o in owners ==> o.email != email by {
        assert owners == [owners[0]] + owners[1..];
      }
      r
  }

  /** Index `i` holds the first owner whose email is `email`. */
  predicate FirstWithEmail(owners: seq<Owner>, email: string, i: int) {
    0 <= i < |owners| && owners[i].email == email && forall j :: 0 <= j < i ==> owners[j].email != email
  }

  /** Some owner already uses `username`. */
  predicate UsernameTaken(owners: seq<Owner>, username: string) {
    exists o :: o in owners && o.username == username
  }

  /** When emails are unique, the lookup finds the one owner with that email. */
  lemma OwnerByEmailUnique(owners: seq<Owner>, o: Owner)
    requires OwnersValid(owners)
    requires o in owners
    ensures OwnerByEmail(owners, o.email) == Some(o)
  {
    var r := OwnerByEmail(owners, o.email);
    var i :| FirstWithEmail(owners, o.email, i) && owners[i] == r.value;
    var k :| 0 <= k < |owners| && owners[k] == o;
    assert !(k < i);
    assert !(i < k);
  }

  /**
   * The login check: the owner with `email`, provided `password` matches the
   * stored digest; None stands for "invalid email or password".
   */
  function Authenticate(owners: seq<Owner>, email: string, password: string): (r: Option<Owner>)
    ensures r.Some? ==> r.value in owners && r.value.email == email && Check(r.value.passwordHash, password)
    ensures OwnersValid(owners) ==>
      (r.Some? <==> exists o :: o in owners && o.email == email && Check(o.passwordHash, password))
  {
    var found := OwnerByEmail(owners, email);
    assert OwnersValid(owners) ==> forall o :: o in owners && o.email == email ==> found == Some(o) by {
      if OwnersValid(owners) {
        forall o | o in owners && o.email == email ensures found == Some(o) {
          OwnerByEmailUnique(owners, o);
        }
      }
    }
    if found.Some? && Check(found.value.passwordHash, password) then found else None
  }

  /**
   * For a registered owner whose digest was made from `password`, logging in
   * with their email succeeds exactly when the candidate is that password.
   */
  lemma AuthenticateRegistered(owners: seq<Owner>, o: Owner, password: string, salt: string, candidate: string)
    requires OwnersValid(owners)
    requires o in owners && o.passwordHash == Hash(password, salt)
    ensures Authenticate(owners, o.email, candidate).Some? <==> password == candidate
    ensures Authenticate(owners, o.email, candidate).Some? ==> Authenticate(owners, o.email, candidate).value == o
  {
    OwnerByEmailUnique(owners, o);
    CheckHash(password, salt, candidate);
  }
}

/** The guest address routes: adding an address for a user, listing a user's
    addresses (default first, then newest first) and a partial update. Making
    an address the default first clears the owner's other defaults; that write's
    own failure is not checked, so it is an input here. */
module AddressRoutes {
  import opened Wrappers
  import opened Strings
  import opened Table
  import opened Sorting
  import opened Records
  import opened Store

  /** The body of POST /api/address; absent fields are `None`. */
  datatype NewAddressRequest = NewAddressRequest(
    userId: Id, addressLine1: string, addressLine2: Option<string>, city: string, state: string,
    postalCode: string, country: Option<string>, latitude: Option<real>, longitude: Option<real>,
    googlePlaceId: Option<string>, isDefault: Option<bool>)

  /** `x || null` for a coordinate: 0 is falsy. */
  function NonZero(x: Option<real>): (r: Option<real>)
    ensures r.Some? <==> x.Some? && x.value != 0.0
    ensures r.Some? ==> r == x
  {
    if x.Some? && x.value != 0.0 then x else None
  }

  /** A JSON boolean is truthy when it is `true`. */
  predicate IsTrue(b: Option<bool>) {
    b == Some(true)
  }

  /** The inserted row. */
  function NewAddress(id: Id, req: NewAddressRequest, now: nat): (a: Address)
    ensures a.id == id && a.userId == req.userId && a.createdAt == now
    ensures a.addressLine2 == (if Truthy(req.addressLine2) then req.addressLine2.value else "")
    ensures a.country == (if Truthy(req.country) then req.country.value else "India")
    ensures a.isDefault <==> IsTrue(req.isDefault)
    ensures a.googlePlaceId.Some? <==> Truthy(req.googlePlaceId)
  {
    Address(id, req.userId, req.addressLine1, OrElse(req.addressLine2, ""), req.city, req.state,
            req.postalCode, OrElse(req.country, "India"), NonZero(req.latitude), NonZero(req.longitude),
            if Truthy(req.googlePlaceId) then req.googlePlaceId else None,
            IsTrue(req.isDefault), now, now)
  }

  /** `.update({ is_default: false }).eq('user_id', owner)`, and with `.neq('id', keep)`
      when `keep` is given. */
  function ClearDefaults(addresses: seq<Address>, owner: Id, keep: Option<Id>): (r: seq<Address>)
    ensures |r| == |addresses|
    ensures forall k :: 0 <= k < |r| ==>
      r[k] == if addresses[k].userId == owner && Some(addresses[k].id) != keep
              then addresses[k].(isDefault := false) else addresses[k]
  {
    seq(|addresses|, k requires 0 <= k < |addresses| =>
      if addresses[k].userId == owner && Some(addresses[k].id) != keep
      then addresses[k].(isDefault := false) else addresses[k])
  }

  /** After the reset, no address of the owner except `keep` is a default, and
      every other user's addresses are as they were. */
  lemma ClearDefaultsClears(addresses: seq<Address>, owner: Id, keep: Option<Id>)
    ensures var r := ClearDefaults(addresses, owner, keep);
      && (forall k :: 0 <= k < |r| && r[k].userId == owner && r[k].isDefault ==> Some(r[k].id) == keep)
      && (forall k :: 0 <= k < |r| && addresses[k].userId != owner ==> r[k] == addresses[k])
      && (forall k :: 0 <= k < |r| ==> r[k].id == addresses[k].id && r[k].userId == addresses[k].userId)
  {
  }

  /** Clearing defaults never creates one, so it keeps "at most one default per user". */
  lemma {:induction false} ClearKeepsOneDefault(addresses: seq<Address>, owner: Id, keep: Option<Id>)
    requires OneDefaultPerUser(addresses)
    ensures OneDefaultPerUser(ClearDefaults(addresses, owner, keep))
  {
    var r := ClearDefaults(addresses, owner, keep);
    forall i, j | 0 <= i < j < |r| && r[i].isDefault && r[j].isDefault ensures r[i].userId != r[j].userId {
      assert addresses[i].isDefault && addresses[j].isDefault;
    }
  }

  lemma {:induction false} ClearKeepsKeys(addresses: seq<Address>, owner: Id, keep: Option<Id>)
    requires DistinctKeys(addresses, AddressKey)
    ensures DistinctKeys(ClearDefaults(addresses, owner, keep), AddressKey)
    ensures forall v :: HasKey(ClearDefaults(addresses, owner, keep), AddressKey, v) <==> HasKey(addresses, AddressKey, v)
  {
    var r := ClearDefaults(addresses, owner, keep);
    forall v ensures HasKey(r, AddressKey, v) <==> HasKey(addresses, AddressKey, v) {
      if HasKey(r, AddressKey, v) {
        var k :| 0 <= k < |r| && AddressKey(r[k]) == v;
        assert AddressKey(addresses[k]) == v;
      }
      if HasKey(addresses, AddressKey, v) {
        var k :| 0 <= k < |addresses| && AddressKey(addresses[k]) == v;
        assert AddressKey(r[k]) == v;
      }
    }
  }

  datatype AddressReply = AddressReply(status: int, message: string, address: Option<Address>)

  /** The table after the reset of step 2, which runs only for a default address
      and takes effect only when its write succeeds. */
  function AfterReset(addresses: seq<Address>, makeDefault: bool, resetOk: bool, owner: Id, keep: Option<Id>): seq<Address> {
    if makeDefault && resetOk then ClearDefaults(addresses, owner, keep) else addresses
  }

  /** POST /api/address. `validatorsOk` stands for the body validators. */
  method CreateAddress(db: Db, req: NewAddressRequest, validatorsOk: bool, newId: Id, now: nat,
                       resetOk: bool, insertOk: bool)
    returns (r: AddressReply)
    requires db.Valid()
    modifies db`addresses
    ensures db.Valid()
    ensures !validatorsOk ==> r.status == 400 && unchanged(db)
    ensures validatorsOk && !HasKey(db.users, UserKey, req.userId) ==>
      r.status == 404 && r.message == "User not found" && unchanged(db)
    ensures validatorsOk && HasKey(db.users, UserKey, req.userId) ==>
      var cleared := AfterReset(old(db.addresses), IsTrue(req.isDefault), resetOk, req.userId, None);
      if insertOk && !HasKey(old(db.addresses), AddressKey, newId) then
        && r.status == 201
        && db.addresses == cleared + [NewAddress(newId, req, now)]
        && r.address == Some(NewAddress(newId, req, now))
      else
        // the reset is not undone
        r.status == 500 && db.addresses == cleared
    ensures OneDefaultPerUser(old(db.addresses)) && (resetOk || !IsTrue(req.isDefault)) ==>
      OneDefaultPerUser(db.addresses)
  {
    if !validatorsOk {
      return AddressReply(400, "Validation failed", None);
    }
    SingleOfDistinct(db.users, UserKey, req.userId);
    if Single(db.users, UserKey, req.userId).None? {
      return AddressReply(404, "User not found", None);
    }
    ghost var before := db.addresses;
    if IsTrue(req.isDefault) && resetOk {
      ClearKeepsKeys(db.addresses, req.userId, None);
      if OneDefaultPerUser(db.addresses) {
        ClearKeepsOneDefault(db.addresses, req.userId, None);
      }
      db.addresses := ClearDefaults(db.addresses, req.userId, None);
    }
    if !insertOk || HasKey(db.addresses, AddressKey, newId) {
      return AddressReply(500, "Failed to create address", None);
    }
    var address := NewAddress(newId, req, now);
    AppendKeepsDistinct(db.addresses, AddressKey, address);
    if OneDefaultPerUser(before) && (resetOk || !IsTrue(req.isDefault)) {
      if IsTrue(req.isDefault) {
        ClearDefaultsClears(before, req.userId, None);
      }
      AppendKeepsOneDefault(db.addresses, address);
    }
    db.addresses := db.addresses + [address];
    r := AddressReply(201, "Address created successfully", Some(address));
  }

  /** A new address keeps "at most one default per user" when it is not a default
      or when its owner has no default left. */
  lemma {:induction false} AppendKeepsOneDefault(addresses: seq<Address>, a: Address)
    requires OneDefaultPerUser(addresses)
    requires a.isDefault ==> forall k :: 0 <= k < |addresses| && addresses[k].userId == a.userId ==> !addresses[k].isDefault
    ensures OneDefaultPerUser(addresses + [a])
  {
    var t := addresses + [a];
    forall i, j | 0 <= i < j < |t| && t[i].isDefault && t[j].isDefault ensures t[i].userId != t[j].userId {
      assert t[i] == addresses[i];
    }
  }

  /** The reset's failure is what can break the invariant: adding a default for a
      user who already has one leaves that user with two. */
  lemma ResetFailureLeavesTwoDefaults(addresses: seq<Address>, req: NewAddressRequest, newId: Id, now: nat, k: nat)
    requires k < |addresses| && addresses[k].userId == req.userId && addresses[k].isDefault
    requires IsTrue(req.isDefault)
    ensures !OneDefaultPerUser(AfterReset(addresses, true, false, req.userId, None) + [NewAddress(newId, req, now)])
  {
    var t := addresses + [NewAddress(newId, req, now)];
    assert t[k] == addresses[k] && t[|addresses|] == NewAddress(newId, req, now);
  }

  /** The body of PUT /api/address/:id; absent fields are `None`. */
  datatype AddressPatch = AddressPatch(
    addressLine1: Option<string>, addressLine2: Option<string>, city: Option<string>, state: Option<string>,
    postalCode: Option<string>, country: Option<string>, latitude: Option<real>, longitude: Option<real>,
    googlePlaceId: Option<string>, isDefault: Option<bool>)

  /** `dbUpdateData` applied to a row: the lines, city, state, postal code and
      country are written only when non-empty, the other fields whenever given. */
  function PatchAddress(a: Address, p: AddressPatch, now: nat): (b: Address)
    ensures b.id == a.id && b.userId == a.userId && b.createdAt == a.createdAt && b.updatedAt == now
    ensures b.addressLine1 == OrElse(p.addressLine1, a.addressLine1)
    ensures b.city == OrElse(p.city, a.city) && b.state == OrElse(p.state, a.state)
    ensures b.postalCode == OrElse(p.postalCode, a.postalCode) && b.country == OrElse(p.country, a.country)
    ensures p.addressLine2.Some? ==> b.addressLine2 == p.addressLine2.value
    ensures p.addressLine2.None? ==> b.addressLine2 == a.addressLine2
    ensures b.latitude == (if p.latitude.Some? then p.latitude else a.latitude)
    ensures b.longitude == (if p.longitude.Some? then p.longitude else a.longitude)
    ensures b.googlePlaceId == (if p.googlePlaceId.Some? then p.googlePlaceId else a.googlePlaceId)
    ensures b.isDefault == (if p.isDefault.Some? then p.isDefault.value else a.isDefault)
  {
    a.(addressLine1 := OrElse(p.addressLine1, a.addressLine1),
       addressLine2 := if p.addressLine2.Some? then p.addressLine2.value else a.addressLine2,
       city := OrElse(p.city, a.city),
       state := OrElse(p.state, a.state),
       postalCode := OrElse(p.postalCode, a.postalCode),
       country := OrElse(p.country, a.country),
       latitude := if p.latitude.Some? then p.latitude else a.latitude,
       longitude := if p.longitude.Some? then p.longitude else a.longitude,
       googlePlaceId := if p.googlePlaceId.Some? then p.googlePlaceId else a.googlePlaceId,
       isDefault := if p.isDefault.Some? then p.isDefault.value else a.isDefault,
       updatedAt := now)
  }

  /** An empty patch only moves updated_at. */
  lemma EmptyPatchTouchesOnlyTimestamp(a: Address, now: nat)
    ensures PatchAddress(a, AddressPatch(None, None, None, None, None, None, None, None, None, None), now)
      == a.(updatedAt := now)
  {
  }

  /** `.update(dbUpdateData).eq('id', id)`. */
  function PatchAddresses(addresses: seq<Address>, id: Id, p: AddressPatch, now: nat): (r: seq<Address>)
    ensures |r| == |addresses|
    ensures forall k :: 0 <= k < |r| ==>
      r[k] == if addresses[k].id == id then PatchAddress(addresses[k], p, now) else addresses[k]
  {
    seq(|addresses|, k requires 0 <= k < |addresses| =>
      if addresses[k].id == id then PatchAddress(addresses[k], p, now) else addresses[k])
  }

  /** The patch keeps every id, so ids stay unique, and it makes a default only
      of the row it targets, and only when asked to. */
  lemma {:induction false} PatchKeepsOneDefault(addresses: seq<Address>, k: nat, p: AddressPatch, now: nat)
    requires DistinctKeys(addresses, AddressKey) && OneDefaultPerUser(addresses) && k < |addresses|
    requires IsTrue(p.isDefault) ==>
      forall j :: 0 <= j < |addresses| && j != k && addresses[j].userId == addresses[k].userId ==> !addresses[j].isDefault
    ensures DistinctKeys(PatchAddresses(addresses, addresses[k].id, p, now), AddressKey)
    ensures OneDefaultPerUser(PatchAddresses(addresses, addresses[k].id, p, now))
  {
    var r := PatchAddresses(addresses, addresses[k].id, p, now);
    forall i, j | 0 <= i < j < |r| && r[i].isDefault && r[j].isDefault ensures r[i].userId != r[j].userId {
      if i != k && j != k {
        assert r[i] == addresses[i] && r[j] == addresses[j];
      }
    }
  }

  /** PUT /api/address/:id. `validatorsOk` stands for the id and body validators. */
  method UpdateAddress(db: Db, id: Id, p: AddressPatch, validatorsOk: bool, now: nat, resetOk: bool, writeOk: bool)
    returns (r: AddressReply)
    requires db.Valid()
    modifies db`addresses
    ensures db.Valid()
    ensures !validatorsOk ==> r.status == 400 && unchanged(db)
    ensures validatorsOk && !HasKey(old(db.addresses), AddressKey, id) ==>
      r.status == 404 && r.message == "Address not found" && unchanged(db)
    ensures validatorsOk && HasKey(old(db.addresses), AddressKey, id) ==>
      var k := Single(old(db.addresses), AddressKey, id).value;
      var cleared := AfterReset(old(db.addresses), IsTrue(p.isDefault), resetOk, old(db.addresses)[k].userId, Some(id));
      if writeOk then
        && r.status == 200
        && db.addresses == PatchAddresses(cleared, id, p, now)
        && r.address == Some(PatchAddress(old(db.addresses)[k], p, now))
      else
        // the reset is not undone
        r.status == 500 && db.addresses == cleared
    ensures OneDefaultPerUser(old(db.addresses)) && (resetOk || !IsTrue(p.isDefault)) ==>
      OneDefaultPerUser(db.addresses)
  {
    if !validatorsOk {
      return AddressReply(400, "Validation failed", None);
    }
    SingleOfDistinct(db.addresses, AddressKey, id);
    var found := Single(db.addresses, AddressKey, id);
    if found.None? {
      return AddressReply(404, "Address not found", None);
    }
    var k := found.value;
    var existing := db.addresses[k];
    ghost var before := db.addresses;
    if IsTrue(p.isDefault) && resetOk {
      ClearKeepsKeys(db.addresses, existing.userId, Some(id));
      ClearDefaultsClears(db.addresses, existing.userId, Some(id));
      if OneDefaultPerUser(db.addresses) {
        ClearKeepsOneDefault(db.addresses, existing.userId, Some(id));
      }
      db.addresses := ClearDefaults(db.addresses, existing.userId, Some(id));
    }
    assert db.addresses[k] == existing;
    if !writeOk {
      return AddressReply(500, "Failed to update address", None);
    }
    if OneDefaultPerUser(before) && (resetOk || !IsTrue(p.isDefault)) {
      if IsTrue(p.isDefault) {
        forall j | 0 <= j < |db.addresses| && j != k && db.addresses[j].userId == db.addresses[k].userId
          ensures !db.addresses[j].isDefault
        {
          assert db.addresses[j].id != id;
        }
      }
      PatchKeepsOneDefault(db.addresses, k, p, now);
    } else {
      PatchKeepsKeys(db.addresses, id, p, now);
    }
    db.addresses := PatchAddresses(db.addresses, id, p, now);
    r := AddressReply(200, "Address updated successfully", Some(PatchAddress(existing, p, now)));
  }

  lemma {:induction false} PatchKeepsKeys(addresses: seq<Address>, id: Id, p: AddressPatch, now: nat)
    requires DistinctKeys(addresses, AddressKey)
    ensures DistinctKeys(PatchAddresses(addresses, id, p, now), AddressKey)
  {
    var r := PatchAddresses(addresses, id, p, now);
    forall i, j | 0 <= i < j < |r| ensures r[i].id != r[j].id {
      assert r[i].id == addresses[i].id && r[j].id == addresses[j].id;
    }
  }

  /** `.order('is_default', { ascending: false }).order('created_at', { ascending: false })`. */
  predicate DefaultFirstNewest(a: Address, b: Address) {
    (a.isDefault && !b.isDefault) || (a.isDefault == b.isDefault && a.createdAt >= b.createdAt)
  }

  lemma DefaultFirstNewestIsTotalPreorder()
    ensures TotalPreorder(DefaultFirstNewest)
  {
  }

  datatype AddressesReply = AddressesReply(status: int, addresses: seq<Address>, count: int)

  /** GET /api/address/:userId. */
  function ListAddresses(addresses: seq<Address>, userId: Id, idIsUuid: bool): (r: AddressesReply)
    ensures !idIsUuid ==> r.status == 400
    ensures idIsUuid ==> r.status == 200 && r.count == |r.addresses|
    ensures idIsUuid ==> SortedBy(r.addresses, DefaultFirstNewest)
    ensures idIsUuid ==> multiset(r.addresses) == multiset(Where(addresses, AddressOwner, userId))
  {
    if !idIsUuid then AddressesReply(400, [], 0)
    else
      DefaultFirstNewestIsTotalPreorder();
      var rows := SortBy(Where(addresses, AddressOwner, userId), DefaultFirstNewest);
      AddressesReply(200, rows, |rows|)
  }

  /** The list holds exactly the user's addresses. */
  lemma ListedAddressesAreTheUsers(addresses: seq<Address>, userId: Id)
    ensures var r := ListAddresses(addresses, userId, true).addresses;
      forall a :: a in r <==> a in addresses && a.userId == userId
  {
    var r := ListAddresses(addresses, userId, true).addresses;
    var w := Where(addresses, AddressOwner, userId);
    forall a ensures a in r <==> a in addresses && a.userId == userId {
      assert a in r <==> a in multiset(r);
      assert a in w <==> a in multiset(w);
    }
  }

  /** When the user has a default address, the list starts with a default. */
  lemma {:induction false} ListedDefaultComesFirst(addresses: seq<Address>, userId: Id, k: nat)
    requires k < |addresses| && addresses[k].userId == userId && addresses[k].isDefault
    ensures var r := ListAddresses(addresses, userId, true).addresses;
      |r| > 0 && r[0].isDefault
  {
    var r := ListAddresses(addresses, userId, true).addresses;
    ListedAddressesAreTheUsers(addresses, userId);
    var d := addresses[k];
    assert d in r;
    var m :| 0 <= m < |r| && r[m] == d;
    if m != 0 { assert DefaultFirstNewest(r[0], r[m]); }
  }

  /** With at most one default per user, every default listed is one and the same row. */
  lemma {:induction false} ListedDefaultIsUnique(addresses: seq<Address>, userId: Id)
    requires OneDefaultPerUser(addresses)
    ensures var r := ListAddresses(addresses, userId, true).addresses;
      forall i, j :: 0 <= i < j < |r| && r[i].isDefault && r[j].isDefault ==> r[i] == r[j]
  {
    var r := ListAddresses(addresses, userId, true).addresses;
    ListedAddressesAreTheUsers(addresses, userId);
    forall i, j | 0 <= i < j < |r| && r[i].isDefault && r[j].isDefault ensures r[i] == r[j] {
      assert r[i] in r && r[j] in r;
      var p :| 0 <= p < |addresses| && addresses[p] == r[i];
      var q :| 0 <= q < |addresses| && addresses[q] == r[j];
      SameOwnerDefaults(addresses, p, q);
    }
  }

  lemma SameOwnerDefaults(addresses: seq<Address>, p: nat, q: nat)
    requires OneDefaultPerUser(addresses) && p < |addresses| && q < |addresses|
    requires addresses[p].isDefault && addresses[q].isDefault && addresses[p].userId == addresses[q].userId
    ensures p == q
  {
  }
}

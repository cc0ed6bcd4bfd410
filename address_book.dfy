/** The address-book routes over the `user_addresses` table: list, add,
    update and delete, each confined to the signed-in user's rows. */
module AddressBook {
  import opened Common
  import AuthGate

  const HomeType: string := "home"

  /** A row of `user_addresses`. Optional columns hold what the request sent. */
  datatype Address = Address(
    id: int,
    userId: int,
    addressType: Field,
    line1: Field,
    line2: Field,
    city: Field,
    state: Field,
    pincode: Field,
    landmark: Field,
    isDefault: bool)

  /** The request body of add and update; `isDefault` is the truthiness of `is_default`. */
  datatype AddressForm = AddressForm(
    addressType: Field,
    line1: Field,
    line2: Field,
    city: Field,
    state: Field,
    pincode: Field,
    landmark: Field,
    isDefault: bool)

  datatype AddOutcome = Added(addressId: int) | AddRejected

  datatype UpdateOutcome = AddressUpdated | AddressNotFound

  /** `!address_line1 || !city || !state || !pincode` fails. */
  predicate HasRequiredFields(form: AddressForm) {
    Truthy(form.line1) && Truthy(form.city) && Truthy(form.state) && Truthy(form.pincode)
  }

  /** The row an add inserts: the type defaults to `home`. */
  function NewAddress(id: int, userId: int, form: AddressForm): (a: Address)
    ensures a.id == id && a.userId == userId && a.isDefault == form.isDefault
    ensures a.addressType == Some(OrElse(form.addressType, HomeType))
    ensures !Truthy(form.addressType) ==> a.addressType == Some(HomeType)
  {
    Address(id, userId, Some(OrElse(form.addressType, HomeType)), form.line1, form.line2,
            form.city, form.state, form.pincode, form.landmark, form.isDefault)
  }

  /** The row an update writes: every column exactly as sent. */
  function Rewritten(a: Address, form: AddressForm): Address {
    a.(addressType := form.addressType, line1 := form.line1, line2 := form.line2, city := form.city,
       state := form.state, pincode := form.pincode, landmark := form.landmark, isDefault := form.isDefault)
  }

  /** `UPDATE user_addresses SET is_default = 0 WHERE user_id = ?`. */
  function ClearDefaults(rows: seq<Address>, userId: int): (r: seq<Address>)
    ensures |r| == |rows|
    ensures forall i :: 0 <= i < |rows| ==>
              r[i] == if rows[i].userId == userId then rows[i].(isDefault := false) else rows[i]
  {
    seq(|rows|, i requires 0 <= i < |rows| =>
      if rows[i].userId == userId then rows[i].(isDefault := false) else rows[i])
  }

  /** Clearing leaves no default among the user's rows, changes no other
      column, and leaves every other user's rows as they were. */
  lemma ClearDefaultsEffect(rows: seq<Address>, userId: int)
    ensures var r := ClearDefaults(rows, userId);
            forall i :: 0 <= i < |rows| ==>
              r[i].(isDefault := rows[i].isDefault) == rows[i] &&
              (rows[i].userId == userId ==> !r[i].isDefault) &&
              (rows[i].userId != userId ==> r[i] == rows[i])
  {
  }

  /** `UPDATE ... WHERE id = ? AND user_id = ?` with the form's values. */
  function RewriteOwned(rows: seq<Address>, id: int, userId: int, form: AddressForm): (r: seq<Address>)
    ensures |r| == |rows|
    ensures forall i :: 0 <= i < |rows| ==>
              r[i] == if rows[i].id == id && rows[i].userId == userId then Rewritten(rows[i], form) else rows[i]
  {
    seq(|rows|, i requires 0 <= i < |rows| =>
      if rows[i].id == id && rows[i].userId == userId then Rewritten(rows[i], form) else rows[i])
  }

  /** `DELETE FROM user_addresses WHERE id = ? AND user_id = ?`. */
  function DeleteOwned(rows: seq<Address>, id: int, userId: int): (r: seq<Address>)
    ensures |r| <= |rows|
  {
    if rows == [] then []
    else (if rows[0].id == id && rows[0].userId == userId then [] else [rows[0]]) + DeleteOwned(rows[1..], id, userId)
  }

  /** A delete keeps exactly the rows other than the user's row with that id. */
  lemma {:induction false} DeleteOwnedMembers(rows: seq<Address>, id: int, userId: int)
    ensures forall a :: a in DeleteOwned(rows, id, userId) <==> a in rows && !(a.id == id && a.userId == userId)
    decreases |rows|
  {
    if rows != [] {
      DeleteOwnedMembers(rows[1..], id, userId);
      assert rows == [rows[0]] + rows[1..];
    }
  }

  /** Deleting an id the user does not own leaves the table as it was. */
  lemma {:induction false} DeleteUnownedIsNoOp(rows: seq<Address>, id: int, userId: int)
    requires forall i :: 0 <= i < |rows| ==> !(rows[i].id == id && rows[i].userId == userId)
    ensures DeleteOwned(rows, id, userId) == rows
    decreases |rows|
  {
    if rows != [] {
      DeleteUnownedIsNoOp(rows[1..], id, userId);
    }
  }

  /** `SELECT id FROM user_addresses WHERE id = ? AND user_id = ?` finds a row. */
  predicate Owns(rows: seq<Address>, id: int, userId: int) {
    exists i :: 0 <= i < |rows| && rows[i].id == id && rows[i].userId == userId
  }

  /** The rows of `userId` whose default flag is `wanted`. */
  function Selector(userId: int, wanted: bool): Address -> bool {
    (a: Address) => a.userId == userId && a.isDefault == wanted
  }

  /** The creation order of rows, ids being assigned increasingly. */
  function CreationKey(a: Address): int {
    a.id
  }

  /** `ORDER BY is_default DESC, created_at DESC` over the user's rows: the
      default first, then the others, each group latest first. */
  function ListFor(rows: seq<Address>, userId: int): seq<Address> {
    NewestFirst(rows, Selector(userId, true), CreationKey) + NewestFirst(rows, Selector(userId, false), CreationKey)
  }

  /** The list holds exactly the user's rows; defaults come before the rest;
      within each group later rows come first. */
  lemma ListForShape(rows: seq<Address>, userId: int)
    requires forall i, j :: 0 <= i < j < |rows| ==> rows[i].id < rows[j].id
    ensures var r := ListFor(rows, userId);
            (forall a :: a in r <==> a in rows && a.userId == userId) &&
            (forall i, j :: 0 <= i < j < |r| && r[j].isDefault ==> r[i].isDefault) &&
            (forall i, j :: 0 <= i < j < |r| && r[i].isDefault == r[j].isDefault ==> r[i].id > r[j].id)
  {
    var d := NewestFirst(rows, Selector(userId, true), CreationKey);
    var n := NewestFirst(rows, Selector(userId, false), CreationKey);
    var r := d + n;
    assert KeyIncreasing(rows, CreationKey);
    forall k | 0 <= k < |d| ensures r[k] == d[k] && d[k].isDefault {
      assert d[k] in d;
    }
    forall k | |d| <= k < |r| ensures r[k] == n[k - |d|] && !n[k - |d|].isDefault {
      assert n[k - |d|] in n;
    }
  }

  /** At most one default address per user. */
  predicate OneDefaultPerUser(rows: seq<Address>) {
    forall i, j :: 0 <= i < j < |rows| && rows[i].isDefault && rows[j].isDefault ==> rows[i].userId != rows[j].userId
  }

  /** None of the user's rows is the default. */
  predicate NoDefault(rows: seq<Address>, userId: int) {
    forall i :: 0 <= i < |rows| && rows[i].userId == userId ==> !rows[i].isDefault
  }

  /** Ids are assigned increasingly below `nextId`. */
  predicate IdsAssigned(rows: seq<Address>, nextId: int) {
    && 1 <= nextId
    && (forall i :: 0 <= i < |rows| ==> rows[i].id < nextId)
    && (forall i, j :: 0 <= i < j < |rows| ==> rows[i].id < rows[j].id)
  }

  predicate BookValid(rows: seq<Address>, nextId: int) {
    IdsAssigned(rows, nextId) && OneDefaultPerUser(rows)
  }

  /** Clearing a user's defaults keeps the invariant and leaves that user with none. */
  lemma ClearKeepsValid(rows: seq<Address>, nextId: int, userId: int)
    requires BookValid(rows, nextId)
    ensures BookValid(ClearDefaults(rows, userId), nextId) && NoDefault(ClearDefaults(rows, userId), userId)
  {
    var c := ClearDefaults(rows, userId);
    assert forall i :: 0 <= i < |rows| ==> c[i].id == rows[i].id && c[i].userId == rows[i].userId;
    assert forall i :: 0 <= i < |rows| && c[i].isDefault ==> rows[i].isDefault;
  }

  /** Appending the next row keeps the invariant when it is not a default or
      its user has none yet. */
  lemma AppendKeepsValid(rows: seq<Address>, nextId: int, a: Address)
    requires BookValid(rows, nextId) && a.id == nextId
    requires a.isDefault ==> NoDefault(rows, a.userId)
    ensures BookValid(rows + [a], nextId + 1)
  {
    var r := rows + [a];
    assert forall i :: 0 <= i < |rows| ==> r[i] == rows[i];
    assert r[|rows|] == a;
  }

  /** Rewriting one owned row keeps the invariant when the row stops being a
      default or its user has none yet. */
  lemma RewriteKeepsValid(rows: seq<Address>, nextId: int, id: int, userId: int, form: AddressForm)
    requires BookValid(rows, nextId)
    requires form.isDefault ==> NoDefault(rows, userId)
    ensures BookValid(RewriteOwned(rows, id, userId, form), nextId)
  {
    var r := RewriteOwned(rows, id, userId, form);
    assert forall i :: 0 <= i < |rows| ==> r[i].id == rows[i].id && r[i].userId == rows[i].userId;
    forall i, j | 0 <= i < j < |r| && r[i].isDefault && r[j].isDefault ensures r[i].userId != r[j].userId {
      assert rows[i].id < rows[j].id;
    }
  }

  /** The address table. */
  class AddressTable {
    var rows: seq<Address>
    var nextId: int

    ghost predicate Valid()
      reads this
    {
      BookValid(rows, nextId)
    }

    constructor ()
      ensures Valid() && rows == [] && nextId == 1
    {
      rows := [];
      nextId := 1;
    }

    /** GET `/addresses`. */
    function List(caller: AuthGate.User): (r: seq<Address>)
      reads this
      requires Valid()
      ensures forall a :: a in r <==> a in rows && a.userId == caller.id
      ensures forall i, j :: 0 <= i < j < |r| && r[j].isDefault ==> r[i].isDefault
      ensures forall i, j :: 0 <= i < j < |r| && r[i].isDefault == r[j].isDefault ==> r[i].id > r[j].id
    {
      ListForShape(rows, caller.id);
      ListFor(rows, caller.id)
    }

    /** POST `/addresses`: 400 and no change without the four required
        fields; otherwise clear the user's defaults if this one is the
        default, then insert. */
    method Add(caller: AuthGate.User, form: AddressForm) returns (out: AddOutcome)
      requires Valid()
      modifies this
      ensures Valid()
      ensures !HasRequiredFields(form) ==> out == AddRejected && rows == old(rows) && nextId == old(nextId)
      ensures HasRequiredFields(form) ==>
                out == Added(old(nextId)) && nextId == old(nextId) + 1 &&
                rows == (if form.isDefault then ClearDefaults(old(rows), caller.id) else old(rows)) +
                        [NewAddress(old(nextId), caller.id, form)]
    {
      if !HasRequiredFields(form) {
        return AddRejected;
      }
      var a := NewAddress(nextId, caller.id, form);
      if form.isDefault {
        ClearKeepsValid(rows, nextId, caller.id);
        rows := ClearDefaults(rows, caller.id);
      }
      AppendKeepsValid(rows, nextId, a);
      rows := rows + [a];
      out := Added(nextId);
      nextId := nextId + 1;
    }

    /** PUT `/addresses/:id`: 404 and no change unless the caller owns the
        row; otherwise clear the user's defaults if the form sets one, then
        rewrite that row with the values as sent. */
    method Update(caller: AuthGate.User, id: int, form: AddressForm) returns (out: UpdateOutcome)
      requires Valid()
      modifies this`rows
      ensures Valid()
      ensures !Owns(old(rows), id, caller.id) ==> out == AddressNotFound && rows == old(rows)
      ensures Owns(old(rows), id, caller.id) ==>
                out == AddressUpdated &&
                rows == RewriteOwned(if form.isDefault then ClearDefaults(old(rows), caller.id) else old(rows),
                                     id, caller.id, form)
    {
      var found := FirstIndex(rows, (a: Address) => a.id == id && a.userId == caller.id);
      if found.None? {
        return AddressNotFound;
      }
      if form.isDefault {
        ClearKeepsValid(rows, nextId, caller.id);
        rows := ClearDefaults(rows, caller.id);
      }
      RewriteKeepsValid(rows, nextId, id, caller.id, form);
      rows := RewriteOwned(rows, id, caller.id, form);
      out := AddressUpdated;
    }

    /** DELETE `/addresses/:id`: removes the row only when the caller owns it. */
    method Delete(caller: AuthGate.User, id: int)
      requires Valid()
      modifies this`rows
      ensures Valid()
      ensures rows == DeleteOwned(old(rows), id, caller.id)
    {
      DeleteKeepsValid(rows, nextId, id, caller.id);
      rows := DeleteOwned(rows, id, caller.id);
    }
  }

  /** Deleting keeps the rows that stay, in their order, so the invariant holds. */
  lemma {:induction false} DeleteKeepsValid(rows: seq<Address>, nextId: int, id: int, userId: int)
    requires BookValid(rows, nextId)
    ensures BookValid(DeleteOwned(rows, id, userId), nextId)
    decreases |rows|
  {
    if rows != [] {
      var tail := rows[1..];
      TailKeepsValid(rows, nextId);
      DeleteKeepsValid(tail, nextId, id, userId);
      var rest := DeleteOwned(tail, id, userId);
      if !(rows[0].id == id && rows[0].userId == userId) {
        DeleteOwnedMembers(tail, id, userId);
        assert rows == [rows[0]] + tail;
        ConsKeepsValid(rows[0], rest, tail, nextId);
      }
    }
  }

  lemma TailKeepsValid(rows: seq<Address>, nextId: int)
    requires rows != [] && BookValid(rows, nextId)
    ensures BookValid(rows[1..], nextId)
  {
    var tail := rows[1..];
    assert forall i :: 0 <= i < |tail| ==> tail[i] == rows[i + 1];
  }

  /** Putting back in front a row that came before all of `tail` keeps the
      invariant for any selection `rest` of `tail`'s rows. */
  lemma ConsKeepsValid(a: Address, rest: seq<Address>, tail: seq<Address>, nextId: int)
    requires BookValid([a] + tail, nextId) && BookValid(rest, nextId)
    requires forall x :: x in rest ==> x in tail
    ensures BookValid([a] + rest, nextId)
  {
    var full := [a] + tail;
    var r := [a] + rest;
    assert full[0] == a && r[0] == a;
    forall k | 1 <= k < |r| ensures r[k] == rest[k - 1] && a.id < r[k].id && (a.isDefault && r[k].isDefault ==> a.userId != r[k].userId) {
      assert rest[k - 1] in tail;
      var m :| 0 <= m < |tail| && tail[m] == rest[k - 1];
      assert full[m + 1] == rest[k - 1];
    }
    assert IdsAssigned(r, nextId) by {
      forall i, j | 0 <= i < j < |r| ensures r[i].id < r[j].id {
        if i > 0 { assert rest[i - 1].id < rest[j - 1].id; }
      }
    }
    assert OneDefaultPerUser(r) by {
      forall i, j | 0 <= i < j < |r| && r[i].isDefault && r[j].isDefault ensures r[i].userId != r[j].userId {
        if i > 0 { assert rest[i - 1].isDefault && rest[j - 1].isDefault; }
      }
    }
  }
}

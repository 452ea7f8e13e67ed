/** The address book: a list of saved addresses with exactly one default,
    persisted in the device store together with a mirror of the default in
    the single "current address" slot. */
module AddressManagementScreen {
  import opened Types
  import opened Seqs
  import Decimal

  predicate UniqueIds(addresses: seq<Address>) {
    forall i, j :: 0 <= i < j < |addresses| ==> addresses[i].id != addresses[j].id
  }

  predicate HasId(addresses: seq<Address>, id: string) {
    exists i :: 0 <= i < |addresses| && addresses[i].id == id
  }

  predicate IsDefault(a: Address) {
    a.isDefault
  }

  function DefaultCount(addresses: seq<Address>): nat {
    |Filter(addresses, IsDefault)|
  }

  /** The book's invariant: a non-empty book has exactly one default. */
  predicate OneDefault(addresses: seq<Address>) {
    addresses == [] || DefaultCount(addresses) == 1
  }

  lemma DefaultCountAppend(a: seq<Address>, b: seq<Address>)
    ensures DefaultCount(a + b) == DefaultCount(a) + DefaultCount(b)
  {
    FilterAppend(a, b, IsDefault);
  }

  lemma DefaultCountOne(a: Address)
    ensures DefaultCount([a]) == if a.isDefault then 1 else 0
  {
    assert [a][1..] == [];
  }

  /** Counting defaults around the element at `k`. */
  lemma DefaultCountSplit(s: seq<Address>, k: nat)
    requires k < |s|
    ensures DefaultCount(s) == DefaultCount(s[..k]) + (if s[k].isDefault then 1 else 0) + DefaultCount(s[k + 1..])
  {
    assert s == s[..k] + [s[k]] + s[k + 1..];
    DefaultCountAppend(s[..k] + [s[k]], s[k + 1..]);
    DefaultCountAppend(s[..k], [s[k]]);
    DefaultCountOne(s[k]);
  }

  /** Replacing one element by one with the same flag keeps the count. */
  lemma DefaultCountUpdate(s: seq<Address>, k: nat, x: Address)
    requires k < |s|
    ensures DefaultCount(s[k := x]) == DefaultCount(s) - (if s[k].isDefault then 1 else 0) + (if x.isDefault then 1 else 0)
  {
    DefaultCountSplit(s, k);
    DefaultCountSplit(s[k := x], k);
    assert s[k := x][..k] == s[..k];
    assert s[k := x][k + 1..] == s[k + 1..];
  }

  /** When a book has one default, it is at a unique index. */
  lemma {:induction false} TheDefault(s: seq<Address>, k: nat)
    requires OneDefault(s) && k < |s| && s[k].isDefault
    ensures forall j :: 0 <= j < |s| && j != k ==> !s[j].isDefault
  {
    forall j | 0 <= j < |s| && j != k
      ensures !s[j].isDefault
    {
      if s[j].isDefault {
        var lo := if j < k then j else k;
        DefaultCountSplit(s, lo);
      }
    }
  }

  /** With no flag set anywhere there is no default. */
  lemma {:induction false} NoDefaults(s: seq<Address>)
    requires forall j :: 0 <= j < |s| ==> !s[j].isDefault
    ensures DefaultCount(s) == 0
    decreases |s|
  {
    if s != [] {
      DefaultCountSplit(s, 0);
      NoDefaults(s[1..]);
    }
  }

  // ---------------------------------------------------------------------
  // The four operations

  /** handleAddAddress: append the new entry; it is the default exactly when
      the book was empty. */
  function WithAdded(addresses: seq<Address>, form: AddressFields, id: string): (r: seq<Address>)
    ensures |r| == |addresses| + 1 && r[..|addresses|] == addresses
    ensures r[|addresses|].fields == form && r[|addresses|].id == id
    ensures r[|addresses|].isDefault <==> addresses == []
  {
    addresses + [Address(id, form, |addresses| == 0)]
  }

  /** AddressForm's submit in edit mode: the form's fields spread over the
      original entry, so its id and default flag survive. */
  function Merged(original: Address, form: AddressFields): (a: Address)
    ensures a.id == original.id && a.isDefault == original.isDefault && a.fields == form
  {
    original.(fields := form)
  }

  /** The form's initial contents: the entry being edited, or blank fields
      with the 'home' type. */
  function InitialForm(editing: Option<Address>): (f: AddressFields)
    ensures editing.Some? ==> f == editing.value.fields
    ensures editing.None? ==> f.name == f.phone == f.pincode == f.city == f.state == f.street == f.landmark == ""
    ensures editing.None? ==> f.addressType == HomeAddress
  {
    match editing
    case Some(a) => a.fields
    case None => EmptyForm
  }

  /** handleEditAddress: every entry with the updated entry's id is replaced. */
  function WithEdited(addresses: seq<Address>, updated: Address): (r: seq<Address>)
    ensures |r| == |addresses|
    ensures forall i :: 0 <= i < |addresses| && addresses[i].id != updated.id ==> r[i] == addresses[i]
    ensures forall i :: 0 <= i < |addresses| && addresses[i].id == updated.id ==> r[i] == updated
  {
    seq(|addresses|, i requires 0 <= i < |addresses| =>
      if addresses[i].id == updated.id then updated else addresses[i])
  }

  /** The entries whose id differs from `id`, in order. */
  function WithoutId(addresses: seq<Address>, id: string): (r: seq<Address>)
    ensures !HasId(r, id)
    ensures forall i :: 0 <= i < |addresses| && addresses[i].id != id ==> addresses[i] in r
    ensures forall x :: x in r ==> x in addresses
  {
    Filter(addresses, (a: Address) => a.id != id)
  }

  /** Array.prototype.find by id: the first entry with the id, if any. */
  function FindById(addresses: seq<Address>, id: string): (r: Option<Address>)
    ensures r.Some? <==> HasId(addresses, id)
    ensures r.Some? ==> r.value.id == id && r.value in addresses
    ensures r.Some? ==> exists k :: 0 <= k < |addresses| && addresses[k] == r.value &&
                                    forall j :: 0 <= j < k ==> addresses[j].id != id
  {
    if addresses == [] then None
    else if addresses[0].id == id then
      Some(addresses[0])
    else
      var r := FindById(addresses[1..], id);
      assert HasId(addresses, id) ==> HasId(addresses[1..], id) by {
        if HasId(addresses, id) {
          var i :| 0 <= i < |addresses| && addresses[i].id == id;
          assert addresses[1..][i - 1] == addresses[i];
        }
      }
      assert r.Some? ==> exists k :: 0 <= k < |addresses| && addresses[k] == r.value &&
                                     forall j :: 0 <= j < k ==> addresses[j].id != id by {
        if r.Some? {
          var k :| 0 <= k < |addresses[1..]| && addresses[1..][k] == r.value &&
                   forall j :: 0 <= j < k ==> addresses[1..][j].id != id;
          FirstAfterHead(addresses, k, (a: Address) => a.id == id);
          assert addresses[k + 1] == r.value;
        }
      }
      r
  }

  /** Stepping past a head that fails `p`: if no element of the tail before
      index `k` satisfies `p`, no element of the whole list before `k + 1` does. */
  lemma FirstAfterHead(s: seq<Address>, k: nat, p: Address -> bool)
    requires s != [] && !p(s[0]) && k < |s| - 1
    requires forall j :: 0 <= j < k ==> !p(s[1..][j])
    ensures forall j :: 0 <= j < k + 1 ==> !p(s[j])
  {
    forall j | 0 <= j < k + 1
      ensures !p(s[j])
    {
      if j > 0 {
        assert s[j] == s[1..][j - 1];
      }
    }
  }

  datatype DeleteOutcome = CannotDeleteLast | Remaining(addresses: seq<Address>)

  /** handleDeleteAddress, as a value: refuse to delete the only entry;
      otherwise drop the id and, if the dropped entry was the default, make
      the first remaining entry the default. */
  function WithDeleted(addresses: seq<Address>, id: string): (r: DeleteOutcome)
    ensures r.CannotDeleteLast? <==> |addresses| == 1
    ensures r.Remaining? ==> !HasId(r.addresses, id) && |r.addresses| <= |addresses|
  {
    if |addresses| == 1 then CannotDeleteLast
    else
      var toDelete := FindById(addresses, id);
      var rest := WithoutId(addresses, id);
      if toDelete.Some? && toDelete.value.isDefault && |rest| > 0 then
        var r := rest[0 := rest[0].(isDefault := true)];
        assert forall i :: 0 <= i < |r| ==> r[i].id == rest[i].id;
        Remaining(r)
      else Remaining(rest)
  }

  /** handleSetDefault: the flag becomes "has this id", everything else stays. */
  function WithDefault(addresses: seq<Address>, id: string): (r: seq<Address>)
    ensures |r| == |addresses|
    ensures forall i :: 0 <= i < |r| ==> r[i].isDefault == (addresses[i].id == id)
    ensures forall i :: 0 <= i < |r| ==> r[i].id == addresses[i].id && r[i].fields == addresses[i].fields
  {
    seq(|addresses|, i requires 0 <= i < |addresses| => addresses[i].(isDefault := addresses[i].id == id))
  }

  // ---------------------------------------------------------------------
  // The invariant is kept by every operation

  lemma AddKeepsOneDefault(addresses: seq<Address>, form: AddressFields, id: string)
    requires OneDefault(addresses)
    ensures OneDefault(WithAdded(addresses, form, id))
  {
    DefaultCountAppend(addresses, [Address(id, form, |addresses| == 0)]);
    DefaultCountOne(Address(id, form, |addresses| == 0));
  }

  lemma AddKeepsUniqueIds(addresses: seq<Address>, form: AddressFields, id: string)
    requires UniqueIds(addresses) && !HasId(addresses, id)
    ensures UniqueIds(WithAdded(addresses, form, id))
  {
  }

  /** Editing the entry at `k` through the form keeps the length, replaces
      only that entry, and keeps the invariant. */
  lemma EditKeepsOneDefault(addresses: seq<Address>, k: nat, form: AddressFields)
    requires UniqueIds(addresses) && k < |addresses|
    requires OneDefault(addresses)
    ensures WithEdited(addresses, Merged(addresses[k], form)) == addresses[k := Merged(addresses[k], form)]
    ensures OneDefault(WithEdited(addresses, Merged(addresses[k], form)))
    ensures UniqueIds(WithEdited(addresses, Merged(addresses[k], form)))
  {
    var x := Merged(addresses[k], form);
    assert WithEdited(addresses, x) == addresses[k := x];
    DefaultCountUpdate(addresses, k, x);
  }

  /** Deleting the only entry is refused and leaves the book as it was. */
  lemma DeleteLastRefused(addresses: seq<Address>, id: string)
    requires |addresses| == 1
    ensures WithDeleted(addresses, id) == CannotDeleteLast
  {
  }

  /** With unique ids, deleting the entry at `k` removes just it; if it was
      the default, the first remaining entry is the default afterwards. */
  lemma DeleteRemovesOne(addresses: seq<Address>, k: nat)
    requires UniqueIds(addresses) && k < |addresses| && |addresses| != 1
    ensures var rest := addresses[..k] + addresses[k + 1..];
            WithDeleted(addresses, addresses[k].id) ==
              if addresses[k].isDefault then Remaining(rest[0 := rest[0].(isDefault := true)]) else Remaining(rest)
  {
    var id := addresses[k].id;
    FilterRemovesOne(addresses, (a: Address) => a.id != id, k);
    var found := FindById(addresses, id);
    assert found == Some(addresses[k]);
  }

  lemma DeleteKeepsOneDefault(addresses: seq<Address>, id: string)
    requires UniqueIds(addresses) && OneDefault(addresses)
    ensures WithDeleted(addresses, id).Remaining? ==> OneDefault(WithDeleted(addresses, id).addresses)
  {
    if |addresses| != 1 {
      if HasId(addresses, id) {
        var k :| 0 <= k < |addresses| && addresses[k].id == id;
        DeleteRemovesOne(addresses, k);
        var rest := addresses[..k] + addresses[k + 1..];
        DefaultCountSplit(addresses, k);
        DefaultCountAppend(addresses[..k], addresses[k + 1..]);
        if addresses[k].isDefault {
          assert DefaultCount(rest) == 0;
          DefaultCountUpdate(rest, 0, rest[0].(isDefault := true));
          assert !rest[0].isDefault by {
            TheDefault(addresses, k);
            if k == 0 {
              assert rest[0] == addresses[1];
            } else {
              assert rest[0] == addresses[0];
            }
          }
        }
      } else {
        FilterKeepsAll(addresses, (a: Address) => a.id != id);
      }
    }
  }

  /** Removing one entry keeps the remaining ids unique. */
  lemma RemoveKeepsUniqueIds(addresses: seq<Address>, k: nat)
    requires UniqueIds(addresses) && k < |addresses|
    ensures UniqueIds(addresses[..k] + addresses[k + 1..])
  {
    var rest := addresses[..k] + addresses[k + 1..];
    forall i, j | 0 <= i < j < |rest|
      ensures rest[i].id != rest[j].id
    {
      var i' := if i < k then i else i + 1;
      var j' := if j < k then j else j + 1;
      assert rest[i] == addresses[i'] && rest[j] == addresses[j'];
    }
  }

  /** Uniqueness depends on the ids alone. */
  lemma SameIdsKeepUniqueIds(a: seq<Address>, b: seq<Address>)
    requires UniqueIds(a) && |a| == |b|
    requires forall i :: 0 <= i < |a| ==> a[i].id == b[i].id
    ensures UniqueIds(b)
  {
  }

  lemma DeleteKeepsUniqueIds(addresses: seq<Address>, id: string)
    requires UniqueIds(addresses)
    ensures WithDeleted(addresses, id).Remaining? ==> UniqueIds(WithDeleted(addresses, id).addresses)
  {
    if |addresses| != 1 {
      if HasId(addresses, id) {
        var k :| 0 <= k < |addresses| && addresses[k].id == id;
        DeleteRemovesOne(addresses, k);
        var rest := addresses[..k] + addresses[k + 1..];
        RemoveKeepsUniqueIds(addresses, k);
        SameIdsKeepUniqueIds(rest, rest[0 := rest[0].(isDefault := true)]);
      } else {
        FilterKeepsAll(addresses, (a: Address) => a.id != id);
      }
    }
  }

  /** Making an existing entry the default keeps the invariant. */
  lemma SetDefaultKeepsValid(addresses: seq<Address>, id: string)
    requires UniqueIds(addresses) && HasId(addresses, id)
    ensures UniqueIds(WithDefault(addresses, id)) && OneDefault(WithDefault(addresses, id))
  {
    var k :| 0 <= k < |addresses| && addresses[k].id == id;
    SetDefaultKeepsOneDefault(addresses, k);
  }

  lemma SetDefaultKeepsOneDefault(addresses: seq<Address>, k: nat)
    requires UniqueIds(addresses) && k < |addresses|
    ensures OneDefault(WithDefault(addresses, addresses[k].id))
  {
    var r := WithDefault(addresses, addresses[k].id);
    DefaultCountSplit(r, k);
    NoDefaults(r[..k]);
    NoDefaults(r[k + 1..]);
  }

  // ---------------------------------------------------------------------
  // Persistence

  /** Array.prototype.find(isDefault). */
  function FirstDefault(addresses: seq<Address>): (r: Option<Address>)
    ensures r.Some? <==> exists i :: 0 <= i < |addresses| && addresses[i].isDefault
    ensures r.Some? ==> r.value.isDefault && r.value in addresses
    ensures r.Some? ==> exists k :: 0 <= k < |addresses| && addresses[k] == r.value &&
                                    forall j :: 0 <= j < k ==> !addresses[j].isDefault
  {
    if addresses == [] then None
    else if addresses[0].isDefault then Some(addresses[0])
    else
      var r := FirstDefault(addresses[1..]);
      assert (exists i :: 0 <= i < |addresses| && addresses[i].isDefault) ==>
             (exists i :: 0 <= i < |addresses[1..]| && addresses[1..][i].isDefault) by {
        if exists i :: 0 <= i < |addresses| && addresses[i].isDefault {
          var i :| 0 <= i < |addresses| && addresses[i].isDefault;
          assert addresses[1..][i - 1] == addresses[i];
        }
      }
      assert r.Some? ==> exists k :: 0 <= k < |addresses| && addresses[k] == r.value &&
                                     forall j :: 0 <= j < k ==> !addresses[j].isDefault by {
        if r.Some? {
          var k :| 0 <= k < |addresses[1..]| && addresses[1..][k] == r.value &&
                   forall j :: 0 <= j < k ==> !addresses[1..][j].isDefault;
          FirstAfterHead(addresses, k, IsDefault);
          assert addresses[k + 1] == r.value;
        }
      }
      r
  }

  /** What saveAddresses writes into the single "current address" slot: the
      first default entry, else the first entry, else nothing. */
  function MirrorOf(addresses: seq<Address>): (r: Option<Address>)
    ensures r.None? <==> addresses == []
    ensures r.Some? ==> r.value in addresses
    ensures (exists i :: 0 <= i < |addresses| && addresses[i].isDefault) ==>
              r.Some? && r.value.isDefault &&
              exists k :: 0 <= k < |addresses| && addresses[k] == r.value &&
                          forall j :: 0 <= j < k ==> !addresses[j].isDefault
    ensures (forall i :: 0 <= i < |addresses| ==> !addresses[i].isDefault) && addresses != [] ==> r == Some(addresses[0])
  {
    match FirstDefault(addresses)
    case Some(a) => Some(a)
    case None => if addresses == [] then None else Some(addresses[0])
  }

  /** In a book with one default, the mirror is that default. */
  lemma MirrorIsTheDefault(addresses: seq<Address>, k: nat)
    requires OneDefault(addresses) && k < |addresses| && addresses[k].isDefault
    ensures MirrorOf(addresses) == Some(addresses[k])
  {
    TheDefault(addresses, k);
  }

  /** The store after saveAddresses(addresses). */
  function SavedStore(store: Store, addresses: seq<Address>): (s: Store)
    ensures s.text == store.text && s.userAddresses == Some(addresses)
    ensures s.userAddress == match MirrorOf(addresses)
                             case Some(a) => Some(Saved(a))
                             case None => store.userAddress
  {
    var s := store.(userAddresses := Some(addresses));
    match MirrorOf(addresses)
    case Some(a) => s.(userAddress := Some(Saved(a)))
    case None => s
  }

  /** The load effect: the saved list if there is one; otherwise a legacy
      single address becomes a one-entry list marked default, which is also
      written back; otherwise an empty book. */
  datatype Loaded = Loaded(addresses: seq<Address>, store: Store)

  function Load(store: Store, nowMillis: nat): (r: Loaded)
    ensures store.userAddresses.Some? ==> r == Loaded(store.userAddresses.value, store)
    ensures store.userAddresses.None? && store.userAddress.Some? ==>
      && |r.addresses| == 1
      && r.addresses[0] == Address(Decimal.NatToString(nowMillis), store.userAddress.value.Fields(), true)
      && r.store == store.(userAddresses := Some(r.addresses))
    ensures store.userAddresses.None? && store.userAddress.None? ==> r == Loaded([], store)
  {
    match store.userAddresses
    case Some(list) => Loaded(list, store)
    case None =>
      match store.userAddress
      case Some(single) =>
        var migrated := Address(Decimal.NatToString(nowMillis), single.Fields(), true);
        Loaded([migrated], store.(userAddresses := Some([migrated])))
      case None => Loaded([], store)
  }

  /** A migrated book satisfies the invariant. */
  lemma MigrationHasOneDefault(store: Store, nowMillis: nat)
    requires store.userAddresses.None?
    ensures OneDefault(Load(store, nowMillis).addresses) && UniqueIds(Load(store, nowMillis).addresses)
  {
    var r := Load(store, nowMillis);
    if r.addresses != [] {
      DefaultCountOne(r.addresses[0]);
      assert r.addresses == [r.addresses[0]];
    }
  }

  // ---------------------------------------------------------------------
  // The screen's state

  /** A saved list, if there is one, satisfies the book's invariant. */
  ghost predicate StoredListValid(store: Store) {
    store.userAddresses.Some? ==> UniqueIds(store.userAddresses.value) && OneDefault(store.userAddresses.value)
  }

  /** An entry with new fields over an entry of the book: what the form
      produces in edit mode. */
  ghost predicate EditsAnEntry(addresses: seq<Address>, updated: Address) {
    exists k :: 0 <= k < |addresses| && updated == Merged(addresses[k], updated.fields)
  }

  class AddressBook {
    var addresses: seq<Address>
    var store: Store
    var showAddForm: bool
    var editingAddress: Option<Address>

    /** Ids are unique and a non-empty book has exactly one default. */
    ghost predicate Valid()
      reads this
    {
      UniqueIds(addresses) && OneDefault(addresses)
    }

    constructor (store: Store)
      ensures addresses == [] && this.store == store && !showAddForm && editingAddress == None
      ensures Valid()
    {
      addresses := [];
      this.store := store;
      showAddForm := false;
      editingAddress := None;
    }

    /** The effect run when the screen opens. */
    method LoadAddresses(nowMillis: nat)
      modifies this`addresses, this`store
      ensures Load(old(store), nowMillis).addresses != [] || old(store).userAddresses.Some? ==>
        addresses == Load(old(store), nowMillis).addresses
      ensures Load(old(store), nowMillis).addresses == [] && old(store).userAddresses.None? ==>
        addresses == old(addresses)
      ensures store == Load(old(store), nowMillis).store
      ensures old(Valid()) && StoredListValid(old(store)) ==> Valid()
    {
      if store.userAddresses.None? {
        MigrationHasOneDefault(store, nowMillis);
      }
      var r := Load(store, nowMillis);
      if store.userAddresses.Some? || r.addresses != [] {
        addresses := r.addresses;
      }
      store := r.store;
    }

    /** saveAddresses: state, list key and mirrored default key. */
    method SaveAddresses(newAddresses: seq<Address>)
      modifies this`addresses, this`store
      ensures addresses == newAddresses && store == SavedStore(old(store), newAddresses)
    {
      addresses := newAddresses;
      store := store.(userAddresses := Some(newAddresses));
      var mirror := MirrorOf(newAddresses);
      if mirror.Some? {
        store := store.(userAddress := Some(Saved(mirror.value)));
      }
    }

    method HandleAddAddress(form: AddressFields, nowMillis: nat)
      modifies this`addresses, this`store, this`showAddForm
      ensures addresses == WithAdded(old(addresses), form, Decimal.NatToString(nowMillis))
      ensures store == SavedStore(old(store), addresses) && !showAddForm
      ensures old(Valid()) && !HasId(old(addresses), Decimal.NatToString(nowMillis)) ==> Valid()
    {
      if Valid() && !HasId(addresses, Decimal.NatToString(nowMillis)) {
        AddKeepsOneDefault(addresses, form, Decimal.NatToString(nowMillis));
        AddKeepsUniqueIds(addresses, form, Decimal.NatToString(nowMillis));
      }
      var updated := WithAdded(addresses, form, Decimal.NatToString(nowMillis));
      SaveAddresses(updated);
      showAddForm := false;
    }

    method HandleEditAddress(updated: Address)
      modifies this`addresses, this`store, this`editingAddress
      ensures addresses == WithEdited(old(addresses), updated)
      ensures store == SavedStore(old(store), addresses) && editingAddress == None
      ensures old(Valid()) && EditsAnEntry(old(addresses), updated) ==> Valid()
    {
      if Valid() && EditsAnEntry(addresses, updated) {
        var k :| 0 <= k < |addresses| && updated == Merged(addresses[k], updated.fields);
        EditKeepsOneDefault(addresses, k, updated.fields);
      }
      SaveAddresses(WithEdited(addresses, updated));
      editingAddress := None;
    }

    /** handleDeleteAddress: refused with the book unchanged when it holds a
        single entry; otherwise filter, then set the flag of the first
        remaining entry in place if the default was deleted. */
    method HandleDeleteAddress(addressId: string) returns (refused: bool)
      modifies this`addresses, this`store
      ensures refused <==> |old(addresses)| == 1
      ensures refused ==> addresses == old(addresses) && store == old(store)
      ensures !refused ==> addresses == WithDeleted(old(addresses), addressId).addresses
      ensures !refused ==> store == SavedStore(old(store), addresses)
      ensures old(Valid()) ==> Valid()
    {
      if Valid() {
        DeleteKeepsOneDefault(addresses, addressId);
        DeleteKeepsUniqueIds(addresses, addressId);
      }
      if |addresses| == 1 {
        return true;
      }
      var addressToDelete := FindById(addresses, addressId);
      var updated := WithoutId(addresses, addressId);
      if addressToDelete.Some? && addressToDelete.value.isDefault && |updated| > 0 {
        updated := updated[0 := updated[0].(isDefault := true)];
      }
      SaveAddresses(updated);
      refused := false;
    }

    method HandleSetDefault(addressId: string)
      modifies this`addresses, this`store
      ensures addresses == WithDefault(old(addresses), addressId)
      ensures store == SavedStore(old(store), addresses)
      ensures old(Valid()) && HasId(old(addresses), addressId) ==> Valid()
    {
      if Valid() && HasId(addresses, addressId) {
        SetDefaultKeepsValid(addresses, addressId);
      }
      SaveAddresses(WithDefault(addresses, addressId));
    }

    method OpenAddForm()
      modifies this`showAddForm
      ensures showAddForm
    {
      showAddForm := true;
    }

    method OpenEditForm(address: Address)
      modifies this`editingAddress
      ensures editingAddress == Some(address)
    {
      editingAddress := Some(address);
    }

    method CancelForm()
      modifies this`showAddForm, this`editingAddress
      ensures !showAddForm && editingAddress == None
    {
      showAddForm := false;
      editingAddress := None;
    }

    /** The form's submit.  The browser refuses it while a required field is
        empty; otherwise, in edit mode the fields are merged over the entry
        being edited, and else a new entry is added. */
    method SubmitForm(form: AddressFields, nowMillis: nat) returns (submitted: bool)
      modifies this`addresses, this`store, this`showAddForm, this`editingAddress
      ensures submitted <==> RequiredFilled(form)
      ensures !submitted ==> unchanged(this)
      ensures submitted && old(editingAddress).Some? ==>
        addresses == WithEdited(old(addresses), Merged(old(editingAddress).value, form)) && editingAddress == None
      ensures submitted && old(editingAddress).None? ==>
        addresses == WithAdded(old(addresses), form, Decimal.NatToString(nowMillis)) && !showAddForm
      ensures submitted ==> store == SavedStore(old(store), addresses)
      ensures old(editingAddress).Some? ==> showAddForm == old(showAddForm)
      ensures old(editingAddress).None? ==> editingAddress == None
      ensures old(Valid()) && old(editingAddress).Some? && old(editingAddress).value in old(addresses) ==> Valid()
      ensures old(Valid()) && old(editingAddress).None? && !HasId(old(addresses), Decimal.NatToString(nowMillis)) ==> Valid()
    {
      if !RequiredFilled(form) {
        return false;
      }
      match editingAddress {
        case Some(original) =>
          if original in addresses {
            var k :| 0 <= k < |addresses| && addresses[k] == original;
            assert EditsAnEntry(addresses, Merged(original, form));
          }
          HandleEditAddress(Merged(original, form));
        case None => HandleAddAddress(form, nowMillis);
      }
      submitted := true;
    }
  }
}

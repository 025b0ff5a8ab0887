/**
 * The HTTP presenters (internal/adaper/http/presenter): build response
 * resources from domain records.  A Go nil is `None`.
 */
module Presenter {

  import opened Wrappers
  import opened Domain

  /** presenter.Address of address.go: the five optional postal fields. */
  datatype AddressResource = AddressResource(
    street: Option<string>,
    city: Option<string>,
    state: Option<string>,
    zipCode: Option<string>,
    country: Option<string>)

  /**
   * presenter.Address of user.go, with plain string fields.  The Go package
   * declares a second type of the same name; this one is the element type of
   * UserResource.addresses.
   */
  datatype UserAddress = UserAddress(street: string, city: string, state: string, zipCode: string, country: string)

  /** presenter.User, without its `Name` field (see the README). */
  datatype UserResource = UserResource(id: UInt64, email: string, phoneNumber: string, addresses: seq<UserAddress>)

  /** The resource of one non-nil address. */
  function AddressFields(a: Address): AddressResource
  {
    AddressResource(a.street, a.city, a.state, a.zipCode, a.country)
  }

  function PrepareAddress(address: Option<Address>): (r: Option<AddressResource>)
    ensures r.None? <==> address.None?
    ensures address.Some? ==> r.value.street == address.value.street && r.value.city == address.value.city
                              && r.value.state == address.value.state && r.value.zipCode == address.value.zipCode
                              && r.value.country == address.value.country
  {
    if address.None? then None else Some(AddressFields(address.value))
  }

  /** What ToAddressCollection returns: the nil entries dropped, the others presented, in order. */
  function Presented(addresses: seq<Option<Address>>): seq<AddressResource>
  {
    if addresses == [] then []
    else
      var last := PrepareAddress(addresses[|addresses| - 1]);
      Presented(addresses[..|addresses| - 1]) + (if last.Some? then [last.value] else [])
  }

  /** How many entries of the slice are non-nil. */
  function NonNilCount(addresses: seq<Option<Address>>): nat
  {
    if addresses == [] then 0
    else NonNilCount(addresses[..|addresses| - 1]) + (if addresses[|addresses| - 1].Some? then 1 else 0)
  }

  /** The positions of the non-nil entries, in increasing order. */
  function NonNilPositions(addresses: seq<Option<Address>>): (ps: seq<nat>)
    ensures forall k :: 0 <= k < |ps| ==> ps[k] < |addresses| && addresses[ps[k]].Some?
    ensures forall k, l :: 0 <= k < l < |ps| ==> ps[k] < ps[l]
  {
    if addresses == [] then []
    else
      var n := |addresses| - 1;
      NonNilPositions(addresses[..n]) + (if addresses[n].Some? then [n] else [])
  }

  method ToAddressCollection(addresses: seq<Option<Address>>) returns (response: seq<AddressResource>)
    ensures response == Presented(addresses)
  {
    response := [];
    var i := 0;
    while i < |addresses|
      invariant 0 <= i <= |addresses|
      invariant response == Presented(addresses[..i])
    {
      var result := PrepareAddress(addresses[i]);
      if result.Some? {
        response := response + [result.value];
      }
      assert addresses[..i + 1][..i] == addresses[..i];
      i := i + 1;
    }
    assert addresses[..i] == addresses;
  }

  /** One resource per non-nil input. */
  lemma {:induction false} PresentedLength(addresses: seq<Option<Address>>)
    ensures |Presented(addresses)| == NonNilCount(addresses) == |NonNilPositions(addresses)|
  {
    if addresses != [] {
      PresentedLength(addresses[..|addresses| - 1]);
    }
  }

  /** The k-th resource presents the k-th non-nil input: relative order is kept. */
  lemma {:induction false} PresentedInOrder(addresses: seq<Option<Address>>, k: nat)
    requires k < |Presented(addresses)|
    ensures |NonNilPositions(addresses)| == |Presented(addresses)|
    ensures Presented(addresses)[k] == AddressFields(addresses[NonNilPositions(addresses)[k]].value)
  {
    PresentedLength(addresses);
    var n := |addresses| - 1;
    var init := addresses[..n];
    PresentedLength(init);
    if k < |Presented(init)| {
      PresentedInOrder(init, k);
    }
  }

  /** An empty or all-nil slice presents as the empty (nil) collection. */
  lemma {:induction false} AllNilPresentsNothing(addresses: seq<Option<Address>>)
    requires forall i :: 0 <= i < |addresses| ==> addresses[i].None?
    ensures Presented(addresses) == []
  {
    if addresses != [] {
      AllNilPresentsNothing(addresses[..|addresses| - 1]);
    }
  }

  /** PrepareUser: nil stays nil; id, email and phone number are copied; addresses are never filled. */
  function PrepareUser(user: Option<User>): (r: Option<UserResource>)
    ensures r.None? <==> user.None?
    ensures user.Some? ==> r.value.id == user.value.base.id && r.value.email == user.value.email
                           && r.value.phoneNumber == user.value.phoneNumber
    ensures user.Some? ==> r.value.addresses == []
  {
    if user.None? then None
    else Some(UserResource(user.value.base.id, user.value.email, user.value.phoneNumber, []))
  }

  function ToUserResource(user: Option<User>): (r: Option<UserResource>)
    ensures r == PrepareUser(user)
  {
    PrepareUser(user)
  }

  /** The resource does not depend on the user's addresses, names or bookkeeping fields. */
  lemma {:induction false} PrepareUserIgnoresAddresses(u: User, v: User)
    requires u.base.id == v.base.id && u.email == v.email && u.phoneNumber == v.phoneNumber
    ensures ToUserResource(Some(u)) == ToUserResource(Some(v))
  {
  }
}

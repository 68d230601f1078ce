/** The "create user" form of the user-management screen: the zone
    checkboxes, the ordered checks run on submit, the shape of the data sent
    to the account-creation call and the reset after a successful create. */
module UserManagement {
  import opened Wrappers
  import opened Types
  import opened Text
  import opened Seqs
  import opened Constants

  /** The zones without `z`, in the order they were ticked. */
  function Without(zones: seq<Zone>, z: Zone): seq<Zone> {
    Filter(zones, (x: Zone) => x != z)
  }

  /** Zones are kept in a JavaScript `Set`, whose iteration order is the
      order of insertion; the sequence keeps that order. */
  function ToggleZone(zones: seq<Zone>, z: Zone): (r: seq<Zone>)
    ensures z in r <==> z !in zones
    ensures forall other :: other != z ==> (other in r <==> other in zones)
    ensures NoDuplicates(zones) ==> NoDuplicates(r)
  {
    if z in zones then
      assert NoDuplicates(zones) ==> NoDuplicates(Without(zones, z)) by {
        if NoDuplicates(zones) {
          FilterKeepsDistinct(zones, (x: Zone) => x != z);
        }
      }
      Without(zones, z)
    else
      assert NoDuplicates(zones) ==> NoDuplicates(zones + [z]) by {
        if NoDuplicates(zones) {
          forall i, j | 0 <= i < j < |zones + [z]|
            ensures (zones + [z])[i] != (zones + [z])[j]
          {
            if j == |zones| {
              assert zones[i] in zones;
            }
          }
        }
      }
      zones + [z]
  }

  /** Ticking a zone twice gives back the same set of zones; when the zone
      was not ticked before, it gives back the very same list. */
  lemma {:induction false} ToggleZoneTwice(zones: seq<Zone>, z: Zone)
    ensures var back := ToggleZone(ToggleZone(zones, z), z);
      (forall x :: x in back <==> x in zones) &&
      (z !in zones ==> back == zones)
  {
    if z !in zones {
      FilterAppend(zones, [z], (x: Zone) => x != z);
      FilterAll(zones, (x: Zone) => x != z);
      assert Filter([z], (x: Zone) => x != z) == [];
    }
  }

  /** What the form holds. `courier` is `None` while the courier selector
      still shows its empty choice. */
  datatype NewUserForm = NewUserForm(
    name: string,
    username: string,
    email: string,
    password: string,
    role: Role,
    zones: seq<Zone>,
    courier: Option<CourierName>)

  /** The form as first shown and as reset after a create. */
  const EmptyForm := NewUserForm([], [], [], [], Logistica, [], None)

  /** The three rejections, each shown as an error toast. */
  datatype FormError = MissingFields | MissingZone | MissingCourier

  /** The data handed to the account-creation call. */
  datatype NewUser = NewUser(
    name: string,
    username: string,
    email: string,
    password: string,
    role: Role,
    zones: Option<seq<Zone>>,
    courierName: Option<CourierName>)

  predicate AnyBlank(f: NewUserForm) {
    Blank(f.name) || Blank(f.email) || Blank(f.password) || Blank(f.username)
  }

  /** The checks of the submit handler, in the order they run, and the data
      built when all pass. */
  function SubmitOutcome(f: NewUserForm): (r: Result<NewUser, FormError>)
    ensures r == Failure(MissingFields) <==> AnyBlank(f)
    ensures r == Failure(MissingZone) <==>
      !AnyBlank(f) && f.role == Logistica && f.zones == []
    ensures r == Failure(MissingCourier) <==>
      !AnyBlank(f) && f.role == Domiciliario && f.courier.None?
    ensures r.Success? ==> r.value.role == f.role && r.value.password == f.password
  {
    if AnyBlank(f) then Failure(MissingFields)
    else if f.role == Logistica && |f.zones| == 0 then Failure(MissingZone)
    else if f.role == Domiciliario && f.courier.None? then Failure(MissingCourier)
    else
      var base := NewUser(Trim(f.name), Lower(Trim(f.username)), Trim(f.email),
                          f.password, f.role, None, None);
      Success(
        if f.role == Logistica then base.(zones := Some(f.zones))
        else if f.role == Domiciliario then base.(courierName := f.courier)
        else base)
  }

  /** Whatever is sent has a non-blank name, e-mail and password, a
      non-empty username already in lower case, and the zones or courier
      its role needs; nothing else is attached. */
  lemma {:induction false} SubmittedUserWellFormed(f: NewUserForm)
    requires SubmitOutcome(f).Success?
    ensures var u := SubmitOutcome(f).value;
      u.name != [] && u.email != [] && !Blank(u.password) && u.username != [] &&
      Lower(u.username) == u.username &&
      (u.role == Logistica <==> u.zones.Some?) &&
      (u.zones.Some? ==> u.zones.value != [] && u.zones.value == f.zones) &&
      (u.role == Domiciliario <==> u.courierName.Some?) &&
      (u.courierName.Some? ==> u.courierName == f.courier)
  {
    LowerIdempotent(Trim(f.username));
  }

  /** A Superadmin account is sent with neither zones nor courier, whatever
      was ticked or chosen before the role was switched. */
  lemma {:induction false} SuperadminCarriesNoAssignment(f: NewUserForm)
    requires f.role == Superadmin && !AnyBlank(f)
    ensures SubmitOutcome(f).Success?
    ensures SubmitOutcome(f).value.zones.None? && SubmitOutcome(f).value.courierName.None?
  {
  }

  /** Surrounding spaces in the name, e-mail and username and the case of
      the username make no difference to what is sent. */
  lemma {:induction false} SubmitIgnoresPadding(f: NewUserForm, g: NewUserForm)
    requires Trim(f.name) == Trim(g.name) && Trim(f.email) == Trim(g.email)
    requires Lower(Trim(f.username)) == Lower(Trim(g.username))
    requires Trim(f.username) == [] <==> Trim(g.username) == []
    requires f.password == g.password && f.role == g.role
    requires f.zones == g.zones && f.courier == g.courier
    ensures SubmitOutcome(f) == SubmitOutcome(g)
  {
  }

  /** The form's state, updated in place by its handlers. */
  class NewUserFormState {
    var name: string
    var username: string
    var email: string
    var password: string
    var role: Role
    var zones: seq<Zone>
    var courier: Option<CourierName>

    function Form(): NewUserForm
      reads this
    {
      NewUserForm(name, username, email, password, role, zones, courier)
    }

    constructor()
      ensures Form() == EmptyForm
    {
      name, username, email, password := [], [], [], [];
      role, zones, courier := Logistica, [], None;
    }

    /** `handleZoneChange`. */
    method ZoneChange(z: Zone)
      modifies this
      ensures zones == ToggleZone(old(zones), z)
      ensures Form() == old(Form()).(zones := zones)
    {
      if z in zones {
        zones := Without(zones, z);
      } else {
        zones := zones + [z];
      }
    }

    /** The reset that follows a successful create. */
    method Reset()
      modifies this
      ensures Form() == EmptyForm
    {
      name, username, email, password := [], [], [], [];
      role, zones, courier := Logistica, [], None;
    }

    /** `handleSubmit`. `created` is whether the account-creation call
        succeeded; the form is cleared only then. */
    method Submit(created: bool) returns (r: Result<NewUser, FormError>)
      modifies this
      ensures r == SubmitOutcome(old(Form()))
      ensures r.Success? && created ==> Form() == EmptyForm
      ensures !(r.Success? && created) ==> Form() == old(Form())
    {
      if AnyBlank(Form()) {
        r := Failure(MissingFields);
      } else if role == Logistica && |zones| == 0 {
        r := Failure(MissingZone);
      } else if role == Domiciliario && courier.None? {
        r := Failure(MissingCourier);
      } else {
        var user := NewUser(Trim(name), Lower(Trim(username)), Trim(email),
                            password, role, None, None);
        if role == Logistica {
          user := user.(zones := Some(zones));
        } else if role == Domiciliario {
          user := user.(courierName := courier);
        }
        r := Success(user);
      }
      if r.Success? && created {
        Reset();
      }
    }
  }
}

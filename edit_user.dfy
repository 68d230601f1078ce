/** The "edit user" window: the form filled from the user being edited, the
    zone checkboxes, the lower-cased username input and the update sent on
    save. */
module EditUser {
  import opened Wrappers
  import opened Types
  import opened Text
  import opened Constants
  import opened Seqs
  import UserManagement

  /** What the window holds; `courier` is `None` while the courier selector
      shows its empty choice. */
  datatype EditForm = EditForm(
    name: string,
    username: string,
    role: Role,
    zones: seq<Zone>,
    courier: Option<CourierName>)

  /** The window as opened on `u`: a user without zones starts with none
      ticked, one without a courier on the empty choice. */
  function OpenEditor(u: User): (f: EditForm)
    ensures f.name == u.name && f.username == u.username && f.role == u.role
    ensures forall z :: z in f.zones <==> u.zones.Some? && z in u.zones.value
    ensures NoDuplicates(f.zones)
    ensures f.courier == u.courierName
  {
    EditForm(u.name, u.username, u.role, Distinct(u.zones.GetOr([])), u.courierName)
  }

  /** How the update treats the courier: given as `undefined`, or written
      with the selector's value, where `None` is the empty string. */
  datatype CourierUpdate = ClearCourier | SetCourier(choice: Option<CourierName>)

  /** The update sent for the user; `zones == None` is a zones field given
      as `undefined`. */
  datatype UserUpdate = UserUpdate(
    name: string,
    username: string,
    role: Role,
    zones: Option<seq<Zone>>,
    courier: CourierUpdate)

  /** The update built on save, as written: the courier selector's value is
      written for a Domiciliario even when it is still the empty choice. */
  function SaveUpdate(f: EditForm): (u: UserUpdate)
    ensures u.name == f.name && u.username == f.username && u.role == f.role
    ensures u.zones.Some? <==> f.role == Logistica
    ensures u.zones.Some? ==> u.zones.value == f.zones
    ensures u.courier.SetCourier? <==> f.role == Domiciliario
    ensures u.courier.SetCourier? ==> u.courier.choice == f.courier
  {
    var base := UserUpdate(f.name, f.username, f.role, None, ClearCourier);
    if f.role == Logistica then base.(zones := Some(f.zones))
    else if f.role == Domiciliario then base.(courier := SetCourier(f.courier))
    else base
  }

  /** The update never carries both zones and a courier: whatever was
      ticked or chosen for another role before the role was switched is
      given as `undefined`. */
  lemma {:induction false} SaveKeepsOneAssignment(f: EditForm)
    ensures SaveUpdate(f).zones.None? || SaveUpdate(f).courier == ClearCourier
    ensures f.role == Superadmin ==>
      SaveUpdate(f).zones.None? && SaveUpdate(f).courier == ClearCourier
  {
  }

  /** For a Domiciliario whose courier was never chosen, the update handed
      to the save call carries the empty string as courier, although the
      creation form rejects such a user and the selector is marked
      required. */
  lemma {:induction false} CourierlessDomiciliarySaved()
    ensures var f := EditForm("Ana", "ana", Domiciliario, [], None);
      SaveUpdate(f).courier == SetCourier(None) &&
      UserManagement.SubmitOutcome(UserManagement.NewUserForm("Ana", "ana", "a@b.co", "secret", Domiciliario, [], None))
        == Failure(UserManagement.MissingCourier)
  {
    SolidHeadNotBlank("Ana");
    SolidHeadNotBlank("ana");
    SolidHeadNotBlank("a@b.co");
    SolidHeadNotBlank("secret");
  }

  /** The save with the check the creation form makes: a Domiciliario
      without a courier is rejected, and nothing else changes. */
  function SaveChecked(f: EditForm): (r: Result<UserUpdate, UserManagement.FormError>)
    ensures r.Failure? <==> f.role == Domiciliario && f.courier.None?
    ensures r.Failure? ==> r.error == UserManagement.MissingCourier
    ensures r.Success? ==> r.value == SaveUpdate(f)
  {
    if f.role == Domiciliario && f.courier.None? then Failure(UserManagement.MissingCourier)
    else Success(SaveUpdate(f))
  }

  /** With the check, every Domiciliario is saved with a courier. */
  lemma {:induction false} CheckedSaveHasCourier(f: EditForm)
    requires SaveChecked(f).Success? && f.role == Domiciliario
    ensures SaveChecked(f).value.courier.SetCourier?
    ensures SaveChecked(f).value.courier.choice.Some?
  {
  }

  /** The username input keeps only lower case: whatever is typed, the
      field holds text that lower-casing leaves unchanged. */
  function UsernameTyped(typed: string): (r: string)
    ensures |r| == |typed|
    ensures Lower(r) == r
  {
    LowerIdempotent(typed);
    Lower(typed)
  }

  /** The window's state, updated in place by its inputs. */
  class EditUserState {
    var name: string
    var username: string
    var role: Role
    var zones: seq<Zone>
    var courier: Option<CourierName>

    function Form(): EditForm
      reads this
    {
      EditForm(name, username, role, zones, courier)
    }

    /** The state set from the user being edited. */
    constructor(u: User)
      ensures Form() == OpenEditor(u)
    {
      name, username, role := u.name, u.username, u.role;
      zones := Distinct(u.zones.GetOr([]));
      courier := u.courierName;
    }

    /** `handleZoneChange`, the same toggle as on the creation form. */
    method ZoneChange(z: Zone)
      modifies this
      ensures zones == UserManagement.ToggleZone(old(zones), z)
      ensures Form() == old(Form()).(zones := zones)
    {
      if z in zones {
        zones := UserManagement.Without(zones, z);
      } else {
        zones := zones + [z];
      }
    }

    /** The username input. */
    method UsernameInput(typed: string)
      modifies this
      ensures username == UsernameTyped(typed)
      ensures Form() == old(Form()).(username := username)
    {
      username := Lower(typed);
    }

    /** `handleSave`: the update handed to the save call. */
    method Save() returns (u: UserUpdate)
      ensures u == SaveUpdate(Form())
    {
      u := UserUpdate(name, username, role, None, ClearCourier);
      if role == Logistica {
        u := u.(zones := Some(zones));
      } else if role == Domiciliario {
        u := u.(courier := SetCourier(courier));
      }
    }
  }
}

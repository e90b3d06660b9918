/**
 * The profile editor: the fields filled from the profile and the sensitive
 * record, the validity rule, and Save, which sends both updates together. The
 * two reads and the two updates are inputs: each pair succeeds or fails as
 * one.
 */
module EditProfile {
  import opened Wrappers
  import opened Text
  import opened Entities

  /** The sensitive record; only its phone is read. */
  datatype Sensitive = Sensitive(phone: Option<string>)

  /** The pair of reads at mount. */
  datatype HydrateResult = Hydrated(profile: Option<Profile>, sensitive: Option<Sensitive>) | HydrateFailed

  /** `a || b || ''` over two optional texts. */
  function FirstText(a: Option<string>, b: Option<string>): (r: string)
    ensures TextTruthy(a) ==> r == a.value
    ensures !TextTruthy(a) && TextTruthy(b) ==> r == b.value
    ensures !TextTruthy(a) && !TextTruthy(b) ==> r == ""
  {
    if TextTruthy(a) then a.value else if TextTruthy(b) then b.value else ""
  }

  /** The profile is valid when the trimmed name has more than two characters
      and the trimmed vehicle more than three. */
  predicate IsValid(name: string, vehicle: string)
    ensures IsValid(name, vehicle) ==> |name| > 2 && |vehicle| > 3
  {
    |Trim(name)| > 2 && |Trim(vehicle)| > 3
  }

  /** The Save button. */
  predicate SaveDisabled(name: string, vehicle: string, loading: bool) {
    !IsValid(name, vehicle) || loading
  }

  function NameOf(p: Option<Profile>): Option<string> { if p.Some? then p.value.name else None }
  function PhoneOf(p: Option<Profile>): Option<string> { if p.Some? then p.value.phone else None }
  function VehicleOf(p: Option<Profile>): Option<string> { if p.Some? then p.value.vehicle else None }
  function VehicleNumberOf(p: Option<Profile>): Option<string> { if p.Some? then p.value.vehicleNumber else None }
  function SensitivePhoneOf(s: Option<Sensitive>): Option<string> { if s.Some? then s.value.phone else None }

  /** The two update requests Save sends: name and vehicle as typed, untrimmed,
      and the phone. */
  datatype Updates = Updates(name: string, vehicle: string, phone: string)

  /** How a tap on Save ends. */
  datatype SaveOutcome = NotValid | Updated(sent: Updates) | UpdateFailed(sent: Updates)

  class Screen {
    var name: string
    var phone: string
    var vehicle: string
    var loading: bool

    constructor()
      ensures name == "" && phone == "" && vehicle == "" && !loading
    {
      name := "";
      phone := "";
      vehicle := "";
      loading := false;
    }

    /** `hydrate`: name from the profile; vehicle from `vehicle`, else
        `vehicleNumber`; phone from the sensitive record, else the profile; ""
        when none is set. A failed read leaves the fields as they were. */
    method Hydrate(res: HydrateResult)
      modifies this
      ensures res.Hydrated? ==> name == FirstText(NameOf(res.profile), None)
      ensures res.Hydrated? ==> vehicle == FirstText(VehicleOf(res.profile), VehicleNumberOf(res.profile))
      ensures res.Hydrated? ==> phone == FirstText(SensitivePhoneOf(res.sensitive), PhoneOf(res.profile))
      ensures res.HydrateFailed? ==> name == old(name) && phone == old(phone) && vehicle == old(vehicle)
      ensures loading == old(loading)
    {
      if res.Hydrated? {
        name := FirstText(NameOf(res.profile), None);
        vehicle := FirstText(VehicleOf(res.profile), VehicleNumberOf(res.profile));
        phone := FirstText(SensitivePhoneOf(res.sensitive), PhoneOf(res.profile));
      }
    }

    method SetName(text: string)
      modifies this
      ensures name == text && phone == old(phone) && vehicle == old(vehicle) && loading == old(loading)
    {
      name := text;
    }

    method SetVehicle(text: string)
      modifies this
      ensures vehicle == text && phone == old(phone) && name == old(name) && loading == old(loading)
    {
      vehicle := text;
    }

    /** `handleSave`: nothing for an invalid profile; otherwise both updates,
        with loading cleared whether they succeed or fail. */
    method HandleSave(updatesOk: bool) returns (outcome: SaveOutcome)
      modifies this
      ensures outcome == NotValid <==> !IsValid(name, vehicle)
      ensures outcome.Updated? <==> IsValid(name, vehicle) && updatesOk
      ensures !outcome.NotValid? ==> outcome.sent == Updates(name, vehicle, phone) && !loading
      ensures outcome.NotValid? ==> loading == old(loading)
      ensures name == old(name) && phone == old(phone) && vehicle == old(vehicle)
    {
      if !IsValid(name, vehicle) {
        return NotValid;
      }
      loading := true;
      var sent := Updates(name, vehicle, phone);
      outcome := if updatesOk then Updated(sent) else UpdateFailed(sent);
      loading := false;
    }
  }

  /** A profile that only carries `vehicleNumber` still fills the vehicle, and
      the sensitive phone wins over the profile's. */
  lemma HydrateFallbacks(p: Profile, s: Sensitive)
    requires !TextTruthy(p.vehicle) && TextTruthy(p.vehicleNumber) && TextTruthy(s.phone)
    ensures FirstText(VehicleOf(Some(p)), VehicleNumberOf(Some(p))) == p.vehicleNumber.value
    ensures FirstText(SensitivePhoneOf(Some(s)), PhoneOf(Some(p))) == s.phone.value
  {
  }

  /** Padding never makes a profile valid: validity depends on the trimmed text
      alone. */
  lemma ValidityIgnoresPadding(w1: string, name: string, w2: string, vehicle: string)
    requires AllSpace(w1) && AllSpace(w2)
    ensures IsValid(w1 + name + w2, vehicle) <==> IsValid(name, vehicle)
    ensures IsValid(name, w1 + vehicle + w2) <==> IsValid(name, vehicle)
  {
    TrimIgnoresOuterSpace(w1, name, w2);
    TrimIgnoresOuterSpace(w1, vehicle, w2);
  }

  /** Validation looks at the trimmed text, but the update sends the text as
      typed: a valid name typed after white space is accepted and reaches the
      server with that white space in front. */
  method PaddingIsSent(w: string, name: string, vehicle: string) returns (outcome: SaveOutcome)
    requires w != [] && AllSpace(w) && IsValid(name, vehicle)
    ensures outcome == Updated(Updates(w + name, vehicle, ""))
    ensures outcome.sent.name != name && outcome.sent.name[|w|..] == name
  {
    var s := new Screen();
    s.SetName(w + name);
    s.SetVehicle(vehicle);
    assert w + name + "" == w + name;
    ValidityIgnoresPadding(w, name, "", vehicle);
    outcome := s.HandleSave(true);
  }

  /** A tap on an enabled Save button always sends the update: the button's rule
      implies the handler's validity gate. */
  method TapEnabledSave(s: Screen, updatesOk: bool) returns (outcome: SaveOutcome)
    requires !SaveDisabled(s.name, s.vehicle, s.loading)
    modifies s
    ensures !outcome.NotValid? && outcome.sent == Updates(s.name, s.vehicle, s.phone)
    ensures outcome.Updated? <==> updatesOk
    ensures !s.loading
  {
    outcome := s.HandleSave(updatesOk);
  }
}

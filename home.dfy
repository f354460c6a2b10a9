/**
 * The home screen's profile form: five text fields, a validator that trims
 * each of them, and a submit that stores the form under `userProfile`
 * before navigating.
 */
module Home {
  import opened Entities
  import opened KeyValue
  import opened Text
  import Buyers

  const ProfileKey: string := "userProfile"

  datatype ProfileField = Name | Phone | Address | Father | Mother

  function Field(p: Profile, key: ProfileField): string {
    match key
    case Name => p.name
    case Phone => p.phone
    case Address => p.address
    case Father => p.father
    case Mother => p.mother
  }

  /** `handleChange(key, value)`: `{ ...form, [key]: value }`. */
  function WithField(p: Profile, key: ProfileField, value: string): (r: Profile)
    ensures Field(r, key) == value
    ensures forall k :: k != key ==> Field(r, k) == Field(p, k)
  {
    match key
    case Name => p.(name := value)
    case Phone => p.(phone := value)
    case Address => p.(address := value)
    case Father => p.(father := value)
    case Mother => p.(mother := value)
  }

  /** `Object.values(form)`, in the order the fields were declared. */
  function Values(p: Profile): (vs: seq<string>)
    ensures |vs| == 5
    ensures forall k :: Field(p, k) in vs
    ensures forall i :: 0 <= i < |vs| ==> exists k :: vs[i] == Field(p, k)
  {
    var vs := [p.name, p.phone, p.address, p.father, p.mother];
    assert forall i :: 0 <= i < |vs| ==> vs[i] == Field(p, [Name, Phone, Address, Father, Mother][i]);
    vs
  }

  /** `values.every(value => value.trim() !== '')` */
  function Every(vs: seq<string>): (ok: bool)
    ensures ok <==> forall i :: 0 <= i < |vs| ==> !Blank(vs[i])
  {
    if vs == [] then true
    else
      assert forall i :: 1 <= i < |vs| ==> vs[i] == vs[1..][i - 1];
      Trim(vs[0]) != "" && Every(vs[1..])
  }

  /** `validateForm()`: every field is non-empty after trimming, so a field
      of spaces only fails. */
  function ValidateForm(p: Profile): (ok: bool)
    ensures ok <==> forall k :: !Blank(Field(p, k))
  {
    var vs := Values(p);
    assert forall i :: 0 <= i < |vs| ==> vs[i] == Field(p, [Name, Phone, Address, Father, Mother][i]);
    Every(vs)
  }

  datatype SubmitOutcome = Invalid | Navigated | StorageError

  /** `handleSubmit()` on the store; `writeOk` says whether `setItem` succeeds. */
  function Submit(form: Profile, m: Entries, writeOk: bool): (r: (SubmitOutcome, Entries))
    // Navigation happens only after a valid form was stored.
    ensures r.0 == Navigated <==> ValidateForm(form) && writeOk
    ensures r.0 == Invalid <==> !ValidateForm(form)
    ensures r.0 == Navigated ==> r.1 == m[ProfileKey := ProfileRecord(form)]
    // An invalid form or a failed write leaves the store as it was.
    ensures r.0 != Navigated ==> r.1 == m
  {
    if !ValidateForm(form) then (Invalid, m)
    else if !writeOk then (StorageError, m)
    else (Navigated, m[ProfileKey := ProfileRecord(form)])
  }

  /** The two forms disagree on blank fields: a buyer whose fields are all
      spaces is accepted, a profile whose fields are all spaces is not. */
  lemma SpacesPassBuyerButNotProfile()
    ensures Buyers.Filled(Buyer(" ", " ", " ", " "))
    ensures !ValidateForm(Profile(" ", " ", " ", " ", " "))
  {
    assert Blank(Field(Profile(" ", " ", " ", " ", " "), Name));
  }

  class HomeScreen {
    var form: Profile
    const storage: Storage

    constructor (storage: Storage)
      ensures this.storage == storage && form == Profile("", "", "", "", "")
    {
      this.storage := storage;
      form := Profile("", "", "", "", "");
    }

    method HandleChange(key: ProfileField, value: string)
      modifies this
      ensures form == WithField(old(form), key, value)
    {
      form := WithField(form, key, value);
    }

    method HandleSubmit(writeOk: bool) returns (outcome: SubmitOutcome)
      modifies storage
      ensures (outcome, storage.entries) == Submit(form, old(storage.entries), writeOk)
    {
      if !ValidateForm(form) {
        return Invalid;
      }
      if !writeOk {
        return StorageError;
      }
      storage.SetItem(ProfileKey, ProfileRecord(form));
      return Navigated;
    }
  }
}

/**
 * The buyer list screen: a four-field form, a presence check, and an
 * append-only buyer list saved under `@buyers` before the screen's own
 * state is updated.
 */
module Buyers {
  import opened Entities
  import opened KeyValue

  const BuyersKey: string := "@buyers"

  /** The form's field names. */
  datatype BuyerField = Name | Address | Phone | Email

  function Field(b: Buyer, key: BuyerField): string {
    match key
    case Name => b.name
    case Address => b.address
    case Phone => b.phone
    case Email => b.email
  }

  /** `handleChange(key, value)`: `{ ...form, [key]: value }`. */
  function WithField(b: Buyer, key: BuyerField, value: string): (r: Buyer)
    ensures Field(r, key) == value
    ensures forall k :: k != key ==> Field(r, k) == Field(b, k)
  {
    match key
    case Name => b.(name := value)
    case Address => b.(address := value)
    case Phone => b.(phone := value)
    case Email => b.(email := value)
  }

  const EmptyForm: Buyer := Buyer("", "", "", "")

  /** `!(!form.name || !form.address || !form.phone || !form.email)`: a plain
      falsy test, so only the empty string fails; no trimming. */
  predicate Filled(b: Buyer)
    ensures Filled(b) <==> forall k :: Field(b, k) != ""
  {
    assert Field(b, Name) == b.name && Field(b, Address) == b.address &&
           Field(b, Phone) == b.phone && Field(b, Email) == b.email;
    b.name != "" && b.address != "" && b.phone != "" && b.email != ""
  }

  datatype AddOutcome = Incomplete | Added | SaveFailed

  /** What adding a buyer reads and changes. */
  datatype BuyerScreen = BuyerScreen(buyers: seq<Buyer>, form: Buyer, entries: Entries)

  datatype AddResult = AddResult(outcome: AddOutcome, after: BuyerScreen)

  /** `handleAddBuyer()`; `writeOk` says whether `setItem` succeeds. */
  function AddBuyer(st: BuyerScreen, writeOk: bool): (r: AddResult)
    // A missing field: nothing appended, nothing written.
    ensures !Filled(st.form) ==> r.outcome == Incomplete && r.after == st
    ensures r.outcome == Incomplete <==> !Filled(st.form)
    // A successful write: the list grows by the form at the end and the form resets.
    ensures r.outcome == Added <==> Filled(st.form) && writeOk
    ensures r.outcome == Added ==>
      r.after.buyers == st.buyers + [st.form] && r.after.form == EmptyForm &&
      r.after.entries == st.entries[BuyersKey := BuyerList(st.buyers + [st.form])]
    // A failed write: list, form and store unchanged.
    ensures r.outcome != Added ==> r.after == st
  {
    if !Filled(st.form) then AddResult(Incomplete, st)
    else if !writeOk then AddResult(SaveFailed, st)
    else
      var newBuyers := st.buyers + [st.form];
      AddResult(Added, BuyerScreen(newBuyers, EmptyForm, st.entries[BuyersKey := BuyerList(newBuyers)]))
  }

  /** `loadBuyers()`: a truthy stored list replaces the screen's list, a
      missing key empties it, a failed read or parse leaves it as it was. */
  function LoadedBuyers(stored: Option<Doc>, readOk: bool, current: seq<Buyer>): (r: seq<Buyer>)
    ensures !readOk ==> r == current
    ensures readOk && (stored == None || stored == Some(Raw(""))) ==> r == []
    ensures readOk && stored.Some? && stored.value.BuyerList? ==> r == stored.value.buyers
    ensures r == current || r == [] || (stored.Some? && stored.value.BuyerList? && r == stored.value.buyers)
  {
    if !readOk then current
    else if !Truthy(stored) then []
    else if stored.value.BuyerList? then stored.value.buyers
    else current
  }

  /** A saved list reads back as the same list. */
  lemma SaveThenLoadBuyers(st: BuyerScreen, writeOk: bool, current: seq<Buyer>)
    requires AddBuyer(st, writeOk).outcome == Added
    ensures LoadedBuyers(Get(AddBuyer(st, writeOk).after.entries, BuyersKey), true, current) ==
            st.buyers + [st.form]
  {
  }

  class BuyerListScreen {
    var buyers: seq<Buyer>
    var form: Buyer
    const storage: Storage

    constructor (storage: Storage)
      ensures this.storage == storage && buyers == [] && form == EmptyForm
    {
      this.storage := storage;
      buyers := [];
      form := EmptyForm;
    }

    ghost function State(): BuyerScreen
      reads this, storage
    {
      BuyerScreen(buyers, form, storage.entries)
    }

    /** On focus. */
    method LoadBuyers(readOk: bool)
      modifies this
      ensures buyers == LoadedBuyers(Get(storage.entries, BuyersKey), readOk, old(buyers))
      ensures form == old(form)
    {
      if !readOk {
        return;
      }
      var data := Get(storage.entries, BuyersKey);
      if Truthy(data) {
        if data.value.BuyerList? {
          buyers := data.value.buyers;
        }
      } else {
        buyers := [];
      }
    }

    method HandleChange(key: BuyerField, value: string)
      modifies this
      ensures form == WithField(old(form), key, value)
      ensures buyers == old(buyers)
    {
      form := WithField(form, key, value);
    }

    method HandleAddBuyer(writeOk: bool) returns (outcome: AddOutcome)
      modifies this, storage
      ensures AddResult(outcome, State()) == AddBuyer(old(State()), writeOk)
    {
      if !(form.name != "" && form.address != "" && form.phone != "" && form.email != "") {
        return Incomplete;
      }
      var newBuyers := buyers + [form];
      if !writeOk {
        return SaveFailed;
      }
      storage.SetItem(BuyersKey, BuyerList(newBuyers));
      buyers := newBuyers;
      form := EmptyForm;
      return Added;
    }
  }
}

/**
 * The form-state persistence of lib/validate-form-persistence.js over its
 * in-memory `localStorage` stand-in: a record with the form data, a timestamp,
 * the format version and the form id is saved under a key derived from the form
 * id, and loading returns the saved data or nothing.
 *
 * `JSON.stringify` and `JSON.parse` are taken to round-trip exactly, so the
 * store holds the records themselves; the clock reading is a parameter. The
 * store's `value.toString()` and the `|| null` on an empty stored text are
 * therefore not modelled: a stored record is never the empty string.
 */
module FormPersistence {
  import opened Js
  import opened Strings

  const FormStateVersion := "1.0.0"
  const KeyPrefix := "ramservis_form_state_"

  /** Form data: field name to value. */
  type FormData = map<string, string>

  /** The validation metadata the third scenario saves alongside the data. */
  datatype Validation = Validation(isValid: bool, errors: seq<string>, completionPercentage: int)

  datatype PersistedState = PersistedState(
    data: FormData,
    timestamp: int,
    version: string,
    formId: string,
    validation: Option<Validation>)

  /** `` `ramservis_form_state_${formId}` ``. */
  function StorageKey(formId: string): (k: string)
    ensures StartsWith(k, KeyPrefix)
    ensures k[|KeyPrefix|..] == formId
  {
    KeyPrefix + formId
  }

  /** Different forms never share a key. */
  lemma StorageKeyInjective(a: string, b: string)
    ensures StorageKey(a) == StorageKey(b) <==> a == b
  {
    if StorageKey(a) == StorageKey(b) {
      assert a == StorageKey(a)[|KeyPrefix|..];
    }
  }

  /** `localStorageMock`: an object whose `store` is replaced or updated in place. */
  class LocalStorageMock {
    var store: map<string, PersistedState>

    constructor()
      ensures store == map[]
    {
      store := map[];
    }

    /** `getItem(key)`: the stored value, or `null`. */
    function GetItem(key: string): (r: Option<PersistedState>)
      reads this
      ensures r.Some? <==> key in store
      ensures r.Some? ==> r.value == store[key]
    {
      if key in store then Some(store[key]) else None
    }

    method SetItem(key: string, value: PersistedState)
      modifies this
      ensures store == old(store)[key := value]
    {
      store := store[key := value];
    }

    method RemoveItem(key: string)
      modifies this
      ensures store == old(store) - {key}
    {
      store := store - {key};
    }

    method Clear()
      modifies this
      ensures store == map[]
    {
      store := map[];
    }
  }

  /** `loadFormState(formId)`: the data saved for the form, or `null`. */
  function LoadFormState(ls: LocalStorageMock, formId: string): (r: Option<FormData>)
    reads ls
    ensures r.None? <==> StorageKey(formId) !in ls.store
    ensures r.Some? ==> r.value == ls.store[StorageKey(formId)].data
  {
    var stored := ls.GetItem(StorageKey(formId));
    if stored.None? then None else Some(stored.value.data)
  }

  /**
   * `saveFormState(formId, data)`: store the record under the form's key and
   * report success. Loading the same form gives the data back, and every other
   * form loads as before.
   */
  method SaveFormState(ls: LocalStorageMock, formId: string, data: FormData, now: int) returns (ok: bool)
    modifies ls
    ensures ok
    ensures ls.store == old(ls.store)[StorageKey(formId) := PersistedState(data, now, FormStateVersion, formId, None)]
    ensures LoadFormState(ls, formId) == Some(data)
    ensures forall other :: other != formId ==> LoadFormState(ls, other) == old(LoadFormState(ls, other))
  {
    var storageKey := StorageKey(formId);
    var persistedState := PersistedState(data, now, FormStateVersion, formId, None);
    ls.SetItem(storageKey, persistedState);
    forall other | other != formId
      ensures LoadFormState(ls, other) == old(LoadFormState(ls, other))
    {
      StorageKeyInjective(other, formId);
    }
    return true;
  }

  /** `saveFormStateWithValidation`: the same record with the validation metadata attached. */
  method SaveFormStateWithValidation(ls: LocalStorageMock, formId: string, data: FormData, validation: Validation,
                                     now: int) returns (ok: bool)
    modifies ls
    ensures ok
    ensures ls.store == old(ls.store)[StorageKey(formId) :=
      PersistedState(data, now, FormStateVersion, formId, Some(validation))]
    ensures LoadFormState(ls, formId) == Some(data)
    ensures forall other :: other != formId ==> LoadFormState(ls, other) == old(LoadFormState(ls, other))
  {
    var storageKey := StorageKey(formId);
    ls.SetItem(storageKey, PersistedState(data, now, FormStateVersion, formId, Some(validation)));
    forall other | other != formId
      ensures LoadFormState(ls, other) == old(LoadFormState(ls, other))
    {
      StorageKeyInjective(other, formId);
    }
    return true;
  }

  /** A stored record carries the current version and the id of the form it belongs to. */
  predicate RecordsWellFormed(ls: LocalStorageMock)
    reads ls
  {
    forall k :: k in ls.store ==>
      ls.store[k].version == FormStateVersion && StorageKey(ls.store[k].formId) == k
  }

  /** Both save operations keep every record well formed. */
  method SaveKeepsRecordsWellFormed(ls: LocalStorageMock, formId: string, data: FormData,
                                    validation: Option<Validation>, now: int)
    requires RecordsWellFormed(ls)
    modifies ls
    ensures RecordsWellFormed(ls)
  {
    if validation.Some? {
      var _ := SaveFormStateWithValidation(ls, formId, data, validation.value, now);
    } else {
      var _ := SaveFormState(ls, formId, data, now);
    }
  }

  /**
   * The five scenarios of the script on a fresh store: save/load of a small
   * record, save/load of a booking, validation metadata read back, a form never
   * saved, and a second load after a save. Each check is true.
   */
  method ValidationScenarios(now: int) returns (checks: seq<bool>)
    ensures |checks| == 7 && forall i :: 0 <= i < |checks| ==> checks[i]
  {
    var ls := new LocalStorageMock();
    var testData := map["name" := "Test User", "email" := "test@example.com"];
    var saveSuccess := SaveFormState(ls, "test-form", testData, now);
    var loadedData := LoadFormState(ls, "test-form");

    var bookingData := map["firstName" := "Əli", "lastName" := "Məmmədov", "email" := "ali@example.com",
                           "phone" := "+994501234567", "carId" := "car-1", "pickupDate" := "2024-01-15",
                           "dropoffDate" := "2024-01-20", "paymentMethod" := "online"];
    var bookingSaveSuccess := SaveFormState(ls, "booking_car-1", bookingData, now);
    var loadedBookingData := LoadFormState(ls, "booking_car-1");

    var validationData := Validation(true, [], 100);
    var validationSaveSuccess := SaveFormStateWithValidation(ls, "test-validation", testData, validationData, now);
    var storedWithValidation := ls.GetItem(StorageKey("test-validation"));

    var nonExistentData := LoadFormState(ls, "non-existent-form");
    assert StorageKey("non-existent-form") !in ls.store by {
      StorageKeyInjective("non-existent-form", "test-form");
      StorageKeyInjective("non-existent-form", "booking_car-1");
      StorageKeyInjective("non-existent-form", "test-validation");
    }

    var sessionData := map["sessionId" := "session-123", "userId" := "user-456"];
    var _ := SaveFormState(ls, "session-test", sessionData, now);
    var afterReload := LoadFormState(ls, "session-test");

    checks := [
      saveSuccess,
      loadedData == Some(testData),
      bookingSaveSuccess && loadedBookingData == Some(bookingData),
      validationSaveSuccess,
      storedWithValidation.Some? && storedWithValidation.value.validation.Some? &&
        storedWithValidation.value.validation.value.isValid,
      nonExistentData.None?,
      afterReload == Some(sessionData)
    ];
  }
}

/**
 * The scanning screen (components/Scanner.tsx): its mode machine (menu,
 * camera scan, manual entry, the ticket form, success), the lookup that
 * loads a ticket into the form, the submit that redeems it in the offline
 * store, and reset. Camera handling is not modelled; a decoded QR text
 * arrives at `HandleLookup` like a typed key.
 */
module Scanner {
  import opened Wrappers
  import opened JsStrings
  import opened JsValues
  import opened OfflineService

  datatype Mode = Menu | Scan | Manual | Form | Success

  /** The own properties an object spread copies: those of a plain object, none for `null`/`undefined`. */
  function SpreadFields(v: Value): map<string, Value> {
    if v.Obj? then v.fields else map[]
  }

  /**
   * `initialData`: one form entry per key of an object `user_data`, with a
   * falsy value shown as `""`; nothing for an array or a non-object.
   */
  function InitialFormData(userData: Value): (r: map<string, Value>)
    ensures userData.Obj? ==> r.Keys == userData.fields.Keys
    ensures !userData.Obj? ==> r == map[]
    ensures forall k :: k in r ==> Truthy(r[k]) || r[k] == Str("")
    ensures forall k :: k in r && Truthy(userData.fields[k]) ==> r[k] == userData.fields[k]
    ensures forall k :: k in r && !Truthy(userData.fields[k]) ==> r[k] == Str("")
  {
    if userData.Obj? then
      map k | k in userData.fields :: if Truthy(userData.fields[k]) then userData.fields[k] else Str("")
    else map[]
  }

  /** `{ ...ticket.user_data, ...formData }`: the form wins per key, keys only in the ticket stay. */
  function MergeUserData(userData: Value, formData: map<string, Value>): (r: map<string, Value>)
    ensures r.Keys == SpreadFields(userData).Keys + formData.Keys
    ensures forall k :: k in formData ==> r[k] == formData[k]
    ensures forall k :: k in SpreadFields(userData) && k !in formData ==> r[k] == SpreadFields(userData)[k]
  {
    SpreadFields(userData) + formData
  }

  /**
   * Submitting the form untouched right after lookup keeps the ticket's keys
   * and its truthy values, and writes `""` over its falsy ones.
   */
  lemma UntouchedFormKeepsUserData(fields: map<string, Value>)
    ensures var r := MergeUserData(Obj(fields), InitialFormData(Obj(fields)));
      && r.Keys == fields.Keys
      && (forall k :: k in fields && Truthy(fields[k]) ==> r[k] == fields[k])
      && (forall k :: k in fields && !Truthy(fields[k]) ==> r[k] == Str(""))
  {
  }

  /** The manual-entry field looks a key up once it holds exactly six characters. */
  predicate TriggersLookup(input: string) {
    |input| == 6
  }

  class ScannerScreen {
    var mode: Mode
    var scannedKey: string
    var ticket: Option<LocalTicket>
    var formData: map<string, Value>
    /** The device's offline store the screen reads and redeems into. */
    const store: OfflineStore

    /** The form and success screens are only reached with a ticket loaded. */
    ghost predicate Valid()
      reads this, store
    {
      store.Valid() && ((mode == Form || mode == Success) ==> ticket.Some?)
    }

    constructor (store: OfflineStore)
      requires store.Valid()
      ensures Valid() && this.store == store
      ensures mode == Menu && scannedKey == "" && ticket == None && formData == map[]
    {
      this.store := store;
      mode, scannedKey, ticket, formData := Menu, "", None, map[];
    }

    /**
     * `handleLookup`: the key is upper-cased before the store is asked. A
     * found ticket is loaded into the form; a missing one changes nothing.
     */
    method HandleLookup(key: string)
      requires Valid()
      modifies this
      ensures Valid()
      ensures ToUpper(key) in store.tickets ==>
        var found := store.tickets[ToUpper(key)];
        && mode == Form && ticket == Some(found) && scannedKey == found.qrCode
        && formData == InitialFormData(found.userData)
      ensures ToUpper(key) !in store.tickets ==> unchanged(this)
    {
      var found := store.GetTicket(ToUpper(key));
      if found.Some? {
        ticket := found;
        scannedKey := found.value.qrCode;
        formData := InitialFormData(found.value.userData);
        mode := Form;
      }
    }

    /** The manual-entry `onChange`: a lookup at exactly six characters, nothing otherwise. */
    method OnManualInput(input: string)
      requires Valid()
      modifies this
      ensures Valid()
      ensures TriggersLookup(input) && ToUpper(input) in store.tickets ==>
        var found := store.tickets[ToUpper(input)];
        && mode == Form && ticket == Some(found) && scannedKey == found.qrCode
        && formData == InitialFormData(found.userData)
      ensures !TriggersLookup(input) || ToUpper(input) !in store.tickets ==> unchanged(this)
    {
      if |input| == 6 {
        HandleLookup(input);
      }
    }

    /** Typing into the form field for `key`. */
    method EditField(key: string, value: string)
      requires Valid()
      modifies this
      ensures Valid()
      ensures formData == old(formData)[key := Str(value)]
      ensures mode == old(mode) && ticket == old(ticket) && scannedKey == old(scannedKey)
    {
      formData := formData[key := Str(value)];
    }

    /**
     * `handleSubmit`: with no ticket loaded nothing happens. Otherwise the
     * merged `user_data` is saved through the store's redeem; success moves
     * to the success screen, a failed save stays where it was.
     */
    method HandleSubmit(now: int)
      requires Valid()
      modifies this, store
      ensures Valid()
      ensures old(ticket).None? ==> unchanged(this) && unchanged(store)
      ensures old(ticket).Some? ==>
        var code := old(ticket).value.qrCode;
        var merged := Obj(MergeUserData(old(ticket).value.userData, old(formData)));
        && ticket == old(ticket) && formData == old(formData) && scannedKey == old(scannedKey)
        && store.templates == old(store.templates) && store.syncLog == old(store.syncLog)
        && (code in old(store.tickets) ==>
              mode == Success
              && store.tickets == old(store.tickets)[code := Redeem(old(store.tickets)[code], merged, now)])
        && (code !in old(store.tickets) ==> mode == old(mode) && store.tickets == old(store.tickets))
    {
      if ticket.None? {
        return;
      }
      var updatedUserData := MergeUserData(ticket.value.userData, formData);
      var r := store.ScanTicket(ticket.value.qrCode, Obj(updatedUserData), now);
      if r.Ok? {
        mode := Success;
      }
    }

    /** `handleReset`: back to the menu with nothing loaded. */
    method HandleReset()
      requires Valid()
      modifies this
      ensures Valid()
      ensures mode == Menu && ticket == None && scannedKey == "" && formData == map[]
    {
      mode, ticket, scannedKey, formData := Menu, None, "", map[];
    }

    /** The menu's "Scan QR Code" button. */
    method ChooseScan()
      requires Valid() && mode == Menu
      modifies this
      ensures Valid() && mode == Scan
      ensures ticket == old(ticket) && scannedKey == old(scannedKey) && formData == old(formData)
    {
      mode := Scan;
    }

    /** The menu's "Manual Entry" button. */
    method ChooseManual()
      requires Valid() && mode == Menu
      modifies this
      ensures Valid() && mode == Manual
      ensures ticket == old(ticket) && scannedKey == old(scannedKey) && formData == old(formData)
    {
      mode := Manual;
    }

    /** "Cancel" on the camera screen and "Back" on the manual screen. */
    method BackToMenu()
      requires Valid() && (mode == Scan || mode == Manual)
      modifies this
      ensures Valid() && mode == Menu
      ensures ticket == old(ticket) && scannedKey == old(scannedKey) && formData == old(formData)
    {
      mode := Menu;
    }

    /**
     * The menu's "Sync Now" button: `token` is what the auth provider
     * returned; a missing or empty token is refused. Without a token nothing
     * is pushed.
     */
    method SyncNow(token: Option<string>, push: LocalTicket -> Option<string>, now: int)
      returns (r: Result<SyncSummary>)
      requires Valid()
      modifies store
      ensures Valid()
      ensures !Present(token) ==> r == Err("No authentication token found") && unchanged(store)
      ensures Present(token) ==>
        && r.Ok?
        && r.value.total == |DirtyCodes(old(store.tickets))| == r.value.success + r.value.failed
        && r.value.success == |Pushed(old(store.tickets), push)|
        && r.value.failed == |Rejected(old(store.tickets), push)|
        && |r.value.errors| == r.value.failed && ErrorCodes(r.value.errors) == Rejected(old(store.tickets), push)
        && (forall k :: 0 <= k < |r.value.errors| ==>
              && r.value.errors[k].ticket in old(store.tickets)
              && push(old(store.tickets)[r.value.errors[k].ticket]) == Some(r.value.errors[k].error))
        && store.tickets == MarkSynced(old(store.tickets), Pushed(old(store.tickets), push))
        && store.templates == old(store.templates)
        && store.syncLog == old(store.syncLog) + LogEntries(r.value.errors, now)
    {
      if !Present(token) {
        return Err("No authentication token found");
      }
      var summary := store.SyncSessionData(push, now);
      return Ok(summary);
    }
  }
}

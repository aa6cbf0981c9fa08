/**
 * The `createTemplate` server action (app/dashboard/templates/actions.ts):
 * its authorisation guards, the mapping of the submitted `TemplateData` to
 * the row inserted into `templates`, and the insert failure message. Who is
 * signed in, the token, the active organisation and the insert's outcome
 * are inputs.
 */
module TemplateActions {
  import opened Wrappers
  import opened JsValues

  datatype TicketFormat = Numeric | TimeAllotted
  datatype IssuanceOrder = Sequential | NonSequential
  datatype DeliveryMode = Digital | Paper | Hybrid

  /** One entry of `required_user_fields`. */
  datatype UserField = UserField(fieldLabel: string, fieldType: string)

  /** `time_slots_config` as submitted. */
  datatype SlotsConfig = SlotsConfig(
    startTime: string, endTime: string, slotDuration: int, totalSlots: int, capacityPerSlot: int)

  /** `TemplateData`; optional members are `Option`s. */
  datatype TemplateData = TemplateData(
    name: string,
    ticketFormat: TicketFormat,
    issuanceOrder: IssuanceOrder,
    deliveryMode: DeliveryMode,
    capacity: Option<int>,
    timeSlotsConfig: Option<SlotsConfig>,
    requiredUserFields: seq<UserField>,
    dietaryInfo: Option<string>)

  /** The `time_slots_config` column: the slot numbers only. */
  datatype StoredSlots = StoredSlots(slotDuration: int, totalSlots: int, capacityPerSlot: int)

  /** The inserted row; `None` is SQL `null`. */
  datatype TemplateRow = TemplateRow(
    orgId: string,
    name: string,
    ticketFormat: TicketFormat,
    issuanceOrder: IssuanceOrder,
    deliveryMode: DeliveryMode,
    capacity: Option<int>,
    startTime: Option<string>,
    endTime: Option<string>,
    timeSlotsConfig: Option<StoredSlots>,
    requiredUserFields: seq<UserField>,
    dietaryInfo: Option<string>)

  /** `s || null` for a string. */
  function OrNull(s: string): (r: Option<string>)
    ensures r == None <==> s == ""
    ensures r.Some? ==> r.value == s
  {
    if s == "" then None else Some(s)
  }

  /** The payload object of `createTemplate`. */
  function ToRow(orgId: string, data: TemplateData): (r: TemplateRow)
    // capacity: absent or 0 is stored as null
    ensures r.capacity.Some? <==> data.capacity.Some? && data.capacity.value != 0
    ensures r.capacity.Some? ==> r.capacity == data.capacity
    // start and end time are lifted out of the configuration, null when absent or empty
    ensures r.startTime.Some? <==> data.timeSlotsConfig.Some? && data.timeSlotsConfig.value.startTime != ""
    ensures r.startTime.Some? ==> r.startTime.value == data.timeSlotsConfig.value.startTime
    ensures r.endTime.Some? <==> data.timeSlotsConfig.Some? && data.timeSlotsConfig.value.endTime != ""
    ensures r.endTime.Some? ==> r.endTime.value == data.timeSlotsConfig.value.endTime
    // the stored configuration keeps only the slot numbers
    ensures r.timeSlotsConfig.Some? <==> data.timeSlotsConfig.Some?
    ensures r.timeSlotsConfig.Some? ==>
      var c := data.timeSlotsConfig.value;
      r.timeSlotsConfig.value == StoredSlots(c.slotDuration, c.totalSlots, c.capacityPerSlot)
    // everything else passes through; the organisation comes from the session
    ensures r.orgId == orgId && r.name == data.name && r.ticketFormat == data.ticketFormat
    ensures r.issuanceOrder == data.issuanceOrder && r.deliveryMode == data.deliveryMode
    ensures r.requiredUserFields == data.requiredUserFields && r.dietaryInfo == data.dietaryInfo
  {
    var cfg := data.timeSlotsConfig;
    TemplateRow(
      orgId,
      data.name,
      data.ticketFormat,
      data.issuanceOrder,
      data.deliveryMode,
      if data.capacity.Some? && data.capacity.value != 0 then data.capacity else None,
      if cfg.Some? then OrNull(cfg.value.startTime) else None,
      if cfg.Some? then OrNull(cfg.value.endTime) else None,
      if cfg.Some? then Some(StoredSlots(cfg.value.slotDuration, cfg.value.totalSlots, cfg.value.capacityPerSlot))
      else None,
      data.requiredUserFields,
      data.dietaryInfo)
  }

  /** The submitted configuration read back from a row: a null time is an empty one. */
  function ConfigOfRow(r: TemplateRow): Option<SlotsConfig> {
    match r.timeSlotsConfig
    case None => None
    case Some(s) =>
      Some(SlotsConfig(r.startTime.GetOr(""), r.endTime.GetOr(""), s.slotDuration, s.totalSlots, s.capacityPerSlot))
  }

  /** Splitting the configuration between columns loses nothing: it can be reassembled exactly. */
  lemma ConfigRoundTrip(orgId: string, data: TemplateData)
    ensures ConfigOfRow(ToRow(orgId, data)) == data.timeSlotsConfig
  {
  }

  /** `createTemplate`: the three guards in order, then the insert. */
  function CreateTemplate(
    data: TemplateData, userId: Option<string>, token: Option<string>, orgId: Option<string>,
    insertError: Option<string>): (r: Result<TemplateRow>)
    ensures !Present(userId) ==> r == Err("Unauthorized")
    ensures Present(userId) && !Present(token) ==> r == Err("No Supabase token found")
    ensures Present(userId) && Present(token) && !Present(orgId) ==> r == Err("No Organization selected.")
    ensures Present(userId) && Present(token) && Present(orgId) ==>
      && (insertError.Some? ==> r == Err("Failed to create template: " + insertError.value))
      && (insertError.None? ==> r == Ok(ToRow(orgId.value, data)))
    ensures r.Ok? <==> Present(userId) && Present(token) && Present(orgId) && insertError.None?
  {
    if !Present(userId) then Err("Unauthorized")
    else if !Present(token) then Err("No Supabase token found")
    else if !Present(orgId) then Err("No Organization selected.")
    else if insertError.Some? then Err("Failed to create template: " + insertError.value)
    else Ok(ToRow(orgId.value, data))
  }
}

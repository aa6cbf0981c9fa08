/**
 * The create-template form (app/dashboard/templates/create/page.tsx): its
 * state, the custom-field list edits, the automatic end time of a
 * time-allotted template, and the payload `handleSubmit` sends, with its
 * validation errors. The payload uses the form's own field names
 * (`ticket_type`, `distribution_type`, `max_numeric_tickets`).
 */
module TemplateForm {
  import opened Wrappers
  import opened JsStrings
  import opened SessionActions

  datatype TicketType = Numeric | TimeAllotted
  datatype DistributionType = Sequential | NonSequential

  /** A `number | ''` input: blank, or the number typed. */
  datatype NumInput = Blank | Number(n: int)

  /** JavaScript truthiness of a `number | ''` input. */
  predicate Filled(v: NumInput) {
    v.Number? && v.n != 0
  }

  /** One entry of the custom-field list. */
  datatype CustomField = CustomField(fieldLabel: string, fieldType: string)

  /** The key `updateCustomField` writes. */
  datatype FieldKey = Label | FieldType

  const NewField: CustomField := CustomField("", "text")

  /** `time_slots_config` as the form builds it. */
  datatype FormSlotsConfig = FormSlotsConfig(
    startTime: string, endTime: string, slotDuration: int, totalSlots: int, capacityPerSlot: int)

  /** The object `handleSubmit` passes to `createTemplate`. */
  datatype FormPayload = FormPayload(
    name: string,
    ticketType: TicketType,
    distributionType: DistributionType,
    requiredUserFields: seq<CustomField>,
    maxNumericTickets: Option<int>,
    timeSlotsConfig: Option<FormSlotsConfig>)

  const MaxTicketsRequired := "Max tickets is required for numeric templates."
  const EndTimeRequired := "End time is required."
  const SlotFieldsRequired := "All time slot configuration fields are required."

  /** `totalTicketsAvailable`: slots times capacity when both are numbers, else 0. */
  function TotalTicketsAvailable(totalSlots: NumInput, capacityPerSlot: NumInput): (r: int)
    ensures totalSlots.Number? && capacityPerSlot.Number? ==> r == totalSlots.n * capacityPerSlot.n
    ensures totalSlots.Blank? || capacityPerSlot.Blank? ==> r == 0
  {
    if totalSlots.Number? && capacityPerSlot.Number? then totalSlots.n * capacityPerSlot.n else 0
  }

  /** `addCustomField`: one blank text field appended at the end. */
  function AddCustomField(fields: seq<CustomField>): (r: seq<CustomField>)
    ensures |r| == |fields| + 1 && r[..|fields|] == fields && r[|fields|] == NewField
  {
    fields + [NewField]
  }

  /** `customFields.filter((_, i) => i !== index)` over the entries from position `offset` on. */
  function FilterIndex(fields: seq<CustomField>, index: int, offset: int): (r: seq<CustomField>)
    ensures offset <= index < offset + |fields| ==> r == fields[..index - offset] + fields[index - offset + 1..]
    ensures !(offset <= index < offset + |fields|) ==> r == fields
    decreases |fields|
  {
    if fields == [] then []
    else
      var rest := FilterIndex(fields[1..], index, offset + 1);
      if offset == index then rest
      else
        assert offset < index < offset + |fields| ==>
          fields[1..][index - offset..] == fields[index - offset + 1..];
        assert fields == [fields[0]] + fields[1..];
        [fields[0]] + rest
  }

  /** `removeCustomField`: only entry `index` goes, the others keep their order. */
  function RemoveCustomField(fields: seq<CustomField>, index: int): (r: seq<CustomField>)
    ensures 0 <= index < |fields| ==>
      (|r| == |fields| - 1
       && (forall j :: 0 <= j < index ==> r[j] == fields[j])
       && (forall j :: index <= j < |r| ==> r[j] == fields[j + 1]))
    ensures !(0 <= index < |fields|) ==> r == fields
  {
    FilterIndex(fields, index, 0)
  }

  /** `updateCustomField`: only key `key` of entry `index` changes. */
  function UpdateCustomField(fields: seq<CustomField>, index: int, key: FieldKey, value: string): (r: seq<CustomField>)
    requires 0 <= index < |fields|
    ensures |r| == |fields| && forall j :: 0 <= j < |r| && j != index ==> r[j] == fields[j]
    ensures key == Label ==> r[index].fieldLabel == value && r[index].fieldType == fields[index].fieldType
    ensures key == FieldType ==> r[index].fieldType == value && r[index].fieldLabel == fields[index].fieldLabel
  {
    var f := fields[index];
    fields[index := if key == Label then f.(fieldLabel := value) else f.(fieldType := value)]
  }

  /** A field the payload keeps: its label is not blank after trimming. */
  predicate Named(f: CustomField) {
    Trim(f.fieldLabel) != ""
  }

  /** `customFields.filter(f => f.fieldLabel.trim() !== '')`. */
  function NamedFields(fields: seq<CustomField>): (r: seq<CustomField>)
    ensures |r| <= |fields|
    ensures forall f :: f in r ==> f in fields && Named(f)
    ensures forall f :: f in fields && Named(f) ==> f in r
  {
    if fields == [] then []
    else (if Named(fields[0]) then [fields[0]] else []) + NamedFields(fields[1..])
  }

  /** Filtering distributes over appending one field. */
  lemma {:induction false} NamedFieldsSnoc(fields: seq<CustomField>, f: CustomField)
    ensures NamedFields(fields + [f]) == NamedFields(fields) + (if Named(f) then [f] else [])
  {
    if fields == [] {
      assert [] + [f] == [f];
    } else {
      assert (fields + [f])[1..] == fields[1..] + [f];
      NamedFieldsSnoc(fields[1..], f);
    }
  }

  /** A freshly added (blank) field never reaches the payload. */
  lemma AddedFieldNotSent(fields: seq<CustomField>)
    ensures NamedFields(AddCustomField(fields)) == NamedFields(fields)
  {
    NamedFieldsSnoc(fields, NewField);
    assert Trim(NewField.fieldLabel) == "" by {
      TrimEmptyIff(NewField.fieldLabel);
    }
  }

  /** The wall-clock `HH:MM` `totalMinutes` after minute `start` of a day, wrapping at a day either way. */
  function EndClock(start: int, totalMinutes: int): string {
    var e := (start + totalMinutes) % 1440;
    Clock(e / 60, e % 60)
  }

  /** `EndClock` gives the valid `HH:MM` of the minute of the day it falls on. */
  lemma {:induction false} EndClockOfDay(start: int, totalMinutes: int)
    ensures ValidTime(EndClock(start, totalMinutes))
    ensures MinuteOfDay(EndClock(start, totalMinutes)) == (start + totalMinutes) % 1440
  {
    var e := (start + totalMinutes) % 1440;
    ClockOfTimeOfDay(e / 60, e % 60);
  }

  /**
   * The end time the effect computes from the start time as
   * `split(':').map(Number)` reads it: the wall-clock `HH:MM` of the start
   * plus `totalMinutes`; `NaN:NaN` when the start is not a number of minutes.
   */
  function AutoEndTime(start: Option<int>, totalMinutes: int): string {
    match start
    case None => NaNTime
    case Some(s) => EndClock(s, totalMinutes)
  }

  /** From a start of `minutes`, the end time is the valid `HH:MM` of the minute of the day `totalMinutes` later. */
  lemma AutoEndTimeOfSome(start: Option<int>, minutes: int, totalMinutes: int)
    requires start == Some(minutes)
    ensures ValidTime(AutoEndTime(start, totalMinutes))
    ensures MinuteOfDay(AutoEndTime(start, totalMinutes)) == (minutes + totalMinutes) % 1440
  {
    EndClockOfDay(minutes, totalMinutes);
  }

  /**
   * The end time computed from a valid `HH:MM` start, minute `start` of the
   * day, is a valid `HH:MM`: the minute of the day `totalMinutes` later.
   */
  lemma {:induction false} AutoEndTimeOfValid(startTime: string, start: nat, totalMinutes: int)
    requires ValidTime(startTime) && start == MinuteOfDay(startTime)
    ensures ValidTime(AutoEndTime(ToMinutes(startTime), totalMinutes))
    ensures MinuteOfDay(AutoEndTime(ToMinutes(startTime), totalMinutes)) == (start + totalMinutes) % 1440
  {
    ToMinutesOfValid(startTime);
    AutoEndTimeOfSome(ToMinutes(startTime), start, totalMinutes);
  }

  class TemplateFormState {
    var name: string
    var ticketType: TicketType
    var distributionType: DistributionType
    var maxNumericTickets: NumInput
    var startTime: string
    var endTime: string
    var slotDuration: NumInput
    var totalSlots: NumInput
    var capacityPerSlot: NumInput
    var customFields: seq<CustomField>
    var error: Option<string>
    var isSubmitting: bool

    /** The initial state of the form. */
    constructor ()
      ensures name == "" && ticketType == Numeric && distributionType == Sequential
      ensures maxNumericTickets == Blank && startTime == "09:00" && endTime == ""
      ensures slotDuration == Number(30) && totalSlots == Number(4) && capacityPerSlot == Number(5)
      ensures customFields == [NewField] && error == None && !isSubmitting
    {
      name, ticketType, distributionType := "", Numeric, Sequential;
      maxNumericTickets, startTime, endTime := Blank, "09:00", "";
      slotDuration, totalSlots, capacityPerSlot := Number(30), Number(4), Number(5);
      customFields, error, isSubmitting := [NewField], None, false;
    }

    method AddField()
      modifies this`customFields
      ensures customFields == AddCustomField(old(customFields))
    {
      customFields := AddCustomField(customFields);
    }

    method RemoveField(index: int)
      modifies this`customFields
      ensures customFields == RemoveCustomField(old(customFields), index)
    {
      customFields := RemoveCustomField(customFields, index);
    }

    method UpdateField(index: int, key: FieldKey, value: string)
      requires 0 <= index < |customFields|
      modifies this`customFields
      ensures customFields == UpdateCustomField(old(customFields), index, key, value)
    {
      customFields := UpdateCustomField(customFields, index, key, value);
    }

    /**
     * The effect that runs when the type, start time, slot duration or slot
     * count changes: for a time-allotted template with all three inputs
     * filled, `endTime` becomes the computed end; otherwise it is left alone.
     */
    method RecomputeEndTime()
      modifies this`endTime
      ensures ticketType == TimeAllotted && startTime != "" && Filled(slotDuration) && Filled(totalSlots) ==>
        endTime == AutoEndTime(ToMinutes(startTime), slotDuration.n * totalSlots.n)
      ensures !(ticketType == TimeAllotted && startTime != "" && Filled(slotDuration) && Filled(totalSlots)) ==>
        endTime == old(endTime)
    {
      if ticketType == TimeAllotted && startTime != "" && Filled(slotDuration) && Filled(totalSlots) {
        var totalMinutesRaw := slotDuration.n * totalSlots.n;
        endTime := AutoEndTime(ToMinutes(startTime), totalMinutesRaw);
      }
    }

    /** The payload `handleSubmit` builds from the current fields, or the message it throws. */
    function Payload(): (r: Result<FormPayload>)
      reads this
      ensures r.Ok? ==>
        (r.value.name == name && r.value.ticketType == ticketType
         && r.value.distributionType == distributionType
         && r.value.requiredUserFields == NamedFields(customFields))
      ensures ticketType == Numeric ==>
        && (!Filled(maxNumericTickets) ==> r == Err(MaxTicketsRequired))
        && (Filled(maxNumericTickets) && endTime == "" ==> r == Err(EndTimeRequired))
        && (Filled(maxNumericTickets) && endTime != "" ==>
              r.Ok? && r.value.maxNumericTickets == Some(maxNumericTickets.n)
              && r.value.timeSlotsConfig == Some(FormSlotsConfig(startTime, endTime, 0, 0, 0)))
      ensures ticketType == TimeAllotted ==>
        var complete := startTime != "" && Filled(slotDuration) && Filled(totalSlots) && Filled(capacityPerSlot);
        && (!complete ==> r == Err(SlotFieldsRequired))
        && (complete ==>
              r.Ok? && r.value.maxNumericTickets == None
              && r.value.timeSlotsConfig == Some(FormSlotsConfig(startTime, endTime,
                   slotDuration.n, totalSlots.n, capacityPerSlot.n)))
    {
      var payload := FormPayload(name, ticketType, distributionType, NamedFields(customFields), None, None);
      if ticketType == Numeric then
        if !Filled(maxNumericTickets) then Err(MaxTicketsRequired)
        else if endTime == "" then Err(EndTimeRequired)
        else Ok(payload.(maxNumericTickets := Some(maxNumericTickets.n),
                         timeSlotsConfig := Some(FormSlotsConfig(startTime, endTime, 0, 0, 0))))
      else if startTime == "" || !Filled(slotDuration) || !Filled(totalSlots) || !Filled(capacityPerSlot) then
        Err(SlotFieldsRequired)
      else
        Ok(payload.(timeSlotsConfig := Some(FormSlotsConfig(startTime, endTime,
          slotDuration.n, totalSlots.n, capacityPerSlot.n))))
    }

    /**
     * `handleSubmit`: `r` is the payload built from the fields on entry, or
     * the validation message thrown. A rejected payload is shown as the
     * error. An accepted one is handed to `createTemplate`; `failure` is
     * the message it threw, if it did (success navigates away). A failure
     * shows its message, or a generic one when the message is empty. Either
     * way a thrown error makes the form submittable again.
     */
    method HandleSubmit(failure: Option<string>) returns (r: Result<FormPayload>)
      modifies this`error, this`isSubmitting
      ensures r == old(Payload())
      ensures r.Err? ==> error == Some(r.error) && !isSubmitting
      ensures r.Ok? && failure.None? ==> error == None && isSubmitting
      ensures r.Ok? && failure.Some? && failure.value != "" ==> error == failure && !isSubmitting
      ensures r.Ok? && failure.Some? && failure.value == "" ==> error == Some("An error occurred") && !isSubmitting
    {
      error := None;
      isSubmitting := true;
      r := Payload();
      if r.Err? {
        error := Some(r.error);
        isSubmitting := false;
      } else if failure.Some? {
        error := Some(if failure.value != "" then failure.value else "An error occurred");
        isSubmitting := false;
      }
    }
  }
}

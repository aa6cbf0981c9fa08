/**
 * The "schedule a session" form
 * (app/dashboard/sessions/create/create-session-form.tsx): its state, the
 * mount effect that fills today's date and a template chosen through the
 * `template_id` query parameter, the template picker that copies the
 * template's start time, and the payload handed to `createSession`.
 * The clock and the query string are inputs.
 */
module CreateSessionForm {
  import opened Wrappers
  import opened JsStrings
  import opened SessionActions

  /** A template offered in the picker. */
  datatype TemplateOption = TemplateOption(id: string, name: string, startTime: Option<string>)

  /** `templates.find(t => t.id === id)`. */
  function FindTemplate(templates: seq<TemplateOption>, id: string): (r: Option<TemplateOption>)
    ensures r.None? <==> forall i :: 0 <= i < |templates| ==> templates[i].id != id
    ensures r.Some? ==> exists i :: 0 <= i < |templates| && templates[i] == r.value && r.value.id == id
  {
    if templates == [] then None
    else if templates[0].id == id then Some(templates[0])
    else FindTemplate(templates[1..], id)
  }

  /** The time a chosen template puts in the time field: the first five characters of a non-empty start time. */
  function TemplateTime(tmpl: Option<TemplateOption>): (r: Option<string>)
    ensures r.Some? <==> tmpl.Some? && tmpl.value.startTime.Some? && tmpl.value.startTime.value != ""
    ensures r.Some? ==> r.value == Prefix(tmpl.value.startTime.value, 5)
  {
    if tmpl.Some? && tmpl.value.startTime.Some? && tmpl.value.startTime.value != "" then
      Some(Prefix(tmpl.value.startTime.value, 5))
    else None
  }

  /** `new Date().toISOString().split('T')[0]`. */
  function DatePart(isoNow: string): string {
    Split(isoNow, 'T')[0]
  }

  /** For an ISO timestamp the date part is everything before the `T`. */
  lemma DatePartOfTimestamp(date: string, clock: string)
    requires forall i :: 0 <= i < |date| ==> date[i] != 'T'
    ensures DatePart(date + "T" + clock) == date
  {
    SplitFirst(date, clock, 'T');
  }

  /**
   * The form is only shown when there is a template to choose; with none,
   * a prompt to create one is shown instead, so the picker and the submit
   * button, and their handlers, exist only when this holds.
   */
  predicate FormShown(templates: seq<TemplateOption>) {
    |templates| > 0
  }

  class SessionForm {
    const templates: seq<TemplateOption>
    var templateId: string
    var date: string
    var time: string
    var status: string
    var error: Option<string>
    var isSubmitting: bool

    constructor (templates: seq<TemplateOption>)
      ensures this.templates == templates
      ensures templateId == "" && date == "" && time == "" && status == "scheduled"
      ensures error == None && !isSubmitting
    {
      this.templates := templates;
      templateId, date, time, status := "", "", "", "scheduled";
      error, isSubmitting := None, false;
    }

    /**
     * The mount effect: `isoNow` is the current instant as an ISO string,
     * `paramId` the `template_id` query parameter. The parameter is adopted
     * only when it names an offered template.
     */
    method OnMount(isoNow: string, paramId: Option<string>)
      modifies this`date, this`templateId, this`time
      ensures date == DatePart(isoNow)
      ensures var adopted := paramId.Some? && paramId.value != "" && FindTemplate(templates, paramId.value).Some?;
        && (adopted ==> templateId == paramId.value)
        && (!adopted ==> templateId == old(templateId))
        && (adopted && TemplateTime(FindTemplate(templates, paramId.value)).Some? ==>
              time == TemplateTime(FindTemplate(templates, paramId.value)).value)
        && (!(adopted && TemplateTime(FindTemplate(templates, paramId.value)).Some?) ==> time == old(time))
    {
      date := DatePart(isoNow);
      if paramId.Some? && paramId.value != "" && FindTemplate(templates, paramId.value).Some? {
        templateId := paramId.value;
        var t := TemplateTime(FindTemplate(templates, paramId.value));
        if t.Some? {
          time := t.value;
        }
      }
    }

    /** `handleTemplateChange`: the empty option only clears the choice; a template with a start time also sets the time. */
    method HandleTemplateChange(newId: string)
      requires FormShown(templates)
      modifies this`templateId, this`time
      ensures templateId == newId
      ensures newId != "" && TemplateTime(FindTemplate(templates, newId)).Some? ==>
        time == TemplateTime(FindTemplate(templates, newId)).value
      ensures !(newId != "" && TemplateTime(FindTemplate(templates, newId)).Some?) ==> time == old(time)
    {
      templateId := newId;
      if newId != "" {
        var t := TemplateTime(FindTemplate(templates, newId));
        if t.Some? {
          time := t.value;
        }
      }
    }

    /** The payload of `handleSubmit`: the four fields as they stand. */
    function Payload(): (p: SessionData)
      reads this
      ensures p.templateId == templateId && p.sessionDate == date && p.startTime == time && p.status == status
    {
      SessionData(templateId, date, time, status)
    }

    /**
     * `handleSubmit`: `failure` is the message `createSession` threw, if it
     * did (success navigates away). A failure shows its message, or a
     * generic one when the message is empty, and re-enables the button.
     */
    method HandleSubmit(failure: Option<string>) returns (payload: SessionData)
      requires FormShown(templates)
      modifies this`error, this`isSubmitting
      ensures payload == old(Payload())
      ensures failure.None? ==> error == None && isSubmitting
      ensures failure.Some? && failure.value != "" ==> error == failure && !isSubmitting
      ensures failure.Some? && failure.value == "" ==> error == Some("An error occurred") && !isSubmitting
    {
      error := None;
      isSubmitting := true;
      payload := Payload();
      if failure.Some? {
        error := Some(if failure.value != "" then failure.value else "An error occurred");
        isSubmitting := false;
      }
    }
  }
}

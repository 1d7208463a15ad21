/** The panel's session: the latest custom-code record, the site id in the
    text field and the error line, driven by record deliveries, typing and
    the two buttons. Each handler is a pure transition that returns the new
    panel and the setter calls it made, in order.
 */
module Session {
  import opened HostApi
  import opened Status
  import opened SiteAttr
  import opened Snippet

  const EmptySiteIdMessage := "Site ID cannot be empty."
  const AddFallback := "An unexpected error occurred while adding the script."
  const RemoveFallback := "An unexpected error occurred while removing the script."

  /** The panel's state. `customCode` is None until the host's first
      delivery; `siteId` is the empty string when unset; `error` is the
      message shown in the error line, if any. */
  datatype Panel = Panel(customCode: Option<CustomCode>, siteId: string, error: Option<string>)

  /** The panel as it opens: no record yet, an empty field, no error. */
  const Initial := Panel(None, "", None)

  /** A new panel together with the setter calls made on the way to it. */
  datatype Transition = Transition(panel: Panel, calls: seq<SetCall>)

  /** `err.message || fallback`: the error's message when it is present and
      not the empty string, the fallback otherwise. */
  function CaughtMessage(message: Option<string>, fallback: string): (r: string)
    ensures message.Some? && message.value != "" ==> r == message.value
    ensures message.None? || message.value == "" ==> r == fallback
    ensures fallback != "" ==> r != ""
  {
    match message
    case Some(m) => if m != "" then m else fallback
    case None => fallback
  }

  /** The head-end html of a record; absent before the first delivery as
      well. */
  function HeadEndHtml(record: Option<CustomCode>): Option<string> {
    match record
    case None => None
    case Some(code) => code.headEnd.html
  }

  /** The site id after a record arrives. Only a record whose head-end html
      is a non-empty string is searched; when the pattern matches there,
      the capture at its first match replaces whatever was typed, and
      otherwise the id is kept. */
  function HydratedSiteId(siteId: string, record: Option<CustomCode>): (r: string)
    ensures HeadEndHtml(record).None? || HeadEndHtml(record) == Some("") ==> r == siteId
    ensures
      (HeadEndHtml(record).Some? &&
       NoMatchIn(HeadEndHtml(record).value, 0, |HeadEndHtml(record).value|))
      ==> r == siteId
    ensures r != siteId ==>
      HeadEndHtml(record).Some? && exists i :: IsMatch(HeadEndHtml(record).value, i, r)
    ensures forall i, v ::
      (HeadEndHtml(record).Some? && HeadEndHtml(record).value != "" &&
       IsMatch(HeadEndHtml(record).value, i, v) && NoMatchIn(HeadEndHtml(record).value, 0, i))
      ==> r == v
  {
    match record
    case None => siteId
    case Some(code) =>
      match code.headEnd.html
      case None => siteId
      case Some(html) =>
        if html == "" then siteId
        else
          var r := Extract(html).GetOr(siteId);
          assert forall i, v :: IsMatch(html, i, v) && NoMatchIn(html, 0, i) ==> r == v by {
            forall i, v | IsMatch(html, i, v) && NoMatchIn(html, 0, i) ensures r == v {
              ExtractIsFirstMatch(html, i, v);
            }
          }
          r
  }

  /** A record delivery: the record replaces the previous one (which is what
      status and labels are derived from) and may hydrate the site id; the
      error line is untouched. */
  function Deliver(panel: Panel, record: Option<CustomCode>): (r: Panel)
    ensures r.customCode == record && r.error == panel.error
    ensures r.siteId == HydratedSiteId(panel.siteId, record)
  {
    panel.(customCode := record, siteId := HydratedSiteId(panel.siteId, record))
  }

  /** The Add/Update handler, whichever way it was reached. An empty site id
      fails validation before the host is called. Otherwise exactly one
      setter call writes the script html at the head end, and the error line
      is cleared or shows what the host threw. The site id and the record
      are never changed. */
  function AddOrUpdateScript(panel: Panel, outcome: Outcome): (r: Transition)
    ensures r.panel.siteId == panel.siteId && r.panel.customCode == panel.customCode
    ensures panel.siteId == "" ==> r.calls == [] && r.panel.error == Some(EmptySiteIdMessage)
    ensures panel.siteId != "" ==>
      && |r.calls| == 1
      && r.calls[0].location == HeadEnd
      && r.calls[0].html == Some(ScriptHtml(panel.siteId))
    ensures panel.siteId != "" && outcome.Succeeded? ==> r.panel.error == None
    ensures panel.siteId != "" && outcome.Threw? ==>
      r.panel.error == Some(CaughtMessage(outcome.message, AddFallback))
  {
    if panel.siteId == "" then
      Transition(panel.(error := Some(CaughtMessage(Some(EmptySiteIdMessage), AddFallback))), [])
    else
      var call := SetCall(HeadEnd, Some(ScriptHtml(panel.siteId)));
      match outcome
      case Succeeded => Transition(panel.(error := None), [call])
      case Threw(message) =>
        Transition(panel.(error := Some(CaughtMessage(message, AddFallback))), [call])
  }

  /** The Remove handler: exactly one setter call clears the head-end html.
      When it returns normally the field is emptied and the error line
      cleared; when it throws, the field is kept and the error line shows
      the message. The record is never changed. */
  function RemoveScript(panel: Panel, outcome: Outcome): (r: Transition)
    ensures r.calls == [SetCall(HeadEnd, None)]
    ensures r.panel.customCode == panel.customCode
    ensures outcome.Succeeded? ==> r.panel.siteId == "" && r.panel.error == None
    ensures outcome.Threw? ==>
      && r.panel.siteId == panel.siteId
      && r.panel.error == Some(CaughtMessage(outcome.message, RemoveFallback))
  {
    var call := SetCall(HeadEnd, None);
    match outcome
    case Succeeded => Transition(panel.(siteId := "", error := None), [call])
    case Threw(message) =>
      Transition(panel.(error := Some(CaughtMessage(message, RemoveFallback))), [call])
  }

  /** What can happen to the panel: the host delivers a record, the user
      edits the field, or presses one of the two buttons (with what the
      host answers to the setter call the press makes). */
  datatype Event =
    | Delivered(record: Option<CustomCode>)
    | Typed(text: string)
    | PressedPrimary(outcome: Outcome)
    | PressedRemove(outcome: Outcome)

  /** One event as the rendered panel handles it. A delivery hydrates the
      panel and leaves the error line alone; typing sets the field and
      nothing else. A press on the primary button does nothing while it is
      disabled (empty field), and a press on Remove does nothing while that
      button is not rendered. */
  function Step(panel: Panel, event: Event): (r: Transition)
    ensures |r.calls| <= 1
    ensures !event.Delivered? ==> r.panel.customCode == panel.customCode
    ensures event.Delivered? ==> r.panel == Deliver(panel, event.record) && r.calls == []
    ensures event.Typed? ==> r.panel == panel.(siteId := event.text) && r.calls == []
    ensures event.PressedPrimary? && panel.siteId == "" ==> r == Transition(panel, [])
    ensures event.PressedPrimary? && panel.siteId != "" ==>
      r == AddOrUpdateScript(panel, event.outcome)
    ensures event.PressedRemove? ==>
      r == (if HasScript(panel.customCode) then RemoveScript(panel, event.outcome)
            else Transition(panel, []))
  {
    match event
    case Delivered(record) => Transition(Deliver(panel, record), [])
    case Typed(text) => Transition(panel.(siteId := text), [])
    case PressedPrimary(outcome) =>
      if PrimaryDisabled(panel.siteId) then Transition(panel, [])
      else AddOrUpdateScript(panel, outcome)
    case PressedRemove(outcome) =>
      if HasScript(panel.customCode) then RemoveScript(panel, outcome)
      else Transition(panel, [])
  }

  /** A setter call the panel can make: always at the head end, and either
      clearing the html or writing the script html for a non-empty id. */
  ghost predicate PanelCall(call: SetCall) {
    && call.location == HeadEnd
    && (call.html.None? || exists id :: id != "" && call.html.value == ScriptHtml(id))
  }

  /** The record the panel holds after `events`: the last one delivered, or
      `current` when none was. */
  function LastRecord(current: Option<CustomCode>, events: seq<Event>): Option<CustomCode>
  {
    if events == [] then current
    else if events[|events| - 1].Delivered? then events[|events| - 1].record
    else LastRecord(current, events[..|events| - 1])
  }

  /** A session: the events handled one after another, the setter calls
      logged in the order they were made. No more calls than events, every
      call is one the panel can make, the record is the last one delivered,
      and no event ever sets the error line to the empty string (it is
      either cleared or set to a non-empty message). */
  function Run(panel: Panel, events: seq<Event>): (r: Transition)
    ensures |r.calls| <= |events|
    ensures forall k :: 0 <= k < |r.calls| ==> PanelCall(r.calls[k])
    ensures r.panel.customCode == LastRecord(panel.customCode, events)
    ensures panel.error != Some("") ==> r.panel.error != Some("")
    decreases |events|
  {
    if events == [] then
      Transition(panel, [])
    else
      var before := Run(panel, events[..|events| - 1]);
      var last := Step(before.panel, events[|events| - 1]);
      assert forall k :: 0 <= k < |last.calls| ==> PanelCall(last.calls[k]) by {
        forall k | 0 <= k < |last.calls| ensures PanelCall(last.calls[k]) {
          var e := events[|events| - 1];
          if e.PressedPrimary? {
            assert last.calls[k].html.value == ScriptHtml(before.panel.siteId);
          }
        }
      }
      Transition(last.panel, before.calls + last.calls)
  }

  /** The panel as it opens shows "Loading..." on both the status line and
      the button, keeps the primary button disabled, and already renders the
      Remove button (the strict `null` comparison on an absent record). */
  lemma InitialPanel()
    ensures StatusMessage(Initial.customCode) == Loading
    ensures ButtonLabel(Initial.customCode) == Loading
    ensures PrimaryDisabled(Initial.siteId)
    ensures HasScript(Initial.customCode)
  {
  }

  /** Through the rendered panel the validation error is never produced:
      the primary button is disabled exactly when the field is empty, so a
      press reaches the handler only with a non-empty id. */
  lemma PrimaryPressNeverValidates(panel: Panel, outcome: Outcome)
    ensures Step(panel, PressedPrimary(outcome)).calls == [] ==>
      Step(panel, PressedPrimary(outcome)).panel == panel
    ensures panel.siteId != "" ==> |Step(panel, PressedPrimary(outcome)).calls| == 1
  {
  }

  /** Add/Update followed by the host echoing the written html back: the
      field keeps the id it was written from (for an id with no quote and no
      line terminator), the error line stays clear, and the panel now reads
      as holding a script with an Update label and a Remove button. */
  lemma {:induction false} AddThenEcho(panel: Panel, headStart: HeadCode, disabled: bool)
    requires panel.siteId != "" && Capturable(panel.siteId)
    ensures
      var added := AddOrUpdateScript(panel, Succeeded);
      var echoed := Deliver(added.panel, Some(CustomCode(headStart, HeadCode(added.calls[0].html, disabled))));
      && echoed.siteId == panel.siteId
      && echoed.error == None
      && ButtonLabel(echoed.customCode) == UpdateLabel
      && HasScript(echoed.customCode)
      && StatusMessage(echoed.customCode) == (if disabled then AddedButDisabled else Active)
  {
    var html := ScriptHtml(panel.siteId);
    RoundTrip(panel.siteId);
    assert html != "" by {
      assert |html| >= |Lead|;
    }
  }

  /** Add/Update with an id holding a quote, whose part before the first
      quote holds no quote and no line terminator, then the echo: the field
      is rewritten to that part, since the id is written into the attribute
      unescaped. */
  lemma {:induction false} AddThenEchoTruncates(panel: Panel, q: nat, headStart: HeadCode, disabled: bool)
    requires q < |panel.siteId| && panel.siteId[q] == '"' && Capturable(panel.siteId[..q])
    ensures
      var added := AddOrUpdateScript(panel, Succeeded);
      var echoed := Deliver(added.panel, Some(CustomCode(headStart, HeadCode(added.calls[0].html, disabled))));
      echoed.siteId == panel.siteId[..q] != panel.siteId
  {
    var html := ScriptHtml(panel.siteId);
    QuoteTruncates(panel.siteId, q);
    assert html != "" by {
      assert |html| >= |Lead|;
    }
    assert panel.siteId[..q] != panel.siteId by {
      assert |panel.siteId[..q]| < |panel.siteId|;
    }
  }

  /** Remove followed by the host echoing the cleared entry back: the field
      stays empty, the error line clear, and the panel reads "No script
      added." with an Add label and no Remove button. */
  lemma RemoveThenEcho(panel: Panel, headStart: HeadCode, disabled: bool)
    ensures
      var removed := RemoveScript(panel, Succeeded);
      var echoed := Deliver(removed.panel, Some(CustomCode(headStart, HeadCode(removed.calls[0].html, disabled))));
      && echoed.siteId == ""
      && echoed.error == None
      && StatusMessage(echoed.customCode) == NoScript
      && ButtonLabel(echoed.customCode) == AddLabel
      && !HasScript(echoed.customCode)
  {
  }

  /** The handlers leave the status line and the label alone: they change
      only when the host delivers a new record. */
  lemma {:induction false} HandlersKeepStatus(panel: Panel, outcome: Outcome)
    ensures StatusMessage(AddOrUpdateScript(panel, outcome).panel.customCode) == StatusMessage(panel.customCode)
    ensures StatusMessage(RemoveScript(panel, outcome).panel.customCode) == StatusMessage(panel.customCode)
    ensures ButtonLabel(AddOrUpdateScript(panel, outcome).panel.customCode) == ButtonLabel(panel.customCode)
    ensures ButtonLabel(RemoveScript(panel, outcome).panel.customCode) == ButtonLabel(panel.customCode)
  {
  }

  /** A host failure carrying the message "quota exceeded" shows exactly that
      message after either button, with the id unchanged. */
  lemma QuotaExceeded(panel: Panel)
    ensures panel.siteId != "" ==>
      AddOrUpdateScript(panel, Threw(Some("quota exceeded"))).panel ==
      panel.(error := Some("quota exceeded"))
    ensures RemoveScript(panel, Threw(Some("quota exceeded"))).panel ==
      panel.(error := Some("quota exceeded"))
  {
  }

  /** A delivered record whose head-end html is `data-site=""` hydrates the
      field to the empty string, whatever was typed before. */
  lemma EmptyHydrates(siteId: string, headStart: HeadCode, disabled: bool)
    ensures HydratedSiteId(siteId, Some(CustomCode(headStart, HeadCode(Some(Marker + "\""), disabled)))) == ""
  {
    EmptyValue();
  }
}

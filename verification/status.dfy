/** What the panel shows, derived from the latest custom-code record alone:
    the status line, the primary button's label, whether the Remove button
    is rendered, and whether the primary button is disabled.
 */
module Status {
  import opened HostApi

  const Loading := "Loading..."
  const NoScript := "No script added."
  const AddedButDisabled := "Script added but disabled. Please enable it in settings."
  const Active := "Script is active."

  const AddLabel := "Add Script"
  const UpdateLabel := "Update Script"

  /** The four display states of the panel: before the first delivery, no
      script injected, script injected and enabled, script injected but
      switched off. */
  datatype Phase = Waiting | Absent | PresentEnabled | PresentDisabled

  /** The display state of a record, read only from its head-end entry.
      A present html counts as injected whatever its text, the empty string
      included; the disabled flag matters only then. */
  function PhaseOf(record: Option<CustomCode>): (p: Phase)
    ensures p == Waiting <==> record.None?
    ensures p == Absent <==> record.Some? && record.value.headEnd.html.None?
    ensures p == PresentDisabled <==>
      record.Some? && record.value.headEnd.html.Some? && record.value.headEnd.disabled
    ensures p == PresentEnabled <==>
      record.Some? && record.value.headEnd.html.Some? && !record.value.headEnd.disabled
  {
    match record
    case None => Waiting
    case Some(code) =>
      if code.headEnd.html.None? then Absent
      else if code.headEnd.disabled then PresentDisabled
      else PresentEnabled
  }

  /** The status line. A missing html reads "No script added." even when the
      disabled flag is set: absence is checked before the flag. */
  function StatusMessage(record: Option<CustomCode>): (r: string)
    ensures r in {Loading, NoScript, AddedButDisabled, Active}
    ensures r == Loading <==> record.None?
    ensures r == NoScript <==> record.Some? && record.value.headEnd.html.None?
    ensures r == AddedButDisabled <==>
      record.Some? && record.value.headEnd.html.Some? && record.value.headEnd.disabled
    ensures r == Active <==>
      record.Some? && record.value.headEnd.html.Some? && !record.value.headEnd.disabled
  {
    match record
    case None => Loading
    case Some(code) =>
      if code.headEnd.html.None? then NoScript
      else if code.headEnd.disabled then AddedButDisabled
      else Active
  }

  /** The primary button's label: "Add Script" when nothing is injected,
      "Update Script" when something is, whatever the disabled flag says. */
  function ButtonLabel(record: Option<CustomCode>): (r: string)
    ensures r in {Loading, AddLabel, UpdateLabel}
    ensures r == Loading <==> record.None?
    ensures r == AddLabel <==> record.Some? && record.value.headEnd.html.None?
    ensures r == UpdateLabel <==> record.Some? && record.value.headEnd.html.Some?
  {
    match record
    case None => Loading
    case Some(code) => if code.headEnd.html.None? then AddLabel else UpdateLabel
  }

  /** Whether the Remove button is rendered. The source compares the
      optional-chained html with `null` strictly, so before the first
      delivery (html `undefined`) the flag is true as well. */
  function HasScript(record: Option<CustomCode>): (b: bool)
    ensures b <==> record.None? || record.value.headEnd.html.Some?
    ensures record.None? ==> b
  {
    match record
    case None => true
    case Some(code) => code.headEnd.html != None
  }

  /** Whether the primary button is disabled: exactly when the site id is
      the empty string, whatever the record. */
  function PrimaryDisabled(siteId: string): (b: bool)
    ensures b <==> |siteId| == 0
  {
    siteId == ""
  }

  /** The status line is a one-to-one image of the display state: four
      phases, four distinct messages. */
  lemma StatusFollowsPhase(a: Option<CustomCode>, b: Option<CustomCode>)
    ensures StatusMessage(a) == StatusMessage(b) <==> PhaseOf(a) == PhaseOf(b)
  {
  }

  /** The label and the status line agree: both read "Loading..." before the
      first delivery, the label is "Add Script" exactly when the status says
      no script is added, and "Update Script" in both injected states. */
  lemma LabelAgreesWithStatus(record: Option<CustomCode>)
    ensures ButtonLabel(record) == Loading <==> StatusMessage(record) == Loading
    ensures ButtonLabel(record) == AddLabel <==> StatusMessage(record) == NoScript
    ensures ButtonLabel(record) == UpdateLabel <==>
      StatusMessage(record) in {AddedButDisabled, Active}
  {
  }

  /** The Remove button is rendered exactly when the status does not say
      "No script added.", which includes the loading state (the strict
      comparison with `null` the source makes). */
  lemma RemoveShownUnlessAbsent(record: Option<CustomCode>)
    ensures HasScript(record) <==> StatusMessage(record) != NoScript
    ensures HasScript(record) <==> ButtonLabel(record) != AddLabel
  {
  }

  /** The derivations read only the head-end entry: two records that agree
      on it give the same status, label and Remove button. */
  lemma HeadStartIgnored(a: CustomCode, b: CustomCode)
    requires a.headEnd == b.headEnd
    ensures StatusMessage(Some(a)) == StatusMessage(Some(b))
    ensures ButtonLabel(Some(a)) == ButtonLabel(Some(b))
    ensures HasScript(Some(a)) == HasScript(Some(b))
  {
  }
}

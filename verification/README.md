# Fathom script sync — a Dafny model

This project models the logic of a small design-tool panel that injects the
Fathom analytics script into the end of a published site's document head.
The panel reads the host's custom-code record and derives three things from
it: a status line, the primary button's label, and whether a Remove button
is shown. It reads the site id back out of already-injected html with the
pattern `data-site="(.*?)"`. It writes the script html, or clears it,
through the host's setter.

Everything is pure. The host record and the setter calls are immutable
datatypes. The two button handlers are functions from a panel state (latest
record, site id, error line) to a new state plus the log of setter calls they
made. Whether a setter call returned or threw, and with what message, is an
input.

Modules:

- `HostApi` (`host.dfy`): the custom-code record, injection locations, setter
  calls and their outcomes.
- `Status` (`status.dfy`): the status line, button label, Remove-button flag
  and primary-button disabling, with the four display phases as an
  independent reference.
- `SiteAttr` (`site_attr.dfy`): the `data-site="(.*?)"` match, written as a
  scan with a declarative match predicate (`IsMatch`) and proved against it.
  This includes the engine retrying later start positions when a line
  terminator interrupts a value.
- `Snippet` (`snippet.dfy`): the injected html template and the round trip
  through the extraction.
- `Session` (`session.dfy`): hydration on record delivery, the Add/Update and
  Remove handlers, button gating, and whole sessions as event sequences.

In three places the code does something a reader might not expect; the model follows the code:

- Hydration skips an html value that is the empty string, not only an absent
  one. The source tests the html for truthiness.
- The Remove button is also shown before the first record arrives. The source
  compares `customCode?.headEnd.html` with `null` strictly, so `undefined`
  passes.
- The pattern does not always take the first `data-site="`. If a line
  terminator comes before that value's closing quote, the regular expression
  moves on to later occurrences (`SiteAttr.BrokenValueSkipped`).

## Model

| member | source | states |
|---|---|---|
| Status.PhaseOf | src/App.tsx:34-42 | the four display phases (loading, absent, present and enabled, present and disabled) characterised by the record's head-end entry, each as an if-and-only-if |
| Status.StatusMessage | src/App.tsx:34-42 | the status line is one of four fixed strings; "Loading..." iff no record; "No script added." iff html is absent (even when disabled is set); the disabled text iff html present and disabled; "Script is active." iff html present and enabled |
| Status.ButtonLabel | src/App.tsx:45-49 | label is "Loading..." iff no record, "Add Script" iff html absent, "Update Script" iff html present, whatever the disabled flag |
| Status.HasScript | src/App.tsx:85 | the Remove button is shown iff there is no record yet or the head-end html is present (the strict `!== null` quirk on `undefined`) |
| Status.PrimaryDisabled | src/App.tsx:117 | the primary button is disabled iff the site id is the empty string |
| Status.StatusFollowsPhase | src/App.tsx:34-42 | two records give the same status line iff they are in the same display phase (the four messages are distinct) |
| Status.LabelAgreesWithStatus | src/App.tsx:34-49 | the label reads "Loading..." exactly when the status does, "Add Script" exactly when the status says no script is added, "Update Script" exactly in the two present states |
| Status.RemoveShownUnlessAbsent | src/App.tsx:85 | the Remove button is shown iff the status is not "No script added.", iff the label is not "Add Script" |
| Status.HeadStartIgnored | src/App.tsx:37-48 | records that agree on their head-end entry get the same status, label and Remove button |
| SiteAttr.QuotedValue | src/App.tsx:26 | the lazy group from a position yields text closed by a quote with no quote or line terminator in it, and fails only when no such closing exists |
| SiteAttr.CaptureUnique | src/App.tsx:26 | at one start position the captured value is unique |
| SiteAttr.ExtractFrom | src/App.tsx:26 | scanning from a position returns the capture at the first start at or after it where the pattern matches, and nothing only when it matches at no such start |
| SiteAttr.Extract | src/App.tsx:26 | `match(...)[1]` is the capture at the leftmost matching start, holds no quote or line terminator, and is absent iff the pattern matches nowhere |
| SiteAttr.ExtractIsFirstMatch | src/App.tsx:26 | any match with no match before it is the result of the extraction |
| SiteAttr.FirstMarkerValue | src/App.tsx:26 | with no `data-site="` before position i, one at i, and a value up to the next quote with no line break, the extraction is exactly that value |
| SiteAttr.NoMarkerNoMatch | src/App.tsx:26-27 | html without `data-site="` gives no match |
| SiteAttr.EmptyValue | src/App.tsx:26 | `data-site=""` yields the empty capture, not a failed match |
| SiteAttr.BrokenValueSkipped | src/App.tsx:26 | for example, in `data-site="a` + line break + `" data-site="b"` the first value, cut by the line break, is skipped and `b` is taken |
| Snippet.ScriptHtml | src/App.tsx:55-59 | the injected html carries `data-site="<siteId>"` verbatim after a fixed opening, followed by a fixed trailer |
| Snippet.NoEarlierMarker | src/App.tsx:55-57 | the template text before the attribute contains no other `data-site="` |
| Snippet.RoundTrip | src/App.tsx:55-59 | for an id with no quote and no line terminator, extracting from the generated html returns exactly the id |
| Snippet.QuoteTruncates | src/App.tsx:57 | an id holding a quote, whose part before the first quote holds no quote and no line terminator, reads back as that part, so it does not round-trip (no escaping) |
| Session.CaughtMessage | src/App.tsx:63-66 | `err.message \|\| fallback`: the message when present and non-empty, the fallback when it is missing or empty; never blank with a non-blank fallback |
| Session.HydratedSiteId | src/App.tsx:23-31 | the id is kept when there is no record, the html is absent or empty, or nothing matches; any change is a capture of the html; a first match's capture always replaces the id |
| Session.Deliver | src/App.tsx:14-31 | a delivery replaces the record, hydrates the id and leaves the error line alone |
| Session.AddOrUpdateScript | src/App.tsx:51-68 | empty id: no setter call and error "Site ID cannot be empty."; otherwise exactly one call at headEnd with the script html for the id, error cleared on success or set to the message or the add fallback on failure; id and record never change |
| Session.RemoveScript | src/App.tsx:70-83 | exactly one call clearing headEnd; on success id "" and error cleared; on failure id kept and error set to the message or the remove fallback |
| Session.Step | src/App.tsx:105-128 | a delivery replaces the record and hydrates the id, leaving the error line alone; typing sets the id and changes nothing else; presses on the disabled primary button or the hidden Remove button do nothing; other presses run the handlers; only deliveries change the record |
| Session.Run | src/App.tsx:18-83 | over any event sequence: no more setter calls than events, every call is at headEnd and either clears the html or writes the script for a non-empty id, the record is the last one delivered, and no event sets the error line to the empty string (it is cleared or set to a non-empty message) (the bound of at most one call per event is stated by `Session.Step`) |
| Session.InitialPanel | src/App.tsx:19-21 | the opening panel shows "Loading..." on status and button, a disabled primary button, and a Remove button |
| Session.PrimaryPressNeverValidates | src/App.tsx:114-118 | through the rendered panel a primary press either makes one setter call or changes nothing; the empty-id error cannot be reached by a press |
| Session.AddThenEcho | src/App.tsx:23-62 | for an id with no quote and no line terminator: after a successful Add/Update and the host echoing the written html, the id is unchanged, the error clear, the label "Update Script", Remove shown, and the status active or disabled per the flag |
| Session.AddThenEchoTruncates | src/App.tsx:26-57 | after writing an id containing a quote, whose part before the first quote holds no quote and no line terminator, and the echo, the field is rewritten to that part |
| Session.RemoveThenEcho | src/App.tsx:70-85 | after a successful Remove and the echo of the cleared entry, the id is "", the error clear, the status "No script added.", the label "Add Script", and Remove hidden |
| Session.HandlersKeepStatus | src/App.tsx:51-83 | neither handler changes the status line or the label; only a host delivery does |
| Session.QuotaExceeded | src/App.tsx:63-82 | a setter failure with message "quota exceeded" shows exactly that message after Remove, and after Add/Update when the id is non-empty; the id is unchanged either way |
| Session.EmptyHydrates | src/App.tsx:23-29 | a delivered record whose head-end html is `data-site=""` hydrates the field to "", overwriting whatever was typed |

## Left out

- The panel's window configuration (`framer.showUI`, src/App.tsx:6-10) is a one-time host call with no logic.
- The subscription lifecycle (`subscribeToCustomCode`, React state and `useEffect` scheduling, unsubscribing) is replaced by an explicit `Delivered` event. The hydration effect runs on every delivery, as if each delivery were a new record object.
- Rendering, CSS classes and the input plumbing are left out; typing is an event that sets the id to an arbitrary string.
- The host setter is an abstract call whose outcome is an input. Its real behaviour and the `async` promise semantics are not modelled. The call is not awaited, so a rejected promise would escape the `catch`; only a synchronous throw is modelled.
- A thrown value that is not an object with a `message` property (for example `throw null`) is not modelled; `Outcome.Threw` carries an optional message.
- General JavaScript regular-expression semantics are not modelled; only this one pattern is, over Dafny strings, whose characters are Unicode scalar values.
- JavaScript strings are sequences of UTF-16 code units and can hold lone surrogates, which a Dafny string cannot. Lengths and positions therefore differ for characters outside the Basic Multilingual Plane. For every string Dafny can represent, the captured text is the same, because the pattern only looks for ASCII characters and line terminators inside the Basic Multilingual Plane.
- HTML validity and escaping of the id are not modelled; the id is interpolated verbatim, as in the source.
- Overlapping setter calls are not modelled: each handler runs to completion before the next event.

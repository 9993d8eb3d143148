# Incident portal: workflow and list logic, modelled in Dafny

The incident portal is a dashboard with two pages. The home page lists
incidents with four multiselect filters, ten rows per page and an escalation
flag. The incident detail page shows drafts and lets the user act on them in
two steps.

This project models the logic inside the page handlers. Widgets become
inputs and events, and a button can only be clicked while the page shows it.

- `IncidentList` (home page, pure): the filter chain over a sequence of
  incident rows, the page count and per-page window, the caption range and
  the escalation predicate.
- `Channels` (detail page, pure): the channel label "name (N subs)", the
  label-to-name table built like a dictionary comprehension, the translation
  of picked labels, and the page's fixed channel data.
- `Feedback` (detail page, stateful): the feedback widget as a class whose
  fields are its four session entries. It has one method per event. A pure
  `Step` function over a `FeedbackState` value specifies each method, and
  lemmas about runs of events state the invariants.
- `PublishGates` (detail page, stateful): the publish gate with its two
  flags, in the same style.
- `Drafts` (detail page, pure): the rule that replaces the stored draft
  only with a non-empty generator result.
- `IncidentDetail` (detail page, stateful): the page's session. It holds the
  draft and, for each of the two sections (customer message and postmortem
  report), a feedback widget, a publish gate and a channel selection. Each
  event method states the whole new session and shows that nothing outside
  the clicked section changes.

`Options` holds the optional-value datatype used for `None`-or-value entries.

Four behaviours of the code that a reader might not expect, all of which
the model keeps:
- Feedback has no "committed" flag. Submitting can be repeated and changes
  nothing (`pages/1_Incident_Detail.py:192-196`).
- Selecting channels has no error path. The multiselect only returns its own
  options, so `Choose` requires offered labels.
- The selection is the list of picked labels, not a set.
- The success notice names the channels selected at the time it is shown,
  not those selected when the publish was confirmed (`:259-260`, `:351-352`).

## Model

| member | source | states |
|---|---|---|
| IncidentList.ApplyFilter | home.py:119-126 | an empty choice keeps the frame unchanged; a filter never adds rows |
| IncidentList.FilterMembership | home.py:119-126 | a row is kept iff it was in the input and the choice is empty or contains its column value |
| IncidentList.SelectCount | home.py:120-126 | a non-empty choice keeps every copy of a row whose column value is chosen and no copy of any other row |
| IncidentList.FilterCount | home.py:119-126 | a filter keeps as many copies of a passing row as the input holds, and none of a failing row |
| IncidentList.FilterIdempotent | home.py:119-126 | applying the same filter twice equals applying it once |
| IncidentList.FilterCommute | home.py:119-126 | two filters give the same rows in either order |
| IncidentList.FilterIsSubsequence | home.py:119-126 | a filter keeps an order-preserving subsequence of its input |
| IncidentList.FiltersConjunctive | home.py:119-126 | the four filters keep exactly the rows passing all four, every copy of each and none of any other, as an order-preserving subsequence |
| IncidentList.NoFiltersKeepEverything | home.py:119-126 | with nothing chosen in any filter every row is shown |
| IncidentList.TotalPagesIsCeiling | home.py:129-130 | the page count is 0 for no rows and otherwise the ceiling of n/10: (pages-1)*10 < n <= pages*10 |
| IncidentList.PageWindowBounds | home.py:137-143 | for a selectable page, 0 <= start < end <= n and the window holds at most 10 rows |
| IncidentList.PageRows | home.py:169 | the rows shown on a page are the consecutive rows of the frame from (page-1)*10, ten of them or fewer when the frame ends first, as start..min(start+10, n) |
| IncidentList.PagesContiguous | home.py:142-143 | each page ends where the next one starts |
| IncidentList.PagesCoverEnds | home.py:142-143 | page 1 starts at row 0 and the last page ends at row n |
| IncidentList.PageOfIndex | home.py:142-143 | every row index lies on exactly one page, page i/10 + 1 |
| IncidentList.PagesPartitionRows | home.py:142-169 | the pages shown one after another reproduce the whole frame |
| IncidentList.Caption | home.py:212 | the caption range is (page-1)*10+1 .. min(page*10, n), which lies within 1 .. n |
| IncidentList.EscalationMatchesFilters | home.py:190-193 | a row is flagged iff it passes the severity filter {Critical, High} and the state filter {Open, In Progress} |
| Channels.NatToString | pages/1_Incident_Detail.py:209 | a subscriber count is written as one or more decimal digits, with a leading zero only for 0 |
| Channels.NatToStringValue | pages/1_Incident_Detail.py:209 | the digits of a count, read back in base ten, give the count |
| Channels.NatToStringInjective | pages/1_Incident_Detail.py:209 | different counts are written differently |
| Channels.Labels | pages/1_Incident_Detail.py:208-211 | the option list has one label per raw channel, in the same order |
| Channels.DisplayToRawSound | pages/1_Incident_Detail.py:213-216 | every channel's label is a key of the table; every key maps to a channel of the list whose label is that key |
| Channels.DisplayToRawRoundTrip | pages/1_Incident_Detail.py:213-216 | when the labels are distinct, the table maps each channel's label back to that channel |
| Channels.LabelsCanCollide | pages/1_Incident_Detail.py:213-216 | an example of two channels sharing a label: for ["A", "A (1 subs)"] with "A" counted once, both are labelled "A (1 subs)" and the table maps that label to the later channel, so "A" is lost |
| Channels.SelectedChannels | pages/1_Incident_Detail.py:235 | the translated selection has one raw channel per picked label, each from the list and labelled by that pick |
| Channels.SelectLabelsOf | pages/1_Incident_Detail.py:219-235 | picking the labels of some channels translates back to exactly those channels |
| Channels.DisplayChannels | pages/1_Incident_Detail.py:201-211 | the options are "Status Page", "Slack (42 subs)", "Email (128 subs)", "SMS (65 subs)" |
| Channels.DefaultDisplay | pages/1_Incident_Detail.py:218-223 | the preselected labels are "Status Page" and "Slack (42 subs)" |
| Channels.PageLabelsDistinct | pages/1_Incident_Detail.py:201-211 | the four channels of the page have four different labels |
| Channels.PageLabelsIdentify | pages/1_Incident_Detail.py:213-235 | two lists of page channels with the same labels are the same list, so a selection names its raw channels uniquely |
| Channels.PageRoundTrip | pages/1_Incident_Detail.py:207-216 | for each page channel, its label is an option and the table maps it back to the channel |
| Channels.DefaultSelection | pages/1_Incident_Detail.py:218-235 | the preselected labels are options and select ["Status Page", "Slack"] |
| Channels.PageLabelValues | pages/1_Incident_Detail.py:201-211 | the four page channels are labelled "Status Page", "Slack (42 subs)", "Email (128 subs)" and "SMS (65 subs)" |
| Channels.EmailSelection | pages/1_Incident_Detail.py:228-235 | picking only "Email (128 subs)" selects exactly ["Email"] |
| Channels.SlackLabel | pages/1_Incident_Detail.py:201-216 | "Slack" is labelled "Slack (42 subs)" and that label maps back to "Slack" |
| Feedback.VoteLabel | pages/1_Incident_Detail.py:173 | the label is the thumbs-up text exactly when the vote is up, otherwise the thumbs-down text |
| Feedback.Prompt | pages/1_Incident_Detail.py:172-174 | the confirmation prompt appears exactly when confirm is enabled; it shows the thumbs-up text iff the pending vote is up and the thumbs-down text iff it is down |
| Feedback.StripProperties | pages/1_Incident_Detail.py:195-196 | stripping keeps a contiguous part of the comment with no whitespace at its ends, and is empty iff the comment is all whitespace |
| Feedback.StripIdempotent | pages/1_Incident_Detail.py:195-196 | stripping twice equals stripping once |
| Feedback.StripKeepsTrimmed | pages/1_Incident_Detail.py:195-196 | a comment with no whitespace at either end is shown as written |
| Feedback.Acknowledge | pages/1_Incident_Detail.py:192-196 | the thank-you label is the thumbs-up text iff the vote is up; the comment is shown, stripped, iff it has a non-whitespace character |
| Feedback.AcknowledgeGreat | pages/1_Incident_Detail.py:192-196 | after a confirmed up vote with comment "great", the acknowledgement is the thumbs-up label with comment "great" |
| Feedback.InitialValid | pages/1_Incident_Detail.py:151-159 | the initial entries are consistent |
| Feedback.StepValid | pages/1_Incident_Detail.py:161-190 | every enabled event keeps "confirmed iff a vote is recorded, and nothing pending once confirmed" |
| Feedback.RunValid | pages/1_Incident_Detail.py:151-190 | every possible run of events keeps that invariant |
| Feedback.ConfirmedIsFinal | pages/1_Incident_Detail.py:162-183 | once confirmed, any run keeps the widget confirmed with the same vote and the same pending entry; from a consistent state that entry is empty and the vote is recorded |
| Feedback.VoteOnlyFromPending | pages/1_Incident_Detail.py:177-180 | the recorded vote changes only on confirm, and then becomes the pending vote |
| Feedback.NoConfirmNoVote | pages/1_Incident_Detail.py:161-183 | a run without confirm leaves the vote and the confirmed flag as they were |
| Feedback.UnconfirmedFromStart | pages/1_Incident_Detail.py:151-183 | from the start, votes and cancels alone leave no vote and no confirmation |
| Feedback.LaterVoteWins | pages/1_Incident_Detail.py:162-169 | before confirmation a second vote click overwrites the first |
| Feedback.CancelThenVoteAgain | pages/1_Incident_Detail.py:162-183 | up, cancel, down, confirm is possible and records a down vote |
| Feedback.SubmitRepeatable | pages/1_Incident_Detail.py:192-196 | any number of submits is possible once confirmed and leaves the entries unchanged |
| Feedback.FeedbackWidget.constructor | pages/1_Incident_Detail.py:151-159 | the entries start as no pending vote, no vote, not confirmed, empty comment |
| Feedback.FeedbackWidget.VoteUp | pages/1_Incident_Detail.py:162-166 | enabled while not confirmed; sets the pending vote to up and changes nothing else |
| Feedback.FeedbackWidget.VoteDown | pages/1_Incident_Detail.py:162-169 | enabled while not confirmed; sets the pending vote to down and changes nothing else |
| Feedback.FeedbackWidget.Confirm | pages/1_Incident_Detail.py:172-180 | enabled with a pending vote and not confirmed; records the pending vote, sets confirmed and clears the pending vote |
| Feedback.FeedbackWidget.Cancel | pages/1_Incident_Detail.py:172-183 | enabled with a pending vote and not confirmed; clears the pending vote only |
| Feedback.FeedbackWidget.EditComment | pages/1_Incident_Detail.py:184-190 | enabled once confirmed; stores the comment box's text only |
| Feedback.FeedbackWidget.Submit | pages/1_Incident_Detail.py:192-196 | enabled once confirmed; returns the vote label and the stripped comment if non-blank, changing nothing |
| PublishGates.StepValid | pages/1_Incident_Detail.py:237-258 | every enabled click keeps "published implies publish requested" |
| PublishGates.RunValid | pages/1_Incident_Detail.py:237-258 | every possible run keeps that invariant |
| PublishGates.NoSingleClickPublish | pages/1_Incident_Detail.py:238-252 | no single click from the start publishes |
| PublishGates.TwoClicksPublish | pages/1_Incident_Detail.py:238-252 | publish followed by confirm is possible and publishes |
| PublishGates.PublishedStays | pages/1_Incident_Detail.py:242-252 | the published flag is never cleared |
| PublishGates.PublishedIsFinal | pages/1_Incident_Detail.py:238-258 | once published, every further run leaves the gate as it is |
| PublishGates.PublishedByConfirm | pages/1_Incident_Detail.py:251-252 | a gate becomes published only through a confirm click |
| PublishGates.PublishThenConfirm | pages/1_Incident_Detail.py:238-252 | from a gate with no request, publishing needs a publish click followed later by a confirm click |
| PublishGates.PublishGate.constructor | pages/1_Incident_Detail.py:242 | both flags start false (an unset entry reads as false) |
| PublishGates.PublishGate.Publish | pages/1_Incident_Detail.py:238-239 | always enabled; requests confirmation and leaves the published flag alone |
| PublishGates.PublishGate.ConfirmPublish | pages/1_Incident_Detail.py:242-252 | enabled while requested and not published; sets published |
| PublishGates.PublishGate.CancelPublish | pages/1_Incident_Detail.py:242-257 | enabled while requested and not published; withdraws the request |
| Drafts.Replace | pages/1_Incident_Detail.py:139-141 | a non-empty generated text replaces the draft; no text or an empty text keeps it |
| Drafts.DraftIsLastSuccess | pages/1_Incident_Detail.py:133-141 | after any series of attempts the draft is the last successful result, or the starting text if none succeeded |
| Drafts.DraftNeverEmptied | pages/1_Incident_Detail.py:136-141 | a non-empty draft never becomes empty again |
| Drafts.FailuresKeepDraft | pages/1_Incident_Detail.py:33-37 | a run of failed or empty attempts leaves the draft unchanged |
| IncidentDetail.ConfirmationListing | pages/1_Incident_Detail.py:245-247 | relabelling the translated selection gives exactly the picked labels |
| IncidentDetail.DetailSession.constructor | pages/1_Incident_Detail.py:133-226 | a new session has an empty draft, fresh initial widgets and gates, and the default selection in both sections |
| IncidentDetail.DetailSession.GenerateDraft | pages/1_Incident_Detail.py:136-141 | only the draft changes, by the replacement rule |
| IncidentDetail.DetailSession.Choose | pages/1_Incident_Detail.py:225-233 | only the chosen section's selection changes, to the picked labels |
| IncidentDetail.DetailSession.ChosenChannels | pages/1_Incident_Detail.py:235 | in either section (customer message here, postmortem report at :328): the section's raw channels are page channels labelled by the picked labels, one per pick |
| IncidentDetail.DetailSession.FeedbackEvent | pages/1_Incident_Detail.py:161-196 | in either section (customer message here, postmortem report at :357-400): only the section's feedback widget changes, by one enabled step |
| IncidentDetail.DetailSession.GateEvent | pages/1_Incident_Detail.py:237-258 | in either section (customer message here, postmortem report at :330-349): only the section's publish gate changes, by one enabled step |
| IncidentDetail.DetailSession.Confirmation | pages/1_Incident_Detail.py:242-247 | in either section (customer message here, postmortem report at :334-339): the channel list appears exactly while confirmation is awaited and equals the picked labels |
| IncidentDetail.DetailSession.Notice | pages/1_Incident_Detail.py:259-260 | in either section (customer message here, postmortem report at :351-352): the success notice appears exactly once published and names raw page channels, one per current pick, each labelled by that pick |
| IncidentDetail.PublishToEmail | pages/1_Incident_Detail.py:228-260 | choosing e-mail, publishing and confirming lists "Email (128 subs)", notifies "Email" and leaves the report gate untouched |
| IncidentDetail.FeedbackUpWithComment | pages/1_Incident_Detail.py:161-196 | up, confirm, comment "great", submit acknowledges a thumbs-up with comment "great"; the other widget is untouched |

## Left out

- Rendering: page setup, CSS, columns, tabs, metrics, headers and the
  messages that only display text. Navigation between pages is left out too.
- The chat-completion request (`pages/1_Incident_Detail.py:7-37`) is a
  network call. Its result is an input to the draft rule: `None` for an
  error response, otherwise the returned text. The call's other failures
  are modelled the same way: a transport error from the request, a missing
  API-key secret (`:138`), and a response body of an unexpected shape
  (`:34`). Each raises, which ends that run of the script before the draft
  is assigned, so the draft stays as it was, just as it does for `None`.
- The random mock incidents (`home.py:51-74`) and the fixed summary and
  postmortem texts (`pages/1_Incident_Detail.py:39-86`, `:265-291`). They
  are random or plain string literals.
- `incident_detail.py` is not part of this model. It holds a copy of the
  message template and two buttons that keep no state.
- The table library's frame is modelled as a sequence of row records. Its
  index labels are not modelled.
- Pagination with zero rows: the page selector then has no value, and the
  start index cannot be computed. The pagination lemmas require n > 0.
- The draft text areas (`:144`, `:146`, `:290-291`) discard what the user
  types, so draft edits are not stored.
- Button clicks are atomic events. A click is handled in the re-run of the
  script that follows it, and the button fires only if that re-run draws it
  again, so an event's guard is checked against the session entries at that
  moment, not against the state in which the button was first drawn. For
  example, the run that handles "✅ Yes, confirm" draws the vote buttons
  (`:162-169`) before it sets the confirmed flag (`:179`), and a later click
  on one of them is dropped. The individual statements of a re-run are not
  modelled.
- Feedback.Acknowledge: returns the stripped comment text. It does not
  model the markdown underscores around the comment.
- Two pairs of buttons share a label and have no key: "❌ Cancel" of the
  customer-message feedback (`:182`) and of the message gate (`:255`), and
  "❌ Cancel (Postmortem)" of the report gate (`:347`) and of the postmortem
  feedback (`:385`). When both buttons of a pair would be drawn in one run,
  creating the second one raises a duplicate-element error that ends the
  run at that line, so neither the second button nor anything the script
  would draw after it is available. For the second pair this only loses
  the postmortem feedback's Cancel (`:385`), since nothing after it can be
  drawn in that state. The first pair loses much more. While the
  customer-message vote is pending and unconfirmed and the message gate
  awaits confirmation, the run stops at `:255`. The message gate's Cancel
  and the whole postmortem section (`:261-400`) are then unavailable: the
  report multiselect, the report gate's buttons and the postmortem
  feedback buttons. The model does not capture any of this.
  `DetailSession.GateEvent(CustomerMessage, CancelPublish)`,
  `DetailSession.FeedbackEvent(PostmortemReport, Cancel)`, and every
  `Choose`, `GateEvent` and `FeedbackEvent` on `PostmortemReport` in that
  state stay enabled whenever their own widget allows them.
- The success line shown inside the report's confirmation step (`:345`) is
  not modelled separately. It shows the same channel list as the notice at
  `:351-352`.

/**
 * The session state of the incident detail page: the stored draft, and in
 * each of the two publishing sections (the customer message and the
 * customer-facing postmortem report) a feedback widget, a publish gate and
 * the labels picked in the channel multiselect. Every piece has its own
 * session entries, so an event in one section leaves the other untouched.
 */
module IncidentDetail {
  import opened Options
  import opened Channels
  import opened Drafts
  import Feedback
  import PublishGates

  /** The two sections of the page that each publish and collect feedback. */
  datatype Section = CustomerMessage | PostmortemReport

  /** A value picture of every session entry the page keeps. */
  datatype PageState = PageState(
    draft: string,
    messageFeedback: Feedback.FeedbackState,
    reportFeedback: Feedback.FeedbackState,
    messageGate: PublishGates.GateState,
    reportGate: PublishGates.GateState,
    messageSelection: seq<string>,
    reportSelection: seq<string>
  )

  /** Labels the multiselect can return: only its own options. */
  predicate OfferedLabels(picked: seq<string>)
  {
    forall d :: d in picked ==> d in DisplayChannels()
  }

  /**
   * What the confirmation step lists: the label of each selected channel.
   * Relabelling the translated selection gives back exactly the labels
   * the user picked.
   */
  function ConfirmationListing(picked: seq<string>): (listed: seq<string>)
    requires OfferedLabels(picked)
    ensures listed == picked
  {
    var raw := SelectedChannels(Subscribers, RawChannels, picked);
    var listed := Labels(Subscribers, raw);
    assert forall k :: 0 <= k < |picked| ==> listed[k] == picked[k];
    listed
  }

  class DetailSession {
    var draft: string
    var messageFeedback: Feedback.FeedbackWidget
    var reportFeedback: Feedback.FeedbackWidget
    var messageGate: PublishGates.PublishGate
    var reportGate: PublishGates.PublishGate
    var messageSelection: seq<string>
    var reportSelection: seq<string>

    /**
     * Each section has its own widget and gate objects, both selections
     * hold offered labels only, and every widget and gate is consistent.
     */
    ghost predicate Valid()
      reads this, messageFeedback, reportFeedback, messageGate, reportGate
    {
      messageFeedback != reportFeedback && messageGate != reportGate &&
      OfferedLabels(messageSelection) && OfferedLabels(reportSelection) &&
      Feedback.Valid(messageFeedback.State()) && Feedback.Valid(reportFeedback.State()) &&
      PublishGates.Valid(messageGate.State()) && PublishGates.Valid(reportGate.State())
    }

    function Snapshot(): PageState
      reads this, messageFeedback, reportFeedback, messageGate, reportGate
    {
      PageState(draft, messageFeedback.State(), reportFeedback.State(),
                messageGate.State(), reportGate.State(), messageSelection, reportSelection)
    }

    function Widget(sec: Section): Feedback.FeedbackWidget
      reads this
    {
      if sec == CustomerMessage then messageFeedback else reportFeedback
    }

    function Gate(sec: Section): PublishGates.PublishGate
      reads this
    {
      if sec == CustomerMessage then messageGate else reportGate
    }

    function Selection(sec: Section): seq<string>
      reads this
    {
      if sec == CustomerMessage then messageSelection else reportSelection
    }

    /** The first showing of the page: empty draft, fresh widgets and gates, default channels. */
    constructor ()
      ensures Valid()
      ensures fresh(messageFeedback) && fresh(reportFeedback) && fresh(messageGate) && fresh(reportGate)
      ensures Snapshot() == PageState("", Feedback.Initial, Feedback.Initial,
                                      PublishGates.Initial, PublishGates.Initial,
                                      DefaultDisplay(), DefaultDisplay())
    {
      draft := "";
      messageFeedback := new Feedback.FeedbackWidget();
      reportFeedback := new Feedback.FeedbackWidget();
      messageGate := new PublishGates.PublishGate();
      reportGate := new PublishGates.PublishGate();
      messageSelection := DefaultDisplay();
      reportSelection := DefaultDisplay();
    }

    /** "Generate Draft": the generator's answer replaces the draft only when it is non-empty text. */
    method GenerateDraft(generated: Option<string>)
      requires Valid()
      modifies this`draft
      ensures Valid()
      ensures Snapshot() == old(Snapshot()).(draft := Replace(old(draft), generated))
    {
      draft := Replace(draft, generated);
    }

    /** The multiselect of a section returns the labels now picked. */
    method Choose(sec: Section, picked: seq<string>)
      requires Valid() && OfferedLabels(picked)
      modifies this`messageSelection, this`reportSelection
      ensures Valid()
      ensures Snapshot() == if sec == CustomerMessage then old(Snapshot()).(messageSelection := picked)
                            else old(Snapshot()).(reportSelection := picked)
    {
      if sec == CustomerMessage {
        messageSelection := picked;
      } else {
        reportSelection := picked;
      }
    }

    /** The raw channel names of a section's current selection. */
    function ChosenChannels(sec: Section): (raw: seq<string>)
      reads this, messageFeedback, reportFeedback, messageGate, reportGate
      requires Valid()
      ensures |raw| == |Selection(sec)|
      ensures forall k :: 0 <= k < |raw| ==> raw[k] in RawChannels && Label(Subscribers, raw[k]) == Selection(sec)[k]
    {
      SelectedChannels(Subscribers, RawChannels, Selection(sec))
    }

    /** One click on a section's feedback widget; only that widget changes. */
    method FeedbackEvent(sec: Section, e: Feedback.FeedbackEvent)
      requires Valid() && Feedback.Enabled(Widget(sec).State(), e)
      modifies Widget(sec)
      ensures Valid()
      ensures Snapshot() == if sec == CustomerMessage
                            then old(Snapshot()).(messageFeedback := Feedback.Step(old(messageFeedback.State()), e))
                            else old(Snapshot()).(reportFeedback := Feedback.Step(old(reportFeedback.State()), e))
    {
      var w := Widget(sec);
      Feedback.StepValid(w.State(), e);
      match e {
        case VoteUp => w.VoteUp();
        case VoteDown => w.VoteDown();
        case Confirm => w.Confirm();
        case Cancel => w.Cancel();
        case EditComment(text) => w.EditComment(text);
        case Submit => var _ := w.Submit();
      }
    }

    /** One click on a section's publish gate; only that gate changes. */
    method GateEvent(sec: Section, e: PublishGates.GateEvent)
      requires Valid() && PublishGates.Enabled(Gate(sec).State(), e)
      modifies Gate(sec)
      ensures Valid()
      ensures Snapshot() == if sec == CustomerMessage
                            then old(Snapshot()).(messageGate := PublishGates.Step(old(messageGate.State()), e))
                            else old(Snapshot()).(reportGate := PublishGates.Step(old(reportGate.State()), e))
    {
      var g := Gate(sec);
      PublishGates.StepValid(g.State(), e);
      match e {
        case Publish => g.Publish();
        case ConfirmPublish => g.ConfirmPublish();
        case CancelPublish => g.CancelPublish();
      }
    }

    /** The channel list of the confirmation step, shown while a publish request waits. */
    function Confirmation(sec: Section): (listed: Option<seq<string>>)
      reads this, messageFeedback, reportFeedback, messageGate, reportGate
      requires Valid()
      ensures listed.Some? <==> PublishGates.AwaitingConfirmation(Gate(sec).State())
      ensures listed.Some? ==> listed.value == Selection(sec)
    {
      if PublishGates.AwaitingConfirmation(Gate(sec).State())
      then Some(ConfirmationListing(Selection(sec))) else None
    }

    /**
     * The success notice, shown once the section is published. It names the
     * channels selected now, not those selected when the publish was confirmed.
     */
    function Notice(sec: Section): (sent: Option<seq<string>>)
      reads this, messageFeedback, reportFeedback, messageGate, reportGate
      requires Valid()
      ensures sent.Some? <==> Gate(sec).published
      ensures sent.Some? ==> |sent.value| == |Selection(sec)| &&
                             forall k :: 0 <= k < |sent.value| ==>
                               sent.value[k] in RawChannels && Label(Subscribers, sent.value[k]) == Selection(sec)[k]
    {
      if Gate(sec).published then Some(ChosenChannels(sec)) else None
    }
  }

  /**
   * Publishing the customer message to e-mail only: the confirmation lists
   * "Email (128 subs)", the notice names "Email", and the postmortem report's
   * gate is still untouched.
   */
  method PublishToEmail() returns (listed: Option<seq<string>>, sent: Option<seq<string>>, report: PublishGates.GateState)
    ensures listed == Some(["Email (128 subs)"])
    ensures sent == Some(["Email"])
    ensures report == PublishGates.Initial
  {
    var page := new DetailSession();
    page.Choose(CustomerMessage, ["Email (128 subs)"]);
    page.GateEvent(CustomerMessage, PublishGates.Publish);
    listed := page.Confirmation(CustomerMessage);
    page.GateEvent(CustomerMessage, PublishGates.ConfirmPublish);
    EmailSelection();
    sent := page.Notice(CustomerMessage);
    report := page.reportGate.State();
    assert listed == Some(["Email (128 subs)"]) && sent == Some(["Email"]) && report == PublishGates.Initial;
  }

  /**
   * Voting up, confirming, commenting "great" and submitting thanks the user
   * for a thumbs-up and echoes the comment; the postmortem widget is untouched.
   */
  method FeedbackUpWithComment() returns (ack: Feedback.Acknowledgement, other: Feedback.FeedbackState)
    ensures ack == Feedback.Acknowledgement(Feedback.UpLabel, Some("great"))
    ensures other == Feedback.Initial
  {
    var page := new DetailSession();
    page.FeedbackEvent(CustomerMessage, Feedback.VoteUp);
    assert page.messageFeedback.State() == Feedback.FeedbackState(Some(Feedback.Up), None, false, "");
    page.FeedbackEvent(CustomerMessage, Feedback.Confirm);
    assert page.messageFeedback.State() == Feedback.FeedbackState(None, Some(Feedback.Up), true, "");
    page.FeedbackEvent(CustomerMessage, Feedback.EditComment("great"));
    assert page.messageFeedback.State() == Feedback.FeedbackState(None, Some(Feedback.Up), true, "great");
    Feedback.AcknowledgeGreat();
    ack := page.messageFeedback.Submit();
    other := page.reportFeedback.State();
  }
}

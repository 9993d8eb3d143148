/**
 * The two-step feedback widget of the incident detail page. A thumbs-up or
 * thumbs-down click only proposes a vote; the vote is recorded when the
 * user confirms it, after which the vote buttons disappear for good and an
 * optional comment can be written and submitted.
 *
 * The same widget appears twice on the page (for the customer message draft
 * and for the postmortem drafts), each with its own session entries: two
 * instances of the class below.
 */
module Feedback {
  import opened Options

  datatype Vote = Up | Down

  /** The session entries of one widget: pending, vote, confirmed and comment. */
  datatype FeedbackState = FeedbackState(pending: Option<Vote>, vote: Option<Vote>, confirmed: bool, comment: string)

  /** What the user can click or type. */
  datatype FeedbackEvent =
    | VoteUp | VoteDown        // "Looks good" / "Needs improvement"
    | Confirm | Cancel         // the confirmation step
    | EditComment(text: string)
    | Submit

  /** The entries as they are first initialised. */
  const Initial: FeedbackState := FeedbackState(None, None, false, "")

  const UpLabel: string := "\U{1F44D} Looks good"
  const DownLabel: string := "\U{1F44E} Needs improvement"

  /**
   * An event can happen only while its widget is on the page: the vote
   * buttons while nothing is confirmed, confirm and cancel while a vote is
   * pending and not confirmed, the comment box and submit once confirmed.
   */
  predicate Enabled(s: FeedbackState, e: FeedbackEvent)
  {
    match e
    case VoteUp => !s.confirmed
    case VoteDown => !s.confirmed
    case Confirm => s.pending.Some? && !s.confirmed
    case Cancel => s.pending.Some? && !s.confirmed
    case EditComment(_) => s.confirmed
    case Submit => s.confirmed
  }

  /** The effect of one enabled event on the session entries. */
  function Step(s: FeedbackState, e: FeedbackEvent): FeedbackState
    requires Enabled(s, e)
  {
    match e
    case VoteUp => s.(pending := Some(Up))
    case VoteDown => s.(pending := Some(Down))
    case Confirm => s.(vote := s.pending, confirmed := true, pending := None)
    case Cancel => s.(pending := None)
    case EditComment(text) => s.(comment := text)
    case Submit => s
  }

  /** Each event of the sequence is enabled when it happens. */
  predicate Possible(s: FeedbackState, es: seq<FeedbackEvent>)
    decreases |es|
  {
    es == [] || (Enabled(s, es[0]) && Possible(Step(s, es[0]), es[1..]))
  }

  function Run(s: FeedbackState, es: seq<FeedbackEvent>): FeedbackState
    requires Possible(s, es)
    decreases |es|
  {
    if es == [] then s else Run(Step(s, es[0]), es[1..])
  }

  /**
   * The consistency of the entries: a vote is recorded exactly when the
   * widget is confirmed, and nothing is pending after confirmation.
   */
  predicate Valid(s: FeedbackState)
  {
    (s.confirmed <==> s.vote.Some?) && (s.confirmed ==> s.pending.None?)
  }

  /** The label of a vote, as the confirmation prompt and the thank-you line show it. */
  function VoteLabel(v: Option<Vote>): (text: string)
    ensures text == UpLabel <==> v == Some(Up)
    ensures text == DownLabel <==> v != Some(Up)
  {
    assert UpLabel[0] != DownLabel[0];
    if v == Some(Up) then UpLabel else DownLabel
  }

  /** The prompt "Confirm your feedback" and the vote it names, shown while a vote is pending. */
  function Prompt(s: FeedbackState): (prompt: Option<string>)
    ensures prompt.Some? <==> Enabled(s, Confirm)
    ensures prompt.Some? ==> (prompt.value == UpLabel <==> s.pending == Some(Up))
    ensures prompt.Some? ==> (prompt.value == DownLabel <==> s.pending == Some(Down))
  {
    if s.pending.Some? && !s.confirmed then
      var v := s.pending.value;
      assert v.Up? || v.Down?;
      Some(VoteLabel(s.pending))
    else None
  }

  // --------------------------------------------------------- the comment

  /** The characters Python's str.isspace() accepts. */
  predicate IsSpace(c: char)
  {
    c == ' ' || '\t' <= c <= '\r' || '\U{1C}' <= c <= '\U{1F}' || c == '\U{85}' || c == '\U{A0}' ||
    c == '\U{1680}' || '\U{2000}' <= c <= '\U{200A}' || c == '\U{2028}' || c == '\U{2029}' ||
    c == '\U{202F}' || c == '\U{205F}' || c == '\U{3000}'
  }

  function TrimStart(t: string): (r: string)
    ensures |r| <= |t| && r == t[|t| - |r|..]
    ensures r != [] ==> !IsSpace(r[0])
    ensures forall i :: 0 <= i < |t| - |r| ==> IsSpace(t[i])
  {
    if t != [] && IsSpace(t[0]) then TrimStart(t[1..]) else t
  }

  function TrimEnd(t: string): (r: string)
    ensures |r| <= |t| && r == t[..|r|]
    ensures r != [] ==> !IsSpace(r[|r| - 1])
    ensures forall i :: |r| <= i < |t| ==> IsSpace(t[i])
  {
    if t != [] && IsSpace(t[|t| - 1]) then TrimEnd(t[..|t| - 1]) else t
  }

  /** Python's str.strip(): the text without leading and trailing whitespace. */
  function Strip(t: string): string
  {
    TrimEnd(TrimStart(t))
  }

  lemma StripIsSlice(t: string)
    ensures |t| - |TrimStart(t)| + |Strip(t)| <= |t|
    ensures Strip(t) == t[|t| - |TrimStart(t)|..|t| - |TrimStart(t)| + |Strip(t)|]
  {
    var s := TrimStart(t);
    assert s == t[|t| - |s|..];
  }

  lemma StripEnds(t: string)
    ensures Strip(t) != [] ==> !IsSpace(Strip(t)[0]) && !IsSpace(Strip(t)[|Strip(t)| - 1])
  {
    var s := TrimStart(t);
    if Strip(t) != [] {
      assert s[0] == Strip(t)[0];
    }
  }

  lemma StripEmptyIff(t: string)
    ensures Strip(t) == [] <==> forall i :: 0 <= i < |t| ==> IsSpace(t[i])
  {
    var s := TrimStart(t);
    if Strip(t) == [] {
      assert s == [];
    } else {
      StripEnds(t);
      StripIsSlice(t);
      var a := |t| - |s|;
      assert t[a] == Strip(t)[0];
    }
  }

  /**
   * Strip removes whitespace only at the two ends, keeps a contiguous part of
   * the text, and is empty exactly when the text is all whitespace.
   */
  lemma StripProperties(t: string)
    ensures |t| - |TrimStart(t)| + |Strip(t)| <= |t|
    ensures Strip(t) == t[|t| - |TrimStart(t)|..|t| - |TrimStart(t)| + |Strip(t)|]
    ensures Strip(t) != [] ==> !IsSpace(Strip(t)[0]) && !IsSpace(Strip(t)[|Strip(t)| - 1])
    ensures Strip(t) == [] <==> forall i :: 0 <= i < |t| ==> IsSpace(t[i])
  {
    StripIsSlice(t);
    StripEnds(t);
    StripEmptyIff(t);
  }

  /** Stripping twice gives the same text as stripping once. */
  lemma StripIdempotent(t: string)
    ensures Strip(Strip(t)) == Strip(t)
  {
    var r := Strip(t);
    StripProperties(t);
    if r != [] {
      assert TrimStart(r) == r;
      assert TrimEnd(r) == r;
    }
  }

  /** A text with no whitespace at either end is left as it is. */
  lemma StripKeepsTrimmed(t: string)
    requires t != [] && !IsSpace(t[0]) && !IsSpace(t[|t| - 1])
    ensures Strip(t) == t
  {
    assert TrimStart(t) == t;
  }

  /** What "Submit Feedback" shows: the thank-you line and, if any, the comment. */
  datatype Acknowledgement = Acknowledgement(voteLabel: string, comment: Option<string>)

  /** The acknowledgement for the current entries; it depends on nothing else. */
  function Acknowledge(s: FeedbackState): (ack: Acknowledgement)
    ensures ack.voteLabel == UpLabel <==> s.vote == Some(Up)
    ensures ack.voteLabel != UpLabel ==> ack.voteLabel == DownLabel
    ensures ack.comment.Some? <==> exists i :: 0 <= i < |s.comment| && !IsSpace(s.comment[i])
    ensures ack.comment.Some? ==> ack.comment.value == Strip(s.comment)
  {
    StripProperties(s.comment);
    var shown := Strip(s.comment);
    Acknowledgement(VoteLabel(s.vote), if shown != [] then Some(shown) else None)
  }

  /** The comment "great" after an up vote is echoed as written. */
  lemma AcknowledgeGreat()
    ensures Acknowledge(FeedbackState(None, Some(Up), true, "great")) == Acknowledgement(UpLabel, Some("great"))
  {
    assert !IsSpace('g') && !IsSpace('t');
    StripKeepsTrimmed("great");
  }

  // --------------------------------------------------------- the lemmas

  lemma InitialValid()
    ensures Valid(Initial)
  {
  }

  /** Every enabled event keeps the entries consistent. */
  lemma StepValid(s: FeedbackState, e: FeedbackEvent)
    requires Valid(s) && Enabled(s, e)
    ensures Valid(Step(s, e))
  {
  }

  lemma {:induction false} RunValid(s: FeedbackState, es: seq<FeedbackEvent>)
    requires Valid(s) && Possible(s, es)
    ensures Valid(Run(s, es))
    decreases |es|
  {
    if es != [] {
      StepValid(s, es[0]);
      RunValid(Step(s, es[0]), es[1..]);
    }
  }

  /** Once confirmed, the widget stays confirmed and keeps its vote, whatever follows. */
  lemma {:induction false} ConfirmedIsFinal(s: FeedbackState, es: seq<FeedbackEvent>)
    requires s.confirmed && Possible(s, es)
    ensures Run(s, es).confirmed && Run(s, es).vote == s.vote && Run(s, es).pending == s.pending
    ensures Valid(s) ==> Run(s, es).pending == None && Run(s, es).vote.Some?
    decreases |es|
  {
    if es != [] {
      ConfirmedIsFinal(Step(s, es[0]), es[1..]);
    }
  }

  /**
   * The recorded vote changes only through a confirmation, and then takes
   * the pending vote.
   */
  lemma VoteOnlyFromPending(s: FeedbackState, e: FeedbackEvent)
    requires Enabled(s, e)
    ensures Step(s, e).vote != s.vote ==> e == Confirm && Step(s, e).vote == s.pending
    ensures e == Confirm ==> Step(s, e).vote == s.pending && Step(s, e).vote.Some?
  {
  }

  /** Votes and cancellations alone never record anything. */
  predicate NoConfirm(es: seq<FeedbackEvent>)
  {
    forall k :: 0 <= k < |es| ==> es[k] != Confirm
  }

  lemma {:induction false} NoConfirmNoVote(s: FeedbackState, es: seq<FeedbackEvent>)
    requires Possible(s, es) && NoConfirm(es)
    ensures Run(s, es).vote == s.vote && Run(s, es).confirmed == s.confirmed
    decreases |es|
  {
    if es != [] {
      assert es[0] != Confirm;
      NoConfirmNoVote(Step(s, es[0]), es[1..]);
    }
  }

  /** From the start, any run without a confirmation leaves no vote and no confirmation. */
  lemma UnconfirmedFromStart(es: seq<FeedbackEvent>)
    requires Possible(Initial, es) && NoConfirm(es)
    ensures Run(Initial, es).vote == None && !Run(Initial, es).confirmed
  {
    NoConfirmNoVote(Initial, es);
  }

  /** A later vote overwrites an earlier unconfirmed one. */
  lemma LaterVoteWins(s: FeedbackState, first: FeedbackEvent, second: FeedbackEvent)
    requires first in {VoteUp, VoteDown} && second in {VoteUp, VoteDown}
    requires !s.confirmed
    ensures Enabled(s, first) && Enabled(Step(s, first), second)
    ensures Step(Step(s, first), second) == Step(s, second)
  {
  }

  /**
   * Proposing up, cancelling, proposing down and confirming records "down":
   * cancelling only clears the proposal and does not block a new one.
   */
  lemma CancelThenVoteAgain()
    ensures Possible(Initial, [VoteUp, Cancel, VoteDown, Confirm])
    ensures Run(Initial, [VoteUp, Cancel, VoteDown, Confirm]).vote == Some(Down)
  {
    var es := [VoteUp, Cancel, VoteDown, Confirm];
    assert es[1..] == [Cancel, VoteDown, Confirm];
    assert es[2..] == [VoteDown, Confirm];
    assert es[3..] == [Confirm];
    assert es[4..] == [];
  }

  /** Submitting changes nothing, so it can be repeated with the same result. */
  lemma SubmitRepeatable(s: FeedbackState, n: nat)
    requires s.confirmed
    ensures Possible(s, seq(n, _ => Submit)) && Run(s, seq(n, _ => Submit)) == s
  {
    var es := seq(n, _ => Submit);
    if n > 0 {
      assert es[1..] == seq(n - 1, _ => Submit);
      SubmitRepeatable(s, n - 1);
    }
  }

  // --------------------------------------------------------- the widget

  /** One feedback widget's session entries, updated in place by its event handlers. */
  class FeedbackWidget {
    var pending: Option<Vote>
    var vote: Option<Vote>
    var confirmed: bool
    var comment: string

    function State(): FeedbackState
      reads this
    {
      FeedbackState(pending, vote, confirmed, comment)
    }

    /** The entries are created empty the first time the page is shown. */
    constructor ()
      ensures State() == Initial && Valid(State())
    {
      pending, vote, confirmed, comment := None, None, false, "";
    }

    /** "Looks good": propose an up vote. */
    method VoteUp()
      requires !confirmed
      modifies this
      ensures pending == Some(Up)
      ensures vote == old(vote) && confirmed == old(confirmed) && comment == old(comment)
      ensures State() == Step(old(State()), FeedbackEvent.VoteUp)
    {
      pending := Some(Up);
    }

    /** "Needs improvement": propose a down vote. */
    method VoteDown()
      requires !confirmed
      modifies this
      ensures pending == Some(Down)
      ensures vote == old(vote) && confirmed == old(confirmed) && comment == old(comment)
      ensures State() == Step(old(State()), FeedbackEvent.VoteDown)
    {
      pending := Some(Down);
    }

    /** "Yes, confirm": record the pending vote. */
    method Confirm()
      requires pending.Some? && !confirmed
      modifies this
      ensures vote == old(pending) && confirmed && pending == None && comment == old(comment)
      ensures State() == Step(old(State()), FeedbackEvent.Confirm)
    {
      vote := pending;
      confirmed := true;
      pending := None;
    }

    /** "Cancel": drop the pending vote. */
    method Cancel()
      requires pending.Some? && !confirmed
      modifies this
      ensures pending == None
      ensures vote == old(vote) && confirmed == old(confirmed) && comment == old(comment)
      ensures State() == Step(old(State()), FeedbackEvent.Cancel)
    {
      pending := None;
    }

    /** The comment box stores whatever it holds after each edit. */
    method EditComment(text: string)
      requires confirmed
      modifies this
      ensures comment == text
      ensures pending == old(pending) && vote == old(vote) && confirmed == old(confirmed)
      ensures State() == Step(old(State()), FeedbackEvent.EditComment(text))
    {
      comment := text;
    }

    /** "Submit Feedback": show the acknowledgement; no entry changes. */
    method Submit() returns (ack: Acknowledgement)
      requires confirmed
      ensures ack == Acknowledge(State())
      ensures ack.voteLabel == (if vote == Some(Up) then UpLabel else DownLabel)
      ensures ack.comment.Some? <==> Strip(comment) != []
      ensures ack.comment.Some? ==> ack.comment.value == Strip(comment)
    {
      ack := Acknowledge(State());
    }
  }
}

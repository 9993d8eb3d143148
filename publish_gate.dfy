/**
 * The two-step publish gate of the incident detail page. "Publish" only
 * asks for confirmation; "Yes, publish now" marks the message as published
 * and "Cancel" withdraws the request. Nothing ever clears the published
 * flag, so once published the confirmation step never comes back.
 *
 * The page has two gates with separate session entries, one for the
 * customer message and one for the customer-facing postmortem report: two
 * instances of the class below.
 */
module PublishGates {

  /** The two session entries of one gate; an entry not yet set reads as false. */
  datatype GateState = GateState(confirmPublish: bool, published: bool)

  datatype GateEvent = Publish | ConfirmPublish | CancelPublish

  const Initial: GateState := GateState(false, false)

  /** The confirmation step, with its two buttons, is on the page. */
  predicate AwaitingConfirmation(g: GateState)
  {
    g.confirmPublish && !g.published
  }

  /** "Publish" is always on the page; the other two only during the confirmation step. */
  predicate Enabled(g: GateState, e: GateEvent)
  {
    match e
    case Publish => true
    case ConfirmPublish => AwaitingConfirmation(g)
    case CancelPublish => AwaitingConfirmation(g)
  }

  function Step(g: GateState, e: GateEvent): GateState
    requires Enabled(g, e)
  {
    match e
    case Publish => g.(confirmPublish := true)
    case ConfirmPublish => g.(published := true)
    case CancelPublish => g.(confirmPublish := false)
  }

  predicate Possible(g: GateState, es: seq<GateEvent>)
    decreases |es|
  {
    es == [] || (Enabled(g, es[0]) && Possible(Step(g, es[0]), es[1..]))
  }

  function Run(g: GateState, es: seq<GateEvent>): GateState
    requires Possible(g, es)
    decreases |es|
  {
    if es == [] then g else Run(Step(g, es[0]), es[1..])
  }

  /** A published gate still has its confirmation request set: cancel can no longer clear it. */
  predicate Valid(g: GateState)
  {
    g.published ==> g.confirmPublish
  }

  lemma StepValid(g: GateState, e: GateEvent)
    requires Valid(g) && Enabled(g, e)
    ensures Valid(Step(g, e))
  {
  }

  lemma {:induction false} RunValid(g: GateState, es: seq<GateEvent>)
    requires Valid(g) && Possible(g, es)
    ensures Valid(Run(g, es))
    decreases |es|
  {
    if es != [] {
      StepValid(g, es[0]);
      RunValid(Step(g, es[0]), es[1..]);
    }
  }

  /** No single click publishes: the first click can at most ask for confirmation. */
  lemma NoSingleClickPublish(e: GateEvent)
    requires Enabled(Initial, e)
    ensures !Step(Initial, e).published
  {
  }

  /** Publishing takes the two clicks "Publish" and "Yes, publish now", in that order. */
  lemma TwoClicksPublish()
    ensures Possible(Initial, [Publish, ConfirmPublish])
    ensures Run(Initial, [Publish, ConfirmPublish]).published
  {
    assert [Publish, ConfirmPublish][1..] == [ConfirmPublish];
  }

  /** The published flag is never cleared. */
  lemma {:induction false} PublishedStays(g: GateState, es: seq<GateEvent>)
    requires g.published && Possible(g, es)
    ensures Run(g, es).published
    decreases |es|
  {
    if es != [] {
      PublishedStays(Step(g, es[0]), es[1..]);
    }
  }

  /** Once published the gate is finished: every further click leaves it as it is. */
  lemma {:induction false} PublishedIsFinal(g: GateState, es: seq<GateEvent>)
    requires Valid(g) && g.published && Possible(g, es)
    ensures Run(g, es) == g
    decreases |es|
  {
    if es != [] {
      PublishedIsFinal(Step(g, es[0]), es[1..]);
    }
  }

  /** A gate becomes published only through a "Yes, publish now" click. */
  lemma {:induction false} PublishedByConfirm(g: GateState, es: seq<GateEvent>)
    requires !g.published && Possible(g, es) && Run(g, es).published
    ensures exists j :: 0 <= j < |es| && es[j] == ConfirmPublish
    decreases |es|
  {
    if es[0] != ConfirmPublish {
      PublishedByConfirm(Step(g, es[0]), es[1..]);
      var j :| 0 <= j < |es[1..]| && es[1..][j] == ConfirmPublish;
      assert es[j + 1] == ConfirmPublish;
    }
  }

  /**
   * From a gate with no pending request, publishing needs a "Publish" click
   * followed later by a "Yes, publish now" click.
   */
  lemma PublishThenConfirm(g: GateState, es: seq<GateEvent>)
    requires !g.published && !g.confirmPublish && Possible(g, es) && Run(g, es).published
    ensures exists i, j :: 0 <= i < j < |es| && es[i] == Publish && es[j] == ConfirmPublish
  {
    assert es[0] == Publish;
    PublishedByConfirm(Step(g, es[0]), es[1..]);
    var j :| 0 <= j < |es[1..]| && es[1..][j] == ConfirmPublish;
    assert es[j + 1] == ConfirmPublish;
  }

  /** One gate's session entries, updated in place by its button handlers. */
  class PublishGate {
    var confirmPublish: bool
    var published: bool

    function State(): GateState
      reads this
    {
      GateState(confirmPublish, published)
    }

    constructor ()
      ensures State() == Initial && Valid(State())
    {
      confirmPublish, published := false, false;
    }

    /** "Publish to Selected Channels": ask for confirmation. */
    method Publish()
      modifies this
      ensures confirmPublish && published == old(published)
      ensures State() == Step(old(State()), GateEvent.Publish)
    {
      confirmPublish := true;
    }

    /** "Yes, publish now": mark the message as published. */
    method ConfirmPublish()
      requires confirmPublish && !published
      modifies this
      ensures published && confirmPublish == old(confirmPublish)
      ensures State() == Step(old(State()), GateEvent.ConfirmPublish)
    {
      published := true;
    }

    /** "Cancel": withdraw the request. */
    method CancelPublish()
      requires confirmPublish && !published
      modifies this
      ensures !confirmPublish && published == old(published)
      ensures State() == Step(old(State()), GateEvent.CancelPublish)
    {
      confirmPublish := false;
    }
  }
}

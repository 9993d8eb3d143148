/**
 * The stored customer-message draft. It starts empty, and each press of
 * "Generate Draft" replaces it only when the generator returns a non-empty
 * text; a failed request (no text) or an empty answer keeps the old draft.
 * The generator itself, an outside chat-completion service, is an input.
 */
module Drafts {
  import opened Options

  /** Python truthiness of the generator's result: present and non-empty. */
  predicate Truthy(generated: Option<string>)
  {
    generated.Some? && generated.value != ""
  }

  /** The draft after one generation attempt. */
  function Replace(current: string, generated: Option<string>): (next: string)
    ensures Truthy(generated) ==> next == generated.value
    ensures !Truthy(generated) ==> next == current
  {
    if Truthy(generated) then generated.value else current
  }

  /** The draft after a series of attempts, taken in the order they happened. */
  function Regenerate(current: string, results: seq<Option<string>>): string
    decreases |results|
  {
    if results == [] then current else Regenerate(Replace(current, results[0]), results[1..])
  }

  /** The text of the most recent successful attempt, or `fallback` if none succeeded. */
  function LastTruthy(results: seq<Option<string>>, fallback: string): string
    decreases |results|
  {
    if results == [] then fallback
    else if Truthy(results[|results| - 1]) then results[|results| - 1].value
    else LastTruthy(results[..|results| - 1], fallback)
  }

  lemma {:induction false} RegenerateAppend(current: string, results: seq<Option<string>>, r: Option<string>)
    ensures Regenerate(current, results + [r]) == Replace(Regenerate(current, results), r)
    decreases |results|
  {
    if results != [] {
      assert (results + [r])[1..] == results[1..] + [r];
      RegenerateAppend(Replace(current, results[0]), results[1..], r);
    }
  }

  /**
   * The stored draft is always the last successful result, and stays the
   * starting text (the empty string on a fresh page) while none succeeded.
   */
  lemma {:induction false} DraftIsLastSuccess(current: string, results: seq<Option<string>>)
    ensures Regenerate(current, results) == LastTruthy(results, current)
    decreases |results|
  {
    if results != [] {
      var init := results[..|results| - 1];
      assert results == init + [results[|results| - 1]];
      RegenerateAppend(current, init, results[|results| - 1]);
      DraftIsLastSuccess(current, init);
    }
  }

  /** Once the draft holds text, no later attempt empties it. */
  lemma {:induction false} DraftNeverEmptied(current: string, results: seq<Option<string>>)
    requires current != ""
    ensures Regenerate(current, results) != ""
    decreases |results|
  {
    if results != [] {
      DraftNeverEmptied(Replace(current, results[0]), results[1..]);
    }
  }

  /** A run of failed or empty attempts leaves the draft exactly as it was. */
  lemma {:induction false} FailuresKeepDraft(current: string, results: seq<Option<string>>)
    requires forall k :: 0 <= k < |results| ==> !Truthy(results[k])
    ensures Regenerate(current, results) == current
    decreases |results|
  {
    if results != [] {
      FailuresKeepDraft(current, results[1..]);
    }
  }
}

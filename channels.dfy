/**
 * Communication channels on the incident detail page: a raw channel name is
 * shown as "name (N subs)" when a subscriber count is known for it, a table
 * built from the same list maps each label back to its raw name, and the
 * labels picked in the multiselect are translated through that table.
 */
module Channels {

  /** Decimal digits of a natural number, as Python's str() writes them. */
  function NatToString(n: nat): (s: string)
    ensures |s| >= 1
    ensures forall i :: 0 <= i < |s| ==> '0' <= s[i] <= '9'
    ensures s[0] == '0' <==> n == 0
    decreases n
  {
    var digit := ['0' + (n % 10) as char];
    if n < 10 then digit else NatToString(n / 10) + digit
  }

  /** The number a string of decimal digits spells, most significant digit first. */
  function DigitsValue(s: string): nat
    requires forall i :: 0 <= i < |s| ==> '0' <= s[i] <= '9'
    decreases |s|
  {
    if s == [] then 0 else DigitsValue(s[..|s| - 1]) * 10 + (s[|s| - 1] as int - '0' as int)
  }

  /** The digits of n spell n. */
  lemma {:induction false} NatToStringValue(n: nat)
    ensures DigitsValue(NatToString(n)) == n
    decreases n
  {
    if n >= 10 {
      NatToStringValue(n / 10);
      var s := NatToString(n);
      assert s[..|s| - 1] == NatToString(n / 10);
    }
  }

  /** Different counts are written differently, so they give different labels. */
  lemma NatToStringInjective(m: nat, n: nat)
    requires NatToString(m) == NatToString(n)
    ensures m == n
  {
    NatToStringValue(m);
    NatToStringValue(n);
  }

  /** The display label of a raw channel name. */
  function Label(subscribers: map<string, nat>, ch: string): string
  {
    if ch in subscribers then ch + " (" + NatToString(subscribers[ch]) + " subs)" else ch
  }

  /** The labels of a list of raw channels, in the same order. */
  function Labels(subscribers: map<string, nat>, chs: seq<string>): (labels: seq<string>)
    ensures |labels| == |chs|
    ensures forall i :: 0 <= i < |chs| ==> labels[i] == Label(subscribers, chs[i])
  {
    if chs == [] then [] else Labels(subscribers, chs[..|chs| - 1]) + [Label(subscribers, chs[|chs| - 1])]
  }

  /**
   * The label-to-name table, built like a dictionary comprehension: the
   * channels are inserted in list order, so a later channel with the same
   * label overwrites an earlier one.
   */
  function DisplayToRaw(subscribers: map<string, nat>, chs: seq<string>): (table: map<string, string>)
  {
    if chs == [] then map[]
    else DisplayToRaw(subscribers, chs[..|chs| - 1])[Label(subscribers, chs[|chs| - 1]) := chs[|chs| - 1]]
  }

  /** No two channels of the list share a label. */
  predicate DistinctLabels(subscribers: map<string, nat>, chs: seq<string>)
  {
    forall i, j :: 0 <= i < j < |chs| ==> Label(subscribers, chs[i]) != Label(subscribers, chs[j])
  }

  /**
   * The table's keys are exactly the labels, and every key maps to a channel
   * of the list whose label is that key.
   */
  lemma {:induction false} DisplayToRawSound(subscribers: map<string, nat>, chs: seq<string>)
    ensures forall i :: 0 <= i < |chs| ==> Label(subscribers, chs[i]) in DisplayToRaw(subscribers, chs)
    ensures forall d :: d in DisplayToRaw(subscribers, chs) ==>
              DisplayToRaw(subscribers, chs)[d] in chs && Label(subscribers, DisplayToRaw(subscribers, chs)[d]) == d
  {
    if chs != [] {
      var init := chs[..|chs| - 1];
      DisplayToRawSound(subscribers, init);
      assert chs == init + [chs[|chs| - 1]];
      forall i | 0 <= i < |init|
        ensures Label(subscribers, chs[i]) in DisplayToRaw(subscribers, chs)
      {
        assert chs[i] == init[i];
      }
    }
  }

  /** Every option of the multiselect is a key of the table. */
  lemma LabelInTable(subscribers: map<string, nat>, chs: seq<string>, d: string)
    requires d in Labels(subscribers, chs)
    ensures d in DisplayToRaw(subscribers, chs)
  {
    DisplayToRawSound(subscribers, chs);
  }

  /** With distinct labels, looking up a channel's label gives the channel back. */
  lemma {:induction false} DisplayToRawRoundTrip(subscribers: map<string, nat>, chs: seq<string>, i: nat)
    requires DistinctLabels(subscribers, chs)
    requires i < |chs|
    ensures Label(subscribers, chs[i]) in DisplayToRaw(subscribers, chs)
    ensures DisplayToRaw(subscribers, chs)[Label(subscribers, chs[i])] == chs[i]
  {
    var last := |chs| - 1;
    if i < last {
      var init := chs[..last];
      assert DistinctLabels(subscribers, init) by {
        forall a, b | 0 <= a < b < |init|
          ensures Label(subscribers, init[a]) != Label(subscribers, init[b])
        {
          assert init[a] == chs[a] && init[b] == chs[b];
        }
      }
      DisplayToRawRoundTrip(subscribers, init, i);
      assert init[i] == chs[i];
    }
  }

  /** Without distinct labels the table loses a channel: two names can share one label. */
  lemma LabelsCanCollide()
    ensures Label(map["A" := 1], "A") == Label(map["A" := 1], "A (1 subs)")
    ensures DisplayToRaw(map["A" := 1], ["A", "A (1 subs)"])[Label(map["A" := 1], "A")] != "A"
  {
    assert NatToString(1) == "1";
  }

  /**
   * The labels picked in the multiselect, translated to raw channel names.
   * The widget only offers labels of the list, so every pick is in the table.
   */
  function SelectedChannels(subscribers: map<string, nat>, chs: seq<string>, picked: seq<string>): (raw: seq<string>)
    requires forall d :: d in picked ==> d in Labels(subscribers, chs)
    ensures |raw| == |picked|
    ensures forall k :: 0 <= k < |raw| ==> raw[k] in chs && Label(subscribers, raw[k]) == picked[k]
  {
    DisplayToRawSound(subscribers, chs);
    assert forall k :: 0 <= k < |picked| ==> picked[k] in DisplayToRaw(subscribers, chs) by {
      forall k | 0 <= k < |picked| ensures picked[k] in DisplayToRaw(subscribers, chs) {
        LabelInTable(subscribers, chs, picked[k]);
      }
    }
    seq(|picked|, k requires 0 <= k < |picked| => DisplayToRaw(subscribers, chs)[picked[k]])
  }

  /**
   * Picking the labels of some channels of the list selects exactly those
   * channels, provided the labels are distinct.
   */
  lemma {:induction false} SelectLabelsOf(subscribers: map<string, nat>, chs: seq<string>, want: seq<string>)
    requires DistinctLabels(subscribers, chs)
    requires forall c :: c in want ==> c in chs
    ensures forall d :: d in Labels(subscribers, want) ==> d in Labels(subscribers, chs)
    ensures SelectedChannels(subscribers, chs, Labels(subscribers, want)) == want
  {
    var picked := Labels(subscribers, want);
    forall k | 0 <= k < |want|
      ensures picked[k] in Labels(subscribers, chs)
      ensures picked[k] in DisplayToRaw(subscribers, chs)
      ensures DisplayToRaw(subscribers, chs)[picked[k]] == want[k]
    {
      assert want[k] in want;
      var i :| 0 <= i < |chs| && chs[i] == want[k];
      DisplayToRawRoundTrip(subscribers, chs, i);
    }
  }

  // --------------------------------------------------- the page's fixed data

  /** The simulated subscriber counts. */
  const Subscribers: map<string, nat> := map["Slack" := 42, "Email" := 128, "SMS" := 65]

  const RawChannels: seq<string> := ["Status Page", "Slack", "Email", "SMS"]

  const DefaultChannels: seq<string> := ["Status Page", "Slack"]

  /** The label of each of the page's channels. */
  lemma PageLabelValues()
    ensures Label(Subscribers, "Status Page") == "Status Page"
    ensures Label(Subscribers, "Slack") == "Slack (42 subs)"
    ensures Label(Subscribers, "Email") == "Email (128 subs)"
    ensures Label(Subscribers, "SMS") == "SMS (65 subs)"
  {
    CountText(42, "42");
    CountText(128, "128");
    CountText(65, "65");
  }

  /** The decimal text of the page's subscriber counts. */
  lemma CountText(n: nat, digits: string)
    requires (n, digits) in {(42, "42"), (128, "128"), (65, "65")}
    ensures NatToString(n) == digits
  {
    if n == 128 {
      assert NatToString(12) == "12";
    }
  }

  /** The options of the multiselect. */
  function DisplayChannels(): (options: seq<string>)
    ensures options == ["Status Page", "Slack (42 subs)", "Email (128 subs)", "SMS (65 subs)"]
  {
    PageLabelValues();
    Labels(Subscribers, RawChannels)
  }

  /** The labels preselected the first time the page is shown. */
  function DefaultDisplay(): (picked: seq<string>)
    ensures picked == ["Status Page", "Slack (42 subs)"]
  {
    PageLabelValues();
    Labels(Subscribers, DefaultChannels)
  }

  /** The four channels of the page have four different labels. */
  lemma PageLabelsDistinct()
    ensures DistinctLabels(Subscribers, RawChannels)
  {
    var options := DisplayChannels();
    forall i, j | 0 <= i < j < |RawChannels|
      ensures Label(Subscribers, RawChannels[i]) != Label(Subscribers, RawChannels[j])
    {
      assert options[i] != options[j];
    }
  }

  /**
   * On this page a list of labels names the raw channels behind it
   * uniquely: two lists of page channels with the same labels are equal.
   */
  lemma PageLabelsIdentify(picked: seq<string>, a: seq<string>, b: seq<string>)
    requires |a| == |picked| && |b| == |picked|
    requires forall k :: 0 <= k < |a| ==> a[k] in RawChannels && Label(Subscribers, a[k]) == picked[k]
    requires forall k :: 0 <= k < |b| ==> b[k] in RawChannels && Label(Subscribers, b[k]) == picked[k]
    ensures a == b
  {
    PageLabelsDistinct();
    forall k | 0 <= k < |a|
      ensures a[k] == b[k]
    {
      var i :| 0 <= i < |RawChannels| && RawChannels[i] == a[k];
      var j :| 0 <= j < |RawChannels| && RawChannels[j] == b[k];
      assert Label(Subscribers, RawChannels[i]) == Label(Subscribers, RawChannels[j]);
      assert i == j;
    }
  }

  /**
   * For every channel of the page, its label is an option of the
   * multiselect and the table maps it back to the channel.
   */
  lemma PageRoundTrip(ch: string)
    requires ch in RawChannels
    ensures Label(Subscribers, ch) in DisplayChannels()
    ensures Label(Subscribers, ch) in DisplayToRaw(Subscribers, RawChannels)
    ensures DisplayToRaw(Subscribers, RawChannels)[Label(Subscribers, ch)] == ch
  {
    PageLabelsDistinct();
    var i :| 0 <= i < |RawChannels| && RawChannels[i] == ch;
    DisplayToRawRoundTrip(Subscribers, RawChannels, i);
  }

  /** The preselected labels select "Status Page" and "Slack". */
  lemma DefaultSelection()
    ensures forall d :: d in DefaultDisplay() ==> d in Labels(Subscribers, RawChannels)
    ensures SelectedChannels(Subscribers, RawChannels, DefaultDisplay()) == ["Status Page", "Slack"]
  {
    PageLabelsDistinct();
    SelectLabelsOf(Subscribers, RawChannels, DefaultChannels);
  }

  /** Picking only "Email (128 subs)" selects the channel "Email". */
  lemma EmailSelection()
    ensures forall d :: d in ["Email (128 subs)"] ==> d in Labels(Subscribers, RawChannels)
    ensures SelectedChannels(Subscribers, RawChannels, ["Email (128 subs)"]) == ["Email"]
  {
    PageLabelsDistinct();
    assert NatToString(128) == "128";
    PageLabelValues();
    assert Labels(Subscribers, ["Email"]) == ["Email (128 subs)"];
    SelectLabelsOf(Subscribers, RawChannels, ["Email"]);
  }

  /** "Slack" is shown as "Slack (42 subs)" and that label is read back as "Slack". */
  lemma SlackLabel()
    ensures Label(Subscribers, "Slack") == "Slack (42 subs)"
    ensures "Slack (42 subs)" in DisplayToRaw(Subscribers, RawChannels)
    ensures DisplayToRaw(Subscribers, RawChannels)["Slack (42 subs)"] == "Slack"
  {
    assert NatToString(42) == "42";
    PageRoundTrip("Slack");
  }
}

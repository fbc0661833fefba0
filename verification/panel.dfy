/**
  The panel's own state and the commands that change it: the health record,
  the list of healthy tips, the background colour cycle and the reset action.
  Random choices (which tip to add) and the confirmation dialog are parameters.
 */
module Panel {
  import Health

  /** The background palette, cycled through in this order. */
  const Backgrounds: seq<string> := ["#f0f7f4", "#e6f2ff", "#fff2e6", "#f9f0ff", "#f0f8ff"]

  /** The pool the "add tip" command draws from. */
  const HealthyTips: seq<string> := [
    "Get sunlight exposure in the morning",
    "Include protein in every meal",
    "Stand up and stretch every hour",
    "Practice gratitude daily",
    "Limit processed foods",
    "Stay hydrated with water throughout the day",
    "Get 7-9 hours of quality sleep"
  ]

  /** The three tips the reset action restores. */
  const SeedTips: seq<string> := [
    "Start your day with a glass of water",
    "Take a 10-minute walk after meals",
    "Practice deep breathing for 5 minutes daily"
  ]

  // ---------------------------------------------------------------------------
  // Tips list

  /**
    A child node of the tips list: a list item, or the whitespace text that
    markup leaves between items.
   */
  datatype ListNode = Item(text: string) | Whitespace

  /** The tip texts the list shows, in order; whitespace shows nothing. */
  function Visible(nodes: seq<ListNode>): seq<string>
  {
    if |nodes| == 0 then []
    else
      var last := nodes[|nodes| - 1];
      Visible(nodes[..|nodes| - 1]) + (if last.Item? then [last.text] else [])
  }

  /** The list the reset markup produces: three items, with whitespace around each. */
  const ResetList: seq<ListNode> := [
    Whitespace, Item(SeedTips[0]), Whitespace, Item(SeedTips[1]),
    Whitespace, Item(SeedTips[2]), Whitespace
  ]

  /** Appends one item holding the pool entry `choice`; earlier nodes are kept. */
  function AddTip(nodes: seq<ListNode>, choice: int): (r: seq<ListNode>)
    requires 0 <= choice < |HealthyTips|
    ensures |r| == |nodes| + 1
    ensures r[..|nodes|] == nodes
    ensures r[|nodes|].Item? && r[|nodes|].text in HealthyTips
    ensures Visible(r) == Visible(nodes) + [HealthyTips[choice]]
  {
    var r := nodes + [Item(HealthyTips[choice])];
    assert r[..|nodes|] == nodes;
    r
  }

  /**
    The remove command as written: it removes the list's last child node,
    whether that is an item or whitespace, and does nothing on an empty list.
   */
  function RemoveLastChild(nodes: seq<ListNode>): (r: seq<ListNode>)
    ensures |nodes| == 0 ==> r == nodes
    ensures |nodes| > 0 ==> |r| == |nodes| - 1 && r + [nodes[|nodes| - 1]] == nodes
  {
    if |nodes| == 0 then nodes else nodes[..|nodes| - 1]
  }

  /**
    The remove command as intended: it removes the last list item, keeping any
    whitespace after it; a list without items is left unchanged. Exactly one
    node goes and exactly one shown tip goes, so every whitespace node stays.
   */
  function RemoveLastTip(nodes: seq<ListNode>): (r: seq<ListNode>)
    ensures |Visible(nodes)| == 0 ==> r == nodes
    ensures |Visible(nodes)| > 0 ==>
      Visible(r) + [Visible(nodes)[|Visible(nodes)| - 1]] == Visible(nodes)
    ensures |Visible(nodes)| > 0 ==> |r| == |nodes| - 1
  {
    if |nodes| == 0 then nodes
    else
      var init := nodes[..|nodes| - 1];
      var last := nodes[|nodes| - 1];
      if last.Item? then init
      else
        var r := RemoveLastTip(init) + [last];
        assert r[..|r| - 1] == RemoveLastTip(init);
        assert nodes == init + [last];
        r
  }

  /** Removing right after adding gives back the list as it was. */
  lemma RemoveUndoesAdd(nodes: seq<ListNode>, choice: int)
    requires 0 <= choice < |HealthyTips|
    ensures RemoveLastTip(AddTip(nodes, choice)) == nodes
    ensures RemoveLastChild(AddTip(nodes, choice)) == nodes
  {
    var added := AddTip(nodes, choice);
    assert added[..|added| - 1] == nodes;
  }

  /** After a reset the as-written removal takes away trailing whitespace: no tip disappears. */
  lemma RemoveLastChildAfterResetShowsNoChange()
    ensures Visible(ResetList) == SeedTips
    ensures Visible(RemoveLastChild(ResetList)) == SeedTips
  {
    ResetListShowsSeedTips();
    var removed := RemoveLastChild(ResetList);
    assert removed == ResetList[..6];
    assert ResetList[..6][..5] == ResetList[..5];
    assert ResetList[..5][..4] == ResetList[..4];
  }

  /** After a reset the intended removal takes away the third seed tip. */
  lemma RemoveLastTipAfterResetDropsLastSeed()
    ensures Visible(RemoveLastTip(ResetList)) == SeedTips[..2]
  {
    ResetListShowsSeedTips();
  }

  /** The reset markup shows exactly the three seed tips. */
  lemma ResetListShowsSeedTips()
    ensures Visible(ResetList) == SeedTips
  {
    var l := ResetList;
    assert l[..6][..5] == l[..5];
    assert l[..5][..4] == l[..4];
    assert l[..4][..3] == l[..3];
    assert l[..3][..2] == l[..2];
    assert l[..2][..1] == l[..1];
    assert Visible(l[..1]) == [];
    assert Visible(l[..2]) == [SeedTips[0]];
    assert Visible(l[..4]) == [SeedTips[0], SeedTips[1]];
    assert Visible(l[..6]) == SeedTips;
  }

  // ---------------------------------------------------------------------------
  // Background cycle

  /** One click of the background button: the next palette index, wrapping to 0. */
  function NextBackground(i: nat): (j: nat)
    ensures j < |Backgrounds|
    ensures (j - i - 1) % |Backgrounds| == 0
  {
    (i + 1) % |Backgrounds|
  }

  /** The palette index after `n` clicks, starting from `i`. */
  function Advance(i: nat, n: nat): nat
  {
    if n == 0 then i else NextBackground(Advance(i, n - 1))
  }

  /** From a palette index, `n` clicks land on index (i + n) mod 5. */
  lemma {:induction false} AdvanceIsModular(i: nat, n: nat)
    requires i < |Backgrounds|
    ensures Advance(i, n) == (i + n) % |Backgrounds|
  {
    if n > 0 {
      AdvanceIsModular(i, n - 1);
    }
  }

  /** The index stays in the palette and comes back after exactly five clicks. */
  lemma CycleReturnsAfterFive(i: nat)
    requires i < |Backgrounds|
    ensures forall n: nat :: Advance(i, n) < |Backgrounds|
    ensures Advance(i, 5) == i
    ensures forall k: nat :: 0 < k < 5 ==> Advance(i, k) != i
  {
    forall n: nat
      ensures Advance(i, n) < |Backgrounds|
    {
      AdvanceIsModular(i, n);
    }
    AdvanceIsModular(i, 5);
    forall k: nat | 0 < k < 5
      ensures Advance(i, k) != i
    {
      AdvanceIsModular(i, k);
    }
  }

  // ---------------------------------------------------------------------------
  // Panel state and commands

  /** Everything the commands change: the record, the tips list, the cycle index and the colour shown. */
  datatype PanelState = PanelState(
    record: Health.HealthRecord,
    tips: seq<ListNode>,
    bgIndex: nat,
    shownBackground: string)

  /** The tips are drawn from the two fixed lists. */
  predicate TipsFromPools(nodes: seq<ListNode>)
  {
    forall k :: 0 <= k < |nodes| && nodes[k].Item? ==> nodes[k].text in SeedTips || nodes[k].text in HealthyTips
  }

  /**
    The panel invariant: the healthy flag agrees with the metrics, the colour
    shown is the palette entry the cycle index names, and every tip comes from
    the fixed lists.
   */
  predicate Valid(st: PanelState)
  {
    Health.Consistent(st.record) &&
    st.bgIndex < |Backgrounds| &&
    st.shownBackground == Backgrounds[st.bgIndex] &&
    TipsFromPools(st.tips)
  }

  /** The state a confirmed reset restores. */
  const Defaults: PanelState := PanelState(
    Health.UpdateHealthStatus(Health.Number(6), Health.Number(8500), Health.Number(7)),
    ResetList, 0, Backgrounds[0])

  datatype Command =
    | UpdateMetrics(water: Health.ParsedInt, steps: Health.ParsedInt, sleep: Health.ParsedInt)
    | AddHealthyTip(choice: int)
    | RemoveTip
    | ChangeBackground
    | ResetAll(confirmed: bool)

  /** The page's random tip choice always lies in the pool. */
  predicate Enabled(cmd: Command)
  {
    cmd.AddHealthyTip? ==> 0 <= cmd.choice < |HealthyTips|
  }

  /**
    Reset as written: the inputs, tips and colour go back to their defaults and
    the metrics are re-read, but the cycle index keeps its old value.
   */
  function ResetAsWritten(st: PanelState, confirmed: bool): (r: PanelState)
    ensures !confirmed ==> r == st
    ensures confirmed ==> r.record == Defaults.record && r.tips == ResetList
    ensures confirmed ==> r.shownBackground == Backgrounds[0] && r.bgIndex == st.bgIndex
  {
    if !confirmed then st
    else PanelState(Defaults.record, ResetList, st.bgIndex, "#f0f7f4")
  }

  /** Reset as intended: the cycle index returns to 0 with the colour it names. */
  function Reset(st: PanelState, confirmed: bool): (r: PanelState)
    ensures !confirmed ==> r == st
    ensures confirmed ==> Valid(r)
    ensures confirmed ==> r.record == Defaults.record && r.tips == ResetList
    ensures confirmed ==> r.bgIndex == 0 && r.shownBackground == Backgrounds[0]
  {
    if !confirmed then st
    else
      ResetListFromPools();
      Defaults
  }

  /** The reset markup holds seed tips only. */
  lemma ResetListFromPools()
    ensures TipsFromPools(ResetList)
  {
  }

  /**
    Runs one command as intended: removal takes the last list item and reset
    also returns the cycle index to 0. The parts of the state a command does
    not concern are left alone.
   */
  function Step(st: PanelState, cmd: Command): (r: PanelState)
    requires Enabled(cmd)
    ensures cmd.UpdateMetrics? ==> r.record == Health.UpdateHealthStatus(cmd.water, cmd.steps, cmd.sleep)
    ensures cmd.UpdateMetrics? ==> r.tips == st.tips && r.bgIndex == st.bgIndex && r.shownBackground == st.shownBackground
    ensures (cmd.AddHealthyTip? || cmd.RemoveTip?) ==>
      r.record == st.record && r.bgIndex == st.bgIndex && r.shownBackground == st.shownBackground
    ensures cmd.AddHealthyTip? ==> r.tips == AddTip(st.tips, cmd.choice)
    ensures cmd.RemoveTip? ==> r.tips == RemoveLastTip(st.tips)
    ensures cmd.ChangeBackground? ==> r.record == st.record && r.tips == st.tips
    ensures cmd.ChangeBackground? ==> r.bgIndex == NextBackground(st.bgIndex) && r.shownBackground == Backgrounds[r.bgIndex]
    ensures cmd.ResetAll? ==> r == Reset(st, cmd.confirmed)
  {
    match cmd
    case UpdateMetrics(w, s, h) => st.(record := Health.UpdateHealthStatus(w, s, h))
    case AddHealthyTip(c) => st.(tips := AddTip(st.tips, c))
    case RemoveTip => st.(tips := RemoveLastTip(st.tips))
    case ChangeBackground =>
      var j := NextBackground(st.bgIndex);
      st.(bgIndex := j, shownBackground := Backgrounds[j])
    case ResetAll(confirmed) => Reset(st, confirmed)
  }

  /** Every item of the intended removal's result was already in the list. */
  lemma {:induction false} RemoveLastTipKeepsPools(nodes: seq<ListNode>)
    requires TipsFromPools(nodes)
    ensures TipsFromPools(RemoveLastTip(nodes))
  {
    if |nodes| > 0 {
      var init := nodes[..|nodes| - 1];
      assert forall k :: 0 <= k < |init| ==> init[k] == nodes[k];
      RemoveLastTipKeepsPools(init);
    }
  }

  /** Every command, run as intended, keeps the panel invariant. */
  lemma StepPreservesValid(st: PanelState, cmd: Command)
    requires Valid(st) && Enabled(cmd)
    ensures Valid(Step(st, cmd))
  {
    match cmd
    case AddHealthyTip(c) =>
      var added := AddTip(st.tips, c);
      assert forall k :: 0 <= k < |st.tips| ==> added[k] == st.tips[k];
    case RemoveTip =>
      RemoveLastTipKeepsPools(st.tips);
    case _ =>
  }

  /** A confirmed reset, as intended, yields the same state whatever came before. */
  lemma ResetForgetsHistory(s1: PanelState, s2: PanelState)
    ensures Step(s1, ResetAll(true)) == Step(s2, ResetAll(true)) == Defaults
    ensures Valid(Defaults) && !Defaults.record.isHealthy
  {
    ResetListFromPools();
  }

  /**
    Runs one command as written: removal takes the last child node, whatever
    it is, and reset keeps the old cycle index.
   */
  function StepAsWritten(st: PanelState, cmd: Command): (r: PanelState)
    requires Enabled(cmd)
    ensures cmd.RemoveTip? ==> r == st.(tips := RemoveLastChild(st.tips))
    ensures cmd.ResetAll? ==> r == ResetAsWritten(st, cmd.confirmed)
    ensures !cmd.RemoveTip? && !cmd.ResetAll? ==> r == Step(st, cmd)
  {
    match cmd
    case RemoveTip => st.(tips := RemoveLastChild(st.tips))
    case ResetAll(confirmed) => ResetAsWritten(st, confirmed)
    case _ => Step(st, cmd)
  }

  /** The part of the panel invariant the program as written keeps: everything but the shown colour. */
  predicate ValidAsWritten(st: PanelState)
  {
    Health.Consistent(st.record) && st.bgIndex < |Backgrounds| && TipsFromPools(st.tips)
  }

  /** The as-written removal keeps only nodes that were already in the list. */
  lemma RemoveLastChildKeepsPools(nodes: seq<ListNode>)
    requires TipsFromPools(nodes)
    ensures TipsFromPools(RemoveLastChild(nodes))
  {
  }

  /**
    Every command as written keeps the flag consistent, the index inside the
    palette and every tip from the fixed lists.
   */
  lemma StepAsWrittenPreservesValid(st: PanelState, cmd: Command)
    requires ValidAsWritten(st) && Enabled(cmd)
    ensures ValidAsWritten(StepAsWritten(st, cmd))
  {
  }

  /** Updating twice with the same inputs leaves the same state as updating once. */
  lemma UpdateIsIdempotent(st: PanelState, w: Health.ParsedInt, s: Health.ParsedInt, h: Health.ParsedInt)
    ensures Step(Step(st, UpdateMetrics(w, s, h)), UpdateMetrics(w, s, h)) == Step(st, UpdateMetrics(w, s, h))
  {
  }

  /**
    With the reset as written, two clicks, a reset and one more click show the
    fourth colour, not the second; the colour shown no longer matches the index.
   */
  lemma ResetAsWrittenSkipsColours()
    ensures var st := Step(Step(Defaults, ChangeBackground), ChangeBackground);
      var reset := ResetAsWritten(st, true);
      && Valid(st)
      && reset.shownBackground == Backgrounds[0]
      && !Valid(reset)
      && Step(reset, ChangeBackground).shownBackground == Backgrounds[3]
      && Backgrounds[3] != Backgrounds[1]
  {
    ResetListFromPools();
  }

  /** With the intended reset, the first click afterwards always shows the second colour. */
  lemma ResetThenChangeShowsSecondColour(st: PanelState)
    ensures Step(Step(st, ResetAll(true)), ChangeBackground).shownBackground == Backgrounds[1]
  {
  }
}

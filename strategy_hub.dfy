/**
 * The release strategy page (`StrategyHubComponent`): a nine-item release
 * checklist whose items are ticked on and off, the rounded share of items
 * done, and the ad-spend estimates.
 */
module StrategyHub {
  import opened Percent

  datatype Category = Pre | Day | Post

  datatype ChecklistItem = ChecklistItem(id: string, caption: string, completed: bool, category: Category)

  const INITIAL_CHECKLIST: seq<ChecklistItem> := [
    ChecklistItem("1", "Register with PRO (ASCAP/BMI)", false, Pre),
    ChecklistItem("2", "Submit to The MLC", false, Pre),
    ChecklistItem("3", "Register with SoundExchange", false, Pre),
    ChecklistItem("4", "Create EPK", false, Pre),
    ChecklistItem("5", "Pitch to Playlists (3 weeks out)", false, Pre),
    ChecklistItem("6", "Social Media Blast", false, Day),
    ChecklistItem("7", "Email Newsletter", false, Day),
    ChecklistItem("8", "Monitor Analytics", false, Post),
    ChecklistItem("9", "Submit for Sync Licensing", false, Post)
  ]

  /** `toggleItem`'s map: every item with the id flips, the others stay. */
  function Toggled(items: seq<ChecklistItem>, id: string): (r: seq<ChecklistItem>)
    ensures |r| == |items|
    ensures forall i :: 0 <= i < |items| ==>
              r[i] == if items[i].id == id then items[i].(completed := !items[i].completed) else items[i]
  {
    if |items| == 0 then []
    else
      [if items[0].id == id then items[0].(completed := !items[0].completed) else items[0]]
      + Toggled(items[1..], id)
  }

  /** Toggling the same id twice restores the checklist. */
  lemma ToggleTwice(items: seq<ChecklistItem>, id: string)
    ensures Toggled(Toggled(items, id), id) == items
  {
    var once := Toggled(items, id);
    var twice := Toggled(once, id);
    assert forall i :: 0 <= i < |items| ==> twice[i] == items[i];
  }

  /** How many items are done (`filter(i => i.completed).length`). */
  function CompletedCount(items: seq<ChecklistItem>): (n: nat)
    ensures n <= |items|
    ensures n == 0 <==> forall i :: 0 <= i < |items| ==> !items[i].completed
    ensures n == |items| <==> forall i :: 0 <= i < |items| ==> items[i].completed
  {
    if |items| == 0 then 0 else (if items[0].completed then 1 else 0) + CompletedCount(items[1..])
  }

  /** `progress`: the rounded percentage of items done, 0 for an empty list. */
  function Progress(items: seq<ChecklistItem>): (r: nat)
    ensures r <= 100
    ensures (forall i :: 0 <= i < |items| ==> !items[i].completed) ==> r == 0
    ensures |items| > 0 && (forall i :: 0 <= i < |items| ==> items[i].completed) ==> r == 100
  {
    if |items| > 0 then
      var done := CompletedCount(items);
      PercentInRange(done, |items|);
      PercentEnds(|items|);
      RoundedPercent(done, |items|)
    else 0
  }

  /** Ticking off the one open item with an id counts one more item done and
    * never lowers the progress. */
  lemma TickRaisesProgress(items: seq<ChecklistItem>, id: string, k: nat)
    requires k < |items| && items[k].id == id && !items[k].completed
    requires forall i :: 0 <= i < |items| && i != k ==> items[i].id != id
    ensures CompletedCount(Toggled(items, id)) == CompletedCount(items) + 1
    ensures Progress(Toggled(items, id)) >= Progress(items)
  {
    TickCounts(items, id, k);
    var t := Toggled(items, id);
    ProgressOf(items);
    ProgressOf(t);
    PercentMonotone(CompletedCount(items), CompletedCount(t), |items|);
  }

  lemma ProgressOf(items: seq<ChecklistItem>)
    requires |items| > 0
    ensures Progress(items) == RoundedPercent(CompletedCount(items), |items|)
  {
  }

  lemma {:induction false} TickCounts(items: seq<ChecklistItem>, id: string, k: nat)
    requires k < |items| && items[k].id == id && !items[k].completed
    requires forall i :: 0 <= i < |items| && i != k ==> items[i].id != id
    ensures CompletedCount(Toggled(items, id)) == CompletedCount(items) + 1
    decreases |items|
  {
    var t := Toggled(items, id);
    assert t[1..] == Toggled(items[1..], id);
    if k == 0 {
      assert forall i :: 0 <= i < |items| - 1 ==> items[1..][i].id != id;
      UntouchedCount(items[1..], id);
    } else {
      TickCounts(items[1..], id, k - 1);
    }
  }

  lemma UntouchedCount(items: seq<ChecklistItem>, id: string)
    requires forall i :: 0 <= i < |items| ==> items[i].id != id
    ensures Toggled(items, id) == items
  {
  }

  /** The nine initial items are all open, so progress starts at 0. */
  lemma InitialProgressIsZero()
    ensures |INITIAL_CHECKLIST| == 9 && Progress(INITIAL_CHECKLIST) == 0
  {
    assert forall i :: 0 <= i < |INITIAL_CHECKLIST| ==> !INITIAL_CHECKLIST[i].completed;
  }

  /** `estimatedReach`: fifteen people reached per unit of ad spend. */
  function EstimatedReach(adSpend: int): int {
    adSpend * 15
  }

  /** `estimatedConversions`: `Math.floor(adSpend * 0.2)`, the largest integer
    * at most a fifth of the spend. */
  function EstimatedConversions(adSpend: int): (r: int)
    ensures 5 * r <= adSpend < 5 * r + 5
  {
    adSpend / 5
  }

  /** Every estimated conversion comes out of 75 people reached. */
  lemma ConversionsWithinReach(adSpend: int)
    requires adSpend >= 0
    ensures 0 <= 75 * EstimatedConversions(adSpend) <= EstimatedReach(adSpend)
  {
  }

  class StrategyHubComponent {
    var adSpend: int
    var checklists: seq<ChecklistItem>

    /** The spend starts at 100 and the checklist with its nine open items. */
    constructor()
      ensures adSpend == 100 && checklists == INITIAL_CHECKLIST
    {
      adSpend := 100;
      checklists := INITIAL_CHECKLIST;
    }

    /** `toggleItem`. */
    method ToggleItem(id: string)
      modifies this
      ensures checklists == Toggled(old(checklists), id)
      ensures adSpend == old(adSpend)
    {
      checklists := Toggled(checklists, id);
    }
  }
}

/**
  The campaign card: its status toggle, the status colour, the CTR and budget-usage
  figures with their guards, and which actions the card offers. The card's own buttons
  never change an archived status; the edit dialog can (`CampaignEdit.ArchivedCanBeReactivated`).
*/
module CampaignCard {
  import opened Common
  import opened Entities
  import opened Campaigns

  /** `getNextStatus`: the status the toggle button sends. */
  function NextStatus(s: AdStatus): AdStatus {
    match s
    case Active => Paused
    case Paused => Active
    case Archived => Archived
  }

  /** Archived is a fixed point; the toggle swaps active and paused, so applying it twice is the identity. */
  lemma NextStatusFacts(s: AdStatus)
    ensures NextStatus(Archived) == Archived
    ensures s != Archived ==> NextStatus(s) != s && NextStatus(s) != Archived
    ensures NextStatus(NextStatus(s)) == s
  {
  }

  datatype ChipColor = Success | Warning | Error

  /** `getStatusColor`. */
  function StatusColor(s: AdStatus): (c: ChipColor)
    ensures c == Error <==> s == Archived
    ensures c == Success <==> s == Active
  {
    match s
    case Active => Success
    case Paused => Warning
    case Archived => Error
  }

  /** `ad.metrics || { impressions: 0, clicks: 0, spend: 0 }`. */
  function CardMetrics(metrics: Option<Totals>): (t: Totals)
    ensures metrics.Some? ==> t == metrics.value
    ensures metrics.None? ==> t == Totals(0, 0, 0.0)
  {
    if metrics.Some? then metrics.value else Totals(0, 0, 0.0)
  }

  /** The CTR figure: the literal '0' without impressions, else a percentage (printed with two decimals). */
  function CardCtr(t: Totals): (c: CtrFigure)
    ensures t.impressions == 0 <==> c == ZeroText
    ensures c.Percent? ==> c.value * t.impressions as real == t.clicks as real * 100.0
    ensures c.Percent? && t.clicks <= t.impressions ==> 0.0 <= c.value <= 100.0
  {
    PercentOrZero(t.clicks, t.impressions)
  }

  /** `budgetUsage`: spend as a percentage of a truthy budget, 0 without one. */
  function BudgetUsage(budget: Option<real>, t: Totals): (u: real)
    ensures !TruthyNumber(budget) ==> u == 0.0
    ensures TruthyNumber(budget) ==> u * budget.value == t.spend * 100.0
  {
    if TruthyNumber(budget) then t.spend / budget.value * 100.0 else 0.0
  }

  /** The progress bar's value, `Math.min(budgetUsage, 100)`. */
  function ProgressValue(budget: Option<real>, t: Totals): (v: real)
    ensures v <= 100.0
    ensures v == BudgetUsage(budget, t) || v == 100.0
    ensures BudgetUsage(budget, t) <= 100.0 ==> v == BudgetUsage(budget, t)
  {
    Min(BudgetUsage(budget, t), 100.0)
  }

  /** The card's buttons: edit, the status toggle, and archive. */
  datatype CardAction = Edit | Toggle | Archive

  /** The actions the card shows: edit always, toggle and archive only for a campaign that is not archived. */
  predicate Offered(s: AdStatus, a: CardAction) {
    a == Edit || s != Archived
  }

  /** The status a button asks for (`onStatusChange`); edit leaves the status alone. */
  function StatusAfter(s: AdStatus, a: CardAction): (r: AdStatus)
    ensures a == Edit ==> r == s
    ensures a == Toggle ==> r == NextStatus(s)
    ensures a == Archive ==> r == Archived
  {
    match a
    case Edit => s
    case Toggle => NextStatus(s)
    case Archive => Archived
  }

  /** Pressing the offered buttons in turn, from status `s`. */
  function RunActions(s: AdStatus, actions: seq<CardAction>): Option<AdStatus>
    decreases |actions|
  {
    if actions == [] then Some(s)
    else if !Offered(s, actions[0]) then None
    else RunActions(StatusAfter(s, actions[0]), actions[1..])
  }

  /** Once archived, a campaign stays archived whatever card buttons are pressed; only edit is offered. */
  lemma {:induction false} ArchivedIsTerminal(actions: seq<CardAction>)
    ensures RunActions(Archived, actions).Some? ==> RunActions(Archived, actions) == Some(Archived)
    ensures RunActions(Archived, actions).Some? <==> forall i :: 0 <= i < |actions| ==> actions[i] == Edit
    decreases |actions|
  {
    if actions != [] {
      ArchivedIsTerminal(actions[1..]);
      assert forall i :: 1 <= i < |actions| ==> actions[i] == actions[1..][i - 1];
    }
  }

  /** From an active or paused campaign every offered button leads to a status; archive is always one press away. */
  lemma ArchiveReachable(s: AdStatus)
    requires s != Archived
    ensures RunActions(s, [Archive]) == Some(Archived)
    ensures RunActions(s, [Toggle, Toggle]) == Some(s)
  {
    assert [Archive][1..] == [];
    assert [Toggle, Toggle][1..] == [Toggle];
    assert [Toggle][1..] == [];
    NextStatusFacts(s);
  }
}

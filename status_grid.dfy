/** The campaign status grid of the monitoring page: a card per campaign
    with its run status, health, budget bar and first issues, card
    selection with bulk pause/resume, per-card quick actions, and the
    health tallies of the footer. */
module StatusGrid {
  import opened Common

  datatype GridCampaign = GridCampaign(
    id: string,
    name: string,
    status: string,
    health: string,
    spend: real,
    budget: real,
    impressions: int,
    conversions: int,
    cpa: real,
    lastUpdate: int,
    issues: seq<string>)

  datatype HealthConfig = HealthConfig(color: string, textColor: string, icon: string, caption: string)

  /** The grid's own `getHealthConfig`: good reads "Healthy", and a paused
      campaign has a health level of its own. */
  function GetHealthConfig(health: string): (r: HealthConfig)
    ensures health == "good" ==> r == HealthConfig("success", "text-success", "CheckCircle", "Healthy")
    ensures health == "warning" ==> r == HealthConfig("warning", "text-warning", "AlertCircle", "Warning")
    ensures health == "critical" ==> r == HealthConfig("error", "text-error", "AlertTriangle", "Critical")
    ensures health == "paused" ==> r == HealthConfig("muted", "text-muted-foreground", "Pause", "Paused")
    ensures r.caption == "Unknown" <==> health !in {"good", "warning", "critical", "paused"}
  {
    match health
    case "good" => HealthConfig("success", "text-success", "CheckCircle", "Healthy")
    case "warning" => HealthConfig("warning", "text-warning", "AlertCircle", "Warning")
    case "critical" => HealthConfig("error", "text-error", "AlertTriangle", "Critical")
    case "paused" => HealthConfig("muted", "text-muted-foreground", "Pause", "Paused")
    case _ => HealthConfig("muted", "text-muted-foreground", "Circle", "Unknown")
  }

  datatype StatusConfig = StatusConfig(color: string, icon: string, caption: string)

  /** `getStatusConfig`: only a running campaign is shown in green. */
  function GetStatusConfig(status: string): (r: StatusConfig)
    ensures r.color == "success" <==> status == "running"
    ensures status == "running" ==> r == StatusConfig("success", "Play", "Running")
    ensures status == "paused" ==> r == StatusConfig("muted", "Pause", "Paused")
    ensures status !in {"running", "paused"} ==> r == StatusConfig("muted", "Circle", "Unknown")
  {
    if status == "running" then StatusConfig("success", "Play", "Running")
    else if status == "paused" then StatusConfig("muted", "Pause", "Paused")
    else StatusConfig("muted", "Circle", "Unknown")
  }

  lemma RatioAtLeastOne(spend: real, budget: real)
    requires budget > 0.0
    ensures spend >= budget <==> (spend / budget) * 100.0 >= 100.0
    ensures spend >= 0.0 ==> (spend / budget) * 100.0 >= 0.0
  {
    var q := spend / budget;
    assert q * budget == spend;
    if spend >= budget {
      assert q >= 1.0;
    }
  }

  /** `getBudgetUtilization`: spend as a percentage of budget, capped at
      100; a campaign that has spent its budget shows exactly 100. */
  function BudgetUtilization(spend: real, budget: real): (r: real)
    requires budget > 0.0
    ensures r <= 100.0
    ensures r == 100.0 <==> spend >= budget
    ensures spend >= 0.0 ==> r >= 0.0
    ensures spend < budget ==> r == (spend / budget) * 100.0
  {
    RatioAtLeastOne(spend, budget);
    var u := (spend / budget) * 100.0;
    if u < 100.0 then u else 100.0
  }

  /** The bar colour: above 90 red, above 75 amber, else green. */
  function BudgetBarColor(utilization: real): (r: string)
    ensures r == "bg-error" <==> utilization > 90.0
    ensures r == "bg-warning" <==> 75.0 < utilization <= 90.0
    ensures r == "bg-success" <==> utilization <= 75.0
  {
    if utilization > 90.0 then "bg-error" else if utilization > 75.0 then "bg-warning" else "bg-success"
  }

  /** A campaign that has used its whole budget shows a full red bar. */
  lemma ExhaustedBudgetIsFullAndRed(spend: real, budget: real)
    requires budget > 0.0 && spend >= budget
    ensures BudgetUtilization(spend, budget) == 100.0
    ensures BudgetBarColor(BudgetUtilization(spend, budget)) == "bg-error"
  {
  }

  // ---------------------------------------------------------------------
  // Issues

  /** At most the first two issues are listed. */
  function ShownIssues(issues: seq<string>): (r: seq<string>)
    ensures |r| == Min(2, |issues|)
    ensures r == issues[..|r|]
  {
    JsSlice(issues, 0, 2)
  }

  /** The "+n more issues" line, present only beyond two issues. */
  function MoreIssues(issues: seq<string>): (r: Option<string>)
    ensures r.Some? <==> |issues| > 2
  {
    if |issues| > 2 then Some("+" + NatToString(|issues| - 2) + " more issues") else None
  }

  /** The listed issues and the number in the "more" line account for
      every issue of the campaign. */
  lemma IssuesAccounted(issues: seq<string>)
    ensures |issues| > 2 ==>
      var t := MoreIssues(issues).value;
      var digits := t[1..|t| - 12];
      t[0] == '+' && t[|t| - 12..] == " more issues" &&
      (forall i :: 0 <= i < |digits| ==> '0' <= digits[i] <= '9') &&
      |ShownIssues(issues)| + DecimalValue(digits) == |issues|
    ensures |issues| <= 2 ==> ShownIssues(issues) == issues
  {
    if |issues| > 2 {
      var n := |issues| - 2;
      var t := "+" + NatToString(n) + " more issues";
      assert t[1..|t| - 12] == NatToString(n);
      NatToStringRoundTrip(n);
    }
  }

  // ---------------------------------------------------------------------
  // Actions

  /** One `onCampaignAction(campaignId, action)` call. */
  datatype CampaignAction = CampaignAction(campaignId: string, action: string)

  /** The quick action of a card: pause a running campaign, resume any
      other. */
  function QuickAction(c: GridCampaign): (r: CampaignAction)
    ensures r.campaignId == c.id
    ensures r.action == "pause" <==> c.status == "running"
    ensures r.action == "resume" <==> c.status != "running"
  {
    CampaignAction(c.id, if c.status == "running" then "pause" else "resume")
  }

  /** The calls of a bulk action: one per selected id, in selection order. */
  function BulkCalls(ids: seq<string>, action: string): (r: seq<CampaignAction>)
    ensures |r| == |ids|
    ensures forall i :: 0 <= i < |r| ==> r[i] == CampaignAction(ids[i], action)
  {
    seq(|ids|, i requires 0 <= i < |ids| => CampaignAction(ids[i], action))
  }

  /** `selectedCampaigns.forEach(id => onCampaignAction(id, action))`. */
  method ForEachSelected(ids: seq<string>, action: string) returns (calls: seq<CampaignAction>)
    ensures calls == BulkCalls(ids, action)
  {
    calls := [];
    var i := 0;
    while i < |ids|
      invariant 0 <= i <= |ids|
      invariant calls == BulkCalls(ids[..i], action)
    {
      calls := calls + [CampaignAction(ids[i], action)];
      i := i + 1;
    }
    assert ids[..i] == ids;
  }

  class Grid {
    var selected: seq<string>

    constructor()
      ensures selected == []
    {
      selected := [];
    }

    /** Clicking a card toggles its selection. */
    method SelectCampaign(id: string)
      modifies this
      ensures selected == Toggle(old(selected), id)
      ensures id in selected <==> id !in old(selected)
    {
      selected := Toggle(selected, id);
    }

    /** `handleBulkAction`: one call per selected campaign, then the
        selection is cleared. */
    method BulkAction(action: string) returns (calls: seq<CampaignAction>)
      modifies this
      ensures calls == BulkCalls(old(selected), action)
      ensures selected == []
    {
      calls := ForEachSelected(selected, action);
      selected := [];
    }

    /** The bulk bar is shown while something is selected. */
    predicate ShowsBulkBar()
      reads this
    {
      |selected| > 0
    }
  }

  // ---------------------------------------------------------------------
  // Footer

  predicate IsHealthy(c: GridCampaign) { c.health == "good" }
  predicate IsWarning(c: GridCampaign) { c.health == "warning" }
  predicate IsCritical(c: GridCampaign) { c.health == "critical" }

  /** The three footer tallies never exceed the number of campaigns;
      paused and unknown campaigns are in none of them. */
  lemma FooterTalliesBounded(campaigns: seq<GridCampaign>)
    ensures Count(campaigns, IsHealthy) + Count(campaigns, IsWarning) + Count(campaigns, IsCritical) <= |campaigns|
  {
    CountDisjoint3(campaigns, IsHealthy, IsWarning, IsCritical);
  }
}

/** The campaign performance table of the overview page: sortable
    columns, row selection, status dots, the ROAS colour band, the CPA
    trend line and the budget bar. */
module CampaignTable {
  import opened Common
  import opened Sorting
  import opened Sparkline

  datatype Campaign = Campaign(
    id: int,
    name: string,
    status: string,
    spend: real,
    revenue: real,
    roas: real,
    cpa: real,
    impressions: int,
    clicks: int,
    ctr: real,
    conversions: int,
    cvr: real,
    budgetUtilization: real,
    cpaHistory: seq<real>,
    lastUpdated: string)

  /** The sortable headers of the table. */
  datatype Column = Name | Spend | Revenue | Roas | Cpa | Ctr | Cvr | BudgetUtilization

  function Field(c: Campaign, col: Column): (v: Value)
    ensures v.Text? <==> col == Name
  {
    match col
    case Name => Text(c.name)
    case Spend => Num(c.spend)
    case Revenue => Num(c.revenue)
    case Roas => Num(c.roas)
    case Cpa => Num(c.cpa)
    case Ctr => Num(c.ctr)
    case Cvr => Num(c.cvr)
    case BudgetUtilization => Num(c.budgetUtilization)
  }

  function KeyOf(col: Column): Campaign -> Value
  {
    c => Field(c, col)
  }

  function SortedCampaigns(campaigns: seq<Campaign>, cfg: SortConfig<Column>): (r: seq<Campaign>)
    ensures multiset(r) == multiset(campaigns)
  {
    SortedCopy(campaigns, KeyOf(cfg.key), cfg.direction)
  }

  /** With distinct values in the sort column the rows come out strictly
      ordered by it. */
  lemma SortedCampaignsOrdered(campaigns: seq<Campaign>, cfg: SortConfig<Column>)
    requires forall i, j :: 0 <= i < j < |campaigns| ==> Field(campaigns[i], cfg.key) != Field(campaigns[j], cfg.key)
    ensures StrictlyOrdered(SortedCampaigns(campaigns, cfg), KeyOf(cfg.key), cfg.direction)
  {
    SortedCopyOrdered(campaigns, KeyOf(cfg.key), cfg.direction);
  }

  /** `campaigns.map(c => c.id)`, the campaign counterpart of
      `KeywordData.Ids`. */
  function Ids(campaigns: seq<Campaign>): (r: seq<int>)
    ensures |r| == |campaigns|
    ensures forall i :: 0 <= i < |r| ==> r[i] == campaigns[i].id
  {
    seq(|campaigns|, i requires 0 <= i < |campaigns| => campaigns[i].id)
  }

  /** The two chevrons of a header: which one is highlighted. */
  datatype Chevrons = Chevrons(upLit: bool, downLit: bool)

  function HeaderChevrons(cfg: SortConfig<Column>, column: Column): (r: Chevrons)
    ensures !(r.upLit && r.downLit)
    ensures r.upLit || r.downLit <==> cfg.key == column
  {
    Chevrons(cfg.key == column && cfg.direction == Asc, cfg.key == column && cfg.direction == Desc)
  }

  // ---------------------------------------------------------------------
  // Cell presentation

  datatype StatusConfig = StatusConfig(color: string, bg: string, text: string)

  /** `getStatusConfig`: three known statuses, anything else "Unknown". */
  function GetStatusConfig(status: string): (r: StatusConfig)
    ensures status == "active" ==> r.text == "Active" && r.color == "text-success"
    ensures status == "warning" ==> r.text == "Warning" && r.color == "text-warning"
    ensures status == "paused" ==> r.text == "Paused"
    ensures status !in {"active", "warning", "paused"} ==> r == StatusConfig("text-muted-foreground", "bg-muted", "Unknown")
  {
    match status
    case "active" => StatusConfig("text-success", "bg-success/10", "Active")
    case "warning" => StatusConfig("text-warning", "bg-warning/10", "Warning")
    case "paused" => StatusConfig("text-muted-foreground", "bg-muted", "Paused")
    case _ => StatusConfig("text-muted-foreground", "bg-muted", "Unknown")
  }

  /** ROAS colour: 2 and above green, 1.5 and above amber, else red. */
  function RoasColor(roas: real): (r: string)
    ensures r == "text-success" <==> roas >= 2.0
    ensures r == "text-error" <==> roas < 1.5
  {
    if roas >= 2.0 then "text-success" else if roas >= 1.5 then "text-warning" else "text-error"
  }

  /** The budget bar: its colour and its width in percent. */
  datatype BudgetBar = BudgetBar(color: string, width: real)

  function GetBudgetBar(utilization: real): (r: BudgetBar)
    ensures r.width <= 100.0
    ensures utilization <= 100.0 ==> r.width == utilization
    ensures r.color == "bg-error" <==> utilization > 100.0
    ensures r.color == "bg-warning" <==> 90.0 < utilization <= 100.0
  {
    BudgetBar(
      if utilization > 100.0 then "bg-error" else if utilization > 90.0 then "bg-warning" else "bg-success",
      if utilization < 100.0 then utilization else 100.0)
  }

  /** An overspent campaign shows a full red bar. */
  lemma OverspentBarIsFullAndRed(utilization: real)
    requires utilization > 100.0
    ensures GetBudgetBar(utilization) == BudgetBar("bg-error", 100.0)
  {
  }

  /** The CPA trend line is green when the fifth recorded CPA is below the
      first (a missing entry is `undefined`, and compares false). */
  function CpaTrendColor(history: seq<real>): (r: string)
    ensures r == "text-success" <==> |history| > 4 && history[4] < history[0]
  {
    if |history| > 4 && history[4] < history[0] then "text-success" else "text-error"
  }

  // ---------------------------------------------------------------------
  // The table component

  /** `handleSelectAll`: clears a full selection, otherwise selects every
      campaign. */
  function SelectAllNext(selected: seq<int>, campaigns: seq<Campaign>): (r: seq<int>)
    ensures |selected| == |campaigns| ==> r == []
    ensures |selected| != |campaigns| ==> r == Ids(campaigns)
  {
    if |selected| == |campaigns| then [] else Ids(campaigns)
  }

  /** The header check box follows the selection count. */
  predicate HeaderChecked(selected: seq<int>, campaigns: seq<Campaign>)
  {
    |selected| == |campaigns|
  }

  /** For a non-empty table, clicking the header check box always flips
      its state. */
  lemma SelectAllFlipsHeader(selected: seq<int>, campaigns: seq<Campaign>)
    requires |campaigns| > 0
    ensures HeaderChecked(SelectAllNext(selected, campaigns), campaigns) == !HeaderChecked(selected, campaigns)
  {
  }

  class Table {
    var sortConfig: SortConfig<Column>
    var selected: seq<int>

    constructor()
      ensures sortConfig == SortConfig(Spend, Desc) && selected == []
    {
      sortConfig := SortConfig(Spend, Desc);
      selected := [];
    }

    method Sort(key: Column)
      modifies this
      ensures sortConfig == TableSortClick(old(sortConfig), key)
      ensures selected == old(selected)
    {
      sortConfig := TableSortClick(sortConfig, key);
    }

    /** A row check box toggles that campaign. */
    method SelectCampaign(id: int)
      modifies this
      ensures selected == Toggle(old(selected), id)
      ensures id in selected <==> id !in old(selected)
      ensures sortConfig == old(sortConfig)
    {
      selected := Toggle(selected, id);
    }

    method SelectAll(campaigns: seq<Campaign>)
      modifies this
      ensures selected == SelectAllNext(old(selected), campaigns)
      ensures sortConfig == old(sortConfig)
    {
      selected := SelectAllNext(selected, campaigns);
    }

    function Rows(campaigns: seq<Campaign>): (r: seq<Campaign>)
      reads this
      ensures r == SortedCampaigns(campaigns, sortConfig)
      ensures multiset(r) == multiset(campaigns)
    {
      SortedCampaigns(campaigns, sortConfig)
    }
  }
}

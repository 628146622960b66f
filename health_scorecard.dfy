/** The campaign health scorecard: a badge per campaign, the overall
    health of the portfolio (its worst campaign) and the score bar. */
module HealthScorecard {
  datatype HealthConfig = HealthConfig(color: string, bgColor: string, textColor: string, icon: string, caption: string)

  /** `getHealthConfig`: four known health levels, anything else shown as
      "Unknown". */
  function GetHealthConfig(health: string): (r: HealthConfig)
    ensures health == "excellent" ==> r.caption == "Excellent" && r.icon == "CheckCircle" && r.color == "success"
    ensures health == "good" ==> r.caption == "Good" && r.icon == "CheckCircle2" && r.color == "primary"
    ensures health == "warning" ==> r.caption == "Warning" && r.icon == "AlertTriangle" && r.color == "warning"
    ensures health == "critical" ==> r.caption == "Critical" && r.icon == "XCircle" && r.color == "error"
    ensures r.caption == "Unknown" <==> !IsKnown(health)
  {
    match health
    case "excellent" => HealthConfig("success", "bg-success/10", "text-success", "CheckCircle", "Excellent")
    case "good" => HealthConfig("primary", "bg-primary/10", "text-primary", "CheckCircle2", "Good")
    case "warning" => HealthConfig("warning", "bg-warning/10", "text-warning", "AlertTriangle", "Warning")
    case "critical" => HealthConfig("error", "bg-error/10", "text-error", "XCircle", "Critical")
    case _ => HealthConfig("muted", "bg-muted", "text-muted-foreground", "Circle", "Unknown")
  }

  predicate IsKnown(health: string)
  {
    health in {"excellent", "good", "warning", "critical"}
  }

  /** Severity of a known level: excellent 0 up to critical 3. */
  function Severity(health: string): (r: int)
    requires IsKnown(health)
    ensures 0 <= r <= 3
    ensures r == 0 <==> health == "excellent"
    ensures r == 3 <==> health == "critical"
  {
    match health
    case "excellent" => 0
    case "good" => 1
    case "warning" => 2
    case "critical" => 3
  }

  // ---------------------------------------------------------------------
  // The tally of `getOverallHealth`

  /** The count map built by the `reduce`: one key per level that occurs. */
  function Tally(healths: seq<string>): map<string, nat>
  {
    if healths == [] then map[]
    else
      var t := Tally(healths[..|healths| - 1]);
      var h := healths[|healths| - 1];
      t[h := (if h in t then t[h] else 0) + 1]
  }

  /** The tally has a key exactly for each level present, holding the
      number of campaigns at that level. */
  lemma {:induction false} TallyCounts(healths: seq<string>)
    ensures forall h :: h in Tally(healths) <==> h in healths
    ensures forall h :: h in Tally(healths) ==> Tally(healths)[h] == multiset(healths)[h]
  {
    if healths != [] {
      var init, last := healths[..|healths| - 1], healths[|healths| - 1];
      TallyCounts(init);
      assert healths == init + [last];
      assert multiset(healths) == multiset(init) + multiset{last};
      forall h ensures h in healths <==> h in init || h == last {
        if h in healths {
          var i :| 0 <= i < |healths| && healths[i] == h;
          if i < |init| { assert init[i] == h; }
        }
      }
    }
  }

  method TallyHealth(healths: seq<string>) returns (counts: map<string, nat>)
    ensures counts == Tally(healths)
    ensures forall h :: h in counts <==> h in healths
    ensures forall h :: h in counts ==> counts[h] == multiset(healths)[h]
  {
    counts := map[];
    var i := 0;
    while i < |healths|
      invariant 0 <= i <= |healths|
      invariant counts == Tally(healths[..i])
    {
      var h := healths[i];
      assert healths[..i + 1][..i] == healths[..i];
      counts := counts[h := (if h in counts then counts[h] else 0) + 1];
      i := i + 1;
    }
    assert healths[..i] == healths;
    TallyCounts(healths);
  }

  /** The overall level of a portfolio: its worst known level, and
      "excellent" when no campaign is critical, warning or good (an empty
      portfolio, or one of unknown levels, included). */
  function WorstHealth(healths: seq<string>): (r: string)
    ensures IsKnown(r)
    ensures r == "critical" <==> "critical" in healths
    ensures r == "warning" <==> "critical" !in healths && "warning" in healths
    ensures r == "good" <==> "critical" !in healths && "warning" !in healths && "good" in healths
    ensures r == "excellent" <==> "critical" !in healths && "warning" !in healths && "good" !in healths
  {
    if "critical" in healths then "critical"
    else if "warning" in healths then "warning"
    else if "good" in healths then "good"
    else "excellent"
  }

  /** No campaign of a known level is worse than the overall level. */
  lemma WorstHealthDominates(healths: seq<string>, i: nat)
    requires i < |healths| && IsKnown(healths[i])
    ensures Severity(healths[i]) <= Severity(WorstHealth(healths))
  {
    assert healths[i] in healths;
  }

  /** Adding a campaign never makes the overall level better. */
  lemma AddingNeverImproves(healths: seq<string>, h: string)
    ensures Severity(WorstHealth(healths)) <= Severity(WorstHealth(healths + [h]))
  {
    forall x | x in healths ensures x in healths + [h] {
      var i :| 0 <= i < |healths| && healths[i] == x;
      assert (healths + [h])[i] == x;
    }
  }

  /** `getOverallHealth`: tally the levels, then test critical, warning
      and good counts in that order. */
  method GetOverallHealth(healths: seq<string>) returns (r: string)
    ensures r == WorstHealth(healths)
  {
    var counts := TallyHealth(healths);
    if "critical" in counts && counts["critical"] > 0 {
      r := "critical";
    } else if "warning" in counts && counts["warning"] > 0 {
      r := "warning";
    } else if "good" in counts && counts["good"] > 0 {
      r := "good";
    } else {
      r := "excellent";
    }
  }

  /** The overall badge never reads "Unknown". */
  lemma OverallBadgeKnown(healths: seq<string>)
    ensures GetHealthConfig(WorstHealth(healths)).caption != "Unknown"
  {
  }

  // ---------------------------------------------------------------------
  // The score bar

  /** Colour of the score bar: 80 and up, 60 and up, 40 and up, below. */
  function ScoreBarColor(score: real): (r: string)
    ensures r == "bg-success" <==> score >= 80.0
    ensures r == "bg-primary" <==> 60.0 <= score < 80.0
    ensures r == "bg-warning" <==> 40.0 <= score < 60.0
    ensures r == "bg-error" <==> score < 40.0
  {
    if score >= 80.0 then "bg-success"
    else if score >= 60.0 then "bg-primary"
    else if score >= 40.0 then "bg-warning"
    else "bg-error"
  }

  function ScoreRank(color: string): int
  {
    if color == "bg-success" then 3 else if color == "bg-primary" then 2 else if color == "bg-warning" then 1 else 0
  }

  /** A higher score never gets a worse bar colour. */
  lemma ScoreBarMonotone(a: real, b: real)
    requires a <= b
    ensures ScoreRank(ScoreBarColor(a)) <= ScoreRank(ScoreBarColor(b))
  {
  }
}

/** The investor's dashboard (src/pages/InvestorDashboard.tsx): the grid's
    percent labels and match-score colouring, the three stat cards, and the pie
    chart's colour cycle. */
module InvestorDashboard {
  import opened MockData
  import NumberFormat

  /** The "EBITDA %" and "Match" cell formatter: `params.value ? `${params.value}%` : ""`.
      Zero is falsy and gives the empty label; any other value is its decimal
      form followed by "%", which reads back to the value. */
  function PercentLabel(value: int): (text: string)
    ensures text == "" <==> value == 0
    ensures value != 0 ==> text[|text| - 1] == '%' && NumberFormat.ParseInt(text[..|text| - 1]) == value
  {
    if value == 0 then ""
    else
      NumberFormat.IntStringRoundTrip(value);
      assert (NumberFormat.IntString(value) + "%")[..|NumberFormat.IntString(value)|] == NumberFormat.IntString(value);
      NumberFormat.IntString(value) + "%"
  }

  const Green := "#059669"
  const Blue := "#0284c7"
  const Grey := "#6b7280"

  datatype CellStyle = CellStyle(color: string, bold: bool)

  /** The "Match" cell style: 90 and up green bold, 80 to 89 blue bold, below 80 grey. */
  function MatchStyle(score: int): (style: CellStyle)
    ensures style.color == Green <==> score >= 90
    ensures style.color == Blue <==> 80 <= score < 90
    ensures style.color == Grey <==> score < 80
    ensures style.bold <==> score >= 80
  {
    if score >= 90 then CellStyle(Green, true)
    else if score >= 80 then CellStyle(Blue, true)
    else CellStyle(Grey, false)
  }

  /** `rows.filter(keep).length`. */
  function CountWhere(rows: seq<Opportunity>, keep: Opportunity -> bool): (n: nat)
    ensures n <= |rows|
    ensures n == |rows| <==> forall i :: 0 <= i < |rows| ==> keep(rows[i])
  {
    if rows == [] then 0
    else (if keep(rows[0]) then 1 else 0) + CountWhere(rows[1..], keep)
  }

  predicate IsHighMatch(op: Opportunity) { op.matchScore >= 90 }

  predicate IsInProgress(op: Opportunity) { op.status != "New Listing" }

  predicate IsNewListing(op: Opportunity) { op.status == "New Listing" }

  predicate IsStyledGreen(op: Opportunity) { MatchStyle(op.matchScore).color == Green }

  /** The "Total Opportunities" card. */
  function TotalOpportunities(rows: seq<Opportunity>): nat { |rows| }

  /** The "High Match" card. */
  function HighMatchOpportunities(rows: seq<Opportunity>): nat { CountWhere(rows, IsHighMatch) }

  /** The "In Progress" card. */
  function InProgressDeals(rows: seq<Opportunity>): nat { CountWhere(rows, IsInProgress) }

  /** Rows that one filter keeps and the other drops split the table. */
  lemma {:induction false} CountComplement(rows: seq<Opportunity>, keep: Opportunity -> bool, drop: Opportunity -> bool)
    requires forall op :: keep(op) <==> !drop(op)
    ensures CountWhere(rows, keep) + CountWhere(rows, drop) == |rows|
  {
    if rows != [] {
      CountComplement(rows[1..], keep, drop);
    }
  }

  /** Two filters that agree on every row count the same. */
  lemma {:induction false} CountSame(rows: seq<Opportunity>, p: Opportunity -> bool, q: Opportunity -> bool)
    requires forall i :: 0 <= i < |rows| ==> (p(rows[i]) <==> q(rows[i]))
    ensures CountWhere(rows, p) == CountWhere(rows, q)
  {
    if rows != [] {
      CountSame(rows[1..], p, q);
    }
  }

  /** The in-progress deals are exactly the rows that are not new listings. */
  lemma InProgressPlusNew(rows: seq<Opportunity>)
    ensures InProgressDeals(rows) + CountWhere(rows, IsNewListing) == TotalOpportunities(rows)
  {
    CountComplement(rows, IsInProgress, IsNewListing);
  }

  /** The "High Match" card counts exactly the rows whose score the grid paints green. */
  lemma HighMatchIsGreen(rows: seq<Opportunity>)
    ensures HighMatchOpportunities(rows) == CountWhere(rows, IsStyledGreen)
    ensures HighMatchOpportunities(rows) <= TotalOpportunities(rows)
  {
    CountSame(rows, IsHighMatch, IsStyledGreen);
  }

  /** On the fixture the cards read 5 opportunities, 2 high matches and 2 in progress. */
  lemma FixtureStats()
    ensures TotalOpportunities(InvestmentOpportunities) == 5
    ensures HighMatchOpportunities(InvestmentOpportunities) == 2
    ensures InProgressDeals(InvestmentOpportunities) == 2
  {
    var ops := InvestmentOpportunities;
    assert CountWhere(ops[4..], IsHighMatch) == 0 && CountWhere(ops[4..], IsInProgress) == 0;
    assert CountWhere(ops[3..], IsHighMatch) == 0 && CountWhere(ops[3..], IsInProgress) == 0;
    assert CountWhere(ops[2..], IsHighMatch) == 1 && CountWhere(ops[2..], IsInProgress) == 1;
    assert CountWhere(ops[1..], IsHighMatch) == 2 && CountWhere(ops[1..], IsInProgress) == 2;
  }

  /** Every fixture row gets a non-empty "Match" label and a non-empty revenue label. */
  lemma FixtureLabels()
    ensures forall i :: 0 <= i < |InvestmentOpportunities| ==>
      PercentLabel(InvestmentOpportunities[i].matchScore) != ""
      && PercentLabel(InvestmentOpportunities[i].ebitdaMargin) != ""
      && NumberFormat.CurrencyLabel(InvestmentOpportunities[i].revenue) != ""
  {
    FixtureValuesNonZero();
  }

  const Colors: seq<string> := ["#0A2463", "#3E92CC", "#57B8FF", "#A2D2FF", "#D6E4F0"]

  /** The fill of pie slice `index`: `COLORS[index % COLORS.length]`. */
  function SliceColor(index: nat): (color: string)
    ensures color in Colors
  {
    Colors[index % |Colors|]
  }

  /** Any five consecutive slices get five different colours; so the five
      slices of the deals-by-industry pie are all told apart. */
  lemma SliceColorsDiffer(i: nat, j: nat)
    requires i < j < i + |Colors|
    ensures SliceColor(i) != SliceColor(j)
  {
    assert i % 5 != j % 5;
  }

  /** The colours repeat every five slices. */
  lemma SliceColorCycle(i: nat)
    ensures SliceColor(i) == SliceColor(i + |Colors|)
  {
  }
}

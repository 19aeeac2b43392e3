/** The hard-coded fixture the two dashboards render (src/data/mockData.ts). */
module MockData {

  /** A seller's listing as the company dashboard shows it. */
  datatype CompanyListing = CompanyListing(
    id: int,
    name: string,
    industry: string,
    status: string,
    location: string,
    revenue: int,
    ebitda: int,
    employees: int,
    foundedYear: int,
    askingPrice: int,
    description: string,
    viewsThisMonth: nat,
    inquiriesThisMonth: nat)

  /** A company on offer as the investor dashboard shows it. */
  datatype Opportunity = Opportunity(
    id: int,
    companyName: string,
    industry: string,
    location: string,
    revenue: int,
    ebitdaMargin: int,
    askingPrice: int,
    growthRate: int,
    status: string,
    matchScore: int)

  /** One named value of a chart series (a pie slice or a trend point). */
  datatype Slice = Slice(name: string, value: int)

  datatype PipelinePoint = PipelinePoint(name: string, newDeals: int, closedDeals: int)

  const CompanyListings: seq<CompanyListing> := [
    CompanyListing(1, "Tech Solutions Inc.", "Software", "Active", "San Francisco, CA",
      2500000, 750000, 25, 2015, 7500000, "B2B SaaS platform for project management", 34, 5),
    CompanyListing(2, "Green Manufacturing Co.", "Manufacturing", "Under Review", "Detroit, MI",
      5700000, 1200000, 48, 2009, 12000000, "Sustainable manufacturing solutions", 22, 3),
    CompanyListing(3, "Health Services LLC", "Healthcare", "Active", "Boston, MA",
      3800000, 950000, 32, 2012, 9500000, "Healthcare staffing solutions", 41, 7)
  ]

  const InvestmentOpportunities: seq<Opportunity> := [
    Opportunity(101, "Retail Chain Inc.", "Retail", "Chicago, IL", 8500000, 18, 22000000, 12, "New Listing", 87),
    Opportunity(102, "Logistics Solutions", "Transportation", "Atlanta, GA", 12700000, 22, 38000000, 15, "In Discussion", 92),
    Opportunity(103, "Cloud Services Pro", "Technology", "Seattle, WA", 4200000, 28, 16800000, 24, "Due Diligence", 95),
    Opportunity(104, "Food Distribution Co.", "Food & Beverage", "Dallas, TX", 7800000, 15, 18000000, 8, "New Listing", 78),
    Opportunity(105, "Marketing Agency Group", "Marketing", "New York, NY", 3200000, 24, 9600000, 18, "New Listing", 84)
  ]

  const ViewsTrend: seq<Slice> := [
    Slice("Jan", 12), Slice("Feb", 19), Slice("Mar", 15), Slice("Apr", 27), Slice("May", 34), Slice("Jun", 42)
  ]

  const InquiriesTrend: seq<Slice> := [
    Slice("Jan", 2), Slice("Feb", 4), Slice("Mar", 3), Slice("Apr", 5), Slice("May", 7), Slice("Jun", 5)
  ]

  const InquiryByIndustry: seq<Slice> := [
    Slice("Private Equity", 45), Slice("Strategic Buyers", 30), Slice("Family Office", 15), Slice("Individual", 10)
  ]

  const DealsByIndustry: seq<Slice> := [
    Slice("Technology", 35), Slice("Healthcare", 25), Slice("Manufacturing", 20), Slice("Retail", 15), Slice("Other", 5)
  ]

  const DealsBySize: seq<Slice> := [
    Slice("<$5M", 15), Slice("$5M-$10M", 30), Slice("$10M-$25M", 35), Slice("$25M-$50M", 15), Slice(">$50M", 5)
  ]

  const PipelineTrend: seq<PipelinePoint> := [
    PipelinePoint("Q1", 8, 2), PipelinePoint("Q2", 12, 5), PipelinePoint("Q3", 15, 7), PipelinePoint("Q4", 10, 4)
  ]

  /** The total of a chart series' values. */
  function SeriesTotal(series: seq<Slice>): int
  {
    if series == [] then 0 else series[0].value + SeriesTotal(series[1..])
  }

  /** Each pie series is a distribution in percent: its values add up to 100. */
  lemma PieSeriesArePercentages()
    ensures SeriesTotal(DealsByIndustry) == 100
    ensures SeriesTotal(DealsBySize) == 100
    ensures SeriesTotal(InquiryByIndustry) == 100
  {
  }

  /** The listing ids 1, 2, 3 and the opportunity ids 101 to 105 are distinct. */
  lemma FixtureIdsDistinct()
    ensures forall i, j :: 0 <= i < j < |CompanyListings| ==> CompanyListings[i].id != CompanyListings[j].id
    ensures forall i, j :: 0 <= i < j < |InvestmentOpportunities| ==>
      InvestmentOpportunities[i].id != InvestmentOpportunities[j].id
  {
  }

  /** No match score or EBITDA margin in the fixture is zero, and no revenue or
      asking price is zero, so every grid cell gets a non-empty label. */
  lemma FixtureValuesNonZero()
    ensures forall i :: 0 <= i < |InvestmentOpportunities| ==>
      InvestmentOpportunities[i].matchScore != 0 && InvestmentOpportunities[i].ebitdaMargin != 0
      && InvestmentOpportunities[i].revenue != 0
    ensures forall i :: 0 <= i < |CompanyListings| ==>
      CompanyListings[i].revenue != 0 && CompanyListings[i].askingPrice != 0
  {
  }

  /** The views trend (the company dashboard's line chart) and the inquiries
      trend (exported, drawn by no page) share the same six months, with never
      more inquiries than views in a month; in the investor dashboard's
      pipeline chart no quarter closes more deals than it opens. */
  lemma FixtureTrends()
    ensures |ViewsTrend| == |InquiriesTrend| == 6
    ensures forall i :: 0 <= i < |ViewsTrend| ==> ViewsTrend[i].name == InquiriesTrend[i].name
    ensures forall i :: 0 <= i < |ViewsTrend| ==> 0 <= InquiriesTrend[i].value <= ViewsTrend[i].value
    ensures |PipelineTrend| == 4
    ensures forall i :: 0 <= i < |PipelineTrend| ==>
      0 <= PipelineTrend[i].closedDeals <= PipelineTrend[i].newDeals
  {
  }
}

/** The seller's dashboard (src/pages/CompanyDashboard.tsx): the three stat
    cards computed from the listings, and the pie chart's colour cycle. */
module CompanyDashboard {
  import opened MockData
  import NumberFormat

  /** `listings.reduce((sum, company) => sum + count(company), acc)`: a left fold
      that adds one per-listing count to a running total. */
  function Reduce(listings: seq<CompanyListing>, count: CompanyListing -> nat, acc: int): int
  {
    if listings == [] then acc else Reduce(listings[1..], count, acc + count(listings[0]))
  }

  function Views(l: CompanyListing): nat { l.viewsThisMonth }

  function Inquiries(l: CompanyListing): nat { l.inquiriesThisMonth }

  /** The "Total Views" card. */
  function TotalViews(listings: seq<CompanyListing>): int {
    Reduce(listings, Views, 0)
  }

  /** The "Total Inquiries" card. */
  function TotalInquiries(listings: seq<CompanyListing>): int {
    Reduce(listings, Inquiries, 0)
  }

  /** The "Total Listings" card. */
  function TotalListings(listings: seq<CompanyListing>): nat {
    |listings|
  }

  /** The fold is the plain sum: its value is the start plus every listing's count. */
  function Sum(listings: seq<CompanyListing>, count: CompanyListing -> nat): int {
    if listings == [] then 0 else count(listings[0]) + Sum(listings[1..], count)
  }

  lemma {:induction false} ReduceIsSum(listings: seq<CompanyListing>, count: CompanyListing -> nat, acc: int)
    ensures Reduce(listings, count, acc) == acc + Sum(listings, count)
  {
    if listings != [] {
      ReduceIsSum(listings[1..], count, acc + count(listings[0]));
    }
  }

  /** Adding a listing raises a total by exactly that listing's count. */
  lemma {:induction false} ReduceAppend(listings: seq<CompanyListing>, l: CompanyListing, count: CompanyListing -> nat, acc: int)
    ensures Reduce(listings + [l], count, acc) == Reduce(listings, count, acc) + count(l)
  {
    if listings == [] {
      assert listings + [l] == [l];
    } else {
      assert (listings + [l])[1..] == listings[1..] + [l];
      ReduceAppend(listings[1..], l, count, acc + count(listings[0]));
    }
  }

  lemma TotalsAppend(listings: seq<CompanyListing>, l: CompanyListing)
    ensures TotalViews(listings + [l]) == TotalViews(listings) + l.viewsThisMonth
    ensures TotalInquiries(listings + [l]) == TotalInquiries(listings) + l.inquiriesThisMonth
    ensures TotalListings(listings + [l]) == TotalListings(listings) + 1
  {
    ReduceAppend(listings, l, Views, 0);
    ReduceAppend(listings, l, Inquiries, 0);
  }

  lemma {:induction false} SumDominates(listings: seq<CompanyListing>, count: CompanyListing -> nat, i: nat)
    requires i < |listings|
    ensures Sum(listings, count) >= count(listings[i])
  {
    if i > 0 {
      SumDominates(listings[1..], count, i - 1);
    } else if |listings| > 1 {
      SumDominates(listings[1..], count, 0);
    }
  }

  /** Counts are never negative, so each total is at least any single listing's count. */
  lemma TotalsDominate(listings: seq<CompanyListing>, i: nat)
    requires i < |listings|
    ensures TotalViews(listings) >= listings[i].viewsThisMonth
    ensures TotalInquiries(listings) >= listings[i].inquiriesThisMonth
  {
    ReduceIsSum(listings, Views, 0);
    ReduceIsSum(listings, Inquiries, 0);
    SumDominates(listings, Views, i);
    SumDominates(listings, Inquiries, i);
  }

  /** On the fixture the cards read 3 listings, 97 views and 15 inquiries. */
  lemma FixtureTotals()
    ensures TotalListings(CompanyListings) == 3
    ensures TotalViews(CompanyListings) == 97
    ensures TotalInquiries(CompanyListings) == 15
  {
    var ls := CompanyListings;
    assert Reduce(ls[3..], Views, 97) == 97 && Reduce(ls[3..], Inquiries, 15) == 15;
    assert Reduce(ls[2..], Views, 56) == 97 && Reduce(ls[2..], Inquiries, 8) == 15;
    assert Reduce(ls[1..], Views, 34) == 97 && Reduce(ls[1..], Inquiries, 5) == 15;
  }

  /** The grid's "Annual Revenue" and "Asking Price" cells of the fixture are all
      non-empty and read back to the listing's amounts. */
  lemma FixtureCurrencyCells()
    ensures forall i :: 0 <= i < |CompanyListings| ==>
      NumberFormat.CurrencyLabel(CompanyListings[i].revenue) != ""
      && NumberFormat.ParseLocale(NumberFormat.CurrencyLabel(CompanyListings[i].revenue)[1..]) == CompanyListings[i].revenue
      && NumberFormat.CurrencyLabel(CompanyListings[i].askingPrice) != ""
      && NumberFormat.ParseLocale(NumberFormat.CurrencyLabel(CompanyListings[i].askingPrice)[1..]) == CompanyListings[i].askingPrice
  {
    FixtureValuesNonZero();
  }

  const Colors: seq<string> := ["#0A2463", "#3E92CC", "#57B8FF", "#A2D2FF"]

  /** The fill of pie slice `index`: `COLORS[index % COLORS.length]`. */
  function SliceColor(index: nat): (color: string)
    ensures color in Colors
  {
    Colors[index % |Colors|]
  }

  /** Neighbouring slices never share a colour, and the four slices of the
      inquiries pie all get different colours. */
  lemma SliceColorsDiffer(i: nat, j: nat)
    requires i < j < i + |Colors|
    ensures SliceColor(i) != SliceColor(j)
  {
    assert i % 4 != j % 4;
  }

  /** The colours repeat every four slices. */
  lemma SliceColorCycle(i: nat)
    ensures SliceColor(i) == SliceColor(i + |Colors|)
  {
  }
}

/** The cost table: one row per service of the bill of materials, then a
    Total row and a blank Calculator row. exelGeneratedFunction/main.py
    builds the rows strictly (a service without a name or a monthly cost
    raises); exelGeneratedFunction/generateExelFromJsonBom.py builds them
    leniently (absent fields take defaults). Both append the same trailer
    rows, whose totals re-read the rows' currency displays. */
module CostTable {
  import opened Wrappers
  import opened Currency
  import opened Bom

  /** A row of the "EST" data frame, by its five columns. */
  datatype Row = Row(region: string, service: string, monthly: string, yearly: string, summary: string)

  const ColumnNames: seq<string> :=
    ["Region", "Service", "Monthly ($)", "First 12 Month Total ($)", "Config Summary"]

  const DefaultRegion: string := "N/A"

  /** The value of a row in column `c`, in the order of `ColumnNames`. */
  function Field(row: Row, c: nat): string
    requires c < 5
  {
    match c
    case 0 => row.region
    case 1 => row.service
    case 2 => row.monthly
    case 3 => row.yearly
    case _ => row.summary
  }

  /** `df[ColumnNames[c]]` as a list. */
  function ColumnOf(rows: seq<Row>, c: nat): (col: seq<string>)
    requires c < 5
    ensures |col| == |rows|
  {
    seq(|rows|, i requires 0 <= i < |rows| => Field(rows[i], c))
  }

  // ---------------------------------------------------------------------
  // Config summary

  function PropertyText(p: Property): string {
    p.key + ": " + p.value
  }

  /** `sep.join(parts)`. */
  function Join(sep: string, parts: seq<string>): string
    decreases |parts|
  {
    if parts == [] then ""
    else if |parts| == 1 then parts[0]
    else parts[0] + sep + Join(sep, parts[1..])
  }

  /** `", ".join([f"{k}: {v}" for k, v in properties.items()])`. */
  function Summary(props: seq<Property>): (r: string)
    ensures props != [] ==> |r| >= |PropertyText(props[0])| && r[..|PropertyText(props[0])|] == PropertyText(props[0])
    ensures |props| == 1 ==> r == PropertyText(props[0])
  {
    Join(", ", seq(|props|, i requires 0 <= i < |props| => PropertyText(props[i])))
  }

  lemma {:induction false} JoinConcat(sep: string, a: seq<string>, b: seq<string>)
    requires a != [] && b != []
    ensures Join(sep, a + b) == Join(sep, a) + sep + Join(sep, b)
    decreases |a|
  {
    if |a| > 1 {
      assert (a + b)[1..] == a[1..] + b;
      JoinConcat(sep, a[1..], b);
    }
  }

  /** The summary is empty exactly when the service has no properties. */
  lemma SummaryEmpty(props: seq<Property>)
    ensures Summary(props) == "" <==> props == []
  {
    if props != [] {
      var parts := seq(|props|, i requires 0 <= i < |props| => PropertyText(props[i]));
      assert |parts[0]| >= 2;
      if |parts| > 1 {
        assert |Summary(props)| >= |parts[0]|;
      }
    }
  }

  /** The summary of two runs of properties is the two summaries joined by
      ", ": pairs keep their order and nothing is dropped. */
  lemma SummaryConcat(ps: seq<Property>, qs: seq<Property>)
    requires ps != [] && qs != []
    ensures Summary(ps + qs) == Summary(ps) + ", " + Summary(qs)
  {
    var f := (props: seq<Property>) => seq(|props|, i requires 0 <= i < |props| => PropertyText(props[i]));
    assert f(ps + qs) == f(ps) + f(qs);
    JoinConcat(", ", f(ps), f(qs));
  }

  // ---------------------------------------------------------------------
  // Rows

  /** The monthly cost with the lenient defaults: 0 when "Service Cost" or
      its "monthly" is absent. */
  function MonthlyCents(s: Service): nat {
    match s.serviceCost
    case None => 0
    case Some(c) => c.monthly.GetOr(0)
  }

  /** A row of generateExelFromJsonBom.py: every absent field has a default. */
  function LenientRow(s: Service): (row: Row)
    ensures s.region.None? ==> row.region == "N/A"
    ensures s.serviceName.None? ==> row.service == ""
    ensures s.properties.None? ==> row.summary == ""
  {
    var m := MonthlyCents(s);
    Row(s.region.GetOr(DefaultRegion), s.serviceName.GetOr(""),
        FormatGrouped(m), FormatGrouped(m * 12), Summary(s.properties.GetOr([])))
  }

  /** A row's displays read back as the service's monthly cost and twelve
      times it; the region is "N/A" and the summary empty when absent. */
  lemma RowDisplays(s: Service)
    ensures ParseCents(Strip(LenientRow(s).monthly)) == Some(MonthlyCents(s))
    ensures ParseCents(Strip(LenientRow(s).yearly)) == Some(12 * MonthlyCents(s))
    ensures s.region.None? ==> LenientRow(s).region == "N/A"
    ensures LenientRow(s).summary == "" <==> s.properties.GetOr([]) == []
  {
    var m := MonthlyCents(s);
    var row := LenientRow(s);
    assert row.monthly == FormatGrouped(m) && row.yearly == FormatGrouped(m * 12);
    MonthlyAndYearly(m);
    assert m * 12 == 12 * m;
    SummaryEmpty(s.properties.GetOr([]));
  }

  /** A row holds the `,.2f` displays of the monthly cost and of twelve
      times it, the region and name when present, and the summary of the
      properties. */
  lemma RowFields(s: Service)
    ensures LenientRow(s).monthly == FormatGrouped(MonthlyCents(s))
    ensures LenientRow(s).yearly == FormatGrouped(12 * MonthlyCents(s))
    ensures s.region.Some? ==> LenientRow(s).region == s.region.value
    ensures s.serviceName.Some? ==> LenientRow(s).service == s.serviceName.value
    ensures LenientRow(s).summary == Summary(s.properties.GetOr([]))
  {
    assert MonthlyCents(s) * 12 == 12 * MonthlyCents(s);
  }

  lemma MonthlyAndYearly(m: nat)
    ensures ParseCents(Strip(FormatGrouped(m))) == Some(m)
    ensures ParseCents(Strip(FormatGrouped(m * 12))) == Some(m * 12)
  {
    RoundTrip(m);
    RoundTrip(m * 12);
  }

  /** A service without a cost, or without its monthly figure, shows
      `$0.00` a month and a year. */
  lemma LenientDefaults(s: Service)
    requires s.serviceCost.None? || s.serviceCost.value.monthly.None?
    ensures LenientRow(s).monthly == "$0.00" && LenientRow(s).yearly == "$0.00"
  {
    assert Pad(0, 2) == "00";
  }

  /** A row of main.py: `service['Service Name']`, `service['Service Cost']`
      and its `['monthly']` raise `KeyError` when absent, in that order;
      when all three are present no default is used and the row is the
      lenient one. */
  function StrictRow(s: Service): (r: Result<Row>)
    ensures r.Ok? <==> s.serviceName.Some? && s.serviceCost.Some? && s.serviceCost.value.monthly.Some?
  {
    if s.serviceName.None? then Err(MissingKey("Service Name"))
    else if s.serviceCost.None? then Err(MissingKey("Service Cost"))
    else if s.serviceCost.value.monthly.None? then Err(MissingKey("monthly"))
    else Ok(LenientRow(s))
  }

  /** The lenient rows of a list of services, in order. */
  function LenientRows(ss: seq<Service>): seq<Row> {
    seq(|ss|, i requires 0 <= i < |ss| => LenientRow(ss[i]))
  }

  lemma LenientRowsLast(ss: seq<Service>)
    requires ss != []
    ensures LenientRows(ss) == LenientRows(ss[..|ss| - 1]) + [LenientRow(ss[|ss| - 1])]
  {
  }

  /** The strict rows, or the error of the first service that lacks a
      required field (see FirstFailure). */
  function StrictRows(ss: seq<Service>): (r: Result<seq<Row>>)
    ensures r.Ok? <==> forall i | 0 <= i < |ss| :: StrictRow(ss[i]).Ok?
    ensures r.Ok? ==> r.value == LenientRows(ss)
    decreases |ss|
  {
    if ss == [] then Ok([])
    else
      var init := ss[..|ss| - 1];
      var prev := StrictRows(init);
      var last := StrictRow(ss[|ss| - 1]);
      assert forall i | 0 <= i < |init| :: init[i] == ss[i];
      if prev.Err? then prev
      else if last.Err? then Err(last.error)
      else
        LenientRowsLast(ss);
        assert last.value == LenientRow(ss[|ss| - 1]);
        Ok(prev.value + [last.value])
  }

  /** When every service before `i` is fine and service `i` is not, the strict
      rows fail with service `i`'s error. */
  lemma {:induction false} FirstFailure(ss: seq<Service>, i: nat)
    requires i < |ss| && StrictRow(ss[i]).Err?
    requires forall j | 0 <= j < i :: StrictRow(ss[j]).Ok?
    ensures StrictRows(ss).Err? && StrictRows(ss).error == StrictRow(ss[i]).error
    decreases |ss|
  {
    var init := ss[..|ss| - 1];
    assert forall j | 0 <= j < |init| :: init[j] == ss[j];
    if i < |ss| - 1 {
      FirstFailure(init, i);
    }
  }

  // ---------------------------------------------------------------------
  // Totals and trailer rows

  /** Every display of a column reads back as a number, so `float` does not raise. */
  predicate Parsable(displays: seq<string>) {
    forall i | 0 <= i < |displays| :: ParseCents(Strip(displays[i])).Some?
  }

  /** `sum([float(x.replace('$', '').replace(',', '')) for x in displays])`. */
  function ParsedTotal(displays: seq<string>): (total: nat)
    requires Parsable(displays)
    ensures displays == [] ==> total == 0
    ensures |displays| == 1 ==> total == ParseCents(Strip(displays[0])).value
    decreases |displays|
  {
    if displays == [] then 0
    else
      var init := displays[..|displays| - 1];
      assert forall i | 0 <= i < |init| :: init[i] == displays[i];
      ParsedTotal(init) + ParseCents(Strip(displays[|displays| - 1])).value
  }

  /** No display reads back as more than the column's total. */
  lemma {:induction false} ParsedTotalBounds(displays: seq<string>)
    requires Parsable(displays)
    ensures forall i | 0 <= i < |displays| :: ParseCents(Strip(displays[i])).value <= ParsedTotal(displays)
    decreases |displays|
  {
    if displays != [] {
      var init := displays[..|displays| - 1];
      assert forall i | 0 <= i < |init| :: init[i] == displays[i];
      ParsedTotalBounds(init);
    }
  }

  function SumMonthly(ss: seq<Service>): nat
    decreases |ss|
  {
    if ss == [] then 0 else SumMonthly(ss[..|ss| - 1]) + MonthlyCents(ss[|ss| - 1])
  }

  lemma ColumnSnoc(rows: seq<Row>, row: Row, c: nat)
    requires c < 5
    ensures ColumnOf(rows + [row], c) == ColumnOf(rows, c) + [Field(row, c)]
  {
  }

  lemma ParsedTotalSnoc(displays: seq<string>, x: string)
    requires Parsable(displays) && ParseCents(Strip(x)).Some?
    ensures Parsable(displays + [x])
    ensures ParsedTotal(displays + [x]) == ParsedTotal(displays) + ParseCents(Strip(x)).value
  {
    assert (displays + [x])[..|displays|] == displays;
  }

  /** Re-reading the monthly and yearly displays of the rows gives the sum
      of the services' monthly costs and twelve times that sum. */
  lemma {:induction false} TotalsAreSums(ss: seq<Service>)
    ensures Parsable(ColumnOf(LenientRows(ss), 2)) && ParsedTotal(ColumnOf(LenientRows(ss), 2)) == SumMonthly(ss)
    ensures Parsable(ColumnOf(LenientRows(ss), 3)) && ParsedTotal(ColumnOf(LenientRows(ss), 3)) == 12 * SumMonthly(ss)
    decreases |ss|
  {
    if ss != [] {
      var init, last := ss[..|ss| - 1], ss[|ss| - 1];
      TotalsAreSums(init);
      var rows, row := LenientRows(init), LenientRow(last);
      LenientRowsLast(ss);
      RowDisplays(last);
      var sum, m := SumMonthly(init), MonthlyCents(last);
      assert Field(row, 2) == row.monthly && Field(row, 3) == row.yearly;
      ColumnStep(rows, row, 2, sum, m);
      ColumnStep(rows, row, 3, 12 * sum, 12 * m);
      assert 12 * sum + 12 * m == 12 * (sum + m);
    }
  }

  /** One more row adds the value of its display in column `c` to that
      column's total. */
  lemma ColumnStep(rows: seq<Row>, row: Row, c: nat, total: nat, v: nat)
    requires c < 5
    requires Parsable(ColumnOf(rows, c)) && ParsedTotal(ColumnOf(rows, c)) == total
    requires ParseCents(Strip(Field(row, c))) == Some(v)
    ensures Parsable(ColumnOf(rows + [row], c)) && ParsedTotal(ColumnOf(rows + [row], c)) == total + v
  {
    ColumnSnoc(rows, row, c);
    ParsedTotalSnoc(ColumnOf(rows, c), Field(row, c));
  }

  function TotalRow(totalMonthly: string, totalYearly: string): Row {
    Row("", "", totalMonthly, totalYearly, "")
  }

  const CalculatorRow: Row := Row("", "", "", "", "")

  /** The rows with the Total row (totals read back from the displays and
      shown without a thousands separator) and the Calculator row appended. */
  function WithTrailers(rows: seq<Row>): (r: seq<Row>)
    requires Parsable(ColumnOf(rows, 2)) && Parsable(ColumnOf(rows, 3))
    ensures |r| == |rows| + 2 && r[..|rows|] == rows && r[|rows| + 1] == CalculatorRow
    ensures r[|rows|].region == "" && r[|rows|].service == "" && r[|rows|].summary == ""
  {
    rows + [TotalRow(FormatPlain(ParsedTotal(ColumnOf(rows, 2))), FormatPlain(ParsedTotal(ColumnOf(rows, 3)))),
            CalculatorRow]
  }

  /** The table of generateExelFromJsonBom.py: N services give N + 2 rows,
      and the totals are the sums of the monthly and yearly costs. */
  function LenientTable(ss: seq<Service>): (t: seq<Row>)
    ensures |t| == |ss| + 2
    ensures forall i | 0 <= i < |ss| :: t[i] == LenientRow(ss[i])
    ensures t[|ss|] == TotalRow(FormatPlain(SumMonthly(ss)), FormatPlain(12 * SumMonthly(ss)))
    ensures t[|ss| + 1] == CalculatorRow
  {
    TotalsAreSums(ss);
    WithTrailers(LenientRows(ss))
  }

  /** The table of main.py: it exists exactly when every service has a name
      and a monthly cost, and then it is the lenient table. */
  function StrictTable(ss: seq<Service>): (r: Result<seq<Row>>)
    ensures r.Ok? <==> forall i | 0 <= i < |ss| :: StrictRow(ss[i]).Ok?
    ensures r.Ok? ==> r.value == LenientTable(ss)
    ensures r.Err? ==> r.error == StrictRows(ss).error
  {
    match StrictRows(ss)
    case Err(e) => Err(e)
    case Ok(rows) =>
      TotalsAreSums(ss);
      Ok(WithTrailers(rows))
  }

  /** With no services the table is just the trailer rows, with zero totals. */
  lemma EmptyTable()
    ensures LenientTable([]) == [TotalRow("$0.00", "$0.00"), CalculatorRow]
  {
    assert Pad(0, 2) == "00";
    assert FormatPlain(0) == "$0.00";
    var t := LenientTable([]);
    assert t == [t[0], t[1]];
  }

  /** One service costing $100.00 a month: the row shows $1,200.00 a year,
      while the Total row shows the same amount as $1200.00. */
  lemma OneServiceExample(s: Service)
    requires s.serviceCost == Some(ServiceCost(Some(10000)))
    ensures LenientRow(s).monthly == "$100.00" && LenientRow(s).yearly == "$1,200.00"
    ensures LenientTable([s])[1] == TotalRow("$100.00", "$1200.00")
  {
    HundredDollarDisplays();
    assert [s][..0] == [];
    assert SumMonthly([s]) == 10000;
  }

  // ---------------------------------------------------------------------
  // The loops and the data frame

  /** `excel_data`: the five column lists the loop appends to. */
  datatype Columns = Columns(region: seq<string>, service: seq<string>, monthly: seq<string>,
                             yearly: seq<string>, summary: seq<string>) {
    predicate Aligned() {
      |service| == |region| && |monthly| == |region| && |yearly| == |region| && |summary| == |region|
    }

    /** `pd.DataFrame(excel_data)`, row by row. */
    function Rows(): (rows: seq<Row>)
      requires Aligned()
      ensures |rows| == |region|
    {
      seq(|region|, i requires 0 <= i < |region| => Row(region[i], service[i], monthly[i], yearly[i], summary[i]))
    }
  }

  /** Appending a row's fields to the five lists appends the row to the frame. */
  lemma AppendToColumns(c: Columns, row: Row)
    requires c.Aligned()
    ensures Columns(c.region + [row.region], c.service + [row.service], c.monthly + [row.monthly],
                    c.yearly + [row.yearly], c.summary + [row.summary]).Aligned()
    ensures Columns(c.region + [row.region], c.service + [row.service], c.monthly + [row.monthly],
                    c.yearly + [row.yearly], c.summary + [row.summary]).Rows() == c.Rows() + [row]
  {
  }

  lemma LenientRowsSnoc(ss: seq<Service>, i: nat)
    requires i < |ss|
    ensures LenientRows(ss[..i + 1]) == LenientRows(ss[..i]) + [LenientRow(ss[i])]
  {
    var a, b := LenientRows(ss[..i + 1]), LenientRows(ss[..i]) + [LenientRow(ss[i])];
    forall j | 0 <= j < |a|
      ensures a[j] == b[j]
    {
      assert ss[..i + 1][j] == ss[j];
    }
  }

  /** A prefix of fine services grows by one fine service. */
  lemma StrictPrefixSnoc(ss: seq<Service>, i: nat)
    requires i < |ss| && StrictRows(ss[..i]).Ok? && StrictRow(ss[i]).Ok?
    ensures StrictRows(ss[..i + 1]).Ok?
  {
    var t := ss[..i + 1];
    assert t[..|t| - 1] == ss[..i] && t[|t| - 1] == ss[i];
  }

  /** After a prefix of fine services, the first failing one decides the error. */
  lemma FailureAfterPrefix(ss: seq<Service>, i: nat)
    requires i < |ss| && StrictRows(ss[..i]).Ok? && StrictRow(ss[i]).Err?
    ensures StrictRows(ss).Err? && StrictRows(ss).error == StrictRow(ss[i]).error
  {
    assert forall j | 0 <= j < i :: ss[..i][j] == ss[j];
    FirstFailure(ss, i);
  }

  /** The `for service in services` loop of main.py: the columns of the
      strict rows, or the error of the first service that lacks a field. */
  method CollectStrict(services: seq<Service>) returns (r: Result<Columns>)
    ensures r.Ok? <==> StrictRows(services).Ok?
    ensures r.Ok? ==> r.value.Aligned() && r.value.Rows() == LenientRows(services)
    ensures r.Err? ==> r.error == StrictRows(services).error
  {
    var region, service, monthly, yearly, summary := [], [], [], [], [];
    var i := 0;
    while i < |services|
      invariant 0 <= i <= |services|
      invariant StrictRows(services[..i]).Ok?
      invariant Columns(region, service, monthly, yearly, summary).Aligned() && |region| == i
      invariant Columns(region, service, monthly, yearly, summary).Rows() == LenientRows(services[..i])
    {
      var s := services[i];
      var reg := s.region.GetOr(DefaultRegion);
      if s.serviceName.None? {
        r := Err(MissingKey("Service Name"));
        FailureAfterPrefix(services, i);
        return;
      }
      var name := s.serviceName.value;
      if s.serviceCost.None? {
        r := Err(MissingKey("Service Cost"));
        FailureAfterPrefix(services, i);
        return;
      }
      if s.serviceCost.value.monthly.None? {
        r := Err(MissingKey("monthly"));
        FailureAfterPrefix(services, i);
        return;
      }
      var m := s.serviceCost.value.monthly.value;
      var monthlyCost, yearlyCost := FormatGrouped(m), FormatGrouped(m * 12);
      var detail := Summary(s.properties.GetOr([]));
      assert MonthlyCents(s) == m;
      assert Row(reg, name, monthlyCost, yearlyCost, detail) == LenientRow(s);
      StrictPrefixSnoc(services, i);
      AppendToColumns(Columns(region, service, monthly, yearly, summary), Row(reg, name, monthlyCost, yearlyCost, detail));
      LenientRowsSnoc(services, i);
      region := region + [reg];
      service := service + [name];
      monthly := monthly + [monthlyCost];
      yearly := yearly + [yearlyCost];
      summary := summary + [detail];
      i := i + 1;
    }
    assert services[..i] == services;
    r := Ok(Columns(region, service, monthly, yearly, summary));
  }

  /** The `for service in services` loop of generateExelFromJsonBom.py. */
  method CollectLenient(services: seq<Service>) returns (cols: Columns)
    ensures cols.Aligned() && cols.Rows() == LenientRows(services)
  {
    var region, service, monthly, yearly, summary := [], [], [], [], [];
    var i := 0;
    while i < |services|
      invariant 0 <= i <= |services|
      invariant Columns(region, service, monthly, yearly, summary).Aligned() && |region| == i
      invariant Columns(region, service, monthly, yearly, summary).Rows() == LenientRows(services[..i])
    {
      var s := services[i];
      var reg := s.region.GetOr(DefaultRegion);
      var name := s.serviceName.GetOr("");
      var m := MonthlyCents(s);
      var monthlyCost, yearlyCost := FormatGrouped(m), FormatGrouped(m * 12);
      var detail := Summary(s.properties.GetOr([]));
      AppendToColumns(Columns(region, service, monthly, yearly, summary), Row(reg, name, monthlyCost, yearlyCost, detail));
      LenientRowsSnoc(services, i);
      region := region + [reg];
      service := service + [name];
      monthly := monthly + [monthlyCost];
      yearly := yearly + [yearlyCost];
      summary := summary + [detail];
      i := i + 1;
    }
    assert services[..i] == services;
    cols := Columns(region, service, monthly, yearly, summary);
  }

  /** The pandas data frame `df`, held as its list of rows. */
  class DataFrame {
    var rows: seq<Row>

    /** `pd.DataFrame(excel_data)`. */
    constructor (cols: Columns)
      requires cols.Aligned()
      ensures rows == cols.Rows()
    {
      rows := cols.Rows();
    }

    /** `df[ColumnNames[c]]`. */
    function Column(c: nat): seq<string>
      reads this
      requires c < 5
    {
      ColumnOf(rows, c)
    }

    /** `df.loc[len(df)] = row`. */
    method AppendRow(row: Row)
      modifies this
      ensures rows == old(rows) + [row]
    {
      rows := rows + [row];
    }
  }

  /** Computing the totals from the frame's displays and appending the Total
      and Calculator rows in place (main.py:64-71 and
      generateExelFromJsonBom.py:66-71). */
  method AppendTotals(df: DataFrame) returns (totalMonthly: string, totalYearly: string)
    requires Parsable(df.Column(2)) && Parsable(df.Column(3))
    modifies df
    ensures df.rows == WithTrailers(old(df.rows))
    ensures df.rows[|df.rows| - 2] == TotalRow(totalMonthly, totalYearly)
  {
    totalMonthly := FormatPlain(ParsedTotal(df.Column(2)));
    totalYearly := FormatPlain(ParsedTotal(df.Column(3)));
    df.AppendRow(TotalRow(totalMonthly, totalYearly));
    df.AppendRow(CalculatorRow);
  }
}

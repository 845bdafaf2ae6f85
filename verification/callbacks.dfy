/**
 * The three callbacks that depend on the gender selection, as pure functions
 * of the cleaned table. A figure is modelled by its kind, the selected gender
 * shown in its title, and the rows handed to the plotting call; how plotly
 * draws or aggregates those rows is not modelled.
 */
module Callbacks {
  import opened Wrappers
  import opened Seqs
  import opened Records
  import opened Filtering
  import opened Aggregates

  datatype Plot = Bar | Pie | Line | Scatter

  datatype Figure = Figure(plot: Plot, gender: string, data: seq<Customer>)

  /** The `page2_insight` text: the selection and the two averages (NaN is None). */
  datatype PageInsight = PageInsight(gender: string, avgMonthly: Option<real>, avgTotal: Option<real>)

  /** The `more_insights_output` text: empty, or the churn rate and the two maxima (NaN is None). */
  datatype MoreInsightsText =
    | NoText
    | AdditionalInsights(churnRate: real, maxMonthly: Option<real>, maxTotal: Option<real>)

  /** The rows the selection keeps: exactly those of gender `g`, with their multiplicity, in table order. */
  ghost predicate IsSelection(data: seq<Customer>, df: seq<Customer>, g: string)
  {
    && IsSubsequence(data, df)
    && forall x :: multiset(data)[x] == if x.gender == g then multiset(df)[x] else 0
  }

  /** `update_bar_pie`: a bar and a pie figure, both drawn from the rows of the selected gender. */
  function UpdateBarPie(df: seq<Customer>, g: string): (figs: (Figure, Figure))
    ensures figs.0.plot == Bar && figs.1.plot == Pie
    ensures figs.0.gender == g && figs.1.gender == g
    ensures figs.0.data == figs.1.data && IsSelection(figs.0.data, df, g)
  {
    SelectGenderCounts(df, g);
    SelectGenderIsSubsequence(df, g);
    var dff := SelectGender(df, g);
    (Figure(Bar, g, dff), Figure(Pie, g, dff))
  }

  /**
   * `update_line_scatter`: a line and a scatter figure drawn from the rows of
   * the selected gender, and the insight text with the two averages, which
   * are NaN exactly when no row has that gender.
   */
  function UpdateLineScatter(df: seq<Customer>, g: string): (out: (Figure, Figure, PageInsight))
    ensures out.0.plot == Line && out.1.plot == Scatter
    ensures out.0.gender == g && out.1.gender == g && out.2.gender == g
    ensures out.0.data == out.1.data && IsSelection(out.0.data, df, g)
    ensures out.2.avgMonthly.None? <==> g !in Genders(df)
    ensures out.2.avgTotal.None? <==> g !in Genders(df)
  {
    SelectGenderCounts(df, g);
    SelectGenderIsSubsequence(df, g);
    SelectGenderEmpty(df, g);
    var dff := SelectGender(df, g);
    (Figure(Line, g, dff), Figure(Scatter, g, dff),
     PageInsight(g, Mean(MonthlyColumn(dff)), Mean(TotalColumn(dff))))
  }

  /**
   * `more_insights`: nothing while the button has not been clicked, whatever
   * the selection; afterwards the churn rate, a percentage, and the maxima,
   * which are NaN exactly when no row has the selected gender.
   */
  function MoreInsights(df: seq<Customer>, nClicks: nat, g: string): (r: MoreInsightsText)
    ensures r == NoText <==> nClicks == 0
    ensures r.AdditionalInsights? ==> 0.0 <= r.churnRate <= 100.0
    ensures r.AdditionalInsights? ==> (r.maxMonthly.None? <==> g !in Genders(df))
    ensures r.AdditionalInsights? ==> (r.maxTotal.None? <==> g !in Genders(df))
  {
    if nClicks == 0 then NoText
    else
      SelectGenderEmpty(df, g);
      var dff := SelectGender(df, g);
      AdditionalInsights(ChurnRate(dff), Max(MonthlyColumn(dff)), Max(TotalColumn(dff)))
  }

  /**
   * The averages on the insight text are those of the selected customers:
   * each is at least the smallest and at most the largest value of a
   * customer of that gender.
   */
  lemma PageInsightWithinSelection(df: seq<Customer>, g: string)
    ensures var ins := UpdateLineScatter(df, g).2;
      ins.avgMonthly.Some? ==>
        (exists x :: x in df && x.gender == g && x.monthlyCharges <= ins.avgMonthly.value) &&
        (exists x :: x in df && x.gender == g && ins.avgMonthly.value <= x.monthlyCharges)
    ensures var ins := UpdateLineScatter(df, g).2;
      ins.avgTotal.Some? ==>
        (exists x :: x in df && x.gender == g && x.totalCharges <= ins.avgTotal.value) &&
        (exists x :: x in df && x.gender == g && ins.avgTotal.value <= x.totalCharges)
  {
    var dff := SelectGender(df, g);
    SelectGenderMembers(df, g);
    MonthlyColumnMembers(dff);
    TotalColumnMembers(dff);
    if dff != [] {
      MeanBetweenExtremes(MonthlyColumn(dff));
      MeanBetweenExtremes(TotalColumn(dff));
    }
  }

  /**
   * The averages on the insight text are the means of the charges of the
   * selected rows; `Mean` states that each, times the number of those rows,
   * is the sum of their charges.
   */
  lemma PageInsightAverages(df: seq<Customer>, g: string)
    ensures UpdateLineScatter(df, g).2.avgMonthly == Mean(MonthlyColumn(SelectGender(df, g)))
    ensures UpdateLineScatter(df, g).2.avgTotal == Mean(TotalColumn(SelectGender(df, g)))
    ensures |MonthlyColumn(SelectGender(df, g))| == |TotalColumn(SelectGender(df, g))| == |SelectGender(df, g)|
  {
  }

  /**
   * After a click, the churn rate is that of the selected rows: 0 when none
   * of them says "Yes"; `ChurnRate` states that otherwise the rate times the
   * number of selected rows with a Churn value is 100 times the number
   * saying "Yes".
   */
  lemma MoreInsightsChurnRate(df: seq<Customer>, nClicks: nat, g: string)
    requires nClicks > 0
    ensures MoreInsights(df, nClicks, g).churnRate == ChurnRate(SelectGender(df, g))
    ensures CountYes(SelectGender(df, g)) == 0 ==> MoreInsights(df, nClicks, g).churnRate == 0.0
  {
  }

  /**
   * After a click, the maximum monthly charge on the text is that of some
   * customer of the selected gender, and no customer of that gender has a
   * larger one.
   */
  lemma MoreInsightsMaxMonthly(df: seq<Customer>, nClicks: nat, g: string)
    requires nClicks > 0
    ensures var r := MoreInsights(df, nClicks, g);
      r.maxMonthly.Some? ==>
        (exists x :: x in df && x.gender == g && x.monthlyCharges == r.maxMonthly.value) &&
        (forall x :: x in df && x.gender == g ==> x.monthlyCharges <= r.maxMonthly.value)
  {
    var dff := SelectGender(df, g);
    var col := MonthlyColumn(dff);
    assert MoreInsights(df, nClicks, g).maxMonthly == Max(col);
    SelectGenderMembers(df, g);
    if col != [] {
      var m := Max(col).value;
      var i :| 0 <= i < |col| && col[i] == m;
      assert dff[i] in dff;
      forall x | x in df && x.gender == g ensures x.monthlyCharges <= m {
        var k :| 0 <= k < |dff| && dff[k] == x;
        assert col[k] in col;
      }
    }
  }

  /**
   * After a click, the maximum total charge on the text is that of some
   * customer of the selected gender, and no customer of that gender has a
   * larger one.
   */
  lemma MoreInsightsMaxTotal(df: seq<Customer>, nClicks: nat, g: string)
    requires nClicks > 0
    ensures var r := MoreInsights(df, nClicks, g);
      r.maxTotal.Some? ==>
        (exists x :: x in df && x.gender == g && x.totalCharges == r.maxTotal.value) &&
        (forall x :: x in df && x.gender == g ==> x.totalCharges <= r.maxTotal.value)
  {
    var dff := SelectGender(df, g);
    var col := TotalColumn(dff);
    assert MoreInsights(df, nClicks, g).maxTotal == Max(col);
    SelectGenderMembers(df, g);
    if col != [] {
      var m := Max(col).value;
      var i :| 0 <= i < |col| && col[i] == m;
      assert dff[i] in dff;
      forall x | x in df && x.gender == g ensures x.totalCharges <= m {
        var k :| 0 <= k < |dff| && dff[k] == x;
        assert col[k] in col;
      }
    }
  }

  /** The three-row table of the worked example. */
  function SampleTable(): seq<Customer>
  {
    [ Record("Male", 10, 50.0, 500.0, Some("Yes"), "DSL", "Month-to-month", "Electronic check"),
      Record("Male", 20, 70.0, 1400.0, Some("No"), "Fiber optic", "One year", "Mailed check"),
      Record("Female", 5, 30.0, 150.0, Some("No"), "DSL", "Month-to-month", "Bank transfer (automatic)") ]
  }

  /** Which rows of the worked example each selection keeps. */
  lemma SampleTableSelections()
    ensures SelectGender(SampleTable(), "Male") == SampleTable()[..2]
    ensures SelectGender(SampleTable(), "Female") == SampleTable()[2..]
    ensures SelectGender(SampleTable(), "Unknown") == []
  {
    var t := SampleTable();
    assert t[1..][1..] == t[2..] && t[2..][1..] == [];
    assert SelectGender(t[2..], "Male") == [];
    assert SelectGender(t[2..], "Female") == [t[2]];
    assert SelectGender(t[2..], "Unknown") == [];
  }

  /** The columns and churn counts of the "Male" rows of the worked example. */
  lemma SampleTableMaleRows()
    ensures MonthlyColumn(SelectGender(SampleTable(), "Male")) == [50.0, 70.0]
    ensures TotalColumn(SelectGender(SampleTable(), "Male")) == [500.0, 1400.0]
    ensures ChurnRate(SelectGender(SampleTable(), "Male")) == 50.0
  {
    var t := SampleTable();
    var male := t[..2];
    assert SelectGender(t, "Male") == male by { SampleTableSelections(); }
    assert male[1..] == [t[1]] && male[1..][1..] == [];
    assert t[0].churn == Some("Yes") && t[1].churn == Some("No");
    assert CountPresent([t[1]]) == 1 && CountYes([t[1]]) == 0;
    assert CountPresent(male) == 2 && CountYes(male) == 1;
  }

  /** The worked example, "Male": average monthly charges 60 and average total charges 950. */
  lemma SampleTableMalePage()
    ensures UpdateLineScatter(SampleTable(), "Male").2 == PageInsight("Male", Some(60.0), Some(950.0))
  {
    var df := SampleTable();
    SampleTableMaleRows();
    var dff := SelectGender(df, "Male");
    assert Mean(MonthlyColumn(dff)) == Some(60.0) by { assert Sum([50.0, 70.0]) == 120.0; }
    assert Mean(TotalColumn(dff)) == Some(950.0) by { assert Sum([500.0, 1400.0]) == 1900.0; }
  }

  /** The worked example, "Male": churn rate 50%, maxima 70 and 1400, and nothing before a click. */
  lemma SampleTableMaleMore()
    ensures MoreInsights(SampleTable(), 1, "Male") == AdditionalInsights(50.0, Some(70.0), Some(1400.0))
    ensures MoreInsights(SampleTable(), 0, "Male") == NoText
  {
    SampleTableMaleRows();
    assert Max([50.0, 70.0]) == Some(70.0) && Max([500.0, 1400.0]) == Some(1400.0);
  }

  /** The columns and churn counts of the "Female" rows of the worked example. */
  lemma SampleTableFemaleRows()
    ensures MonthlyColumn(SelectGender(SampleTable(), "Female")) == [30.0]
    ensures TotalColumn(SelectGender(SampleTable(), "Female")) == [150.0]
    ensures ChurnRate(SelectGender(SampleTable(), "Female")) == 0.0
  {
    var t := SampleTable();
    var female := t[2..];
    assert SelectGender(t, "Female") == female by { SampleTableSelections(); }
    assert female == [t[2]] && t[2].churn == Some("No");
    assert CountYes(female) == 0;
  }

  /** The worked example, "Female": average monthly charges 30 and average total charges 150. */
  lemma SampleTableFemalePage()
    ensures UpdateLineScatter(SampleTable(), "Female").2 == PageInsight("Female", Some(30.0), Some(150.0))
  {
    var df := SampleTable();
    SampleTableFemaleRows();
    var dff := SelectGender(df, "Female");
    assert Mean(MonthlyColumn(dff)) == Some(30.0) by { assert Sum([30.0]) == 30.0; }
    assert Mean(TotalColumn(dff)) == Some(150.0) by { assert Sum([150.0]) == 150.0; }
  }

  /** The worked example, "Female": churn rate 0%. */
  lemma SampleTableFemaleMore()
    ensures MoreInsights(SampleTable(), 1, "Female") == AdditionalInsights(0.0, Some(30.0), Some(150.0))
  {
    SampleTableFemaleRows();
  }

  /** The worked example, a value not in the table: NaN averages and maxima, rate 0, no failure. */
  lemma SampleTableUnknown()
    ensures UpdateLineScatter(SampleTable(), "Unknown").2 == PageInsight("Unknown", None, None)
    ensures MoreInsights(SampleTable(), 1, "Unknown") == AdditionalInsights(0.0, None, None)
  {
    SampleTableSelections();
  }
}

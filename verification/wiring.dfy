/**
 * The callback wiring as a static dependency table. Each output belongs to
 * one callback; the callback's `Input`s trigger it and its `State`s are read
 * without triggering it. The dashboard keeps the last value of every output
 * and, when a control changes, recomputes only the outputs of the callbacks
 * that declare that control as an `Input`.
 */
module Wiring {
  import opened Records
  import opened Filtering
  import opened Callbacks

  /** The controls whose values the callbacks read. */
  datatype Control = BarPieGender | LineScatterGender | MoreInsightsButton

  /** The outputs the callbacks write. */
  datatype View = BarChart | PieChart | LineChart | ScatterChart | Page2Insight | MoreInsightsOutput

  const AllViews: set<View> := {BarChart, PieChart, LineChart, ScatterChart, Page2Insight, MoreInsightsOutput}

  /** The `Input` declarations of the callback that writes `v` (lines 119, 135, 155). */
  function Inputs(v: View): (cs: set<Control>)
    ensures |cs| == 1
  {
    match v
    case BarChart | PieChart => {BarPieGender}
    case LineChart | ScatterChart | Page2Insight => {LineScatterGender}
    case MoreInsightsOutput => {MoreInsightsButton}
  }

  /** The `State` declarations of the callback that writes `v` (line 156). */
  function States(v: View): (cs: set<Control>)
    ensures cs <= {LineScatterGender}
    ensures cs != {} <==> v == MoreInsightsOutput
  {
    match v
    case MoreInsightsOutput => {LineScatterGender}
    case _ => {}
  }

  /** The values of the controls: both dropdowns' selections and the button's click count. */
  datatype Controls = Controls(barPieGender: string, lineScatterGender: string, nClicks: nat)

  /** Both dropdowns start at "Male" and the button at zero clicks (lines 58, 74, 88). */
  const InitialControls: Controls := Controls(DefaultGender, DefaultGender, 0)

  /** A user action: a new selection in one dropdown, or a click on the button. */
  datatype Change = SelectBarPieGender(gender: string) | SelectLineScatterGender(gender: string) | ClickMoreInsights

  function Source(c: Change): Control
  {
    match c
    case SelectBarPieGender(_) => BarPieGender
    case SelectLineScatterGender(_) => LineScatterGender
    case ClickMoreInsights => MoreInsightsButton
  }

  /** `a` and `b` hold the same value for every control in `cs`. */
  predicate Agree(a: Controls, b: Controls, cs: set<Control>)
  {
    && (BarPieGender in cs ==> a.barPieGender == b.barPieGender)
    && (LineScatterGender in cs ==> a.lineScatterGender == b.lineScatterGender)
    && (MoreInsightsButton in cs ==> a.nClicks == b.nClicks)
  }

  /** The control values after a user action: only the acted-on control changes; a click adds one. */
  function Apply(ctl: Controls, c: Change): (r: Controls)
    ensures Agree(r, ctl, {BarPieGender, LineScatterGender, MoreInsightsButton} - {Source(c)})
    ensures c.SelectBarPieGender? ==> r.barPieGender == c.gender
    ensures c.SelectLineScatterGender? ==> r.lineScatterGender == c.gender
    ensures c.ClickMoreInsights? ==> r.nClicks == ctl.nClicks + 1
  {
    match c
    case SelectBarPieGender(g) => ctl.(barPieGender := g)
    case SelectLineScatterGender(g) => ctl.(lineScatterGender := g)
    case ClickMoreInsights => ctl.(nClicks := ctl.nClicks + 1)
  }

  /** The value held by one output. */
  datatype Output = Chart(figure: Figure) | Insight(insight: PageInsight) | Extra(text: MoreInsightsText)

  /**
   * What the callback that writes `v` produces for `v` when it runs with
   * control values `ctl`: a figure of the kind and the rows of the gender
   * selected in its own dropdown, the insight text for the line-scatter
   * selection, or the extra insights, empty exactly while the button has
   * not been clicked.
   */
  function Render(df: seq<Customer>, v: View, ctl: Controls): (o: Output)
    ensures v == BarChart ==> o.Chart? && o.figure.plot == Bar
    ensures v == PieChart ==> o.Chart? && o.figure.plot == Pie
    ensures v == LineChart ==> o.Chart? && o.figure.plot == Line
    ensures v == ScatterChart ==> o.Chart? && o.figure.plot == Scatter
    ensures v in {BarChart, PieChart} ==>
      o.figure.gender == ctl.barPieGender && IsSelection(o.figure.data, df, ctl.barPieGender)
    ensures v in {LineChart, ScatterChart} ==>
      o.figure.gender == ctl.lineScatterGender && IsSelection(o.figure.data, df, ctl.lineScatterGender)
    ensures v == Page2Insight ==> o.Insight? && o.insight.gender == ctl.lineScatterGender
    ensures v == MoreInsightsOutput ==> o.Extra? && (o.text == NoText <==> ctl.nClicks == 0)
  {
    match v
    case BarChart => Chart(UpdateBarPie(df, ctl.barPieGender).0)
    case PieChart => Chart(UpdateBarPie(df, ctl.barPieGender).1)
    case LineChart => Chart(UpdateLineScatter(df, ctl.lineScatterGender).0)
    case ScatterChart => Chart(UpdateLineScatter(df, ctl.lineScatterGender).1)
    case Page2Insight => Insight(UpdateLineScatter(df, ctl.lineScatterGender).2)
    case MoreInsightsOutput => Extra(MoreInsights(df, ctl.nClicks, ctl.lineScatterGender))
  }

  /** Every callback reads nothing but its declared `Input`s and `State`s. */
  lemma RenderReadsDeclaredControls(df: seq<Customer>, v: View, a: Controls, b: Controls)
    requires Agree(a, b, Inputs(v) + States(v))
    ensures Render(df, v, a) == Render(df, v, b)
  {
  }

  /** The outputs a change of control `c` recomputes: those whose callback lists `c` as an `Input`. */
  function Affected(c: Control): set<View>
  {
    set v | v in AllViews && c in Inputs(v)
  }

  /**
   * The bar-pie dropdown recomputes the two bar-pie figures; the line-scatter
   * dropdown recomputes the line and scatter figures and the insight text but
   * not the extra insights, which read it only as a `State`; the button
   * recomputes only the extra insights.
   */
  lemma AffectedViews()
    ensures Affected(BarPieGender) == {BarChart, PieChart}
    ensures Affected(LineScatterGender) == {LineChart, ScatterChart, Page2Insight}
    ensures Affected(MoreInsightsButton) == {MoreInsightsOutput}
    ensures MoreInsightsOutput !in Affected(LineScatterGender) && LineScatterGender in States(MoreInsightsOutput)
  {
  }

  /** `callbacks` are the callbacks of `Render` on table `df`. */
  ghost predicate Registered(df: seq<Customer>, callbacks: (View, Controls) -> Output)
  {
    forall v, ctl :: callbacks(v, ctl) == Render(df, v, ctl)
  }

  /**
   * Every output is what its callback produced when it last ran, and since
   * then none of that callback's `Input`s has changed; its `State`s may
   * have.
   */
  ghost predicate Consistent(callbacks: (View, Controls) -> Output, controls: Controls,
                             outputs: map<View, Output>, lastRun: map<View, Controls>)
  {
    && outputs.Keys == AllViews
    && lastRun.Keys == AllViews
    && forall v :: v in AllViews ==>
         outputs[v] == callbacks(v, lastRun[v]) && Agree(lastRun[v], controls, Inputs(v))
  }

  /**
   * Rerunning exactly the callbacks that list the changed control as an
   * `Input`, with the new control values, keeps the outputs consistent.
   */
  lemma RerunKeepsConsistent(callbacks: (View, Controls) -> Output, ctl: Controls,
                             outputs: map<View, Output>, lastRun: map<View, Controls>, c: Change)
    requires Consistent(callbacks, ctl, outputs, lastRun)
    ensures Consistent(callbacks, Apply(ctl, c),
      map v | v in AllViews :: if Source(c) in Inputs(v) then callbacks(v, Apply(ctl, c)) else outputs[v],
      map v | v in AllViews :: if Source(c) in Inputs(v) then Apply(ctl, c) else lastRun[v])
  {
    var ctl' := Apply(ctl, c);
    var outputs' := map v | v in AllViews :: if Source(c) in Inputs(v) then callbacks(v, ctl') else outputs[v];
    var lastRun' := map v | v in AllViews :: if Source(c) in Inputs(v) then ctl' else lastRun[v];
    forall v | v in AllViews
      ensures outputs'[v] == callbacks(v, lastRun'[v]) && Agree(lastRun'[v], ctl', Inputs(v))
    {
      if Source(c) !in Inputs(v) {
        assert Agree(ctl', ctl, Inputs(v));
      }
    }
  }

  /**
   * The running dashboard: the cleaned table, the registered callbacks, the
   * current control values and the last value of every output.
   */
  class Dashboard {
    const df: seq<Customer>
    /** The registered callbacks: what the callback writing each output returns for given control values. */
    const callbacks: (View, Controls) -> Output
    var controls: Controls
    var outputs: map<View, Output>
    /** For each output, the control values its callback last ran with. */
    ghost var lastRun: map<View, Controls>

    ghost predicate Valid()
      reads this
    {
      Consistent(callbacks, controls, outputs, lastRun)
    }

    /** The initial call: every callback runs once with the initial control values. */
    constructor (df: seq<Customer>)
      ensures Valid() && Registered(df, callbacks)
      ensures this.df == df && controls == InitialControls
      ensures forall v :: v in AllViews ==> outputs[v] == Render(df, v, InitialControls)
    {
      this.df := df;
      callbacks := (v: View, ctl: Controls) => Render(df, v, ctl);
      controls := InitialControls;
      outputs := map v | v in AllViews :: Render(df, v, InitialControls);
      lastRun := map v | v in AllViews :: InitialControls;
    }

    /**
     * A user action: the control takes its new value, the callbacks that
     * declare it as an `Input` run with the new control values, and every
     * other output keeps its last value.
     */
    method OnInputChange(c: Change)
      requires Valid()
      modifies this
      ensures Valid()
      ensures controls == Apply(old(controls), c)
      ensures outputs.Keys == AllViews
      ensures forall v :: v in AllViews ==>
        outputs[v] == if v in Affected(Source(c)) then callbacks(v, controls) else old(outputs[v])
    {
      RerunKeepsConsistent(callbacks, controls, outputs, lastRun, c);
      controls := Apply(controls, c);
      var source := Source(c);
      outputs := map v | v in AllViews :: if source in Inputs(v) then callbacks(v, controls) else outputs[v];
      lastRun := map v | v in AllViews :: if source in Inputs(v) then controls else lastRun[v];
    }

    /**
     * Every output is what its callback returns for the current control
     * values: the `Input`s agree by `Valid`, and a `State` that changed since
     * the last run is not read by any callback except the extra insights.
     */
    lemma ShowsCurrentInputs(v: View)
      requires Valid() && Registered(df, callbacks) && v in AllViews && v != MoreInsightsOutput
      ensures outputs[v] == Render(df, v, controls)
    {
    }

    /** Once the button has been clicked, the extra insights are never the empty text. */
    lemma ClickedShowsInsights()
      requires Valid() && Registered(df, callbacks) && controls.nClicks > 0
      ensures outputs[MoreInsightsOutput].Extra? && outputs[MoreInsightsOutput].text.AdditionalInsights?
    {
    }
  }

  /**
   * A new line-scatter selection followed by a click. After the selection
   * alone (`between`) the extra insights are as they were, since their
   * callback reads the selection only as a `State`; the click then computes
   * them for the new selection.
   */
  method SelectThenClick(d: Dashboard, g: string) returns (between: Output)
    requires d.Valid() && Registered(d.df, d.callbacks)
    modifies d
    ensures between == old(d.outputs[MoreInsightsOutput])
    ensures d.Valid()
    ensures d.controls == old(d.controls).(lineScatterGender := g, nClicks := old(d.controls.nClicks) + 1)
    ensures d.outputs[MoreInsightsOutput] == Extra(MoreInsights(d.df, d.controls.nClicks, g))
  {
    AffectedViews();
    ghost var start := d.controls;
    d.OnInputChange(SelectLineScatterGender(g));
    assert d.controls == start.(lineScatterGender := g);
    between := d.outputs[MoreInsightsOutput];
    d.OnInputChange(ClickMoreInsights);
    assert d.controls == start.(lineScatterGender := g, nClicks := start.nClicks + 1);
    assert d.outputs[MoreInsightsOutput] == d.callbacks(MoreInsightsOutput, d.controls);
  }
}

# Telco customer dashboard: the data pipeline and the callback wiring

`telecom_comcast_complaints.py` is a Dash web application. It loads a table
of telecom customers from a CSV file and cleans it once at start-up: it
strips whitespace from the column names, coerces the TotalCharges column to
numbers, and drops the rows whose TotalCharges cannot be read. It then serves
three tabs of charts.

Three callbacks depend on a gender selection:

- **Bar & pie.** A bar chart and a pie chart of the customers of the gender
  chosen in the `bar_pie_gender` dropdown.
- **Line & scatter.** A line chart, a scatter chart and a text with the
  average monthly and total charges of the gender chosen in the
  `line_scatter_gender` dropdown.
- **More insights.** Once the "More Insights" button has been clicked, a text
  with the churn rate and the largest monthly and total charges for that
  same gender. This callback reads the line-scatter dropdown as a `State`,
  so changing the dropdown alone does not refresh the text; the next click
  does.

Both dropdowns offer the distinct genders of the table, in order of first
appearance. Both start at "Male".

The model follows the code's structure, one module per concern:

| module | contents |
|---|---|
| `Records` | The rows, keeping only the columns the dashboard reads. TotalCharges is a raw cell (number, text or NaN) before cleaning and a number after. |
| `Cleaning` | Python's `str.strip` and the header strip, `to_numeric(errors='coerce')` and `dropna`. The script's module-level `df` is a `DataFrame` class whose methods perform lines 12, 15 and 16 in place. |
| `Filtering` | The boolean-mask gender filter, pandas `unique()`, and the dropdown options. |
| `Aggregates` | Mean, maximum and churn rate. NaN on an empty subset is `None`. |
| `Callbacks` | The three callbacks as functions of the cleaned table, plus a worked three-row example. |
| `Wiring` | The `Input`/`State` declarations and a `Dashboard` class. The class keeps the control values and the last value of every output, and reruns only the callbacks that list a changed control as an `Input`. |

## Model

| member | source | states |
|---|---|---|
| Cleaning.Strip | telecom_comcast_complaints.py:12 | The stripped name neither starts nor ends with whitespace (Python's `isspace` set). It is an infix of the original, and everything removed on either side is whitespace. |
| Cleaning.StripIsDetermined | telecom_comcast_complaints.py:12 | Those properties characterise `strip` completely: any whitespace-framed infix without surrounding whitespace is the strip result. |
| Cleaning.StripIdempotent | telecom_comcast_complaints.py:12 | Stripping twice is stripping once. |
| Cleaning.StripColumns | telecom_comcast_complaints.py:12 | The header keeps its length and order, and each name is replaced in its place by its stripped form. |
| Cleaning.StripColumnsProperties | telecom_comcast_complaints.py:12 | After the header strip no name keeps surrounding whitespace, and stripping again changes nothing. |
| Cleaning.ToNumeric | telecom_comcast_complaints.py:15 | After coercion no cell is text. Numbers stay as they are, NaN stays NaN, and text becomes a number exactly when it parses; otherwise it becomes NaN. A text that parses becomes exactly the parsed number. |
| Cleaning.CoerceTotals | telecom_comcast_complaints.py:15 | The column assignment keeps every row in place and changes only TotalCharges, which becomes the coerced value of the old cell. |
| Cleaning.DropMissingTotals | telecom_comcast_complaints.py:16 | `dropna` never adds rows, and keeps only rows of the table whose TotalCharges is not NaN. |
| Cleaning.CleanRows | telecom_comcast_complaints.py:15-16 | Coercion followed by `dropna` never adds rows, and every kept TotalCharges is a number. |
| Cleaning.CleanRowsKeepsParsed | telecom_comcast_complaints.py:15-16 | The kept rows are the coerced rows in their original order, and the kept count equals the rows minus those whose TotalCharges does not parse. |
| Cleaning.DataFrame.constructor | telecom_comcast_complaints.py:9 | The frame holds the header and rows it was read with. |
| Cleaning.DataFrame.StripColumnNames | telecom_comcast_complaints.py:12 | Only the header changes: it becomes the stripped header. |
| Cleaning.DataFrame.CoerceTotalCharges | telecom_comcast_complaints.py:15 | The lookup succeeds exactly when one column is named TotalCharges: none raises a KeyError, several give a frame that `to_numeric` refuses. On success only that column is coerced; on failure nothing changes. |
| Cleaning.DataFrame.DropMissingTotalCharges | telecom_comcast_complaints.py:16 | The rows become those with a non-NaN TotalCharges; the header is unchanged. |
| Cleaning.DataFrame.Clean | telecom_comcast_complaints.py:12-16 | The three steps in order. The header is stripped. The cleaning succeeds exactly when the stripped header names TotalCharges once, and then every remaining TotalCharges is a number. |
| Cleaning.LoadBaseTable | telecom_comcast_complaints.py:9-16 | A table is produced exactly when the TotalCharges lookup succeeds. It has one row per parsable row, and each row is the cleaned row with its TotalCharges as a number. |
| Filtering.SelectGender | telecom_comcast_complaints.py:122 | The filter never adds rows; each kept row is a row of the table with the selected gender. |
| Filtering.SelectGenderCounts | telecom_comcast_complaints.py:122 | Each row of the selected gender is kept as often as it occurs in the table, and every other row is dropped. |
| Filtering.SelectGenderMembers | telecom_comcast_complaints.py:138 | A row is selected if and only if it is in the table and has the selected gender. |
| Filtering.SelectGenderIsSubsequence | telecom_comcast_complaints.py:138 | The selected rows keep their table order. |
| Filtering.SelectGenderEmpty | telecom_comcast_complaints.py:161 | The selection is empty exactly when no row has that gender; such a value is not an error. |
| Filtering.SelectGenderIdempotent | telecom_comcast_complaints.py:161 | Filtering a filtered subset by the same gender changes nothing. |
| Filtering.Unique | telecom_comcast_complaints.py:57 | `unique()` holds exactly the values of the column, each once. |
| Filtering.UniqueInFirstAppearanceOrder | telecom_comcast_complaints.py:57 | `unique()` lists the values in order of first appearance. |
| Filtering.DefaultGender | telecom_comcast_complaints.py:58 | Both dropdowns start at the literal "Male" (also line 74). |
| Filtering.GenderOptions | telecom_comcast_complaints.py:73 | Every option's label equals its value. |
| Filtering.GenderOptionsAreDistinctGenders | telecom_comcast_complaints.py:73 | Every gender in the table is offered, only genders in the table are offered, none twice, and in order of first appearance. |
| Records.MonthlyColumnMembers | telecom_comcast_complaints.py:147 | `dff["MonthlyCharges"]` holds a value exactly when some row of `dff` carries it. |
| Records.TotalColumnMembers | telecom_comcast_complaints.py:148 | `dff["TotalCharges"]` holds a value exactly when some row of `dff` carries it. |
| Aggregates.Mean | telecom_comcast_complaints.py:147 | `mean()` is NaN exactly on an empty column; otherwise the mean times the count is the sum. |
| Aggregates.MeanBetweenExtremes | telecom_comcast_complaints.py:147-148 | The mean of a non-empty column lies between its least and greatest value. |
| Aggregates.Max | telecom_comcast_complaints.py:163 | `max()` is NaN exactly on an empty column; otherwise it is a value of the column and no value exceeds it. |
| Aggregates.CountYes | telecom_comcast_complaints.py:162 | The "Yes" count never exceeds the count of non-NaN Churn values. |
| Aggregates.ChurnRate | telecom_comcast_complaints.py:162 | The rate is a percentage in [0, 100]. It is 0 when no row says "Yes", including the empty subset. Otherwise the rate times the non-NaN Churn count is 100 times the "Yes" count. |
| Aggregates.ChurnRateFull | telecom_comcast_complaints.py:162 | The rate is 100 exactly when there are Churn values and all of them are "Yes". |
| Callbacks.UpdateBarPie | telecom_comcast_complaints.py:121-128 | One bar and one pie figure, both titled with the selection and both drawn from the same rows. Those rows are exactly the selected gender's rows, with multiplicity, in table order. |
| Callbacks.UpdateLineScatter | telecom_comcast_complaints.py:137-150 | A line figure, a scatter figure and the insight text, drawn from the rows of the selected gender. Each average is NaN exactly when no row has that gender. |
| Callbacks.MoreInsights | telecom_comcast_complaints.py:158-165 | Empty text exactly while the button has not been clicked. After a click: a churn rate in [0, 100], and maxima that are NaN exactly when no row has the gender. |
| Callbacks.PageInsightWithinSelection | telecom_comcast_complaints.py:147-148 | Each average shown lies between the smallest and largest charge of a customer of the selected gender. |
| Callbacks.PageInsightAverages | telecom_comcast_complaints.py:147-148 | The averages shown are the means of the monthly and total charges of exactly the selected rows, so each average times the number of selected rows is the sum of their charges. |
| Callbacks.MoreInsightsChurnRate | telecom_comcast_complaints.py:161-162 | After a click, the churn rate shown is the churn rate of exactly the selected rows: 0 when none says "Yes". |
| Callbacks.MoreInsightsMaxMonthly | telecom_comcast_complaints.py:163 | After a click, the maximum monthly charge is that of a customer of the selected gender, and no such customer has a larger one. |
| Callbacks.MoreInsightsMaxTotal | telecom_comcast_complaints.py:164 | After a click, the maximum total charge is that of a customer of the selected gender, and no such customer has a larger one. |
| Callbacks.SampleTableSelections | telecom_comcast_complaints.py:122 | On the three-row example, "Male" keeps the first two rows, "Female" the last one, and "Unknown" none. |
| Callbacks.SampleTableMaleRows | telecom_comcast_complaints.py:161-164 | Example, "Male": monthly charges [50, 70], total charges [500, 1400], churn rate 50%. |
| Callbacks.SampleTableMalePage | telecom_comcast_complaints.py:147-149 | Example, "Male": averages 60 and 950. |
| Callbacks.SampleTableMaleMore | telecom_comcast_complaints.py:158-165 | Example, "Male": after a click, rate 50% and maxima 70 and 1400; before any click, no text. |
| Callbacks.SampleTableFemaleRows | telecom_comcast_complaints.py:161-164 | Example, "Female": monthly [30], total [150], churn rate 0%. |
| Callbacks.SampleTableFemalePage | telecom_comcast_complaints.py:147-149 | Example, "Female": averages 30 and 150. |
| Callbacks.SampleTableFemaleMore | telecom_comcast_complaints.py:158-165 | Example, "Female": rate 0% and maxima 30 and 150. |
| Callbacks.SampleTableUnknown | telecom_comcast_complaints.py:137-165 | Example, a gender not in the table: NaN averages and maxima, churn rate 0, and no failure. |
| Wiring.Inputs | telecom_comcast_complaints.py:116-157 | Each callback is triggered by exactly one `Input` (lines 119, 135, 155). |
| Wiring.States | telecom_comcast_complaints.py:156 | Only the extra-insights callback has a `State`, and its only `State` is the line-scatter dropdown. |
| Wiring.InitialControls | telecom_comcast_complaints.py:58-88 | The starting control values: both dropdowns at "Male" (lines 58, 74) and the button at 0 clicks (line 88). |
| Wiring.Render | telecom_comcast_complaints.py:116-165 | Each output gets the right kind: bar, pie, line and scatter figures, the insight text, or the extra insights. Each figure is titled with and drawn from exactly the rows of the gender chosen in its own dropdown. The insight text is for the line-scatter selection. The extra insights are empty exactly while the button has 0 clicks. |
| Wiring.Apply | telecom_comcast_complaints.py:88 | A user action changes only the control acted on: a dropdown takes the chosen value, and a click adds one to `n_clicks`. |
| Wiring.RenderReadsDeclaredControls | telecom_comcast_complaints.py:116-157 | Each callback's result depends only on the controls it declares as `Input` or `State`. |
| Wiring.AffectedViews | telecom_comcast_complaints.py:116-157 | The bar-pie dropdown triggers the two bar-pie figures. The line-scatter dropdown triggers the line and scatter figures and the insight text, but not the extra insights, which read it only as a `State`. The button triggers only the extra insights. |
| Wiring.RerunKeepsConsistent | telecom_comcast_complaints.py:116-157 | Rerunning exactly the callbacks that list the changed control as an `Input` keeps every output equal to its callback's result for the controls it last ran with, and those controls agree with the current `Input` values. |
| Wiring.Dashboard.constructor | telecom_comcast_complaints.py:58-88 | Initial call: the dropdowns start at "Male" and the button at 0 clicks. Every output is its callback's result on those values, and the dashboard invariant holds. |
| Wiring.Dashboard.OnInputChange | telecom_comcast_complaints.py:116-157 | The acted-on control changes. The callbacks that list it as an `Input` rerun with the new values, every other output keeps its last value, and the invariant is preserved. |
| Wiring.Dashboard.ShowsCurrentInputs | telecom_comcast_complaints.py:116-150 | The figures and the insight text always show the current dropdown selections. |
| Wiring.Dashboard.ClickedShowsInsights | telecom_comcast_complaints.py:158-165 | While `n_clicks > 0`, the extra insights are never the empty text. |
| Wiring.SelectThenClick | telecom_comcast_complaints.py:153-157 | A new line-scatter selection alone leaves the extra insights as they were. The next click computes them for the new selection with the click count raised by one. |

## Left out

- Reading the CSV file (line 9) is not modelled: the cleaning starts from an already read header and rows.
- How `pd.to_numeric` reads a string as a number is not modelled: it is the `parse` parameter.
- Only the columns the dashboard reads are kept (gender, tenure, MonthlyCharges, TotalCharges, Churn, InternetService, Contract, PaymentMethod).
- NaN in columns other than TotalCharges and Churn is not modelled: gender and MonthlyCharges are assumed present.
- Figures are modelled by their kind, title selection and input rows. How plotly draws, groups or sums those rows (`px.bar`, `px.pie`, `px.line`, `px.scatter`) is not modelled.
- The layout, the tabs and `render_tab_content` (lines 26-112) are not modelled. This includes the unfiltered heatmap (lines 102-110), the static texts, and a tab switch. A tab switch rebuilds the dropdowns at "Male" and recreates `more_insights_btn` with `n_clicks=0` (line 88); Dash then reruns `more_insights`, which shows the empty text again (lines 159-160).
- The Dashboard starts from the line-scatter tab's components as if all were mounted at once. It has no `suppress_callback_exceptions` behaviour.
- Dash's server, sessions, request handling and concurrency are not modelled (lines 20-22, 169-170). Callbacks run one at a time, in the order of the user actions.
- Wiring.Dashboard.ClickedShowsInsights: holds while `n_clicks > 0`, that is, only as long as no tab switch has reset the button to 0 clicks. The model has no tab switch.
- Cleaning.ToNumeric: `pd.to_numeric` also accepts strings such as "inf", giving ±infinity; the model has no infinite values, and what parses is left to the `parse` parameter.
- Callbacks.UpdateLineScatter: the averages are exact; `round(..., 2)` and the f-string formatting (lines 147-149) are not modelled.
- Callbacks.MoreInsights: the churn rate and maxima are exact; `round(..., 2)` and the text formatting (lines 162-165) are not modelled.
- Aggregates.Mean: real arithmetic is exact; floating-point summation error is not modelled.
- Wiring.Dashboard.OnInputChange: the dashboard calls each output's callback once per output. Dash calls a multi-output callback once for all its outputs, which is the same here because the callbacks are pure.
- Behaviour taken from the code as written:
  - the dropdowns have no "All" entry;
  - their starting value is the literal "Male", whatever the data holds;
  - an empty selection yields NaN, not 0, for the averages and maxima;
  - outputs have no stale/computing/fresh status beyond the last value shown.

/**
 The "What This Code Does" text shown after a successful run. It is composed from the snippet's
 source text alone: a fixed opening that quotes the stage's task, at most one paragraph about the
 operation recognised by the first matching substring rule, and a closing note when the snippet
 displays a plot.
 */
module Explanation {
  import opened Wrappers
  import opened Text
  import Catalog

  /** The operations the composer can recognise, one per rule. */
  datatype Operation =
    | DescriptiveStatistics | DroppingMissingValues | ColumnSelection | RowFiltering
    | ValueCounts | LinePlot | ScatterPlot | BarChart | Histogram | Grouping | Sorting
    | AddingColumn | RenamingColumns

  /** The substring test of each rule. */
  predicate Matches(op: Operation, code: string) {
    match op
    case DescriptiveStatistics => Contains(code, "df.describe()")
    case DroppingMissingValues => Contains(code, "df.dropna()")
    case ColumnSelection => Contains(code, "df[[") && Contains(code, "]]")
    case RowFiltering => Contains(code, "df[df[")
    case ValueCounts => Contains(code, "df['") && Contains(code, ".value_counts()")
    case LinePlot => Contains(code, "plt.plot(")
    case ScatterPlot => Contains(code, "plt.scatter(")
    case BarChart => Contains(code, ".plot(kind='bar')")
    case Histogram => Contains(code, "plt.hist(")
    case Grouping => Contains(code, "df.groupby(")
    case Sorting => Contains(code, "df.sort_values(")
    case AddingColumn => Contains(code, "df['") && Contains(code, "=") && !Contains(code, ".value_counts()")
    case RenamingColumns => Contains(code, "df.rename(")
  }

  /** The order in which the rules are tried; the first one that matches wins. */
  const Rules: seq<Operation> := [
    DescriptiveStatistics, DroppingMissingValues, ColumnSelection, RowFiltering, ValueCounts,
    LinePlot, ScatterPlot, BarChart, Histogram, Grouping, Sorting, AddingColumn, RenamingColumns
  ]

  /** The paragraph each rule contributes. */
  function Fragment(op: Operation): string {
    match op
    case DescriptiveStatistics =>
      "- **Descriptive Statistics**: You used `df.describe()` to compute summary statistics for numeric columns in the DataFrame. This includes:\n  - **count**: Number of non-null entries.\n  - **mean**: Average value.\n  - **std**: Standard deviation (spread of data).\n  - **min**: Minimum value.\n  - **25%**: 25th percentile (value below which 25% of the data falls).\n  - **50%**: Median (middle value, 50th percentile).\n  - **75%**: 75th percentile (value below which 75% of the data falls).\n  - **max**: Maximum value."
    case DroppingMissingValues =>
      "- **Dropping Missing Values**: You used `df.dropna()` to remove rows containing any missing (NaN) values from the DataFrame. This creates a new DataFrame (`df_cleaned`) with only complete rows, ensuring no gaps in the data for further analysis."
    case ColumnSelection =>
      "- **Column Selection**: You selected specific columns from the DataFrame using `df[['col1', 'col2']]`. This extracts only the named columns, creating a new DataFrame with just those subsets of the original data."
    case RowFiltering =>
      "- **Row Filtering**: You filtered rows based on a condition (e.g., `df[df['col'] > value]`). This keeps only the rows where the condition is true, reducing the DataFrame to a subset that meets your criteria."
    case ValueCounts =>
      "- **Value Counts**: You used `.value_counts()` on a column (e.g., `df['col'].value_counts()`) to count the frequency of each unique value in that column. This is useful for understanding the distribution of categorical data."
    case LinePlot =>
      "- **Line Plot**: You created a line plot with `plt.plot()`. This connects data points in a numeric column with a continuous line, showing trends or patterns over the data\U{2019}s index."
    case ScatterPlot =>
      "- **Scatter Plot**: You created a scatter plot with `plt.scatter()`. This plots individual points for two numeric columns, showing their relationship without connecting them."
    case BarChart =>
      "- **Bar Chart**: You created a bar chart with `.plot(kind='bar')`. This displays categorical data as bars, where the height represents the count or value of each category."
    case Histogram =>
      "- **Histogram**: You created a histogram with `plt.hist()`. This shows the distribution of a numeric column by grouping values into bins (e.g., `bins=10`), with bar heights indicating frequency."
    case Grouping =>
      "- **Grouping and Aggregation**: You used `df.groupby()` to group the DataFrame by a categorical column and applied an aggregation (e.g., `.mean()`) to summarize a numeric column for each group."
    case Sorting =>
      "- **Sorting**: You sorted the DataFrame with `df.sort_values(by='col')`, ordering rows based on the values in the specified column, either ascending or descending."
    case AddingColumn =>
      "- **Adding a Column**: You added a new column to the DataFrame (e.g., `df['new_col'] = ...`). This creates or modifies a column based on an operation, such as adding two existing columns or applying a calculation."
    case RenamingColumns =>
      "- **Renaming Columns**: You used `df.rename(columns={'old': 'new'})` to change the name of one or more columns in the DataFrame, making it more readable or consistent."
  }

  /** The first rule of `rules` whose test holds of `code`, if any. */
  function FirstMatch(rules: seq<Operation>, code: string): (r: Option<Operation>)
    ensures r.Some? ==> r.value in rules && Matches(r.value, code)
    ensures r.None? <==> forall i :: 0 <= i < |rules| ==> !Matches(rules[i], code)
  {
    if rules == [] then None
    else if Matches(rules[0], code) then Some(rules[0])
    else FirstMatch(rules[1..], code)
  }

  /** The operation the explanation describes. */
  function ChosenOperation(code: string): Option<Operation> {
    FirstMatch(Rules, code)
  }

  /** The opening, which quotes the task of the current stage. */
  function Opening(task: string): string {
    "This code executed the task: \"" + task + "\"\n\nHere\U{2019}s what it did:\n"
  }

  const PlotCall: string := "st.pyplot(plt)"

  const PlotNote: string :=
    "\n- **Displaying the Plot**: You used `st.pyplot(plt)` to render the Matplotlib plot in the Streamlit app."

  function OperationText(code: string): string {
    match ChosenOperation(code)
    case None => ""
    case Some(op) => Fragment(op)
  }

  function PlotText(code: string): string {
    if Contains(code, PlotCall) then PlotNote else ""
  }

  /** The explanation shown for `code` run on the stage whose task is `task`. */
  function Explain(code: string, task: string): string {
    Opening(task) + OperationText(code) + PlotText(code)
  }

  // ---------------------------------------------------------------- properties

  predicate DistinctRules(rules: seq<Operation>) {
    forall i, j :: 0 <= i < j < |rules| ==> rules[i] != rules[j]
  }

  /** Every operation has exactly one rule. */
  lemma RulesCoverEachOperationOnce()
    ensures |Rules| == 13
    ensures DistinctRules(Rules)
    ensures forall op: Operation :: op in Rules
  {
    forall op: Operation ensures op in Rules {
      match op
      case DescriptiveStatistics => assert Rules[0] == op;
      case DroppingMissingValues => assert Rules[1] == op;
      case ColumnSelection => assert Rules[2] == op;
      case RowFiltering => assert Rules[3] == op;
      case ValueCounts => assert Rules[4] == op;
      case LinePlot => assert Rules[5] == op;
      case ScatterPlot => assert Rules[6] == op;
      case BarChart => assert Rules[7] == op;
      case Histogram => assert Rules[8] == op;
      case Grouping => assert Rules[9] == op;
      case Sorting => assert Rules[10] == op;
      case AddingColumn => assert Rules[11] == op;
      case RenamingColumns => assert Rules[12] == op;
    }
  }

  /** With distinct rules, FirstMatch chooses rule i exactly when rule i matches and no earlier
      rule does. */
  lemma {:induction false} FirstMatchIsFirst(rules: seq<Operation>, code: string, i: nat)
    requires DistinctRules(rules) && i < |rules|
    ensures FirstMatch(rules, code) == Some(rules[i])
        <==> Matches(rules[i], code) && forall j :: 0 <= j < i ==> !Matches(rules[j], code)
    decreases i
  {
    if i > 0 && !Matches(rules[0], code) {
      FirstMatchIsFirst(rules[1..], code, i - 1);
      assert forall j :: 0 < j <= i ==> rules[1..][j - 1] == rules[j];
    }
  }

  /** An earlier rule that matches always shadows a later one. */
  lemma Precedence(code: string, i: nat, j: nat)
    requires i < j < |Rules| && Matches(Rules[i], code)
    ensures ChosenOperation(code) != Some(Rules[j])
  {
    RulesCoverEachOperationOnce();
    FirstMatchIsFirst(Rules, code, j);
  }

  /** `df.describe()` wins over every other rule, plotting calls included. */
  lemma DescribeWinsOverEverything(code: string)
    requires Contains(code, "df.describe()")
    ensures ChosenOperation(code) == Some(DescriptiveStatistics)
  {
  }

  /** Column selection `df[[...]]` is tried before row filtering `df[df[`. */
  lemma ColumnSelectionBeforeRowFiltering(code: string)
    requires Contains(code, "df[[") && Contains(code, "]]")
    ensures ChosenOperation(code) != Some(RowFiltering)
  {
    Precedence(code, 2, 3);
  }

  /** The "Adding a Column" rule never fires on a snippet that indexes a column and calls
      `.value_counts()`: its own test excludes it, and the value-counts rule comes first. */
  lemma AddingColumnNeverWithValueCounts(code: string)
    requires Contains(code, "df['") && Contains(code, ".value_counts()")
    ensures !Matches(AddingColumn, code)
    ensures ChosenOperation(code) != Some(AddingColumn)
  {
  }

  /** The value-counts rule is tried before the bar-chart rule, so a snippet that plots value
      counts as bars never gets the bar-chart paragraph. */
  lemma ValueCountsShadowsBarChart(code: string)
    requires Contains(code, "df['") && Contains(code, ".value_counts()")
    ensures ChosenOperation(code) != Some(BarChart)
  {
    Precedence(code, 4, 7);
  }

  /** A snippet that indexes a column and calls `.value_counts()` on it is never explained as a
      bar chart, whatever surrounds that call. */
  lemma ValueCountsPlotNotBarChart(head: string, column: string, tail: string)
    ensures ChosenOperation(head + "df['" + column + ".value_counts()" + tail) != Some(BarChart)
  {
    var code := head + "df['" + column + ".value_counts()" + tail;
    assert code == head + "df['" + (column + ".value_counts()" + tail);
    ContainsInMiddle(head, "df['", column + ".value_counts()" + tail);
    assert code == (head + "df['" + column) + ".value_counts()" + tail;
    ContainsInMiddle(head + "df['" + column, ".value_counts()", tail);
    ValueCountsShadowsBarChart(code);
  }

  /** The Bar Chart stage's own example never gets the bar-chart paragraph. */
  lemma BarChartExampleNotExplainedAsBarChart()
    ensures Catalog.Stages[9].name == "Bar Chart"
    ensures ChosenOperation(Catalog.Stages[9].example) != Some(BarChart)
  {
    Catalog.BarChartStage();
    ValueCountsPlotNotBarChart(Catalog.BarChartSetup, "col']", Catalog.BarChartFinish);
  }

  /** When rule i is the first that matches, the explanation is the opening, then rule i's
      paragraph, then the plot note exactly when the snippet calls `st.pyplot(plt)`. */
  lemma ExplainFirstMatchingRule(code: string, task: string, i: nat)
    requires i < |Rules| && Matches(Rules[i], code)
    requires forall j :: 0 <= j < i ==> !Matches(Rules[j], code)
    ensures Explain(code, task) == Opening(task) + Fragment(Rules[i])
                                   + (if Contains(code, PlotCall) then PlotNote else "")
  {
    RulesCoverEachOperationOnce();
    FirstMatchIsFirst(Rules, code, i);
  }

  /** When no rule matches, the explanation is the opening followed only by the plot note, if any. */
  lemma ExplainNoMatchingRule(code: string, task: string)
    requires forall j :: 0 <= j < |Rules| ==> !Matches(Rules[j], code)
    ensures Explain(code, task) == Opening(task) + (if Contains(code, PlotCall) then PlotNote else "")
  {
  }

  /** The explanation starts with the opening and so always quotes the task. */
  lemma ExplainQuotesTask(code: string, task: string)
    ensures Opening(task) <= Explain(code, task)
    ensures Contains(Explain(code, task), task)
  {
    ContainsInMiddle("This code executed the task: \"", task, "\"\n\nHere\U{2019}s what it did:\n");
    ContainsAppend(Opening(task), task, OperationText(code));
    ContainsAppend(Opening(task) + OperationText(code), task, PlotText(code));
  }
}

# Pandas and Matplotlib tutorial app: the logic inside the script

The modelled program is a single Streamlit script. A user uploads a CSV file, picks a stage of
a fixed fifteen-stage Pandas curriculum, types a snippet into an editor, and clicks "Run Code".
The app then shows the snippet's printed output (as a table when it looks like one), any plot,
and a canned explanation of what the snippet did. A "Mark as Complete" button records the stage
in the session's progress list, and the sidebar ticks the completed stages.

This project models the deterministic logic embedded in that script:

- `Catalog` holds the stage catalog with its texts verbatim, the dropdown's list of names, and
  the lookup of a stage by name.
- `Progress` holds the session's progress list as a class whose one mutating method appends a
  name only when it is absent. It also holds the sidebar's status lines.
- `Runner` holds the blank-code guard, the "looks like a table" heuristic on captured output,
  and the loop that picks the first data frame or series among the second run's bindings. It
  also holds the whole "Run Code" click. The unseen evaluator is passed in as two functions:
  `exec` gives the first run's captured output or its failure, and `rerun` gives the second
  run's bindings in insertion order or its failure.
- `Explanation` holds the explanation composer. Its `if`/`elif` chain of substring tests is an
  ordered rule table, and the first matching rule wins.
- `Text` holds the string operations these rely on: substring `in`, `strip()` and
  `split('\n')`, each small enough to be proved correct.

Four points where the script's behaviour is easy to misread:

- Progress is an ordered list that skips names already present, not a set.
- A name that is not in the catalog makes the lookup fail with `next()` and no default. The
  dropdown only offers catalog names, so `FindStage` and `RunCode` require the name to be
  present instead of returning a "not found" result.
- The explanation has exactly the thirteen rules of lines 213-250, in that order.
- Because the value-counts rule (line 225) is tried before the bar-chart rule (line 234), the
  Bar Chart stage's own example (line 78), `df['col'].value_counts().plot(kind='bar')`, never
  gets the bar-chart paragraph.

## Model

Two members are constants rather than functions, so they have no row of their own.
`Catalog.Stages` is the fifteen stages of lines 39-100, character for character; the Bar Chart
example is written as a concatenation of the same characters, so that proofs can see where its
substrings occur. Its rows are `Catalog.CatalogNamesDistinct` and
`Explanation.BarChartExampleNotExplainedAsBarChart`. `Explanation.Rules` is the thirteen rules
in the order of lines 213-250; its row is `Explanation.RulesCoverEachOperationOnce`.

| member | source | states |
|---|---|---|
| `Catalog.StageNames` | pandas-streamlit.py:119 | the dropdown offers one name per stage, each stage's own name, in catalog order |
| `Catalog.FirstIndexOf` | pandas-streamlit.py:130 | for a name the dropdown offers, the position of a stage with that name such that no earlier stage has it |
| `Catalog.FindStage` | pandas-streamlit.py:130 | the stage found is in the catalog, has the requested name and is the first such; when names are distinct it is the only stage with that name |
| `Catalog.CatalogNamesDistinct` | pandas-streamlit.py:39-100 | the catalog has fifteen stages and no two share a name, so each dropdown choice selects exactly one stage |
| `Progress.SessionProgress.constructor` | pandas-streamlit.py:14-15 | a new session's progress list is empty and has no duplicates |
| `Progress.SessionProgress.MarkComplete` | pandas-streamlit.py:265-269 | afterwards the name is listed and the list still has no duplicates; the list grows by exactly that name at the end iff it was absent, is otherwise unchanged, and earlier entries keep their order; `added` reports the change that triggers the message and rerun |
| `Progress.ProgressLines` | pandas-streamlit.py:123-126 | one sidebar line per stage in catalog order, each the stage's name behind a status mark; the line starts with the check mark iff the name is in the progress list |
| `Runner.IsBlank` | pandas-streamlit.py:154 | defines the guard `not code or code.strip() == ""` on an editor value that may be absent; what it means is stated by `Runner.BlankIff` |
| `Runner.BlankIff` | pandas-streamlit.py:154 | code counts as blank exactly when there is no value or it is all whitespace |
| `Runner.RunCode` | pandas-streamlit.py:130-262 | for a name the dropdown offers: blank code gives the warning and nothing else, whatever the evaluator would do; a failing first run gives only its error; a successful one gives the rendering decision for its output and the explanation for the code and the task of the stage looked up by that name |
| `Runner.ChooseRender` | pandas-streamlit.py:177-197 | empty output gives the "no text output" notice; non-empty output gives a table exactly when the heuristic holds, the second run succeeds and one of its bindings is a data frame or series, and that table is the first such binding; every other case gives the output verbatim as a code block |
| `Runner.RenderDecisionUnique` | pandas-streamlit.py:177-197 | at most one rendering meets the decision for given output and bindings; since `Runner.ChooseRender` always returns one that does, the decision fixes exactly one outcome |
| `Runner.FirstTableLikeUnique` | pandas-streamlit.py:186-189 | the first data frame or series of a list of bindings is unique |
| `Runner.LooksTabular` | pandas-streamlit.py:181-183 | defines the heuristic on captured output: strip it, then test its stripped text with `Runner.StrippedLooksTabular`; its properties are stated by `Runner.LooksTabularIff`, `Runner.LooksTabularIgnoresPadding` and `Runner.BlankOutputNotTabular` |
| `Runner.StrippedLooksTabular` | pandas-streamlit.py:181-183 | defines the rest of the heuristic: split on line feeds, take the last piece (keeping the fallback to "" for an empty split, dead by `Text.SplitLines`), and test that it contains a space and a digit |
| `Runner.LooksTabularIff` | pandas-streamlit.py:181-183 | the heuristic holds iff the last line of the stripped output contains a space and a digit |
| `Runner.LooksTabularIgnoresPadding` | pandas-streamlit.py:181 | whitespace and newlines before or after the whole output do not change the heuristic |
| `Runner.BlankOutputNotTabular` | pandas-streamlit.py:181-183 | output made only of whitespace never looks like a table, so non-empty whitespace output is shown as a code block |
| `Text.Contains` | pandas-streamlit.py:213-250 | defines Python's `t in s` on strings: t is a prefix of s or occurs in its tail; `Text.ContainsIff` proves it is the positional substring test and `Text.ContainsChar` relates it to character membership |
| `Text.ContainsIff` | pandas-streamlit.py:213-250 | the substring test holds exactly when the pattern occurs at some position of the text |
| `Text.ContainsChar` | pandas-streamlit.py:183 | a one-character substring test is character membership |
| `Text.SkipSpaceForward` | pandas-streamlit.py:181 | the forward scan stops at the first character that is not whitespace, or at the end, having passed only whitespace |
| `Text.SkipSpaceBackward` | pandas-streamlit.py:181 | the backward scan stops just past the last character that is not whitespace, never below where the forward scan stopped, having passed only whitespace |
| `Text.Strip` | pandas-streamlit.py:181 | the stripped text is no longer than the text and neither starts nor ends with whitespace |
| `Text.StripSplits` | pandas-streamlit.py:181 | every text is whitespace, then its stripped part, then whitespace |
| `Text.StripUnique` | pandas-streamlit.py:181 | whitespace around a part that neither starts nor ends with whitespace strips to exactly that part |
| `Text.StripEmptyIff` | pandas-streamlit.py:154 | stripping leaves nothing iff the text is all whitespace |
| `Text.StripPadded` | pandas-streamlit.py:181 | whitespace added at either end does not change the stripped text |
| `Text.StripIdempotent` | pandas-streamlit.py:181 | stripping twice is stripping once |
| `Text.SplitLines` | pandas-streamlit.py:181-182 | the split is never empty, so the fallback for an empty list is dead, and no piece contains a line feed |
| `Text.JoinSplit` | pandas-streamlit.py:181 | joining the pieces with line feeds gives back the text |
| `Text.LastLine` | pandas-streamlit.py:182 | defines `lines[-1]` of the split; `Text.LastLineIsLastLine` and `Text.LastLineUnique` characterise it |
| `Text.LastLineIsLastLine` | pandas-streamlit.py:182 | the last piece is the suffix after the last line feed, or the whole text when it has none |
| `Text.LastLineUnique` | pandas-streamlit.py:182 | a text has only one last line |
| `Explanation.Matches` | pandas-streamlit.py:213-249 | defines the substring test of each of the thirteen rules, test for test as in the script; its consequences for particular code are stated by the precedence lemmas below |
| `Explanation.Fragment` | pandas-streamlit.py:214-250 | defines the paragraph each rule appends, character for character; `Explanation.ExplainFirstMatchingRule` states where it lands |
| `Explanation.ChosenOperation` | pandas-streamlit.py:213-250 | defines the operation the `if`/`elif` chain settles on: the first of the thirteen rules, in the script's order, whose test holds; see `Explanation.FirstMatch`, `Explanation.FirstMatchIsFirst` and `Explanation.RulesCoverEachOperationOnce` |
| `Explanation.Opening` | pandas-streamlit.py:211 | defines the f-string opening that quotes the stage's task |
| `Explanation.Explain` | pandas-streamlit.py:211-253 | defines the composer: the opening, then the chosen rule's paragraph if there is one, then the plot note when the code contains `st.pyplot(plt)`; its content is stated by `Explanation.ExplainFirstMatchingRule`, `Explanation.ExplainNoMatchingRule` and `Explanation.ExplainQuotesTask` |
| `Explanation.FirstMatch` | pandas-streamlit.py:213-250 | a chosen operation belongs to the rule list and its test holds; there is none iff no rule's test holds |
| `Explanation.FirstMatchIsFirst` | pandas-streamlit.py:213-250 | rule i is chosen iff its test holds and no earlier rule's test holds |
| `Explanation.RulesCoverEachOperationOnce` | pandas-streamlit.py:213-250 | the thirteen rules list each operation exactly once |
| `Explanation.Precedence` | pandas-streamlit.py:213-250 | a matching rule shadows every later rule |
| `Explanation.DescribeWinsOverEverything` | pandas-streamlit.py:213-214 | code containing `df.describe()` is explained as descriptive statistics, even when it also plots |
| `Explanation.ColumnSelectionBeforeRowFiltering` | pandas-streamlit.py:219-223 | code with `df[[` and `]]` is never explained as row filtering |
| `Explanation.AddingColumnNeverWithValueCounts` | pandas-streamlit.py:225-247 | the "Adding a Column" rule never fires on code containing both `df['` and `.value_counts()` |
| `Explanation.ValueCountsShadowsBarChart` | pandas-streamlit.py:225-235 | code containing `df['` and `.value_counts()` is never explained as a bar chart |
| `Explanation.ValueCountsPlotNotBarChart` | pandas-streamlit.py:225-235 | a snippet that indexes a column and calls `.value_counts()` on it is never explained as a bar chart, whatever surrounds that call |
| `Explanation.BarChartExampleNotExplainedAsBarChart` | pandas-streamlit.py:76-79 | the Bar Chart stage's own example is never given the bar-chart paragraph |
| `Explanation.ExplainFirstMatchingRule` | pandas-streamlit.py:211-253 | when rule i is the first that matches, the explanation is the opening, then exactly rule i's paragraph, then the plot note iff the code contains `st.pyplot(plt)` |
| `Explanation.ExplainNoMatchingRule` | pandas-streamlit.py:211-253 | when no rule matches, the explanation is the opening followed by the plot note iff the code contains `st.pyplot(plt)` |
| `Explanation.ExplainQuotesTask` | pandas-streamlit.py:211 | the explanation begins with the opening and contains the stage's task text |

## Left out

- Page setup, headers, sidebar instructions, widgets, the code editor widget, buttons, widget keys and `st.rerun` (lines 9-11, 16-19, 103-118, 120-123 and 131-153) are UI plumbing with nothing to state.
- CSV upload and parsing with `pd.read_csv`, the frame's slot in the session, and the halt when no dataset is loaded (lines 12-13 and 20-36), are I/O plus a foreign library.
- Evaluating the snippet with `exec`, both times, is arbitrary code evaluation. The model keeps only what its results feed into: the first run's captured output or failure, and the second run's bindings in insertion order or failure, passed in as functions.
- Redirecting and restoring `sys.stdout` (lines 167-175 and 257-262) is process-wide I/O state; the model receives the captured text directly.
- The matplotlib figure registry, the plot display and its fixed size (lines 172 and 199-205) belong to a foreign library, and the images are outside the model.
- The success banner, and the error banner and traceback display (lines 207 and 257-260), are not modelled beyond the `ExecutionError` outcome carrying the failure message.
- Runner.ChooseRender: the `except` at lines 194-195 also catches a failure of the table widget itself; the model only covers a failure of the second run.
- `Text.IsSpace` and `Text.IsDigit` cover ASCII only. Python's `str.strip()` and `str.isdigit()` also accept non-ASCII whitespace and digits.
- Bindings are classified only as data frame, series or other value; their contents are opaque.
- The stage descriptions and examples are carried verbatim, but no property is stated about their wording except the Bar Chart example's, recorded above. The unbalanced bracket in the scatter-plot task (line 75) is text, not behaviour.

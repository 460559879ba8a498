/**
 The tutorial's curriculum: a fixed, ordered list of stages, each with a name, a description,
 an example snippet and a task prompt, and the lookup of a stage by the name chosen in the
 stage dropdown.
 */
module Catalog {

  datatype Stage = Stage(name: string, desc: string, example: string, task: string)

  /** The curriculum, in the order the dropdown and the progress sidebar list it. The texts are
      carried verbatim, including the unbalanced bracket in the scatter-plot task. */
  const Stages: seq<Stage> := [
      Stage("Introduction to Pandas",
            "Learn to load and inspect data with Pandas.",
            "import pandas as pd\n\n# Show first 5 rows\nprint(df.head())",
            "Display the first 5 rows of the dataset using `print(df.head())`."),
      Stage("Data Cleaning - Missing Values",
            "Check for missing values in your dataset.",
            "# Check missing values\nprint(df.isnull().sum())",
            "Show the count of missing values per column with `print(df.isnull().sum())`."),
      Stage("Data Cleaning - Drop Missing Values",
            "Remove rows with missing values.",
            "# Drop rows with missing values\ndf_cleaned = df.dropna()\nprint(df_cleaned.head())",
            "Drop rows with missing values, assign to `df_cleaned`, and show the first 5 rows with `print(df_cleaned.head())`."),
      Stage("Data Selection - Columns",
            "Select specific columns from the DataFrame.",
            "# Select columns\nprint(df[['column1', 'column2']])",
            "Select and display two columns of your choice with `print(df[['col1', 'col2']])`."),
      Stage("Data Selection - Rows (Filtering)",
            "Filter rows based on a condition.",
            "# Filter rows\nprint(df[df['column'] > value])",
            "Filter rows where a numeric column exceeds a value, e.g., `print(df[df['col'] > 10])`."),
      Stage("Descriptive Statistics",
            "Calculate summary statistics for numeric columns.",
            "# Summary stats\nprint(df.describe())",
            "Show descriptive statistics with `print(df.describe())`."),
      Stage("Value Counts",
            "Count occurrences in a categorical column.",
            "# Value counts\nprint(df['column'].value_counts())",
            "Display value counts for a categorical column with `print(df['col'].value_counts())`."),
      Stage("Basic Line Plot",
            "Create a line plot of a numeric column.",
            "import matplotlib.pyplot as plt\n\nplt.figure(figsize=(6, 4))\nplt.plot(df['numeric_col'])\nplt.title('Line Plot')\nst.pyplot(plt)",
            "Plot a numeric column with `plt.plot(df['col'])`, add a title, and display with `st.pyplot(plt)`."),
      Stage("Scatter Plot",
            "Create a scatter plot of two numeric columns.",
            "import matplotlib.pyplot as plt\n\nplt.figure(figsize=(6, 4))\nplt.scatter(df['col1'], df['col2'])\nplt.title('Scatter Plot')\nst.pyplot(plt)",
            "Make a scatter plot with `plt.scatter(df['col1', df['col2'])`, add a title, and show with `st.pyplot(plt)`."),
      Stage("Bar Chart",
            "Create a bar chart from categorical data.",
            BarChartSetup + "df['" + "col']" + ".value_counts()" + BarChartFinish,
            "Plot a bar chart of value counts with `df['col'].value_counts().plot(kind='bar')`, add a title, and use `st.pyplot(plt)`."),
      Stage("Histograms",
            "Visualize a numeric column\U{2019}s distribution.",
            "import matplotlib.pyplot as plt\n\nplt.figure(figsize=(6, 4))\nplt.hist(df['numeric_col'], bins=10)\nplt.title('Histogram')\nst.pyplot(plt)",
            "Create a histogram with `plt.hist(df['col'], bins=10)`, add a title, and display with `st.pyplot(plt)`."),
      Stage("Groupby and Aggregation",
            "Group data and compute aggregates.",
            "# Group and aggregate\nprint(df.groupby('cat_col')['num_col'].mean())",
            "Group by a categorical column and show the mean of a numeric column with `print(df.groupby('cat_col')['num_col'].mean())`."),
      Stage("Sorting DataFrames",
            "Sort the DataFrame by a column.",
            "# Sort DataFrame\ndf_sorted = df.sort_values(by='column')\nprint(df_sorted.head())",
            "Sort by a column, assign to `df_sorted`, and show the head with `print(df_sorted.head())`."),
      Stage("Adding New Columns",
            "Add a new column to the DataFrame.",
            "# Add column\ndf['new_col'] = df['col1'] + df['col2']\nprint(df.head())",
            "Add a new column (e.g., `df['new_col'] = df['col1'] * 2`) and show the head with `print(df.head())`."),
      Stage("Renaming Columns",
            "Rename a column in the DataFrame.",
            "# Rename column\ndf = df.rename(columns={'old': 'new'})\nprint(df.head())",
            "Rename a column (e.g., `df = df.rename(columns={'old': 'new'})`) and show the head with `print(df.head())`.")
    ]

  predicate DistinctNames(stages: seq<Stage>) {
    forall i, j :: 0 <= i < j < |stages| ==> stages[i].name != stages[j].name
  }

  /** The options of the stage dropdown: every stage's name, in catalog order. */
  function StageNames(stages: seq<Stage>): (names: seq<string>)
    ensures |names| == |stages|
    ensures forall i :: 0 <= i < |stages| ==> names[i] == stages[i].name
  {
    if stages == [] then [] else [stages[0].name] + StageNames(stages[1..])
  }

  /** Position of the first stage called `name`. */
  function FirstIndexOf(stages: seq<Stage>, name: string): (k: nat)
    requires name in StageNames(stages)
    ensures k < |stages| && stages[k].name == name
    ensures forall j :: 0 <= j < k ==> stages[j].name != name
  {
    if stages[0].name == name then 0 else 1 + FirstIndexOf(stages[1..], name)
  }

  /** The first stage whose name is `name`; when names are distinct it is the only one. The name
      must be one the dropdown offers: the lookup has no fallback for any other. */
  function FindStage(stages: seq<Stage>, name: string): (s: Stage)
    requires name in StageNames(stages)
    ensures s in stages && s.name == name
    ensures exists k :: 0 <= k < |stages| && stages[k] == s && forall j :: 0 <= j < k ==> stages[j].name != name
    ensures DistinctNames(stages) ==> forall t :: t in stages && t.name == name ==> t == s
  {
    var k := FirstIndexOf(stages, name);
    assert forall t :: t in stages ==> exists m :: 0 <= m < |stages| && stages[m] == t;
    stages[k]
  }

  /** The Bar Chart stage's example around its `df['col'].value_counts()` call. */
  const BarChartSetup := "import matplotlib.pyplot as plt\n\nplt.figure(figsize=(6, 4))\n"
  const BarChartFinish := ".plot(kind='bar')\nplt.title('Bar Chart')\nst.pyplot(plt)"

  /** Helper: Stages[9] unfolded once, so that proofs about the Bar Chart example do not have to
      unfold the whole literal catalog themselves. It states nothing beyond the definition. */
  lemma BarChartStage()
    ensures Stages[9].name == "Bar Chart"
    ensures Stages[9].example == BarChartSetup + "df['" + "col']" + ".value_counts()" + BarChartFinish
  {
  }

  /** Lengths and first letters of the fifteen names: together they tell any two names apart.
      This predicate and the lemmas down to CatalogNamesDistinct serve only to make the proof that
      the names are distinct cheap enough to check; comparing the names directly costs the
      solver about as much as it is allowed. They have to follow any renaming of a stage. */
  predicate NameShapes(stages: seq<Stage>) {
    |stages| == 15 &&
    |stages[0].name| == 22 && stages[0].name[0] == 'I' &&
    |stages[1].name| == 30 && stages[1].name[0] == 'D' &&
    |stages[2].name| == 35 && stages[2].name[0] == 'D' &&
    |stages[3].name| == 24 && stages[3].name[0] == 'D' &&
    |stages[4].name| == 33 && stages[4].name[0] == 'D' &&
    |stages[5].name| == 22 && stages[5].name[0] == 'D' &&
    |stages[6].name| == 12 && stages[6].name[0] == 'V' &&
    |stages[7].name| == 15 && stages[7].name[0] == 'B' &&
    |stages[8].name| == 12 && stages[8].name[0] == 'S' &&
    |stages[9].name| == 9 && stages[9].name[0] == 'B' &&
    |stages[10].name| == 10 && stages[10].name[0] == 'H' &&
    |stages[11].name| == 23 && stages[11].name[0] == 'G' &&
    |stages[12].name| == 18 && stages[12].name[0] == 'S' &&
    |stages[13].name| == 18 && stages[13].name[0] == 'A' &&
    |stages[14].name| == 16 && stages[14].name[0] == 'R'
  }

  lemma DistinctByShape(stages: seq<Stage>)
    requires NameShapes(stages)
    ensures DistinctNames(stages)
  {
  }

  // The lemmas below read the shapes off the catalog three stages at a time; each has to
  // unfold the whole literal catalog, so the facts are kept in small groups.
  lemma ShapesOfStages0To2()
    ensures |Stages| == 15
    ensures |Stages[0].name| == 22 && Stages[0].name[0] == 'I' &&
            |Stages[1].name| == 30 && Stages[1].name[0] == 'D' &&
            |Stages[2].name| == 35 && Stages[2].name[0] == 'D'
  {
  }

  lemma ShapesOfStages3To5()
    ensures |Stages| == 15
    ensures |Stages[3].name| == 24 && Stages[3].name[0] == 'D' &&
            |Stages[4].name| == 33 && Stages[4].name[0] == 'D' &&
            |Stages[5].name| == 22 && Stages[5].name[0] == 'D'
  {
  }

  lemma ShapesOfStages6To8()
    ensures |Stages| == 15
    ensures |Stages[6].name| == 12 && Stages[6].name[0] == 'V' &&
            |Stages[7].name| == 15 && Stages[7].name[0] == 'B' &&
            |Stages[8].name| == 12 && Stages[8].name[0] == 'S'
  {
  }

  lemma ShapesOfStages9To11()
    ensures |Stages| == 15
    ensures |Stages[9].name| == 9 && Stages[9].name[0] == 'B' &&
            |Stages[10].name| == 10 && Stages[10].name[0] == 'H' &&
            |Stages[11].name| == 23 && Stages[11].name[0] == 'G'
  {
  }

  lemma ShapesOfStages12To14()
    ensures |Stages| == 15
    ensures |Stages[12].name| == 18 && Stages[12].name[0] == 'S' &&
            |Stages[13].name| == 18 && Stages[13].name[0] == 'A' &&
            |Stages[14].name| == 16 && Stages[14].name[0] == 'R'
  {
  }

  /** The curriculum has fifteen stages and no two share a name. */
  lemma CatalogNamesDistinct()
    ensures |Stages| == 15
    ensures DistinctNames(Stages)
  {
    ShapesOfStages0To2();
    ShapesOfStages3To5();
    ShapesOfStages6To8();
    ShapesOfStages9To11();
    ShapesOfStages12To14();
    DistinctByShape(Stages);
  }
}

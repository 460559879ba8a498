/**
 What happens when "Run Code" is clicked: the blank-code guard, the run of the snippet (an opaque
 evaluator passed in as a function), the decision how to show its captured text, and the
 explanation. The evaluator itself is not modelled: the first run is reduced to its captured
 standard output or its failure, and the second run, into a fresh local namespace, to its
 bindings in insertion order or its failure.
 */
module Runner {
  import opened Wrappers
  import opened Text
  import opened Catalog
  import opened Explanation

  /** A value bound by the snippet, classified as the renderer needs it; `id` stands for the
      object itself. */
  datatype Value = DataFrame(id: nat) | Series(id: nat) | OtherValue(id: nat)

  predicate IsTableLike(v: Value) {
    v.DataFrame? || v.Series?
  }

  /** The first run: what it printed, or the failure it raised. */
  datatype Execution = Completed(output: string) | Raised(message: string)

  /** The second run into a fresh local namespace: its bindings, or a failure. */
  datatype Rerun = Bindings(values: seq<Value>) | RerunRaised

  /** How the captured text is shown: the "no text output" notice, a table, or the text verbatim
      as a code block. */
  datatype Rendered = NoTextNotice | Table(value: Value) | CodeBlock(text: string)

  /** The page after a click on "Run Code". */
  datatype RunView =
    | BlankCodeWarning
    | ExecutionError(message: string)
    | Succeeded(rendered: Rendered, explanation: string)

  /** The editor holds nothing (no value, or only whitespace). */
  predicate IsBlank(code: Option<string>) {
    code.None? || code.value == "" || Strip(code.value) == ""
  }

  lemma BlankIff(code: Option<string>)
    ensures IsBlank(code) <==> code.None? || AllSpace(code.value)
  {
    if code.Some? {
      StripEmptyIff(code.value);
    }
  }

  /** The "looks like a table" heuristic: the last line of the stripped output contains a space
      and a digit. The fallback for an empty split is kept although the split is never empty. */
  predicate LooksTabular(output: string) {
    StrippedLooksTabular(Strip(output))
  }

  predicate StrippedLooksTabular(stripped: string) {
    var lines := SplitLines(stripped);
    var last := if |lines| > 0 then lines[|lines| - 1] else "";
    Contains(last, " ") && HasDigit(last)
  }

  /** The heuristic holds exactly when the last line of the stripped output has a space and a digit. */
  lemma LooksTabularIff(output: string, line: string)
    requires IsLastLine(Strip(output), line)
    ensures LooksTabular(output) <==> ' ' in line && HasDigit(line)
  {
    LastLineIsLastLine(Strip(output));
    LastLineUnique(Strip(output), line, LastLine(Strip(output)));
    ContainsChar(line, ' ');
  }

  /** Whitespace around the whole output does not change the heuristic. */
  lemma LooksTabularIgnoresPadding(w1: string, output: string, w2: string)
    requires AllSpace(w1) && AllSpace(w2)
    ensures LooksTabular(w1 + output + w2) == LooksTabular(output)
  {
    StripPadded(w1, output, w2);
  }

  /** Output made only of whitespace never looks like a table. */
  lemma BlankOutputNotTabular(output: string)
    requires AllSpace(output)
    ensures !LooksTabular(output)
  {
    StripEmptyIff(output);
  }

  /** `v` is the first table-like value of `values`. */
  predicate IsFirstTableLike(values: seq<Value>, v: Value) {
    exists k :: 0 <= k < |values| && values[k] == v && IsTableLike(v)
      && forall j :: 0 <= j < k ==> !IsTableLike(values[j])
  }

  predicate HasTableLike(values: seq<Value>) {
    exists k :: 0 <= k < |values| && IsTableLike(values[k])
  }

  /** The rendering decision for the captured output of `code`. */
  predicate RenderDecision(code: string, output: string, rerun: string -> Rerun, r: Rendered) {
    && (output == "" ==> r == NoTextNotice)
    && (r.Table? <==> output != "" && LooksTabular(output) && rerun(code).Bindings?
                      && HasTableLike(rerun(code).values))
    && (r.Table? ==> IsFirstTableLike(rerun(code).values, r.value))
    && (output != "" && !r.Table? ==> r == CodeBlock(output))
  }

  lemma FirstTableLikeUnique(values: seq<Value>, v1: Value, v2: Value)
    requires IsFirstTableLike(values, v1) && IsFirstTableLike(values, v2)
    ensures v1 == v2
  {
    var k1 :| 0 <= k1 < |values| && values[k1] == v1 && IsTableLike(v1)
      && forall j :: 0 <= j < k1 ==> !IsTableLike(values[j]);
    var k2 :| 0 <= k2 < |values| && values[k2] == v2 && IsTableLike(v2)
      && forall j :: 0 <= j < k2 ==> !IsTableLike(values[j]);
    assert !(k1 < k2) && !(k2 < k1);
  }

  /** The decision leaves no choice: at most one rendering meets it. */
  lemma RenderDecisionUnique(code: string, output: string, rerun: string -> Rerun, r1: Rendered, r2: Rendered)
    requires RenderDecision(code, output, rerun, r1) && RenderDecision(code, output, rerun, r2)
    ensures r1 == r2
  {
    if r1.Table? {
      FirstTableLikeUnique(rerun(code).values, r1.value, r2.value);
    }
  }

  /** Shows the captured text: the notice when there is none; otherwise, when it looks like a
      table, the first data frame or series among the bindings of a second run; otherwise the
      text itself. A failure of the second run falls back to the text. */
  method ChooseRender(code: string, output: string, rerun: string -> Rerun) returns (r: Rendered)
    ensures RenderDecision(code, output, rerun, r)
  {
    if output == "" {
      return NoTextNotice;
    }
    if !LooksTabular(output) {
      return CodeBlock(output);
    }
    var second := rerun(code);
    if second.RerunRaised? {
      return CodeBlock(output);
    }
    var values := second.values;
    var i := 0;
    while i < |values|
      invariant 0 <= i <= |values|
      invariant forall j :: 0 <= j < i ==> !IsTableLike(values[j])
    {
      if IsTableLike(values[i]) {
        assert IsFirstTableLike(values, values[i]) && HasTableLike(values);
        return Table(values[i]);
      }
      i := i + 1;
    }
    assert !HasTableLike(values);
    return CodeBlock(output);
  }

  /** One click on "Run Code" in the stage the dropdown names: blank code is refused before
      anything runs; a failing run shows only its error; a successful one shows its output and
      the explanation for the task of the stage looked up by that name. */
  method RunCode(code: Option<string>, stages: seq<Stage>, stageName: string,
                 exec: string -> Execution, rerun: string -> Rerun)
    returns (view: RunView)
    requires stageName in StageNames(stages)
    ensures IsBlank(code) <==> view == BlankCodeWarning
    ensures !IsBlank(code) && exec(code.value).Raised? ==> view == ExecutionError(exec(code.value).message)
    ensures !IsBlank(code) && exec(code.value).Completed? ==>
      && view.Succeeded?
      && RenderDecision(code.value, exec(code.value).output, rerun, view.rendered)
      && view.explanation == Explain(code.value, FindStage(stages, stageName).task)
  {
    var stage := FindStage(stages, stageName);
    if IsBlank(code) {
      return BlankCodeWarning;
    }
    var run := exec(code.value);
    if run.Raised? {
      return ExecutionError(run.message);
    }
    var rendered := ChooseRender(code.value, run.output, rerun);
    view := Succeeded(rendered, Explain(code.value, stage.task));
  }
}

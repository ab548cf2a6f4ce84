/** Code execution (tools/code_exec.py): a blacklist check before running a snippet, the
    `^` rewrite of the calculator, the script wrapper and the text bar chart. Running
    Python itself is the `run`/`eval` parameter. */
module CodeExec {
  import opened Text
  import opened Sorting
  import opened Outcomes

  /** `restricted_keywords`, in the order they are tried. */
  const RestrictedKeywords: seq<string> := [
    "import os", "import sys", "import subprocess",
    "open(", "__import__", "exec(", "eval(",
    "compile(", "globals()", "locals()",
    "__builtins__", "__class__", "__dict__"
  ]

  /** The first restricted keyword at or after `i` that occurs in `code`. */
  function FirstRestricted(code: string, i: nat): (r: Option<nat>)
    ensures r.Some? ==> i <= r.value < |RestrictedKeywords| && Contains(code, RestrictedKeywords[r.value])
    ensures r.Some? ==> forall j :: i <= j < r.value ==> !Contains(code, RestrictedKeywords[j])
    ensures r.None? ==> forall j :: i <= j < |RestrictedKeywords| ==> !Contains(code, RestrictedKeywords[j])
    decreases |RestrictedKeywords| - i
  {
    if i >= |RestrictedKeywords| then None
    else if Contains(code, RestrictedKeywords[i]) then Some(i)
    else FirstRestricted(code, i + 1)
  }

  /** What running a snippet did: what it wrote to stdout and stderr, or an exception
      that escaped `exec`. */
  datatype Execution = Ran(stdout: string, stderr: string) | Crashed

  function SecurityError(keyword: string): string
  {
    "❌ Security Error: '" + keyword + "' is not allowed"
  }

  const NoOutputReply := "✅ Code executed " + "successfully (no output)"

  /** `execute_python_code`: `run(code)` evaluates or executes the snippet. */
  function ExecutePythonCode(code: string, run: string -> Execution): (r: Answer)
    ensures (r.Says? && StartsWith(r.text, "❌")) <==> FirstRestricted(code, 0).Some?
    ensures FirstRestricted(code, 0).Some? ==>
              r == Says(SecurityError(RestrictedKeywords[FirstRestricted(code, 0).value]))
    ensures r.Failed? <==> FirstRestricted(code, 0).None? && run(code).Crashed?
    ensures r.Failed? ==> r.prefix == "❌ Error:\n"
    ensures FirstRestricted(code, 0).None? && run(code).Ran? ==> r.Says?
    ensures FirstRestricted(code, 0).None? && run(code).Ran? && run(code).stderr != "" ==>
              r.text == "⚠️ Execution Error:\n" + run(code).stderr
    ensures FirstRestricted(code, 0).None? && run(code).Ran? && run(code).stderr == "" && run(code).stdout != "" ==>
              r.text == "✅ Output:\n" + Strip(run(code).stdout)
    ensures FirstRestricted(code, 0).None? && run(code) == Ran("", "") ==> r.text == NoOutputReply
  {
    match FirstRestricted(code, 0)
    case Some(k) =>
      assert SecurityError(RestrictedKeywords[k])[..1] == "❌";
      Says(SecurityError(RestrictedKeywords[k]))
    case None =>
      match run(code)
      case Crashed => Failed("❌ Error:\n")
      case Ran(stdout, stderr) =>
        if stderr != "" then
          var reply := "⚠️ Execution Error:\n" + stderr;
          assert reply[0] == '⚠';
          Says(reply)
        else if stdout != "" then
          var reply := "✅ Output:\n" + Strip(stdout);
          assert reply[0] == '✅';
          Says(reply)
        else
          var reply := NoOutputReply;
          assert reply[0] == '✅';
          Says(reply)
  }

  /** A snippet holding a restricted keyword is answered without being run: any two
      runners give the same reply. */
  lemma RestrictedCodeIsNotRun(code: string, run1: string -> Execution, run2: string -> Execution)
    requires exists j :: 0 <= j < |RestrictedKeywords| && Contains(code, RestrictedKeywords[j])
    ensures ExecutePythonCode(code, run1) == ExecutePythonCode(code, run2)
    ensures ExecutePythonCode(code, run1).Says?
  {
    var j :| 0 <= j < |RestrictedKeywords| && Contains(code, RestrictedKeywords[j]);
    assert FirstRestricted(code, 0).Some?;
  }

  /** `expression.replace('^', '**')` */
  function Rewrite(expression: string): (r: string)
    ensures '^' !in r
    ensures |r| == |expression| + Count(expression, '^')
  {
    ReplaceCharRemoves(expression, '^', "**");
    ReplaceChar(expression, '^', "**")
  }

  /** Rewriting twice is rewriting once, and an expression without `^` is untouched. */
  lemma RewriteIdempotent(expression: string)
    ensures Rewrite(Rewrite(expression)) == Rewrite(expression)
    ensures '^' !in expression ==> Rewrite(expression) == expression
  {
    ReplaceCharAbsent(Rewrite(expression), '^', "**");
    if '^' !in expression {
      ReplaceCharAbsent(expression, '^', "**");
    }
  }

  /** `calculate_expression`: `eval(e)` is Python's value of `e` as text, None when it
      raises. The rewritten expression is what is evaluated and what is echoed. */
  function CalculateExpression(expression: string, eval: string -> Option<string>): (r: Answer)
    ensures r.Failed? <==> eval(Rewrite(expression)).None?
    ensures r.Failed? ==> r.prefix == "❌ Calculation error: "
    ensures r.Says? ==> r.text == "🔢 " + Rewrite(expression) + " = " + eval(Rewrite(expression)).value
  {
    var e := Rewrite(expression);
    match eval(e)
    case None => Failed("❌ Calculation error: ")
    case Some(v) => Says("🔢 " + e + " = " + v)
  }

  /** `header` put in front of a reply; for a reply that is a prefix followed by an
      error message, in front of the prefix. */
  function Prefixed(header: string, a: Answer): (r: Answer)
    ensures r.Says? <==> a.Says?
    ensures r.Says? ==> r.text == header + a.text
    ensures r.Failed? ==> r.prefix == header + a.prefix
  {
    match a
    case Says(text) => Says(header + text)
    case Failed(prefix) => Failed(header + prefix)
  }

  /** `run_python_script`: the snippet's reply, under a header when a description is
      given. */
  function RunPythonScript(script: string, description: string, run: string -> Execution): (r: Answer)
    ensures description == "" ==> r == ExecutePythonCode(script, run)
    ensures description != "" ==> r == Prefixed("📝 Script: " + description + "\n\n", ExecutePythonCode(script, run))
  {
    var result := ExecutePythonCode(script, run);
    if description != "" then Prefixed("📝 Script: " + description + "\n\n", result) else result
  }

  /** The end of the run of digits that starts at `i`. */
  function RunEnd(s: string, i: nat): (j: nat)
    requires i <= |s|
    ensures i <= j <= |s|
    ensures forall k :: i <= k < j ==> IsDigit(s[k])
    ensures j < |s| ==> !IsDigit(s[j])
    decreases |s| - i
  {
    if i < |s| && IsDigit(s[i]) then RunEnd(s, i + 1) else i
  }

  /** `[int(x) for x in re.findall(r'\d+', s[i:])]`: the maximal runs of digits, in
      order. */
  function DigitRuns(s: string, i: nat): (r: seq<nat>)
    requires i <= |s|
    decreases |s| - i
  {
    if i == |s| then []
    else if !IsDigit(s[i]) then DigitRuns(s, i + 1)
    else
      var j := RunEnd(s, i);
      [DigitsValue(s[i..j])] + DigitRuns(s, j)
  }

  /** No number is found exactly when there is no digit. */
  lemma {:induction false} DigitRunsEmptyIff(s: string, i: nat)
    requires i <= |s|
    ensures DigitRuns(s, i) == [] <==> forall k :: i <= k < |s| ==> !IsDigit(s[k])
    decreases |s| - i
  {
    if i < |s| && !IsDigit(s[i]) {
      DigitRunsEmptyIff(s, i + 1);
    }
  }

  /** `int((val / max_val) * 40)`, taken exactly. */
  function BarLength(val: nat, maxVal: nat): (n: nat)
    requires val <= maxVal && maxVal > 0
    ensures n <= 40
    ensures val == maxVal ==> n == 40
  {
    BarBound(val, maxVal);
    val * 40 / maxVal
  }

  lemma BarBound(val: nat, maxVal: nat)
    requires val <= maxVal && maxVal > 0
    ensures val * 40 / maxVal <= 40
    ensures val == maxVal ==> val * 40 / maxVal == 40
  {
    var q, r := val * 40 / maxVal, val * 40 % maxVal;
    assert val * 40 == q * maxVal + r && 0 <= r < maxVal;
    assert val * 40 <= 40 * maxVal by {
      MulMonotone(val, maxVal, 40);
    }
    if q > 40 {
      assert 41 * maxVal <= q * maxVal by {
        MulMonotone(41, q, maxVal);
      }
      assert false;
    }
    if val == maxVal && q < 40 {
      assert (q + 1) * maxVal <= 40 * maxVal by {
        MulMonotone(q + 1, 40, maxVal);
      }
      assert false;
    }
  }

  /** A larger value never gets a shorter bar. */
  lemma BarLengthMonotone(a: nat, b: nat, maxVal: nat)
    requires a <= b <= maxVal && maxVal > 0
    ensures BarLength(a, maxVal) <= BarLength(b, maxVal)
  {
    var qa, qb := a * 40 / maxVal, b * 40 / maxVal;
    assert qa * maxVal <= a * 40 by {
      assert a * 40 == qa * maxVal + a * 40 % maxVal;
    }
    assert b * 40 < (qb + 1) * maxVal by {
      assert b * 40 == qb * maxVal + b * 40 % maxVal;
    }
    if qb < qa {
      MulMonotone(qb + 1, qa, maxVal);
      assert false;
    }
  }

  lemma MulMonotone(x: nat, y: nat, m: nat)
    requires x <= y
    ensures x * m <= y * m
  {
    assert y * m == x * m + (y - x) * m;
  }

  function Bar(n: nat): (r: string)
    ensures |r| == n && forall k :: 0 <= k < n ==> r[k] == '█'
  {
    seq(n, _ => '█')
  }

  /** The chart line for the `i`-th number (from 0). */
  function ChartLine(i: nat, val: nat, maxVal: nat): string
    requires val <= maxVal && maxVal > 0
  {
    "[" + IntToString(i + 1) + "] " + Bar(BarLength(val, maxVal)) + " " + IntToString(val)
  }

  /** No number of `ns` exceeds `maxVal`. */
  predicate AtMost(ns: seq<nat>, maxVal: nat) {
    forall i :: 0 <= i < |ns| ==> ns[i] <= maxVal
  }

  /** The lines for `ns`, one per number and in order. */
  function ChartLines(ns: seq<nat>, maxVal: nat): (r: seq<string>)
    requires maxVal > 0 && AtMost(ns, maxVal)
    ensures |r| == |ns|
    ensures forall i :: 0 <= i < |ns| ==> r[i] == ChartLine(i, ns[i], maxVal)
  {
    if ns == [] then []
    else ChartLines(ns[..|ns| - 1], maxVal) + [ChartLine(|ns| - 1, ns[|ns| - 1], maxVal)]
  }

  const ChartHeader: seq<string> := ["📊 Simple Bar Chart:", ""]

  /** `create_data_visualization`, as a specification. With no number there is nothing to
      chart; when every number is 0 the division by `max_val` raises. */
  function VisualizationSpec(description: string): Answer
  {
    var ns := DigitRuns(description, 0);
    if ns == [] then Says("❌ No numbers found in description")
    else
      var m := MaxOf(ns);
      if m == 0 then Failed("❌ Visualization error: ")
      else
        assert AtMost(ns, m) by {
          forall i | 0 <= i < |ns| ensures ns[i] <= m {
            assert ns[i] in ns;
          }
        }
        Says(Join(ChartHeader + ChartLines(ns, m), "\n"))
  }

  /** `create_data_visualization`: the chart lines are appended one number at a time. */
  method CreateDataVisualization(description: string) returns (r: Answer)
    ensures r == VisualizationSpec(description)
  {
    var ns := DigitRuns(description, 0);
    if ns == [] {
      return Says("❌ No numbers found in description");
    }
    var m := MaxOf(ns);
    if m == 0 {
      return Failed("❌ Visualization error: ");
    }
    assert AtMost(ns, m) by {
      forall i | 0 <= i < |ns| ensures ns[i] <= m {
        assert ns[i] in ns;
      }
    }
    var lines: seq<string> := [];
    for i := 0 to |ns|
      invariant lines == ChartLines(ns[..i], m)
    {
      assert ns[..i + 1][..i] == ns[..i];
      lines := lines + [ChartLine(i, ns[i], m)];
    }
    assert ns[..|ns|] == ns;
    r := Says(Join(ChartHeader + lines, "\n"));
  }

  /** A chart has the header and then one line per number in input order; every bar is
      at most 40 long, and a bar for the largest number is exactly 40. */
  lemma ChartShape(ns: seq<nat>, maxVal: nat, i: nat)
    requires maxVal > 0 && AtMost(ns, maxVal) && i < |ns|
    ensures |ChartHeader + ChartLines(ns, maxVal)| == 2 + |ns|
    ensures (ChartHeader + ChartLines(ns, maxVal))[2 + i] == ChartLine(i, ns[i], maxVal)
    ensures |Bar(BarLength(ns[i], maxVal))| <= 40
    ensures ns[i] == maxVal ==> |Bar(BarLength(ns[i], maxVal))| == 40
  {
    var lines := ChartLines(ns, maxVal);
    assert (ChartHeader + lines)[2 + i] == lines[i];
  }
}

/**
 * What `runCode` captures from the program it runs (app/page.tsx:152-171).
 *
 * The user's program is abstracted as the sequence of things it does that
 * the component can observe: a `console.log` call with its arguments
 * already turned into strings, or an exception carrying its message. A
 * `Throw` ends the program, so events after the first one never happen.
 */
module Sandbox {

  datatype Event = Log(args: seq<string>) | Throw(message: string)

  /** How a run ends: normally, with every captured line, or by an
      exception, with the lines captured before it and its message. */
  datatype Outcome =
    | Completed(output: seq<string>)
    | Failed(output: seq<string>, message: string)

  /** What `console.log` is at a given moment: the browser's own, or an
      interceptor that appends to the array `captured` of some run. */
  datatype Channel = Native | Capturing(captured: seq<string>)

  /** The total length of some strings. */
  function SumOfLengths(args: seq<string>): nat {
    if args == [] then 0 else |args[0]| + SumOfLengths(args[1..])
  }

  /** `args.join(" ")`: the arguments in order, one space between each two. */
  function JoinArgs(args: seq<string>): (r: string)
    ensures |args| > 0 ==> |r| == SumOfLengths(args) + |args| - 1
    ensures |args| > 0 ==> args[0] <= r
    ensures |args| == 1 ==> r == args[0]
    ensures |args| == 0 ==> r == ""
  {
    if |args| == 0 then ""
    else if |args| == 1 then args[0]
    else args[0] + " " + JoinArgs(args[1..])
  }

  /** Joining two non-empty runs of arguments puts one space between their
      joins: the separator is a single space, and every argument is kept
      in order. */
  lemma {:induction false} JoinArgsAppend(a: seq<string>, b: seq<string>)
    requires a != [] && b != []
    ensures JoinArgs(a + b) == JoinArgs(a) + " " + JoinArgs(b)
    decreases |a|
  {
    assert (a + b)[0] == a[0];
    assert (a + b)[1..] == a[1..] + b;
    if |a| > 1 {
      JoinArgsAppend(a[1..], b);
    }
  }

  /** The events up to `k` are all `console.log` calls. */
  predicate LogsOnly(program: seq<Event>, k: nat)
    requires k <= |program|
  {
    forall i | 0 <= i < k :: program[i].Log?
  }

  /** The lines captured, in emission order, for those events. */
  predicate CapturedInOrder(program: seq<Event>, output: seq<string>)
  {
    |output| <= |program| &&
    forall i | 0 <= i < |output| :: program[i].Log? && output[i] == JoinArgs(program[i].args)
  }

  /** A log line in front of lines captured in order from the rest of the
      program is still captured in order. */
  lemma CapturedAfterLog(program: seq<Event>, rest: seq<string>)
    requires program != [] && program[0].Log? && CapturedInOrder(program[1..], rest)
    ensures CapturedInOrder(program, [JoinArgs(program[0].args)] + rest)
  {
  }

  /** Running the program under the interceptor: the lines captured are
      the program's logs in order, and the run stops at the first exception
      with that exception's message. */
  function Execute(program: seq<Event>): (r: Outcome)
    ensures CapturedInOrder(program, r.output)
    ensures r.Completed? ==> |r.output| == |program|
    ensures r.Failed? ==> |r.output| < |program| && program[|r.output|] == Throw(r.message)
    decreases |program|
  {
    if program == [] then Completed([])
    else match program[0]
      case Throw(message) => Failed([], message)
      case Log(args) =>
        match Execute(program[1..])
        case Completed(rest) =>
          CapturedAfterLog(program, rest);
          Completed([JoinArgs(args)] + rest)
        case Failed(rest, message) =>
          CapturedAfterLog(program, rest);
          assert program[|rest| + 1] == program[1..][|rest|];
          Failed([JoinArgs(args)] + rest, message)
  }

  /** The console's contents once `runCode` returns (app/page.tsx:161-169):
      for a program that only logs, one line per call in order; for one that
      throws, only the error line of its first exception, whatever it logged
      before. */
  function LogsAfterRun(program: seq<Event>): (r: seq<string>)
    ensures LogsOnly(program, |program|) ==> |r| == |program| && CapturedInOrder(program, r)
    ensures !LogsOnly(program, |program|) ==> r == ["Error: " + program[FirstThrow(program)].message]
  {
    match Execute(program)
    case Completed(output) => output
    case Failed(output, message) => ["Error: " + message]
  }

  /** A program that only logs completes, and the console shows one line per
      `console.log` call, its arguments joined by spaces, in order. */
  lemma CompletedRun(program: seq<Event>)
    requires LogsOnly(program, |program|)
    ensures Execute(program).Completed?
    ensures |Execute(program).output| == |program|
    ensures CapturedInOrder(program, Execute(program).output)
    ensures LogsAfterRun(program) == Execute(program).output
  {
  }

  /** A program whose first exception is at `k` fails with that exception's
      message after capturing the `k` lines before it; the console then
      shows the error line alone. */
  lemma FailedRun(program: seq<Event>, k: nat)
    requires k < |program| && program[k].Throw? && LogsOnly(program, k)
    ensures Execute(program) == Failed(Execute(program).output, program[k].message)
    ensures |Execute(program).output| == k
    ensures CapturedInOrder(program, Execute(program).output)
    ensures LogsAfterRun(program) == ["Error: " + program[k].message]
  {
  }

  /** A run completes exactly when the program throws nothing. */
  lemma CompletesIffNoThrow(program: seq<Event>)
    ensures Execute(program).Completed? <==> LogsOnly(program, |program|)
  {
  }

  /** The position of the first exception of a program that throws. */
  function FirstThrow(program: seq<Event>): (k: nat)
    requires !LogsOnly(program, |program|)
    ensures k < |program| && program[k].Throw? && LogsOnly(program, k)
    decreases |program|
  {
    if program[0].Throw? then 0
    else
      assert !LogsOnly(program[1..], |program| - 1) by {
        var j :| 0 <= j < |program| && !program[j].Log?;
        assert program[1..][j - 1] == program[j];
      }
      var k := FirstThrow(program[1..]);
      assert program[k + 1] == program[1..][k];
      assert LogsOnly(program, k + 1) by {
        forall i | 0 <= i < k + 1 ensures program[i].Log? {
          if i > 0 { assert program[i] == program[1..][i - 1]; }
        }
      }
      k + 1
  }

  /** The examples: two logs show both lines in order; a bare exception
      shows only its message; output logged before an exception is lost. */
  lemma RunExamples()
    ensures LogsAfterRun([Log(["a"]), Log(["b"])]) == ["a", "b"]
    ensures LogsAfterRun([Throw("boom")]) == ["Error: boom"]
    ensures LogsAfterRun([Log(["x"]), Throw("y")]) == ["Error: y"]
    ensures LogsAfterRun([Log(["sum", "3"])]) == ["sum 3"]
  {
    CompletedRun([Log(["a"]), Log(["b"])]);
    FailedRun([Throw("boom")], 0);
    assert "Error: " + "boom" == "Error: boom";
    FailedRun([Log(["x"]), Throw("y")], 1);
    assert "Error: " + "y" == "Error: y";
    CompletedRun([Log(["sum", "3"])]);
    assert JoinArgs(["sum", "3"]) == "sum" + " " + "3" == "sum 3";
  }
}

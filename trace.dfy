/**
  Stack-trace trimming (`Shell.prototype.createTrace`): the lines of an error's stack
  are kept up to, and not including, the first line that mentions a `Shell.` frame.
 */
module Trace {
  import opened Wrappers
  import opened JsString

  /** The marker that identifies the shell's own frames in a stack trace. */
  const ShellMarker: string := "Shell."

  /**
    `line.indexOf('Shell.') > 0`. Only the FIRST occurrence is looked at, so a line
    that begins with the marker is never a shell frame, whatever follows.
   */
  predicate IsShellFrame(line: string)
  {
    IndexOf(line, ShellMarker) > 0
  }

  /** A line is a shell frame exactly when the marker occurs past its start and not at its start. */
  lemma ShellFrameMeaning(line: string)
    ensures IsShellFrame(line) <==>
      !OccursAt(line, ShellMarker, 0) && exists j :: 0 < j && OccursAt(line, ShellMarker, j)
  {
  }

  /**
    The value handed to `createTrace`: `null` or `undefined`, on which reading `.stack`
    throws a TypeError, or any other value with the text of its `stack` property, if it
    has one (a thrown number or string has none).
   */
  datatype ErrorValue = Nullish | ErrorObject(stack: Option<string>)

  /** What `createTrace` gives: the kept lines, or the TypeError of reading `.stack` of a nullish value. */
  datatype TraceOutcome = TraceLines(lines: seq<string>) | StackTypeError

  /** `(error.stack || '').split('\n')`: a missing or empty stack gives one empty line. */
  function StackLines(stack: Option<string>): (lines: seq<string>)
    ensures |lines| >= 1
    ensures Join(lines, '\n') == stack.GetOr("")
    ensures forall i :: 0 <= i < |lines| ==> '\n' !in lines[i]
  {
    JoinSplit(stack.GetOr(""), '\n');
    Split(stack.GetOr(""), '\n')
  }

  /** The longest prefix of `lines` that holds no shell frame. */
  function TrimTrace(lines: seq<string>): (trace: seq<string>)
    ensures trace <= lines
    ensures forall i :: 0 <= i < |trace| ==> !IsShellFrame(trace[i])
    ensures |trace| < |lines| ==> IsShellFrame(lines[|trace|])
  {
    if lines == [] then []
    else if IsShellFrame(lines[0]) then []
    else [lines[0]] + TrimTrace(lines[1..])
  }

  /** The three properties of `TrimTrace` determine its result: any prefix satisfying them is it. */
  lemma TrimTraceUnique(lines: seq<string>, t: seq<string>)
    requires t <= lines
    requires forall i :: 0 <= i < |t| ==> !IsShellFrame(t[i])
    requires |t| < |lines| ==> IsShellFrame(lines[|t|])
    ensures t == TrimTrace(lines)
  {
  }

  /** A stack with no shell frame is kept whole. */
  lemma TrimTraceKeepsUnmarked(lines: seq<string>)
    requires forall i :: 0 <= i < |lines| ==> !IsShellFrame(lines[i])
    ensures TrimTrace(lines) == lines
  {
  }

  /** An error without a stack trims to a single empty line. */
  lemma MissingStackTrace()
    ensures TrimTrace(StackLines(None)) == [""]
  {
  }
}

/**
 * What the type creator sees of the C# compiler and of reflection: the
 * compiler's report (its error collection and the compiled assembly's
 * types), and the one-line rendering of each compiler entry.
 */
module Compilation {
  import opened Wrappers
  import opened Text

  /** One entry of CompilerResults.Errors. Warnings are entries too. */
  datatype CompilerError = CompilerError(line: int, errorNumber: string, errorText: string, isWarning: bool)

  /** A type of the compiled assembly, with the two reflection facts the
      creator asks about it: typeof(T).IsAssignableFrom(type) and whether
      GetConstructor(new Type[] { }) finds a public parameterless constructor. */
  datatype TypeDesc = TypeDesc(name: string, isAssignableToContract: bool, hasPublicParameterlessConstructor: bool)

  /** CompilerResults: the entries reported and, for the assembly, the
      types GetTypes() lists, in that order. */
  datatype CompilerResults = CompilerResults(errors: seq<CompilerError>, compiledTypes: seq<TypeDesc>)

  /** CompileAssemblyFromSource, given the referenced assemblies and the source. */
  type Compiler = (seq<string>, string) -> CompilerResults

  const LinePrefix := "Line number "

  /** "Line number {0}, Error Number: {1}, '{2}'" filled with the entry:
      it opens with the line prefix and closes with the entry's text quoted. */
  function FormatError(e: CompilerError): (r: string)
    ensures StartsWith(r, LinePrefix)
    ensures |r| >= |e.errorText| + 2 && r[|r| - |e.errorText| - 2..] == "'" + e.errorText + "'"
  {
    LinePrefix + IntToString(e.line) + ", Error Number: " + e.errorNumber + ", '" + e.errorText + "'"
  }

  /** The projection of a formatted entry into a list of strings, one
      string per entry, in the compiler's order. */
  function FormatErrors(errors: seq<CompilerError>): (r: seq<string>)
    ensures |r| == |errors|
    ensures forall k :: 0 <= k < |r| ==> r[k] == FormatError(errors[k])
  {
    if errors == [] then [] else [FormatError(errors[0])] + FormatErrors(errors[1..])
  }

  /** The line number a formatted entry starts with, if it has that shape. */
  function LeadingLine(message: string): Option<int> {
    if StartsWith(message, LinePrefix) then ParseInt(TakeUntil(message[|LinePrefix|..], ',')) else None
  }

  /** Each formatted entry still tells which source line it is about. */
  lemma FormatErrorLine(e: CompilerError)
    ensures LeadingLine(FormatError(e)) == Some(e.line)
  {
    var m := FormatError(e);
    var digits := IntToString(e.line);
    var rest := " Error Number: " + e.errorNumber + ", '" + e.errorText + "'";
    assert m == LinePrefix + (digits + [','] + rest);
    assert m[|LinePrefix|..] == digits + [','] + rest;
    TakeUntilStop(digits, ',', rest);
    IntToStringRoundTrip(e.line);
  }

  /** The line numbers of the entries, in order. */
  function Lines(errors: seq<CompilerError>): (r: seq<int>)
    ensures |r| == |errors|
    ensures forall k :: 0 <= k < |r| ==> r[k] == errors[k].line
  {
    if errors == [] then [] else [errors[0].line] + Lines(errors[1..])
  }

  /** The line numbers read back from a list of formatted entries; None
      when some string is not a formatted entry. */
  function ReportedLines(messages: seq<string>): Option<seq<int>> {
    if messages == [] then Some([])
    else match (LeadingLine(messages[0]), ReportedLines(messages[1..]))
      case (Some(l), Some(ls)) => Some([l] + ls)
      case _ => None
  }

  /** Formatting loses no entry and reorders none: the lines come back
      one for one, in the compiler's order. */
  lemma {:induction false} FormatErrorsRoundTrip(errors: seq<CompilerError>)
    ensures ReportedLines(FormatErrors(errors)) == Some(Lines(errors))
  {
    if errors != [] {
      var m := FormatErrors(errors);
      assert m[1..] == FormatErrors(errors[1..]);
      FormatErrorLine(errors[0]);
      FormatErrorsRoundTrip(errors[1..]);
    }
  }
}

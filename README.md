# RunTimeTypeCreator in Dafny

RunTimeTypeCreator compiles a C# source fragment at run time and hands back
an instance of the one compiled type that implements a contract `T`. If that
fails, it returns null and fills a list of messages. This project models the
single method that makes those decisions, `RunTimeTypeCreator.CreateType<T>`,
and proves what each of its outcomes means.

The call is a chain of checks, and each one can end the call early:

1. a null, empty or whitespace-only source throws `ArgumentException`;
2. if the compiler reports any entry at all (warnings count too), each entry
   becomes a string `Line number {line}, Error Number: {number}, '{text}'`
   and the call returns null;
3. otherwise the compiled types are narrowed to those assignable to `T`;
4. no such type gives "Could not find any types that implement {T} in source
   code", and more than one gives "Found multiple {T} in source. There should
   only be one {T}";
5. a single match without a public parameterless constructor gives "{T}
   implementation must have a public parameterless constructor";
6. otherwise an instance of the match is returned and the list stays empty.

Files (each is one module):

- `wrappers.dfy` (`Wrappers`): `Option`, which stands for a C# null.
- `text.dfy` (`Text`): the .NET pieces the method uses. These are
  `string.IsNullOrWhiteSpace` with the `char.IsWhiteSpace` set of Unicode
  6.3 and later, and the decimal rendering of an `int` that `string.Format`
  prints. `ParseInt` reads that rendering back.
- `compilation.dfy` (`Compilation`): what the method sees of the compiler.
  This covers the entries of `CompilerResults.Errors`, the types of the
  compiled assembly with their two reflection facts, and the formatting of
  entries into strings. The compiler is a function parameter from the
  referenced assemblies and the source to its results.
- `discovery.dfy` (`Discovery`): the `IsAssignableFrom` filter and what its
  length says about the compiled types.
- `type_creator.dfy` (`TypeCreator`): the decision and the method.
  - `Decide` is the stage at which a call stops.
  - `Report` is what the caller gets back at that stage.
  - `CreateType` is the imperative method. It builds the `out` list stage
    by stage in a local sequence and copies the references in a loop. It is
    proved equal to `Report(Decide(..))`.
  - `Explain` reads an outcome back into the failure kind. `ExplainReport`
    proves that, from every outcome `Report` gives, `Explain` recovers the
    stage that produced it.

The contract `T` appears in two ways. Its name (`typeof(T).Name`) is a
string parameter. Each compiled type carries an `isAssignableToContract`
flag. The instance that `Activator.CreateInstance` builds is represented by
its run-time type.

## Model

| member | source | states |
|---|---|---|
| `TypeCreator.CreateType` | RunTimeTypeCreator/RunTimeTypeCreator/RunTimeTypeCreator.cs:11-71 | The method's result equals the specified outcome for every compiler. The compiler therefore receives exactly the given assembly names, all of them, in input order and nothing else (lines 31-32, 35). The out list starts empty and gets only what each stage adds. |
| `TypeCreator.Decide` | RunTimeTypeCreator/RunTimeTypeCreator/RunTimeTypeCreator.cs:16-67 | The call stops at the source check exactly when the source is blank. A compiler failure carries the compiler's entries unchanged. Every later stage is reached only after a compile with no entries. A constructor failure names a compiled, assignable type without a public parameterless constructor, and an instantiation uses a compiled, assignable type that has one. |
| `TypeCreator.Report` | RunTimeTypeCreator/RunTimeTypeCreator/RunTimeTypeCreator.cs:19-70 | A call throws exactly when it stops at the source check. A returned call has exactly one side filled: the instance is null exactly when the error list is non-empty. A returned instance is of the single matched type. |
| `TypeCreator.BlankSourceThrows` | RunTimeTypeCreator/RunTimeTypeCreator/RunTimeTypeCreator.cs:16-17 | A null, empty or whitespace-only source, and only such a source, throws `ArgumentException("Must provide valid source", "source")`, before any list is assigned. |
| `TypeCreator.CompilerEntriesReported` | RunTimeTypeCreator/RunTimeTypeCreator/RunTimeTypeCreator.cs:37-44 | Any compiler entry, a warning included, makes the call return null with the formatted entries as its list. Reading the outcome back gives a compiler failure exactly when there were entries, with each entry's line in the compiler's order. |
| `TypeCreator.NoImplementationIff` | RunTimeTypeCreator/RunTimeTypeCreator/RunTimeTypeCreator.cs:50-55 | The outcome is null with the single not-found message if and only if the source passes the check, the compiler reports nothing and no compiled type is assignable to the contract. |
| `TypeCreator.MultipleImplementationsIff` | RunTimeTypeCreator/RunTimeTypeCreator/RunTimeTypeCreator.cs:56-60 | The outcome is null with the single multiple-types message if and only if compilation is clean and two compiled types at different positions are assignable to the contract, whatever their constructors. |
| `TypeCreator.MissingConstructorIff` | RunTimeTypeCreator/RunTimeTypeCreator/RunTimeTypeCreator.cs:62-67 | The outcome is null with the single constructor message if and only if compilation is clean, exactly one compiled type is assignable and it has no public parameterless constructor. No instance is made. |
| `TypeCreator.InstanceCreatedIff` | RunTimeTypeCreator/RunTimeTypeCreator/RunTimeTypeCreator.cs:62-70 | An instance is returned if and only if compilation is clean, exactly one compiled type is assignable and it has a public parameterless constructor. The instance is of that type and the error list is empty. |
| `TypeCreator.MessagesDistinct` | RunTimeTypeCreator/RunTimeTypeCreator/RunTimeTypeCreator.cs:40-65 | For every contract name, a formatted compiler entry, the not-found message, the multiple-types message and the constructor message are pairwise different. |
| `TypeCreator.ExplainReport` | RunTimeTypeCreator/RunTimeTypeCreator/RunTimeTypeCreator.cs:17-70 | Reading any outcome back recovers the stage that produced it: the exception, the line of every compiler entry in order, the kind of discovery or constructor failure, or the instantiated type. |
| `Compilation.FormatError` | RunTimeTypeCreator/RunTimeTypeCreator/RunTimeTypeCreator.cs:40-41 | A formatted entry starts with "Line number " and ends with the entry's text in single quotes. |
| `Compilation.FormatErrors` | RunTimeTypeCreator/RunTimeTypeCreator/RunTimeTypeCreator.cs:39-41 | Each compiler entry gives exactly one string, in the compiler's order. |
| `Compilation.FormatErrorLine` | RunTimeTypeCreator/RunTimeTypeCreator/RunTimeTypeCreator.cs:40-41 | A formatted entry starts with "Line number ", and the number after it parses back to the entry's line. |
| `Compilation.FormatErrorsRoundTrip` | RunTimeTypeCreator/RunTimeTypeCreator/RunTimeTypeCreator.cs:39-41 | The lines read back from the formatted list are the entries' lines, one for one and in order. |
| `Text.IsNullOrWhiteSpace` | RunTimeTypeCreator/RunTimeTypeCreator/RunTimeTypeCreator.cs:16 | A source is blank exactly when it is null or every character is white space in the `char.IsWhiteSpace` sense. The white-space set covers U+0009-U+000D, U+0085 and the Unicode 6.3 space, line and paragraph separators. An empty source is blank. |
| `Text.IntToString` | RunTimeTypeCreator/RunTimeTypeCreator/RunTimeTypeCreator.cs:40-41 | The line number is printed as a '-' sign only for a negative number, followed by digits without leading zeros (zero prints as exactly "0"), and contains no comma. |
| `Text.IntToStringRoundTrip` | RunTimeTypeCreator/RunTimeTypeCreator/RunTimeTypeCreator.cs:40-41 | The printed line number parses back to the same integer. |
| `Text.NatToStringRoundTrip` | RunTimeTypeCreator/RunTimeTypeCreator/RunTimeTypeCreator.cs:40-41 | The digits printed for a natural number have that number as their value. |
| `Discovery.AssignableTypes` | RunTimeTypeCreator/RunTimeTypeCreator/RunTimeTypeCreator.cs:47-48 | The filtered list holds every compiled type assignable to the contract and nothing else, and is no longer than the list of compiled types. |
| `Discovery.AnyMatchIff` | RunTimeTypeCreator/RunTimeTypeCreator/RunTimeTypeCreator.cs:47-50 | The filtered list is non-empty exactly when some compiled type is assignable. |
| `Discovery.MultipleMatchesIff` | RunTimeTypeCreator/RunTimeTypeCreator/RunTimeTypeCreator.cs:47-56 | The filtered list has more than one element exactly when two different positions of the compiled types are assignable. |
| `Discovery.UniqueMatchIff` | RunTimeTypeCreator/RunTimeTypeCreator/RunTimeTypeCreator.cs:47-62 | The filtered list has exactly one element exactly when one position alone is assignable. That element, the one `types.First()` takes, is the type at that position. |

The unit test `ReturnsCompilationErrors`
(RunTimeTypeCreator/RunTimeTypeCreator.Tests/RunTimeTypeCreatorTests.cs:51-64)
asserts a non-empty list and a null result for a source that does not
compile. `CompilerEntriesReported` and `Report` state this for every input.

Facts about the code that the model keeps:

- The messages are the exact strings at RunTimeTypeCreator.cs:52-53, 58
  and 65, given by `TypeCreator.NotFoundMessage`,
  `TypeCreator.MultipleMessage` and `TypeCreator.NoConstructorMessage`.
- The out list holds plain strings (line 13), not structured records.
- Any reported entry fails the call, warnings included, because line 37
  counts every entry of `CompilerResults.Errors`.

## Left out

- The C# compiler itself (`CSharpCodeProvider.CompileAssemblyFromSource`) is
  an arbitrary function parameter. It stands for `CompileAssemblyFromSource`
  with the settings of lines 22-28. `GenerateExecutable = false` builds a
  library, so no entry point is needed. `GenerateInMemory = true` loads the
  result into the calling process.
- Reflection is reduced to two given booleans per compiled type:
  `IsAssignableFrom` against `T` and `GetConstructor(new Type[] { })`. CLR
  type compatibility is not re-implemented.
- `Activator.CreateInstance` is modelled as always producing an instance of
  the matched type. Exceptions thrown by a user constructor, and their
  propagation to the caller, are foreign run-time behaviour.
- Loading in memory, and compiled code seeing the host's static state (the
  tests at RunTimeTypeCreatorTests.cs:28-48), are process behaviour with
  nothing to state about the decision.
- The `NullReferenceException` for a null `assemblies` (line 31) is an
  incidental run-time failure, so `assemblies` is always a sequence.
- `Text.IntToString`: line numbers are unbounded integers. The 32-bit range
  of `CompilerError.Line` plays no part in the decision or the formatting.
- `Text.IsWhiteSpace` follows Unicode 6.3 and later. Older .NET Framework
  versions also counted U+180E (Mongolian vowel separator) as white space, so
  there a source made only of U+180E throws. The model treats that source as
  not blank.
- Culture-specific number formatting is not modelled. The invariant-culture
  minus sign is used.

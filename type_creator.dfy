/**
 * RunTimeTypeCreator.CreateType<T>: compile a source fragment, find the one
 * compiled type assignable to the contract T, check that it has a public
 * parameterless constructor, and return an instance of it; or return null
 * with the reasons in the compilationErrors list.
 *
 * The contract T enters only through its name (typeof(T).Name, used in the
 * messages) and through each compiled type's isAssignableToContract flag.
 */
module TypeCreator {
  import opened Wrappers
  import opened Text
  import opened Compilation
  import opened Discovery

  datatype ArgumentException = ArgumentException(message: string, paramName: string)

  /** The object Activator.CreateInstance makes, known by its run-time type. */
  datatype Instance = Instance(runtimeType: TypeDesc)

  /** How a call ends: it throws before the out list is assigned, or it
      returns the instance (null is None) and the out list. */
  datatype CreateResult =
    | Threw(exception: ArgumentException)
    | Returned(instance: Option<Instance>, compilationErrors: seq<string>)

  const InvalidSourceException := ArgumentException("Must provide valid source", "source")

  function NotFoundMessage(contractName: string): string {
    "Could not find any types that implement " + contractName + " in source code"
  }

  function MultipleMessage(contractName: string): string {
    "Found multiple " + contractName + " in source. There should only be one " + contractName
  }

  function NoConstructorMessage(contractName: string): string {
    contractName + " implementation" + " must have a public parameterless constructor"
  }

  /** The entries of a compilation that reported something. */
  type Entries = s: seq<CompilerError> | |s| > 0 witness [CompilerError(0, "", "", false)]

  /** The point at which a call stops, in the order the checks are made. */
  datatype Stage =
    | InvalidSource
    | CompileFailed(entries: Entries)
    | NoMatch
    | MultipleMatches
    | MissingConstructor(candidate: TypeDesc)
    | Created(matched: TypeDesc)

  /** The chain of checks: blank source, any compiler entry at all
      (warnings included), no assignable type, several assignable types,
      no public parameterless constructor. The compiler sees the
      referenced assemblies exactly as given. */
  function Decide(source: Option<string>, assemblies: seq<string>, compile: Compiler): (stage: Stage)
    ensures stage.InvalidSource? <==> IsNullOrWhiteSpace(source)
    ensures stage.CompileFailed? ==> stage.entries == compile(assemblies, source.value).errors
    ensures !stage.InvalidSource? && !stage.CompileFailed? ==> compile(assemblies, source.value).errors == []
    ensures stage.MissingConstructor? ==>
      stage.candidate in compile(assemblies, source.value).compiledTypes &&
      Matches(stage.candidate) && !stage.candidate.hasPublicParameterlessConstructor
    ensures stage.Created? ==>
      stage.matched in compile(assemblies, source.value).compiledTypes &&
      Matches(stage.matched) && stage.matched.hasPublicParameterlessConstructor
  {
    if IsNullOrWhiteSpace(source) then InvalidSource
    else
      var result := compile(assemblies, source.value);
      if |result.errors| > 0 then CompileFailed(result.errors)
      else
        var types := AssignableTypes(result.compiledTypes);
        if |types| == 0 then NoMatch
        else if |types| > 1 then MultipleMatches
        else if !types[0].hasPublicParameterlessConstructor then MissingConstructor(types[0])
        else Created(types[0])
  }

  /** What the caller gets back at each stage. Exactly one side of a
      returned pair is populated: the instance is null precisely when the
      error list is non-empty. */
  function Report(stage: Stage, contractName: string): (r: CreateResult)
    ensures r.Threw? <==> stage.InvalidSource?
    ensures r.Returned? ==> (r.instance.None? <==> r.compilationErrors != [])
    ensures r.Returned? && r.instance.Some? ==> stage == Created(r.instance.value.runtimeType)
  {
    match stage
    case InvalidSource => Threw(InvalidSourceException)
    case CompileFailed(entries) => Returned(None, FormatErrors(entries))
    case NoMatch => Returned(None, [NotFoundMessage(contractName)])
    case MultipleMatches => Returned(None, [MultipleMessage(contractName)])
    case MissingConstructor(_) => Returned(None, [NoConstructorMessage(contractName)])
    case Created(t) => Returned(Some(Instance(t)), [])
  }

  /** The outcome of one call, as the checks decide it. */
  function CreateTypeOutcome(contractName: string, source: Option<string>, assemblies: seq<string>, compile: Compiler): CreateResult {
    Report(Decide(source, assemblies, compile), contractName)
  }

  /** CreateType<T>(source, assemblies, out compilationErrors), with T
      given by its name and the compiler by the function it computes. */
  method CreateType(contractName: string, source: Option<string>, assemblies: seq<string>, compile: Compiler)
    returns (r: CreateResult)
    ensures r == CreateTypeOutcome(contractName, source, assemblies, compile)
  {
    if IsNullOrWhiteSpace(source) {
      return Threw(InvalidSourceException);
    }
    var compilationErrors: seq<string> := [];

    var referencedAssemblies: seq<string> := [];
    for i := 0 to |assemblies|
      invariant referencedAssemblies == assemblies[..i]
    {
      referencedAssemblies := referencedAssemblies + [assemblies[i]];
    }
    assert referencedAssemblies == assemblies;

    var result := compile(referencedAssemblies, source.value);
    if |result.errors| > 0 {
      compilationErrors := compilationErrors + FormatErrors(result.errors);
      return Returned(None, compilationErrors);
    }

    var types := AssignableTypes(result.compiledTypes);
    if |types| == 0 {
      compilationErrors := compilationErrors + [NotFoundMessage(contractName)];
      return Returned(None, compilationErrors);
    }
    if |types| > 1 {
      compilationErrors := compilationErrors + [MultipleMessage(contractName)];
      return Returned(None, compilationErrors);
    }

    if !types[0].hasPublicParameterlessConstructor {
      compilationErrors := compilationErrors + [NoConstructorMessage(contractName)];
      return Returned(None, compilationErrors);
    }
    return Returned(Some(Instance(types[0])), compilationErrors);
  }

  /** What a caller can tell from a call's outcome alone. */
  datatype Verdict =
    | BadArgument
    | CompileFailedAt(lines: seq<int>)
    | NoImplementation
    | MultipleImplementations
    | NoParameterlessConstructor
    | Instantiated(runtimeType: TypeDesc)
    | Unexplained

  /** Reads an outcome back: the exception, the instance, or the kind of
      failure named by the error list. */
  function Explain(r: CreateResult, contractName: string): Verdict {
    match r
    case Threw(_) => BadArgument
    case Returned(Some(inst), errors) => if errors == [] then Instantiated(inst.runtimeType) else Unexplained
    case Returned(None, errors) =>
      if errors == [NotFoundMessage(contractName)] then NoImplementation
      else if errors == [MultipleMessage(contractName)] then MultipleImplementations
      else if errors == [NoConstructorMessage(contractName)] then NoParameterlessConstructor
      else match ReportedLines(errors)
        case Some(lines) => if lines != [] then CompileFailedAt(lines) else Unexplained
        case None => Unexplained
  }

  /** The verdict each stage should produce. */
  function Expected(stage: Stage): Verdict {
    match stage
    case InvalidSource => BadArgument
    case CompileFailed(entries) => CompileFailedAt(Lines(entries))
    case NoMatch => NoImplementation
    case MultipleMatches => MultipleImplementations
    case MissingConstructor(_) => NoParameterlessConstructor
    case Created(t) => Instantiated(t)
  }

  /** A formatted compiler entry is none of the three fixed messages: it
      starts with 'L' where two of them start with 'C' and 'F', and ends
      with a quote where the constructor message ends with 'r'. */
  lemma EntryIsNoFixedMessage(contractName: string, e: CompilerError)
    ensures FormatError(e) != NotFoundMessage(contractName)
    ensures FormatError(e) != MultipleMessage(contractName)
    ensures FormatError(e) != NoConstructorMessage(contractName)
  {
    var f := FormatError(e);
    assert f[..|LinePrefix|] == LinePrefix;
    assert f[0] == 'L';
    assert f[|f| - 1] == '\'';
    assert NotFoundMessage(contractName)[0] == 'C';
    assert MultipleMessage(contractName)[0] == 'F';
    var c := NoConstructorMessage(contractName);
    assert c == (contractName + " implementation") + " must have a public parameterless constructor";
    assert c[|c| - 1] == 'r';
  }

  /** The three fixed messages differ pairwise: by first character, by
      length (55 against 60 characters beyond the name), or, for a name of
      eight characters, by a space against 'l' at position 8. */
  lemma FixedMessagesDistinct(contractName: string)
    ensures NotFoundMessage(contractName) != MultipleMessage(contractName)
    ensures NotFoundMessage(contractName) != NoConstructorMessage(contractName)
    ensures MultipleMessage(contractName) != NoConstructorMessage(contractName)
  {
    var n, m, c := NotFoundMessage(contractName), MultipleMessage(contractName), NoConstructorMessage(contractName);
    assert n[0] == 'C' && m[0] == 'F';
    assert |n| == 55 + |contractName| && |c| == 60 + |contractName|;
    if |m| == |c| {
      assert c == contractName + (" implementation" + " must have a public parameterless constructor");
      assert |contractName| == 8 && c[8] == ' ';
      assert m == "Found multiple " + (contractName + " in source. There should only be one " + contractName);
      assert m[8] == 'l';
    }
  }

  /** No two of the four kinds of message can be confused, whatever the
      contract's name: the three fixed messages differ from a formatted
      compiler entry and from each other. */
  lemma MessagesDistinct(contractName: string, e: CompilerError)
    ensures FormatError(e) != NotFoundMessage(contractName)
    ensures FormatError(e) != MultipleMessage(contractName)
    ensures FormatError(e) != NoConstructorMessage(contractName)
    ensures NotFoundMessage(contractName) != MultipleMessage(contractName)
    ensures NotFoundMessage(contractName) != NoConstructorMessage(contractName)
    ensures MultipleMessage(contractName) != NoConstructorMessage(contractName)
  {
    EntryIsNoFixedMessage(contractName, e);
    FixedMessagesDistinct(contractName);
  }

  /** Reading the outcome back recovers the stage that produced it; for a
      failed compilation, the line of every entry, in order. */
  lemma ExplainReport(stage: Stage, contractName: string)
    ensures Explain(Report(stage, contractName), contractName) == Expected(stage)
  {
    match stage
    case CompileFailed(entries) =>
      var errors := FormatErrors(entries);
      FormatErrorsRoundTrip(entries);
      EntryIsNoFixedMessage(contractName, entries[0]);
      assert errors[0] == FormatError(entries[0]);
      assert errors != [NotFoundMessage(contractName)];
      assert errors != [MultipleMessage(contractName)];
      assert errors != [NoConstructorMessage(contractName)];
      assert Explain(Returned(None, errors), contractName) == CompileFailedAt(Lines(entries));
    case NoMatch =>
    case MultipleMatches =>
      FixedMessagesDistinct(contractName);
    case MissingConstructor(_) =>
      FixedMessagesDistinct(contractName);
    case InvalidSource =>
    case Created(_) =>
  }

  /** A clean compilation: the source passed the guard and the compiler
      reported no entry at all. */
  predicate CompiledCleanly(source: Option<string>, assemblies: seq<string>, compile: Compiler) {
    !IsNullOrWhiteSpace(source) && compile(assemblies, source.value).errors == []
  }

  /** The types of the compiled assembly; only meaningful past the guard. */
  function CompiledTypes(source: Option<string>, assemblies: seq<string>, compile: Compiler): seq<TypeDesc>
    requires !IsNullOrWhiteSpace(source)
  {
    compile(assemblies, source.value).compiledTypes
  }

  /** A null, empty or blank source throws ArgumentException, and nothing
      else does. */
  lemma BlankSourceThrows(contractName: string, source: Option<string>, assemblies: seq<string>, compile: Compiler)
    ensures CreateTypeOutcome(contractName, source, assemblies, compile).Threw? <==> IsNullOrWhiteSpace(source)
    ensures IsNullOrWhiteSpace(source) ==>
      CreateTypeOutcome(contractName, source, assemblies, compile) == Threw(ArgumentException("Must provide valid source", "source"))
  {
  }

  /** Any compiler entry, a warning as much as an error, makes the call
      return null with one formatted string per entry, in the compiler's
      order; and an outcome that reads back as a compiler failure comes
      from exactly those entries. */
  lemma CompilerEntriesReported(contractName: string, source: Option<string>, assemblies: seq<string>, compile: Compiler)
    requires !IsNullOrWhiteSpace(source)
    ensures var entries := compile(assemblies, source.value).errors;
      entries != [] ==>
        CreateTypeOutcome(contractName, source, assemblies, compile) == Returned(None, FormatErrors(entries))
    ensures var entries := compile(assemblies, source.value).errors;
      Explain(CreateTypeOutcome(contractName, source, assemblies, compile), contractName).CompileFailedAt? <==> entries != []
    ensures var entries := compile(assemblies, source.value).errors;
      entries != [] ==>
        Explain(CreateTypeOutcome(contractName, source, assemblies, compile), contractName) == CompileFailedAt(Lines(entries))
  {
    ExplainReport(Decide(source, assemblies, compile), contractName);
  }

  /** The not-found message alone is returned exactly when the compilation
      is clean and no compiled type is assignable to the contract. */
  lemma NoImplementationIff(contractName: string, source: Option<string>, assemblies: seq<string>, compile: Compiler)
    ensures CreateTypeOutcome(contractName, source, assemblies, compile) == Returned(None, [NotFoundMessage(contractName)])
      <==> CompiledCleanly(source, assemblies, compile) && !AnyMatch(CompiledTypes(source, assemblies, compile))
  {
    ExplainReport(Decide(source, assemblies, compile), contractName);
    if !IsNullOrWhiteSpace(source) {
      AnyMatchIff(CompiledTypes(source, assemblies, compile));
    }
  }

  /** The multiple-types message alone is returned exactly when the
      compilation is clean and two compiled types are assignable to the
      contract; the constructor is then never looked at. */
  lemma MultipleImplementationsIff(contractName: string, source: Option<string>, assemblies: seq<string>, compile: Compiler)
    ensures CreateTypeOutcome(contractName, source, assemblies, compile) == Returned(None, [MultipleMessage(contractName)])
      <==> CompiledCleanly(source, assemblies, compile) && TwoMatch(CompiledTypes(source, assemblies, compile))
  {
    ExplainReport(Decide(source, assemblies, compile), contractName);
    MessagesDistinct(contractName, CompilerError(0, "", "", false));
    if !IsNullOrWhiteSpace(source) {
      MultipleMatchesIff(CompiledTypes(source, assemblies, compile));
    }
  }

  /** The constructor message alone is returned exactly when the
      compilation is clean, one compiled type alone is assignable to the
      contract, and it lacks a public parameterless constructor. */
  lemma MissingConstructorIff(contractName: string, source: Option<string>, assemblies: seq<string>, compile: Compiler)
    ensures CreateTypeOutcome(contractName, source, assemblies, compile) == Returned(None, [NoConstructorMessage(contractName)])
      <==> (CompiledCleanly(source, assemblies, compile) &&
            var types := CompiledTypes(source, assemblies, compile);
            exists i :: OnlyMatchAt(types, i) && !types[i].hasPublicParameterlessConstructor)
  {
    ExplainReport(Decide(source, assemblies, compile), contractName);
    MessagesDistinct(contractName, CompilerError(0, "", "", false));
    if !IsNullOrWhiteSpace(source) {
      var types := CompiledTypes(source, assemblies, compile);
      UniqueMatchIff(types);
      if |AssignableTypes(types)| == 1 {
        var i :| OnlyMatchAt(types, i);
      }
    }
  }

  /** An instance is returned exactly when the compilation is clean, one
      compiled type alone is assignable to the contract, and it has a
      public parameterless constructor; the instance is of that type and
      the error list is empty. */
  lemma InstanceCreatedIff(contractName: string, source: Option<string>, assemblies: seq<string>, compile: Compiler)
    ensures var r := CreateTypeOutcome(contractName, source, assemblies, compile);
      r.Returned? && r.instance.Some?
      <==> (CompiledCleanly(source, assemblies, compile) &&
            var types := CompiledTypes(source, assemblies, compile);
            exists i :: OnlyMatchAt(types, i) && types[i].hasPublicParameterlessConstructor)
    ensures CompiledCleanly(source, assemblies, compile) ==>
      var types := CompiledTypes(source, assemblies, compile);
      forall i :: OnlyMatchAt(types, i) && types[i].hasPublicParameterlessConstructor ==>
        CreateTypeOutcome(contractName, source, assemblies, compile) == Returned(Some(Instance(types[i])), [])
  {
    if !IsNullOrWhiteSpace(source) {
      var types := CompiledTypes(source, assemblies, compile);
      UniqueMatchIff(types);
      if |AssignableTypes(types)| == 1 {
        var i :| OnlyMatchAt(types, i);
      }
    }
  }
}

/** What `make_files` does with the resolved options (MakeLHCbCppClass.py:129-146): the
    header text is the include preamble, the class documentation block and the class
    declaration; the implementation text comes from the `Cpp.Implementation` constructor.
    The lemmas here follow the options from the questions to the generated texts. */
module Generate {
  import opened Text
  import opened Config
  import opened Support
  import opened Header
  import opened Template
  import Cpp
  import opened Front

  /** The header file text (MakeLHCbCppClass.py:134-136), with the working directory path,
      the GECOS text of the user's password entry and the date passed in. */
  function HeaderText(name: string, c: Config, cwd: string, gecos: string, date: string): (r: string)
    requires HeaderReady(c) && BodyReady(c)
    ensures StartsWith(r, Preamble) && EndsWith(r, ClassTail)
  {
    var front := GenHeader(name, c) + DoxyComment(name, true, LastSegment(cwd), AuthorName(gecos), date);
    PrefixOfConcat(GenHeader(name, c), DoxyComment(name, true, LastSegment(cwd), AuthorName(gecos), date));
    PrefixTrans(front, GenHeader(name, c), Preamble);
    PrefixGrow(front, MakeBody(name, c), Preamble);
    SuffixOfConcat(front, MakeBody(name, c));
    EndsWithTrans(front + MakeBody(name, c), MakeBody(name, c), ClassTail);
    front + MakeBody(name, c)
  }

  /** A type chosen at the question is stored as a long name, which neither generator
      recognises: the header gets no include, the class no base and no lifecycle, and the
      implementation the plain class skeleton. */
  lemma InteractiveTypeFallsThrough(name: string, c: Config, a: Answers)
    requires c.kind == NoneValue
    ensures var r := Resolve(c, a).config;
      HeaderReady(r) && BodyReady(r) && !IsTypeCode(r.kind) &&
      GenHeader(name, r) == Preamble + "\n" &&
      MakeBody(name, r) == ClassHead(name) + "\n" + "public:\n" + AlgorithmConstructor(name) +
                           (DestructorLine(name) + "") + ClassTail &&
      Cpp.SkeletonFile(r.kind) == "raw_class.cpp"
  {
    var r := Resolve(c, a).config;
    ResolveKind(c, a);
    assert r.kind == Str(TypeToken(a.kind));
    GenHeaderDefault(name, r);
  }

  /** The short code `GFA` given on the command line asks no question and resolves the input to
      nothing and the output to `void`: the call operator is declared `void operator() ()`, and the
      implementation's operator body builds a `void` value unless the sub-kind is `Consumer`. */
  lemma ShortFunctionalCode(name: string, c: Config, a: Answers)
    requires c.kind == Str("GFA")
    ensures Resolve(c, a) == Resolved(c.(functionalInput := Str(""), functionalOutput := Str("void")))
    ensures var r := Resolve(c, a).config;
      EndsWith(MakeBody(name, r), "\n\n\t" + "void" + " operator() (" + "" + ") const override;" + ClassTail) &&
      (r.gaudiFunctional != Str("Consumer") ==> Cpp.OperatorParenText(r.gaudiFunctional, r.functionalOutput.s) == "void" + " ret; return ret;")
  {
    var r := Resolve(c, a).config;
    MakeBodyFunctional(name, r);
  }

  /** For the short code `A` the header includes the base class the implementation derives from. */
  lemma AlgorithmHeaderMatchesImplementation(name: string, c: Config, a: Answers)
    requires c.kind == Str("A") && c.algorithmType.Str?
    ensures var r := Resolve(c, a).config;
      r.algorithmType == c.algorithmType &&
      GenHeader(name, r) == Preamble + IncludeLine("GaudiAlg/Gaudi" + Cpp.AlgorithmTypeName(r.algorithmType.s))
  {
    var r := Resolve(c, a).config;
    GenHeaderAlgorithm(name, r);
    Cpp.AlgorithmNameMatchesInclude(r.algorithmType.s);
  }

  /** An algorithm's header includes and (unless `Normal`, whose declaration has an extra space)
      derives from `Gaudi<AlgorithmTypeName>`, the spelling `LHCbCpp` derives for the implementation. */
  lemma AlgorithmHeaderBase(name: string, c: Config)
    requires c.kind == Str("A") && c.algorithmType.Str?
    ensures GenHeader(name, c) == Preamble + IncludeLine("GaudiAlg/Gaudi" + Cpp.AlgorithmTypeName(c.algorithmType.s))
    ensures c.algorithmType != Str("Normal") ==>
      BaseClause(c) == "public Gaudi" + Cpp.AlgorithmTypeName(c.algorithmType.s) + " {\n"
  {
    GenHeaderAlgorithm(name, c);
    Cpp.AlgorithmNameMatchesInclude(c.algorithmType.s);
    MakeBodyAlgorithm(name, c);
  }

  /** Once `LHCbCpp` has stamped the options of an algorithm, the header and the implementation
      name the same base class: the skeleton's line `\treturn Gaudi${AlgorithmTypeName}...`
      (the `return` of its `finalize`), after whatever whole lines `pre` come before it,
      becomes `\treturn Gaudi<AlgorithmTypeName>...` with the base the header includes. */
  lemma AlgorithmBaseAgrees(name: string, o: Options, before: map<string, Value>, date: string, author: string,
                            pre: string, rest: string)
    requires o.Valid() && o.kind == Str("A") && o.algorithmType.Str?
    requires o.added == before + Cpp.Stamp(o.Snapshot(), date, author)
    requires pre == [] || pre[|pre| - 1] == '\n'
    ensures GenHeader(name, o.Snapshot()) == Preamble + IncludeLine("GaudiAlg/Gaudi" + Cpp.AlgorithmTypeName(o.algorithmType.s))
    ensures SafeSubstitute(pre + "\treturn Gaudi" + Braced("AlgorithmTypeName") + rest, o.Vars()) ==
            SafeSubstitute(pre, o.Vars()) + ("\treturn Gaudi" + Cpp.AlgorithmTypeName(o.algorithmType.s)) +
            SafeSubstitute(rest, o.Vars())
  {
    AlgorithmHeaderBase(name, o.Snapshot());
    Cpp.AlgorithmPlaceholders(o, before, date, author, pre, "\treturn Gaudi", rest);
  }

  /** Once `LHCbCpp` has stamped the options of a DaVinci algorithm, the skeleton's line
      `  return DaVinci${DaVinciAlgorithmTypeName}Algorithm...` (the `return` of its `finalize`),
      after whatever whole lines `pre` come before it, names the class the header includes. */
  lemma DaVinciBaseAgrees(name: string, o: Options, before: map<string, Value>, date: string, author: string,
                          pre: string, rest: string)
    requires o.Valid() && o.kind == Str("DVA")
    requires o.added == before + Cpp.Stamp(o.Snapshot(), date, author)
    requires pre == [] || pre[|pre| - 1] == '\n'
    ensures GenHeader(name, o.Snapshot()) ==
            Preamble + IncludeLine("Kernel/DaVinci" + Fmt(Cpp.DaVinciAlgorithmTypeName(o.daVinciAlgorithmType)) + "Algorithm")
    ensures SafeSubstitute(pre + "  return DaVinci" + Braced("DaVinciAlgorithmTypeName") + rest, o.Vars()) ==
            SafeSubstitute(pre, o.Vars()) + ("  return DaVinci" + Fmt(Cpp.DaVinciAlgorithmTypeName(o.daVinciAlgorithmType))) +
            SafeSubstitute(rest, o.Vars())
  {
    GenHeaderDaVinci(name, o.Snapshot());
    Cpp.DaVinciNameMatchesInclude(o.daVinciAlgorithmType);
    Cpp.DaVinciPlaceholders(o, before, date, author, pre, "  return DaVinci", rest);
  }
}

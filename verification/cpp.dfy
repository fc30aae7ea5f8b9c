/** The implementation-file generator (LHCbCpp.py): its constructor stamps the date and
    author into the shared options, adds the name the chosen skeleton needs for the class's
    type code, picks the skeleton, and fills its `${key}` placeholders from every attribute
    of the options. The skeleton texts are a parameter (file name to contents); the date,
    and the GECOS text of the user's password entry, are parameters too. */
module Cpp {
  import opened Text
  import opened Config
  import opened Support
  import opened Template
  import Header

  const SkeletonNames: set<string> := {"raw_GaudiFunctional.cpp", "raw_Tool.cpp", "raw_Interface.cpp",
                                       "raw_DaVinciAlgorithm.cpp", "raw_Algorithm.cpp", "raw_class.cpp"}

  /** The skeleton file for a type code; every other value gets the plain class skeleton. */
  function SkeletonFile(kind: Value): (f: string)
    ensures f in SkeletonNames
    ensures f == "raw_class.cpp" <==> !Header.IsTypeCode(kind)
  {
    if kind == Str("GFA") then "raw_GaudiFunctional.cpp"
    else if kind == Str("T") then "raw_Tool.cpp"
    else if kind == Str("I") then "raw_Interface.cpp"
    else if kind == Str("DVA") then "raw_DaVinciAlgorithm.cpp"
    else if kind == Str("A") then "raw_Algorithm.cpp"
    else "raw_class.cpp"
  }

  /** Different type codes get different skeletons: the choice is a six-way map. */
  lemma SkeletonFileInjective(k1: Value, k2: Value)
    requires Header.IsTypeCode(k1) && Header.IsTypeCode(k2) && k1 != k2
    ensures SkeletonFile(k1) != SkeletonFile(k2)
  {
  }

  /** `AlgorithmTypeName`: `Algorithm` for `Normal`, else the type followed by `Alg`. */
  function AlgorithmTypeName(algorithmType: string): string {
    if algorithmType == "Normal" then "Algorithm" else algorithmType + "Alg"
  }

  /** `DaVinciAlgorithmTypeName`: empty for `Normal`, else the DaVinci type itself. */
  function DaVinciAlgorithmTypeName(daVinciAlgorithmType: Value): Value {
    if daVinciAlgorithmType == Str("Normal") then Str("") else daVinciAlgorithmType
  }

  /** The body of the generated call operator: return nothing for a consumer, else a default-built output. */
  function OperatorParenText(gaudiFunctional: Value, output: string): string {
    if gaudiFunctional == Str("Consumer") then "return;" else output + " ret; return ret;"
  }

  /** The implementation's base class is the one the header includes: `Gaudi<AlgorithmTypeName>`
      names `GaudiAlg/GaudiAlgorithm` for `Normal` and `GaudiAlg/Gaudi<type>Alg` otherwise. */
  lemma AlgorithmNameMatchesInclude(algorithmType: string)
    ensures Header.AlgorithmInclude(Str(algorithmType)) == "GaudiAlg/Gaudi" + AlgorithmTypeName(algorithmType)
    ensures algorithmType == "Histo" ==> AlgorithmTypeName(algorithmType) == "HistoAlg"
  {
    if algorithmType != "Normal" {
      assert "GaudiAlg/Gaudi" + algorithmType + "Alg" == "GaudiAlg/Gaudi" + (algorithmType + "Alg");
    }
  }

  /** The DaVinci base class `DaVinci<DaVinciAlgorithmTypeName>Algorithm` is the one the header includes. */
  lemma DaVinciNameMatchesInclude(daVinciAlgorithmType: Value)
    ensures Header.DaVinciInclude(daVinciAlgorithmType) ==
            "Kernel/DaVinci" + Fmt(DaVinciAlgorithmTypeName(daVinciAlgorithmType)) + "Algorithm"
    ensures daVinciAlgorithmType != Str("Normal") ==> DaVinciAlgorithmTypeName(daVinciAlgorithmType) == daVinciAlgorithmType
  {
  }

  /** A consumer's operator returns nothing; every other sub-kind declares a value of the output
      type (the type the header's call operator returns) and returns it. */
  lemma OperatorParenTextReturns(gaudiFunctional: Value, output: string)
    ensures gaudiFunctional == Str("Consumer") <==> OperatorParenText(gaudiFunctional, output) == "return;"
    ensures gaudiFunctional != Str("Consumer") ==>
      StartsWith(OperatorParenText(gaudiFunctional, output), output + " ret;") &&
      EndsWith(OperatorParenText(gaudiFunctional, output), " return ret;")
  {
    var r := output + " ret; return ret;";
    if gaudiFunctional != Str("Consumer") {
      assert r == (output + " ret;") + " return ret;";
      assert r[..|output + " ret;"|] == output + " ret;";
      assert r[|r| - |" return ret;"|..] == " return ret;";
      assert |r| > |"return;"|;
    }
  }

  /** What the constructor needs of the options: for `GFA` the output type is a string
      (it is concatenated), and for `A` the algorithm type is one. */
  predicate CppReady(c: Config) {
    (c.kind == Str("GFA") ==> c.functionalOutput.Str?) &&
    (c.kind == Str("A") ==> c.algorithmType.Str?)
  }

  /** The attribute the constructor derives for the type code, if any. */
  function Derived(c: Config): (d: map<string, Value>)
    requires CppReady(c)
    ensures c.kind == Str("GFA") ==> d.Keys == {"operatorParenText"}
    ensures c.kind == Str("DVA") ==> d.Keys == {"DaVinciAlgorithmTypeName"}
    ensures c.kind == Str("A") ==> d.Keys == {"AlgorithmTypeName"}
    ensures c.kind != Str("GFA") && c.kind != Str("DVA") && c.kind != Str("A") ==> d == map[]
  {
    if c.kind == Str("GFA") then
      map["operatorParenText" := Str(OperatorParenText(c.gaudiFunctional, c.functionalOutput.s))]
    else if c.kind == Str("DVA") then
      map["DaVinciAlgorithmTypeName" := DaVinciAlgorithmTypeName(c.daVinciAlgorithmType)]
    else if c.kind == Str("A") then
      map["AlgorithmTypeName" := Str(AlgorithmTypeName(c.algorithmType.s))]
    else map[]
  }

  /** Everything the constructor adds to the options: the date, the author and the derived name. */
  function Stamp(c: Config, date: string, author: string): (s: map<string, Value>)
    requires CppReady(c)
    ensures s.Keys == {"date", "author"} + Derived(c).Keys
    ensures forall k :: k in Derived(c) ==> s[k] == Derived(c)[k]
    ensures s.Keys !! CliNames
    ensures s["date"] == Str(date) && s["author"] == Str(author)
  {
    map["date" := Str(date), "author" := Str(author)] + Derived(c)
  }

  class Implementation {
    const name: string
    const configs: Options
    /** The filled-in skeleton. */
    var genText: string

    /** `LHCbCpp(name, configs)`. */
    constructor (name: string, configs: Options, skeletons: map<string, string>, date: string, gecos: string)
      requires configs.Valid() && CppReady(configs.Snapshot())
      requires SkeletonFile(configs.kind) in skeletons
      modifies configs`added
      ensures this.name == name && this.configs == configs && configs.Valid()
      ensures configs.added == old(configs.added) + Stamp(old(configs.Snapshot()), date, AuthorName(gecos))
      ensures genText == SafeSubstitute(skeletons[SkeletonFile(configs.kind)], configs.Vars())
    {
      this.name := name;
      this.configs := configs;
      new;
      var author := AuthorName(gecos);
      StampOptions(configs, date, author);
      var skeleton := skeletons[SkeletonFile(configs.kind)];
      genText := SafeSubstitute(skeleton, configs.Vars());
    }
  }

  /** The assignments of the constructor (LHCbCpp.py:11-33): the date, the author, then the
      name derived for the type code. */
  method StampOptions(o: Options, date: string, author: string)
    requires o.Valid() && CppReady(o.Snapshot())
    modifies o`added
    ensures o.added == old(o.added) + Stamp(o.Snapshot(), date, author)
    ensures o.Valid()
  {
    var c := o.Snapshot();
    o.added := o.added["date" := Str(date)];
    o.added := o.added["author" := Str(author)];
    StampMerge(old(o.added), c, date, author);
    AddDerived(o, c);
  }

  /** The type-specific assignments of the constructor (LHCbCpp.py:14-36): the operator body
      for `GFA`, the DaVinci type name for `DVA`, the algorithm type name for `A`. */
  method AddDerived(o: Options, c: Config)
    requires CppReady(c)
    modifies o`added
    ensures o.added == old(o.added) + Derived(c)
  {
    if c.kind == Str("GFA") {
      o.added := o.added["operatorParenText" := Str(c.functionalOutput.s + " ret; return ret;")];
      if c.gaudiFunctional == Str("Consumer") {
        o.added := o.added["operatorParenText" := Str("return;")];
      }
      UpdateMerge(old(o.added), "operatorParenText", Str(OperatorParenText(c.gaudiFunctional, c.functionalOutput.s)));
    } else if c.kind == Str("DVA") {
      if c.daVinciAlgorithmType == Str("Normal") {
        o.added := o.added["DaVinciAlgorithmTypeName" := Str("")];
      } else {
        o.added := o.added["DaVinciAlgorithmTypeName" := c.daVinciAlgorithmType];
      }
      UpdateMerge(old(o.added), "DaVinciAlgorithmTypeName", DaVinciAlgorithmTypeName(c.daVinciAlgorithmType));
    } else if c.kind == Str("A") {
      if c.algorithmType == Str("Normal") {
        o.added := o.added["AlgorithmTypeName" := Str("Algorithm")];
      } else {
        o.added := o.added["AlgorithmTypeName" := Str(c.algorithmType.s + "Alg")];
      }
      UpdateMerge(old(o.added), "AlgorithmTypeName", Str(AlgorithmTypeName(c.algorithmType.s)));
    } else {
      assert old(o.added) + Derived(c) == old(o.added);
    }
  }

  /** Setting the date and the author, then the derived name, is adding the whole stamp. */
  lemma StampMerge(before: map<string, Value>, c: Config, date: string, author: string)
    requires CppReady(c)
    ensures before + Stamp(c, date, author) == before["date" := Str(date)]["author" := Str(author)] + Derived(c)
  {
  }

  lemma UpdateMerge(m: map<string, Value>, k: string, v: Value)
    ensures m[k := v] == m + map[k := v]
  {
  }

  /** Stamping keeps every command-line attribute and every attribute the stamp does not set. */
  lemma StampedVars(o: Options, before: map<string, Value>, c: Config, date: string, author: string)
    requires o.Valid() && CppReady(c) && o.added == before + Stamp(c, date, author)
    ensures forall k :: k in CliNames ==> k in o.Vars()
    ensures forall k :: k in before && k !in Stamp(c, date, author) ==> k in o.Vars() && o.Vars()[k] == before[k]
    ensures o.Vars()["date"] == Str(date) && o.Vars()["author"] == Str(author)
  {
  }

  /** The class name is not an attribute of the options, so every `${name}` in a skeleton stays
      verbatim, as does any key that no step sets (`${tool_interface}`, `${ref}`), wherever
      it sits after the skeleton's first lines `pre` and a `$`-free lead-in `p` on its own line. */
  lemma UnsetKeyVerbatim(o: Options, key: string, pre: string, p: string, rest: string)
    requires o.Valid() && IsIdentifier(key) && key !in CliNames && key !in o.added
    requires pre == [] || pre[|pre| - 1] == '\n'
    requires '$' !in p
    ensures SafeSubstitute(pre + p + Braced(key) + rest, o.Vars()) ==
            SafeSubstitute(pre, o.Vars()) + (p + Braced(key)) + SafeSubstitute(rest, o.Vars())
  {
    var m := o.Vars();
    SubstituteBraced(key, rest, m);
    assert p + Braced(key) + rest == p + (Braced(key) + rest);
    SubstitutePlain(p, Braced(key) + rest, m);
    SubstituteAfterLines(pre, p, Braced(key), rest, p + Braced(key), m);
  }

  /** After the constructor has run for a functional algorithm, `${operatorParenText}` becomes
      the operator body for its sub-kind and `${GaudiFunctionalOutput}` the output type. */
  lemma FunctionalPlaceholders(o: Options, before: map<string, Value>, date: string, author: string, rest: string)
    requires o.Valid() && o.kind == Str("GFA") && o.functionalOutput.Str?
    requires o.added == before + Stamp(o.Snapshot(), date, author)
    ensures SafeSubstitute(Braced("operatorParenText") + rest, o.Vars()) ==
            OperatorParenText(o.gaudiFunctional, o.functionalOutput.s) + SafeSubstitute(rest, o.Vars())
    ensures SafeSubstitute(Braced("GaudiFunctionalOutput") + rest, o.Vars()) ==
            o.functionalOutput.s + SafeSubstitute(rest, o.Vars())
  {
    var m := o.Vars();
    FunctionalVars(o, before, date, author);
    BracedLiteral("operatorParenText", rest, m);
    BracedLiteral("GaudiFunctionalOutput", rest, m);
  }

  lemma FunctionalVars(o: Options, before: map<string, Value>, date: string, author: string)
    requires o.Valid() && o.kind == Str("GFA") && o.functionalOutput.Str?
    requires o.added == before + Stamp(o.Snapshot(), date, author)
    ensures "operatorParenText" in o.Vars()
    ensures o.Vars()["operatorParenText"] == Str(OperatorParenText(o.gaudiFunctional, o.functionalOutput.s))
  {
    var c := o.Snapshot();
    assert Derived(c)["operatorParenText"] == Str(OperatorParenText(o.gaudiFunctional, o.functionalOutput.s));
  }

  lemma BracedLiteral(key: string, rest: string, m: map<string, Value>)
    requires key == "operatorParenText" || key == "GaudiFunctionalOutput" ||
             key == "AlgorithmTypeName" || key == "DaVinciAlgorithmTypeName"
    ensures SafeSubstitute(Braced(key) + rest, m) == (if key in m then Fmt(m[key]) else Braced(key)) + SafeSubstitute(rest, m)
  {
    assert IsIdentifier(key);
    SubstituteBraced(key, rest, m);
  }

  /** After the constructor has run for an algorithm, `${AlgorithmTypeName}` becomes the
      derived spelling, `Algorithm` for `Normal`, else the type and `Alg`, wherever it sits after
      the skeleton's first lines `pre` and a `$`-free lead-in `p` on its own line. */
  lemma AlgorithmPlaceholders(o: Options, before: map<string, Value>, date: string, author: string,
                              pre: string, p: string, rest: string)
    requires o.Valid() && o.kind == Str("A") && o.algorithmType.Str?
    requires o.added == before + Stamp(o.Snapshot(), date, author)
    requires pre == [] || pre[|pre| - 1] == '\n'
    requires '$' !in p
    ensures SafeSubstitute(pre + p + Braced("AlgorithmTypeName") + rest, o.Vars()) ==
            SafeSubstitute(pre, o.Vars()) + (p + AlgorithmTypeName(o.algorithmType.s)) + SafeSubstitute(rest, o.Vars())
  {
    var m := o.Vars();
    AlgorithmLine(o, before, date, author, p, rest);
    SubstituteAfterLines(pre, p, Braced("AlgorithmTypeName"), rest, p + AlgorithmTypeName(o.algorithmType.s), m);
  }

  lemma AlgorithmLine(o: Options, before: map<string, Value>, date: string, author: string, p: string, rest: string)
    requires o.Valid() && o.kind == Str("A") && o.algorithmType.Str?
    requires o.added == before + Stamp(o.Snapshot(), date, author)
    requires '$' !in p
    ensures SafeSubstitute(p + Braced("AlgorithmTypeName") + rest, o.Vars()) ==
            p + AlgorithmTypeName(o.algorithmType.s) + SafeSubstitute(rest, o.Vars())
  {
    var m := o.Vars();
    var c := o.Snapshot();
    assert Derived(c)["AlgorithmTypeName"] == Str(AlgorithmTypeName(o.algorithmType.s));
    assert m["AlgorithmTypeName"] == Str(AlgorithmTypeName(o.algorithmType.s));
    assert p + Braced("AlgorithmTypeName") + rest == p + (Braced("AlgorithmTypeName") + rest);
    SubstitutePlain(p, Braced("AlgorithmTypeName") + rest, m);
    BracedLiteral("AlgorithmTypeName", rest, m);
  }

  /** After the constructor has run for a DaVinci algorithm, `${DaVinciAlgorithmTypeName}` becomes
      nothing for `Normal` and the DaVinci type otherwise, wherever it sits after the skeleton's
      first lines `pre` and a `$`-free lead-in `p` on its own line. */
  lemma DaVinciPlaceholders(o: Options, before: map<string, Value>, date: string, author: string,
                            pre: string, p: string, rest: string)
    requires o.Valid() && o.kind == Str("DVA")
    requires o.added == before + Stamp(o.Snapshot(), date, author)
    requires pre == [] || pre[|pre| - 1] == '\n'
    requires '$' !in p
    ensures SafeSubstitute(pre + p + Braced("DaVinciAlgorithmTypeName") + rest, o.Vars()) ==
            SafeSubstitute(pre, o.Vars()) + (p + Fmt(DaVinciAlgorithmTypeName(o.daVinciAlgorithmType))) +
            SafeSubstitute(rest, o.Vars())
  {
    var m := o.Vars();
    DaVinciLine(o, before, date, author, p, rest);
    SubstituteAfterLines(pre, p, Braced("DaVinciAlgorithmTypeName"), rest,
                         p + Fmt(DaVinciAlgorithmTypeName(o.daVinciAlgorithmType)), m);
  }

  lemma DaVinciLine(o: Options, before: map<string, Value>, date: string, author: string, p: string, rest: string)
    requires o.Valid() && o.kind == Str("DVA")
    requires o.added == before + Stamp(o.Snapshot(), date, author)
    requires '$' !in p
    ensures SafeSubstitute(p + Braced("DaVinciAlgorithmTypeName") + rest, o.Vars()) ==
            p + Fmt(DaVinciAlgorithmTypeName(o.daVinciAlgorithmType)) + SafeSubstitute(rest, o.Vars())
  {
    var m := o.Vars();
    var c := o.Snapshot();
    assert Derived(c)["DaVinciAlgorithmTypeName"] == DaVinciAlgorithmTypeName(o.daVinciAlgorithmType);
    assert m["DaVinciAlgorithmTypeName"] == DaVinciAlgorithmTypeName(o.daVinciAlgorithmType);
    assert p + Braced("DaVinciAlgorithmTypeName") + rest == p + (Braced("DaVinciAlgorithmTypeName") + rest);
    SubstitutePlain(p, Braced("DaVinciAlgorithmTypeName") + rest, m);
    BracedLiteral("DaVinciAlgorithmTypeName", rest, m);
  }
}

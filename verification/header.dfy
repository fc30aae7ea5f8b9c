/** The header text builder (LHCbHeader.py): `genHeader` writes the include preamble
    and `makebody` the class declaration. Both dispatch on the short type codes
    `GFA`, `T`, `I`, `DVA` and `A`; any other value of the `type` attribute takes the
    default branches. Every text is built left to right, as the source appends to it. */
module Header {
  import opened Text
  import opened Config

  const Preamble := "#pragma once\n// from Gaudi\n"
  const UsingLine := "using namespace Gaudi::Functional;\n\n"
  const StlBlock := "\n// from STL\n#include <string>\n\n"

  /** `'#include "%s.h"\n' % file`. */
  function IncludeLine(file: string): string {
    "#include \"" + file + ".h\"\n"
  }

  /** The five type codes both generators recognise. */
  predicate IsTypeCode(v: Value) {
    v == Str("GFA") || v == Str("T") || v == Str("I") || v == Str("DVA") || v == Str("A")
  }

  /** What `genHeader` needs: for `GFA`, `'GaudiAlg/' + GaudiFunctional` is a string concatenation. */
  predicate HeaderReady(c: Config) {
    c.kind == Str("GFA") ==> c.gaudiFunctional.Str?
  }

  /** The file an algorithm includes: `GaudiAlg/GaudiAlgorithm` for `Normal`, else `GaudiAlg/Gaudi<type>Alg`. */
  function AlgorithmInclude(algorithmType: Value): string {
    if algorithmType == Str("Normal") then "GaudiAlg/GaudiAlgorithm"
    else "GaudiAlg/Gaudi" + Fmt(algorithmType) + "Alg"
  }

  /** The file a DaVinci algorithm includes: `Kernel/DaVinci<type>Algorithm`, with nothing for `Normal`. */
  function DaVinciInclude(daVinciAlgorithmType: Value): string {
    "Kernel/DaVinci" + (if daVinciAlgorithmType != Str("Normal") then Fmt(daVinciAlgorithmType) else "") + "Algorithm"
  }

  /** The include fragment `genHeader` appends, chosen by type code (LHCbHeader.py:14-31). */
  function Includes(name: string, c: Config): string
    requires HeaderReady(c)
  {
    if c.kind == Str("GFA") then IncludeLine("GaudiAlg/" + c.gaudiFunctional.s)
    else if c.kind == Str("T") then
      IncludeLine("GaudiAlg/GaudiTool") + (if c.interface != NoneValue then IncludeLine(Fmt(c.interface)) else "")
    else if c.kind == Str("I") then
      IncludeLine("GaudiAlg/IAlgTool") + InterfaceIdLine(name)
    else if c.kind == Str("DVA") then IncludeLine(DaVinciInclude(c.daVinciAlgorithmType))
    else if c.kind == Str("A") then IncludeLine(AlgorithmInclude(c.algorithmType))
    else "\n"
  }

  /** The interface ID declaration an interface's header ends with. */
  function InterfaceIdLine(name: string): string {
    "static const InterfaceID IID_" + name + "\" ( \"" + name + "\", 1, 0 );\n"
  }

  function StlPart(c: Config): string {
    if c.kind == Str("I") then StlBlock else ""
  }

  function UsingPart(c: Config): string {
    if c.kind == Str("GFA") then UsingLine else ""
  }

  /** `genHeader()`: the preamble, then one include fragment, then the `using` line for `GFA`. */
  function GenHeader(name: string, c: Config): (r: string)
    requires HeaderReady(c)
    ensures StartsWith(r, Preamble)
  {
    var r := Preamble + StlPart(c) + Includes(name, c) + UsingPart(c);
    PrefixOfConcat(Preamble, StlPart(c));
    PrefixGrow(Preamble + StlPart(c), Includes(name, c), Preamble);
    PrefixGrow(Preamble + StlPart(c) + Includes(name, c), UsingPart(c), Preamble);
    r
  }

  /** A value that is not one of the five codes yields only the preamble and a blank line. */
  lemma GenHeaderDefault(name: string, c: Config)
    requires !IsTypeCode(c.kind)
    ensures GenHeader(name, c) == Preamble + "\n"
  {
    assert StlPart(c) == [] && UsingPart(c) == [] && Includes(name, c) == "\n";
    DropEmpty(Preamble, StlPart(c), Includes(name, c), UsingPart(c));
  }

  /** An algorithm's header is the preamble and the one include line of its algorithm type. */
  lemma GenHeaderAlgorithm(name: string, c: Config)
    requires c.kind == Str("A")
    ensures GenHeader(name, c) == Preamble + IncludeLine(AlgorithmInclude(c.algorithmType))
    ensures c.algorithmType == Str("Normal") ==> AlgorithmInclude(c.algorithmType) == "GaudiAlg/GaudiAlgorithm"
    ensures c.algorithmType.Str? && c.algorithmType != Str("Normal") ==>
      AlgorithmInclude(c.algorithmType) == "GaudiAlg/Gaudi" + c.algorithmType.s + "Alg"
  {
    assert StlPart(c) == [] && UsingPart(c) == [];
    assert Includes(name, c) == IncludeLine(AlgorithmInclude(c.algorithmType));
    DropEmpty(Preamble, StlPart(c), Includes(name, c), UsingPart(c));
  }

  /** A DaVinci algorithm's header is the preamble and the one include line of its DaVinci type. */
  lemma GenHeaderDaVinci(name: string, c: Config)
    requires c.kind == Str("DVA")
    ensures GenHeader(name, c) == Preamble + IncludeLine(DaVinciInclude(c.daVinciAlgorithmType))
  {
    assert StlPart(c) == [] && UsingPart(c) == [];
    assert Includes(name, c) == IncludeLine(DaVinciInclude(c.daVinciAlgorithmType));
    DropEmpty(Preamble, StlPart(c), Includes(name, c), UsingPart(c));
  }

  /** A tool includes `GaudiTool.h`, and its interface's header exactly when an interface is named. */
  lemma GenHeaderTool(name: string, c: Config)
    requires c.kind == Str("T")
    ensures StartsWith(GenHeader(name, c), Preamble + IncludeLine("GaudiAlg/GaudiTool"))
    ensures c.interface == NoneValue <==> GenHeader(name, c) == Preamble + IncludeLine("GaudiAlg/GaudiTool")
    ensures c.interface != NoneValue ==> EndsWith(GenHeader(name, c), IncludeLine(Fmt(c.interface)))
  {
    var base := Preamble + IncludeLine("GaudiAlg/GaudiTool");
    var extra := if c.interface != NoneValue then IncludeLine(Fmt(c.interface)) else "";
    assert GenHeader(name, c) == Preamble + (IncludeLine("GaudiAlg/GaudiTool") + extra);
    assert Preamble + (IncludeLine("GaudiAlg/GaudiTool") + extra) == base + extra;
    PrefixOfConcat(base, extra);
    SuffixOfConcat(base, extra);
  }

  /** An interface's header adds the STL block after the preamble, includes `IAlgTool.h` and
      declares the interface ID named after the class. */
  lemma GenHeaderInterface(name: string, c: Config)
    requires c.kind == Str("I")
    ensures GenHeader(name, c) == Preamble + StlBlock + IncludeLine("GaudiAlg/IAlgTool") + InterfaceIdLine(name)
    ensures StartsWith(GenHeader(name, c), Preamble + StlBlock + IncludeLine("GaudiAlg/IAlgTool"))
    ensures EndsWith(GenHeader(name, c), InterfaceIdLine(name))
  {
    var p := Preamble + StlBlock + IncludeLine("GaudiAlg/IAlgTool");
    assert StlPart(c) == StlBlock && UsingPart(c) == [];
    assert Includes(name, c) == IncludeLine("GaudiAlg/IAlgTool") + InterfaceIdLine(name);
    FlattenPair(Preamble, StlBlock, IncludeLine("GaudiAlg/IAlgTool"), InterfaceIdLine(name), UsingPart(c));
    PrefixOfConcat(p, InterfaceIdLine(name));
    SuffixOfConcat(p, InterfaceIdLine(name));
  }

  /** A functional algorithm's header includes the header of its sub-kind from `GaudiAlg`
      and ends with the `using` line. */
  lemma GenHeaderFunctional(name: string, c: Config)
    requires c.kind == Str("GFA") && c.gaudiFunctional.Str?
    ensures GenHeader(name, c) == Preamble + IncludeLine("GaudiAlg/" + c.gaudiFunctional.s) + UsingLine
  {
    assert StlPart(c) == [] && UsingPart(c) == UsingLine;
    assert Includes(name, c) == IncludeLine("GaudiAlg/" + c.gaudiFunctional.s);
    assert Preamble + StlPart(c) == Preamble;
  }

  /** The `using namespace Gaudi::Functional;` line closes the header exactly for type `GFA`. */
  lemma GenHeaderUsing(name: string, c: Config)
    requires HeaderReady(c)
    ensures EndsWith(GenHeader(name, c), UsingLine) <==> c.kind == Str("GFA")
  {
    var front := Preamble + StlPart(c) + Includes(name, c);
    if c.kind == Str("GFA") {
      SuffixOfConcat(front, UsingLine);
    } else if !IsTypeCode(c.kind) {
      GenHeaderDefault(name, c);
    } else {
      IncludesEnding(name, c);
      SuffixOfConcat(Preamble + StlPart(c), Includes(name, c));
      assert GenHeader(name, c) == front;
      var e := if c.kind == Str("I") then ";\n" else "\"\n";
      EndsWithTrans(front, Includes(name, c), e);
      if EndsWith(front, UsingLine) {
        EndsWithTrans(front, UsingLine, "\n\n");
        SameSuffix(front, e, "\n\n");
      }
    }
  }

  /** Every recognised type other than `GFA` ends its include fragment with a line end after
      a closing quote (`.h"`) or a closing `);`. */
  lemma IncludesEnding(name: string, c: Config)
    requires IsTypeCode(c.kind) && c.kind != Str("GFA")
    ensures EndsWith(Includes(name, c), if c.kind == Str("I") then ";\n" else "\"\n")
  {
    var inc := Includes(name, c);
    if c.kind == Str("T") {
      var base := IncludeLine("GaudiAlg/GaudiTool");
      if c.interface != NoneValue {
        IncludeLineEnding(Fmt(c.interface));
        SuffixOfConcat(base, IncludeLine(Fmt(c.interface)));
        EndsWithTrans(inc, IncludeLine(Fmt(c.interface)), "\"\n");
      } else {
        IncludeLineEnding("GaudiAlg/GaudiTool");
        assert inc == base;
      }
    } else if c.kind == Str("I") {
      var front := "static const InterfaceID IID_" + name + "\" ( \"" + name;
      SuffixOfConcat(front, "\", 1, 0 );\n");
      EndsWithTrans(InterfaceIdLine(name), "\", 1, 0 );\n", ";\n");
      SuffixOfConcat(IncludeLine("GaudiAlg/IAlgTool"), InterfaceIdLine(name));
      EndsWithTrans(inc, InterfaceIdLine(name), ";\n");
    } else if c.kind == Str("DVA") {
      IncludeLineEnding(DaVinciInclude(c.daVinciAlgorithmType));
    } else {
      IncludeLineEnding(AlgorithmInclude(c.algorithmType));
    }
  }

  lemma IncludeLineEnding(file: string)
    ensures EndsWith(IncludeLine(file), "\"\n")
  {
    SuffixOfConcat("#include \"" + file, ".h\"\n");
    EndsWithTrans(IncludeLine(file), ".h\"\n", "\"\n");
  }

  // ---------------------------------------------------------------------------
  // makebody

  const ClassTail := "\n\nprotected:\n\nprivate:\n\n};\n"
  const LifecycleDecls :=
    "\n\tvirtual StatusCode initialize();    ///< Algorithm initialization\n" +
    "\tvirtual StatusCode execute   ();    ///< Algorithm execution\n" +
    "\tvirtual StatusCode finalize  ();    ///< Algorithm finalization\n"

  function ClassHead(name: string): string {
    "class " + name + " : "
  }

  function DestructorLine(name: string): string {
    "\n\tvirtual ~" + name + "( ); ///< Destructor \n"
  }

  /** The static accessor returning the class's own interface ID. */
  function InterfaceAccessor(name: string): string {
    "\t// Return the interface ID\n\tstatic const InterfaceID& interfaceID() { return IID_" + name + "; }\n"
  }

  /** The same accessor as a tool with an interface writes it (with a trailing space and a blank line). */
  function ToolInterfaceAccessor(name: string): string {
    "\t// Return the interface ID \n\tstatic const InterfaceID& interfaceID() { return IID_" + name + "; }\n\n"
  }

  /** The tool constructor, its continuation lines indented to line up under the first argument. */
  function ToolConstructor(name: string): string {
    var pad := Repeat(" ", |name| + 2);
    "\t/// Standard constructor\n\t" + name + "( const std::string& type,\n\t" + pad + "const std::string& name,\n\t" + pad + "const IInterface* parent);"
  }

  function AlgorithmConstructor(name: string): string {
    "\t/// Standard constructor\n\t" + name + "( const std::string& name, ISvcLocator* pSvcLocator );\n"
  }

  /** `KeyValue("<key>",{"<location>"})`. */
  function KeyValue(key: string, location: string): string {
    "KeyValue(\"" + key + "\",{\"" + location + "\"})"
  }

  /** The initializer arguments of a functional algorithm's constructor, by sub-kind
      (LHCbHeader.py:61-72): the source writes each `KeyValue` out literally. */
  function FuncIO(gaudiFunctional: Value): string {
    if gaudiFunctional == Str("Producer") then KeyValue("OutputLocation", "OUTPUTLOCATION")
    else if gaudiFunctional == Str("Transformer") then
      KeyValue("InputLocation", "INPUTLOCATION") + "\n\t\t," + KeyValue("OutputLocation", "OUTPUTLOCATION")
    else if gaudiFunctional == Str("Consumer") then KeyValue("OutputLocation", "OUTPUTLOCATION")
    else if gaudiFunctional == Str("MultiTransformer") then
      KeyValueGroup(KeyValue("Input1", "INPUT1LOC"), KeyValue("Input2", "INPUT2LOC")) + ",\n\t\t" +
      KeyValueGroup(KeyValue("Output1", "OUTPUTLOC1"), KeyValue("Output2", "OUTPUTLOC2"))
    else ""
  }

  /** Producer and Consumer share the one output location; Transformer puts an input location
      before that same output; MultiTransformer gives a braced pair of inputs and a braced pair
      of outputs; any other sub-kind gives nothing. */
  lemma FuncIOKeyValues(gaudiFunctional: Value)
    ensures gaudiFunctional == Str("Producer") || gaudiFunctional == Str("Consumer") ==>
      FuncIO(gaudiFunctional) == KeyValue("OutputLocation", "OUTPUTLOCATION")
    ensures FuncIO(Str("Producer")) == FuncIO(Str("Consumer"))
    ensures gaudiFunctional == Str("Transformer") ==>
      StartsWith(FuncIO(gaudiFunctional), KeyValue("InputLocation", "INPUTLOCATION")) &&
      EndsWith(FuncIO(gaudiFunctional), FuncIO(Str("Producer")))
    ensures gaudiFunctional == Str("MultiTransformer") ==>
      StartsWith(FuncIO(gaudiFunctional), KeyValueGroup(KeyValue("Input1", "INPUT1LOC"), KeyValue("Input2", "INPUT2LOC"))) &&
      EndsWith(FuncIO(gaudiFunctional), KeyValueGroup(KeyValue("Output1", "OUTPUTLOC1"), KeyValue("Output2", "OUTPUTLOC2")))
    ensures gaudiFunctional !in {Str("Producer"), Str("Consumer"), Str("Transformer"), Str("MultiTransformer")} ==>
      FuncIO(gaudiFunctional) == ""
  {
    if gaudiFunctional == Str("Transformer") {
      var input := KeyValue("InputLocation", "INPUTLOCATION");
      PrefixOfConcat(input, "\n\t\t,");
      PrefixGrow(input + "\n\t\t,", FuncIO(Str("Producer")), input);
      SuffixOfConcat(input + "\n\t\t,", FuncIO(Str("Producer")));
    } else if gaudiFunctional == Str("MultiTransformer") {
      var ins := KeyValueGroup(KeyValue("Input1", "INPUT1LOC"), KeyValue("Input2", "INPUT2LOC"));
      var outs := KeyValueGroup(KeyValue("Output1", "OUTPUTLOC1"), KeyValue("Output2", "OUTPUTLOC2"));
      PrefixOfConcat(ins, ",\n\t\t");
      PrefixGrow(ins + ",\n\t\t", outs, ins);
      SuffixOfConcat(ins + ",\n\t\t", outs);
    }
  }

  /** `{<first>,` line break `<second>}`: a braced pair of key/values. */
  function KeyValueGroup(first: string, second: string): string {
    "{" + first + ",\n\t\t " + second + "}"
  }

  function FunctionalConstructor(name: string, c: Config): string {
    "\t/// Standard constructor\n\t" + name + "( const std::string& name, ISvcLocator* pSvcLocator ) \n\t\t: " +
    Fmt(c.gaudiFunctional) + "(name, pSvcLocator, \n\t\t" + FuncIO(c.gaudiFunctional) + ")\n\t{}\n\n"
  }

  /** The call operator, declared from the output and input type attributes. */
  function OperatorDecl(c: Config): string {
    "\n\n\t" + Fmt(c.functionalOutput) + " operator() (" + Fmt(c.functionalInput) + ") const override;"
  }

  /** What `makebody` needs: the misspelt DaVinci branch refers to an undefined name. */
  predicate BodyReady(c: Config) {
    c.kind != Str("DaVinciAlgortihm")
  }

  /** The optional interface in a tool's base list. */
  function ToolInterfaceBase(interface: Value): string {
    if interface != NoneValue then ", virtual public " + Fmt(interface) else ""
  }

  /** The base-class list and opening brace, by type code (LHCbHeader.py:39-57). */
  function BaseClause(c: Config): string
    requires BodyReady(c)
  {
    if c.kind == Str("A") then
      "public Gaudi" + (if c.algorithmType != Str("Normal") then Fmt(c.algorithmType) + "Alg" else "Algorithm ") + " {\n"
    else if c.kind == Str("I") then "virtual public IAlgTool {\n"
    else if c.kind == Str("T") then "public GaudiTool" + ToolInterfaceBase(c.interface) + " {\n"
    else if c.kind == Str("GFA") then
      "public Gaudi::Functional::" + Fmt(c.gaudiFunctional) + "<" + Fmt(c.functionalOutput) + "(" + Fmt(c.functionalInput) + ")>{\n"
    else "\n"
  }

  /** The optional interface accessor of a tool. */
  function ToolAccessorPart(name: string, interface: Value): string {
    if interface != NoneValue then ToolInterfaceAccessor(name) else ""
  }

  /** The constructor section (LHCbHeader.py:61-84). */
  function Constructors(name: string, c: Config): string {
    if c.kind == Str("GFA") then FunctionalConstructor(name, c)
    else if c.kind == Str("I") then InterfaceAccessor(name)
    else if c.kind == Str("T") then ToolAccessorPart(name, c.interface) + ToolConstructor(name)
    else AlgorithmConstructor(name)
  }

  /** The call operator, nothing, or the destructor (LHCbHeader.py:87-92). */
  function MainMember(name: string, c: Config): string {
    if c.kind == Str("GFA") then OperatorDecl(c) else if c.kind == Str("I") then "" else DestructorLine(name)
  }

  /** The lifecycle declarations of algorithms (LHCbHeader.py:93-99). */
  function LifecyclePart(c: Config): string {
    if c.kind == Str("A") || c.kind == Str("DVA") then LifecycleDecls else ""
  }

  /** Everything `makebody` writes before the closing sections. */
  function BodyBeforeTail(name: string, c: Config): string
    requires BodyReady(c)
  {
    ClassHead(name) + BaseClause(c) + "public:\n" + Constructors(name, c) + (MainMember(name, c) + LifecyclePart(c))
  }

  /** `makebody()`. */
  function MakeBody(name: string, c: Config): (r: string)
    requires BodyReady(c)
    ensures StartsWith(r, ClassHead(name)) && EndsWith(r, ClassTail)
    ensures Contains(r, "public:\n")
  {
    var w := BodyBeforeTail(name, c);
    var p := ClassHead(name) + BaseClause(c) + "public:\n";
    PrefixOfConcat(ClassHead(name), BaseClause(c));
    PrefixGrow(ClassHead(name) + BaseClause(c), "public:\n", ClassHead(name));
    PrefixGrow(p, Constructors(name, c), ClassHead(name));
    PrefixGrow(p + Constructors(name, c), MainMember(name, c) + LifecyclePart(c), ClassHead(name));
    PrefixGrow(w, ClassTail, ClassHead(name));
    SuffixOfConcat(w, ClassTail);
    ContainsSuffix(ClassHead(name) + BaseClause(c), "public:\n");
    ContainsGrowRight(p, Constructors(name, c), "public:\n");
    ContainsGrowRight(p + Constructors(name, c), MainMember(name, c) + LifecyclePart(c), "public:\n");
    ContainsGrowRight(w, ClassTail, "public:\n");
    w + ClassTail
  }

  /** The last two characters before the closing sections, by type code: the lifecycle block
      ends `n\n`, the call operator `e;`, the interface accessor `}\n` and the destructor ` \n`. */
  function BodyEnding(c: Config): string {
    if c.kind == Str("A") || c.kind == Str("DVA") then "n\n"
    else if c.kind == Str("GFA") then "e;"
    else if c.kind == Str("I") then "}\n"
    else " \n"
  }

  lemma BeforeTailEnding(name: string, c: Config)
    requires BodyReady(c)
    ensures EndsWith(BodyBeforeTail(name, c), BodyEnding(c))
  {
    var pre := ClassHead(name) + BaseClause(c) + "public:\n" + Constructors(name, c);
    var m := MainMember(name, c) + LifecyclePart(c);
    SuffixOfConcat(pre, m);
    if c.kind == Str("I") {
      InterfaceBodyEnding(name, c);
    } else {
      MembersEnding(name, c);
      EndsWithTrans(BodyBeforeTail(name, c), m, BodyEnding(c));
    }
  }

  lemma MembersEnding(name: string, c: Config)
    requires c.kind != Str("I")
    ensures EndsWith(MainMember(name, c) + LifecyclePart(c), BodyEnding(c))
  {
    var m := MainMember(name, c) + LifecyclePart(c);
    if c.kind == Str("A") || c.kind == Str("DVA") {
      SuffixOfConcat(MainMember(name, c), LifecycleDecls);
      LifecycleEnding();
      EndsWithTrans(m, LifecycleDecls, "n\n");
    } else if c.kind == Str("GFA") {
      assert m == OperatorDecl(c);
      SuffixOfConcat("\n\n\t" + Fmt(c.functionalOutput) + " operator() (" + Fmt(c.functionalInput), ") const override;");
      EndsWithTrans(m, ") const override;", "e;");
    } else {
      assert m == DestructorLine(name);
      DestructorEnding(name);
    }
  }

  lemma InterfaceBodyEnding(name: string, c: Config)
    requires c.kind == Str("I")
    ensures EndsWith(BodyBeforeTail(name, c), "}\n")
  {
    var p := ClassHead(name) + BaseClause(c) + "public:\n";
    assert BodyBeforeTail(name, c) == p + InterfaceAccessor(name);
    SuffixOfConcat(p, InterfaceAccessor(name));
    SuffixOfConcat("\t// Return the interface ID\n\tstatic const InterfaceID& interfaceID() { return IID_" + name, "; }\n");
    EndsWithTrans(InterfaceAccessor(name), "; }\n", "}\n");
    EndsWithTrans(BodyBeforeTail(name, c), InterfaceAccessor(name), "}\n");
  }

  lemma LifecycleEnding()
    ensures EndsWith(LifecycleDecls, "n\n")
  {
    SuffixOfConcat("\n\tvirtual StatusCode initialize();    ///< Algorithm initialization\n" +
                   "\tvirtual StatusCode execute   ();    ///< Algorithm execution\n",
                   "\tvirtual StatusCode finalize  ();    ///< Algorithm finalization\n");
    EndsWithTrans(LifecycleDecls, "\tvirtual StatusCode finalize  ();    ///< Algorithm finalization\n", "n\n");
  }

  lemma DestructorEnding(name: string)
    ensures EndsWith(DestructorLine(name), " \n")
  {
    SuffixOfConcat("\n\tvirtual ~" + name, "( ); ///< Destructor \n");
    EndsWithTrans(DestructorLine(name), "( ); ///< Destructor \n", " \n");
  }

  /** The three lifecycle declarations close the class body exactly for types `A` and `DVA`. */
  lemma MakeBodyLifecycle(name: string, c: Config)
    requires BodyReady(c)
    ensures EndsWith(MakeBody(name, c), LifecycleDecls + ClassTail) <==> c.kind == Str("A") || c.kind == Str("DVA")
  {
    var w := BodyBeforeTail(name, c);
    var m := MainMember(name, c) + LifecyclePart(c);
    CancelSuffix(w, LifecycleDecls, ClassTail);
    if c.kind == Str("A") || c.kind == Str("DVA") {
      SuffixOfConcat(ClassHead(name) + BaseClause(c) + "public:\n" + Constructors(name, c), m);
      SuffixOfConcat(MainMember(name, c), LifecycleDecls);
      EndsWithTrans(w, m, LifecycleDecls);
    } else if EndsWith(w, LifecycleDecls) {
      BeforeTailEnding(name, c);
      LifecycleEnding();
      EndsWithTrans(w, LifecycleDecls, "n\n");
      SameSuffix(w, BodyEnding(c), "n\n");
    }
  }

  /** The destructor is declared, just before any lifecycle declarations, for every type except `GFA` and `I`. */
  lemma MakeBodyDestructor(name: string, c: Config)
    requires BodyReady(c)
    ensures EndsWith(MakeBody(name, c), DestructorLine(name) + LifecyclePart(c) + ClassTail)
            <==> c.kind != Str("GFA") && c.kind != Str("I")
  {
    var w := BodyBeforeTail(name, c);
    var m := MainMember(name, c) + LifecyclePart(c);
    CancelSuffix(w, DestructorLine(name) + LifecyclePart(c), ClassTail);
    if c.kind != Str("GFA") && c.kind != Str("I") {
      SuffixOfConcat(ClassHead(name) + BaseClause(c) + "public:\n" + Constructors(name, c), m);
    } else if EndsWith(w, DestructorLine(name) + LifecyclePart(c)) {
      assert DestructorLine(name) + LifecyclePart(c) == DestructorLine(name);
      BeforeTailEnding(name, c);
      DestructorEnding(name);
      EndsWithTrans(w, DestructorLine(name), " \n");
      SameSuffix(w, BodyEnding(c), " \n");
    }
  }

  /** A tool's base list names its interface and the accessor `interfaceID()` is emitted exactly
      when an interface is set; without one the class is `GaudiTool` with its constructor and destructor only. */
  lemma MakeBodyTool(name: string, c: Config)
    requires c.kind == Str("T")
    ensures c.interface != NoneValue ==>
      StartsWith(MakeBody(name, c), ClassHead(name) + ("public GaudiTool" + ", virtual public " + Fmt(c.interface) + " {\n") +
                 "public:\n" + ToolInterfaceAccessor(name))
    ensures c.interface == NoneValue ==>
      MakeBody(name, c) == ClassHead(name) + "public GaudiTool {\n" + "public:\n" + ToolConstructor(name) +
                           DestructorLine(name) + ClassTail
  {
    var p := ClassHead(name) + BaseClause(c) + "public:\n";
    var rest := MainMember(name, c) + LifecyclePart(c);
    assert rest == DestructorLine(name);
    if c.interface != NoneValue {
      assert BaseClause(c) == "public GaudiTool" + ", virtual public " + Fmt(c.interface) + " {\n";
      assert Constructors(name, c) == ToolInterfaceAccessor(name) + ToolConstructor(name);
      ConcatPrefix(p, ToolInterfaceAccessor(name), ToolConstructor(name));
      PrefixGrow(p + Constructors(name, c), rest, p + ToolInterfaceAccessor(name));
      PrefixGrow(BodyBeforeTail(name, c), ClassTail, p + ToolInterfaceAccessor(name));
    } else {
      assert BaseClause(c) == "public GaudiTool {\n";
      assert Constructors(name, c) == ToolConstructor(name);
    }
  }

  /** An interface derives from `IAlgTool`, exposes its own `interfaceID()` and declares no destructor. */
  lemma MakeBodyInterface(name: string, c: Config)
    requires c.kind == Str("I")
    ensures MakeBody(name, c) == ClassHead(name) + "virtual public IAlgTool {\n" + "public:\n" + InterfaceAccessor(name) + ClassTail
  {
    assert MainMember(name, c) + LifecyclePart(c) == "";
  }

  /** The DaVinci branch tests a misspelt code, so type `DVA`, like every unrecognised value,
      gets an empty base list: `class <name> : ` is followed by a line end and `public:`. */
  lemma MakeBodyDefaultBase(name: string, c: Config)
    requires BodyReady(c)
    requires c.kind != Str("A") && c.kind != Str("I") && c.kind != Str("T") && c.kind != Str("GFA")
    ensures StartsWith(MakeBody(name, c), ClassHead(name) + "\n" + "public:\n" + AlgorithmConstructor(name))
  {
    var p := ClassHead(name) + "\n" + "public:\n" + AlgorithmConstructor(name);
    PrefixOfConcat(p, MainMember(name, c) + LifecyclePart(c));
    PrefixGrow(BodyBeforeTail(name, c), ClassTail, p);
  }

  /** A functional algorithm passes its sub-kind's key/values to the base constructor and ends
      with the call operator declared from the output and input attributes. */
  lemma MakeBodyFunctional(name: string, c: Config)
    requires c.kind == Str("GFA")
    ensures Contains(MakeBody(name, c), FuncIO(c.gaudiFunctional))
    ensures EndsWith(MakeBody(name, c), OperatorDecl(c) + ClassTail)
  {
    var p := ClassHead(name) + BaseClause(c) + "public:\n";
    var m := MainMember(name, c) + LifecyclePart(c);
    var w := BodyBeforeTail(name, c);
    var fc := FunctionalConstructor(name, c);
    var io := FuncIO(c.gaudiFunctional);
    var before := "\t/// Standard constructor\n\t" + name + "( const std::string& name, ISvcLocator* pSvcLocator ) \n\t\t: " +
      Fmt(c.gaudiFunctional) + "(name, pSvcLocator, \n\t\t";
    ContainsSuffix(before, io);
    ContainsGrowRight(before + io, ")\n\t{}\n\n", io);
    ContainsGrowLeft(p, fc, io);
    ContainsGrowRight(p + fc, m, io);
    ContainsGrowRight(w, ClassTail, io);
    assert m == OperatorDecl(c);
    SuffixOfConcat(p + fc, m);
    CancelSuffix(w, OperatorDecl(c), ClassTail);
  }

  /** An algorithm derives from `GaudiAlgorithm` for `Normal` (written with a second space
      before the brace) and from `Gaudi<type>Alg` otherwise, then declares the plain constructor. */
  lemma MakeBodyAlgorithm(name: string, c: Config)
    requires c.kind == Str("A")
    ensures StartsWith(MakeBody(name, c), ClassHead(name) + BaseClause(c) + "public:\n" + AlgorithmConstructor(name))
    ensures c.algorithmType == Str("Normal") ==> BaseClause(c) == "public GaudiAlgorithm  {\n"
    ensures c.algorithmType != Str("Normal") ==> BaseClause(c) == "public Gaudi" + (Fmt(c.algorithmType) + "Alg") + " {\n"
  {
    var p := ClassHead(name) + BaseClause(c) + "public:\n" + AlgorithmConstructor(name);
    assert Constructors(name, c) == AlgorithmConstructor(name);
    assert BodyBeforeTail(name, c) == p + (MainMember(name, c) + LifecyclePart(c));
    PrefixOfConcat(p, MainMember(name, c) + LifecyclePart(c));
    PrefixGrow(BodyBeforeTail(name, c), ClassTail, p);
  }

  /** A functional algorithm derives from `Gaudi::Functional::<sub-kind><output(input)>`, the
      signature its call operator is declared with, then declares the functional constructor. */
  lemma MakeBodyFunctionalBase(name: string, c: Config)
    requires c.kind == Str("GFA")
    ensures StartsWith(MakeBody(name, c), ClassHead(name) +
      ("public Gaudi::Functional::" + Fmt(c.gaudiFunctional) + "<" + Fmt(c.functionalOutput) + "(" + Fmt(c.functionalInput) + ")>{\n") +
      "public:\n" + FunctionalConstructor(name, c))
  {
    var p := ClassHead(name) + BaseClause(c) + "public:\n" + FunctionalConstructor(name, c);
    PrefixOfConcat(p, MainMember(name, c) + LifecyclePart(c));
    PrefixGrow(BodyBeforeTail(name, c), ClassTail, p);
  }
}

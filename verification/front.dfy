/** The front end (`make_files` in MakeLHCbCppClass.py): it completes the options by
    asking questions for whatever the command line left unset; the generators that
    follow are in the module Generate. The answers to the questions are a parameter
    (`Answers`); an answer the front end cannot parse ends the run, which is the
    `Aborted` outcome here. */
module Front {
  import opened Text
  import opened Config

  datatype Option<T> = None | Some(value: T)

  /** The answers the user would type, one per question, in the order asked. A question
      that is not asked leaves its answer unused. */
  datatype Answers = Answers(
    kind: string,           // A/D/F/T/I/[no]
    interface: string,      // interface name, blank for none
    functional: string,     // [T]/P/C/M
    declareInput: string,   // [y]/n
    inputText: string,      // input types, separated by ;
    declareOutput: string,  // [y]/n
    outputText: string,     // output types, separated by ;
    algorithm: string,      // [N]/H/T
    daVinci: string)        // [N]/H/T

  /** `headerConfigs['algorithm']`: the type names the front end stores. */
  const KindNames: set<string> := {"Algorithm", "GaudiFunctionalAlgorithm", "DaVinciAlgorithm", "Tool", "Interface", "simple"}
  /** `headerConfigs['NAtype']` and `headerConfigs['DVtype']`. */
  const SubTypeNames: set<string> := {"Normal", "Histo", "Tuple"}
  /** `headerConfigs['GFtype']`. */
  const FunctionalNames: set<string> := {"Producer", "Consumer", "Transformer", "MultiTransformer",
                                         "SplittingTransformer", "MergingTransformer", "FilterPredicate",
                                         "MultiTransformerFilter"}

  /** The type question (MakeLHCbCppClass.py:22-38): one letter per type; anything else is a simple class. */
  function TypeToken(answer: string): (kind: string)
    ensures kind in KindNames
    ensures kind == "simple" <==> answer !in {"A", "F", "D", "T", "I"}
  {
    if answer == "A" then "Algorithm"
    else if answer == "F" then "GaudiFunctionalAlgorithm"
    else if answer == "D" then "DaVinciAlgorithm"
    else if answer == "T" then "Tool"
    else if answer == "I" then "Interface"
    else "simple"
  }

  /** The functional sub-kind question (MakeLHCbCppClass.py:47-58): Transformer is the default;
      an unknown letter is rejected. */
  function FunctionalToken(answer: string): (r: Option<string>)
    ensures r.Some? ==> r.value in FunctionalNames
    ensures r.None? <==> answer !in {"T", "", "P", "C", "M"}
    ensures answer == "" ==> r == Some("Transformer")
  {
    if answer == "T" || answer == "" then Some("Transformer")
    else if answer == "P" then Some("Producer")
    else if answer == "C" then Some("Consumer")
    else if answer == "M" then Some("MultiTransformer")
    else None
  }

  /** The algorithm (or DaVinci) sub-type question (MakeLHCbCppClass.py:111-117, 119-125):
      Normal is the default; an unknown letter is rejected. */
  function SubTypeToken(answer: string): (r: Option<string>)
    ensures r.Some? ==> r.value in SubTypeNames
    ensures r.None? <==> answer !in {"", "N", "H", "T"}
    ensures answer == "" ==> r == Some("Normal")
  {
    if answer == "" || answer == "N" then Some("Normal")
    else if answer == "H" then Some("Histo")
    else if answer == "T" then Some("Tuple")
    else None
  }

  // ---------------------------------------------------------------------------
  // The list of types typed at the input and output questions

  /** Each piece right-stripped. */
  function Stripped(parts: seq<string>): (r: seq<string>)
    ensures |r| == |parts| && forall i :: 0 <= i < |parts| ==> r[i] == RStrip(parts[i])
  {
    seq(|parts|, i requires 0 <= i < |parts| => RStrip(parts[i]))
  }

  /** `', '.join(pieces)`. */
  function CommaJoin(pieces: seq<string>): string
    decreases |pieces|
  {
    if |pieces| == 0 then ""
    else if |pieces| == 1 then pieces[0]
    else CommaJoin(pieces[..|pieces| - 1]) + ", " + pieces[|pieces| - 1]
  }

  /** The joiner as written: after each piece it appends `, ` unless the piece equals the last
      piece of the whole list (a comparison of values, not of positions). */
  function AsWrittenJoin(parts: seq<string>, last: string): string
    decreases |parts|
  {
    if parts == [] then ""
    else
      var p := parts[|parts| - 1];
      AsWrittenJoin(parts[..|parts| - 1], last) + RStrip(p) + (if p != last then ", " else "")
  }

  /** What the joiner loop of MakeLHCbCppClass.py:75-80 yields for a non-empty answer. */
  function JoinedTypesAsWritten(text: string): string {
    AsWrittenJoin(Split(text, ';'), Last(Split(text, ';')))
  }

  /** What the joiner loop is evidently meant to yield: the right-stripped pieces joined by `, `. */
  function JoinedTypes(text: string): string {
    CommaJoin(Stripped(Split(text, ';')))
  }

  /** The joiner loop, with `, ` after every piece but the last one by position. */
  method JoinTypes(text: string) returns (joined: string)
    ensures joined == JoinedTypes(text)
  {
    var parts := Split(text, ';');
    ghost var pieces := Stripped(parts);
    joined := "";
    var i := 0;
    while i < |parts|
      invariant 0 <= i <= |parts|
      invariant i == 0 ==> joined == ""
      invariant 0 < i < |parts| ==> joined == CommaJoin(pieces[..i]) + ", "
      invariant i == |parts| ==> joined == CommaJoin(pieces[..i])
    {
      joined := joined + RStrip(parts[i]);
      assert pieces[..i + 1][..i] == pieces[..i];
      if i != |parts| - 1 {
        joined := joined + ", ";
      }
      i := i + 1;
    }
    assert pieces[..|parts|] == pieces;
  }

  /** While no earlier piece repeats the last one, the joiner as written agrees with the
      intended `, `-join. */
  lemma AsWrittenJoinDistinct(text: string)
    requires forall i :: 0 <= i < |Split(text, ';')| - 1 ==> Split(text, ';')[i] != Last(Split(text, ';'))
    ensures JoinedTypesAsWritten(text) == JoinedTypes(text)
  {
    var parts := Split(text, ';');
    AsWrittenPrefix(parts, Last(parts), |parts|);
    assert parts[..|parts|] == parts;
    assert Stripped(parts)[..|parts|] == Stripped(parts);
  }

  lemma {:induction false} AsWrittenPrefix(parts: seq<string>, last: string, k: nat)
    requires 1 <= k <= |parts| && last == parts[|parts| - 1]
    requires forall i :: 0 <= i < |parts| - 1 ==> parts[i] != last
    ensures AsWrittenJoin(parts[..k], last) == CommaJoin(Stripped(parts)[..k]) + (if k < |parts| then ", " else "")
    decreases k
  {
    var pieces := Stripped(parts);
    assert parts[..k][..k - 1] == parts[..k - 1];
    assert pieces[..k][..k - 1] == pieces[..k - 1];
    if k == 1 {
      assert parts[..0] == [];
    } else {
      AsWrittenPrefix(parts, last, k - 1);
    }
  }

  /** A list without `;` is one type, right-stripped, however it is joined. */
  lemma JoinedTypesSingle(text: string)
    requires ';' !in text
    ensures JoinedTypes(text) == RStrip(text) && JoinedTypesAsWritten(text) == RStrip(text)
  {
    SplitNone(text, ';');
    assert Split(text, ';')[..0] == [];
  }

  /** A piece that repeats the last one loses its separator: `a;b;a` is joined as written into
      `ab, a` instead of `a, b, a`. */
  lemma AsWrittenJoinRepeat()
    ensures JoinedTypesAsWritten("a;b;a") == "ab, a"
    ensures JoinedTypes("a;b;a") == "a, b, a"
  {
    SplitRepeat();
    var parts := ["a", "b", "a"];
    AsWrittenThree(parts);
    CommaJoinThree(parts);
  }

  lemma SplitRepeat()
    ensures Split("a;b;a", ';') == ["a", "b", "a"]
  {
    SplitAtSeparator("a", "b;a", ';');
    SplitAtSeparator("b", "a", ';');
    SplitNone("a", ';');
    SplitNone("b", ';');
    assert "a;b;a" == "a" + [';'] + "b;a";
    assert "b;a" == "b" + [';'] + "a";
  }

  lemma AsWrittenThree(parts: seq<string>)
    requires parts == ["a", "b", "a"]
    ensures AsWrittenJoin(parts, "a") == "ab, a"
  {
    assert parts[..2] == ["a", "b"] && parts[..2][..1] == ["a"] && parts[..2][..1][..0] == [];
    assert RStrip("a") == "a" && RStrip("b") == "b";
    assert AsWrittenJoin(parts[..2][..1], "a") == "a";
    assert AsWrittenJoin(parts[..2], "a") == "ab, ";
  }

  lemma CommaJoinThree(parts: seq<string>)
    requires parts == ["a", "b", "a"]
    ensures CommaJoin(Stripped(parts)) == "a, b, a"
  {
    assert RStrip("a") == "a" && RStrip("b") == "b";
    var pieces := Stripped(parts);
    assert pieces == ["a", "b", "a"];
    assert pieces[..2] == ["a", "b"] && pieces[..2][..1] == ["a"];
    assert CommaJoin(pieces[..2]) == "a, b";
  }

  // ---------------------------------------------------------------------------
  // Resolution of the options, step by step

  /** The outcome of the front end: the options it leaves, completed, or as they were when it gave up. */
  datatype Resolution = Resolved(config: Config) | Aborted(config: Config)

  /** The type question, or the interface question of a tool given on the command line
      (MakeLHCbCppClass.py:21-43). Only the interactive path turns a blank interface into None. */
  function ResolveType(c: Config, a: Answers): Config {
    if c.kind == NoneValue then
      var k := TypeToken(a.kind);
      if k == "Tool" && c.interface == NoneValue then
        c.(kind := Str(k), interface := if a.interface == "" then NoneValue else Str(a.interface))
      else c.(kind := Str(k))
    else if c.kind == Str("Tool") && c.interface == NoneValue then c.(interface := Str(a.interface))
    else c
  }

  /** The functional sub-kind question (MakeLHCbCppClass.py:46-58). */
  function ResolveFunctional(c: Config, a: Answers): Resolution {
    if c.kind == Str("GaudiFunctionalAlgorithm") && c.gaudiFunctional == NoneValue then
      match FunctionalToken(a.functional)
      case None => Aborted(c)
      case Some(f) => Resolved(c.(gaudiFunctional := Str(f)))
    else Resolved(c)
  }

  /** The answer to a declare/types question pair: the joined list, or the placeholder when
      the user declines or types nothing. */
  function DeclaredTypes(declare: string, text: string, placeholder: string): string {
    if declare == "y" || declare == "" then (if text == "" then placeholder else JoinedTypes(text))
    else placeholder
  }

  /** The input question (MakeLHCbCppClass.py:65-83): asked only for an unset input of a
      non-producing functional algorithm; in every other case the input is emptied. */
  function ResolveInput(c: Config, a: Answers): Config {
    if c.kind == Str("GaudiFunctionalAlgorithm") && c.functionalInput == NoneValue && c.gaudiFunctional != Str("Producer") then
      c.(functionalInput := Str(DeclaredTypes(a.declareInput, a.inputText, "INPUT")))
    else c.(functionalInput := Str(""))
  }

  /** The output question (MakeLHCbCppClass.py:85-103): asked only for an unset output of a
      non-consuming functional algorithm; in every other case the output is `void`. */
  function ResolveOutput(c: Config, a: Answers): Config {
    if c.kind == Str("GaudiFunctionalAlgorithm") && c.functionalOutput == NoneValue && c.gaudiFunctional != Str("Consumer") then
      c.(functionalOutput := Str(DeclaredTypes(a.declareOutput, a.outputText, "OUTPUT")))
    else c.(functionalOutput := Str("void"))
  }

  /** The algorithm sub-type question (MakeLHCbCppClass.py:110-117). */
  function ResolveAlgorithm(c: Config, a: Answers): Resolution {
    if c.kind == Str("Algorithm") && c.algorithmType == NoneValue then
      match SubTypeToken(a.algorithm)
      case None => Aborted(c)
      case Some(t) => Resolved(c.(algorithmType := Str(t)))
    else Resolved(c)
  }

  /** The DaVinci sub-type question (MakeLHCbCppClass.py:118-125). */
  function ResolveDaVinci(c: Config, a: Answers): Resolution {
    if c.kind == Str("DaVinciAlgorithm") && c.daVinciAlgorithmType == NoneValue then
      match SubTypeToken(a.daVinci)
      case None => Aborted(c)
      case Some(t) => Resolved(c.(daVinciAlgorithmType := Str(t)))
    else Resolved(c)
  }

  /** All the questions in order; the first rejected answer stops the run. */
  function Resolve(c: Config, a: Answers): Resolution {
    var r := ResolveFunctional(ResolveType(c, a), a);
    if r.Aborted? then r
    else
      var s := ResolveAlgorithm(ResolveOutput(ResolveInput(r.config, a), a), a);
      if s.Aborted? then s else ResolveDaVinci(s.config, a)
  }

  /** `make_files` up to the generation of the files (MakeLHCbCppClass.py:21-125). */
  method MakeFiles(o: Options, a: Answers) returns (ok: bool)
    modifies o`kind, o`interface, o`gaudiFunctional, o`functionalInput, o`functionalOutput,
             o`algorithmType, o`daVinciAlgorithmType
    ensures ok == Resolve(old(o.Snapshot()), a).Resolved?
    ensures o.Snapshot() == Resolve(old(o.Snapshot()), a).config
  {
    AskType(o, a);
    ok := AskFunctional(o, a);
    if !ok {
      return;
    }
    var declared := DeclareTypes(o.kind == Str("GaudiFunctionalAlgorithm") && o.functionalInput == NoneValue &&
                                 o.gaudiFunctional != Str("Producer"), a.declareInput, a.inputText, "INPUT", "");
    o.functionalInput := Str(declared);
    declared := DeclareTypes(o.kind == Str("GaudiFunctionalAlgorithm") && o.functionalOutput == NoneValue &&
                             o.gaudiFunctional != Str("Consumer"), a.declareOutput, a.outputText, "OUTPUT", "void");
    o.functionalOutput := Str(declared);
    ok := AskAlgorithmType(o, a);
    if !ok {
      return;
    }
    ok := AskDaVinciType(o, a);
  }

  /** The type question and the interface question (MakeLHCbCppClass.py:21-43). */
  method AskType(o: Options, a: Answers)
    modifies o`kind, o`interface
    ensures o.Snapshot() == ResolveType(old(o.Snapshot()), a)
  {
    if o.kind == NoneValue {
      if a.kind == "A" {
        o.kind := Str("Algorithm");
      } else if a.kind == "F" {
        o.kind := Str("GaudiFunctionalAlgorithm");
      } else if a.kind == "D" {
        o.kind := Str("DaVinciAlgorithm");
      } else if a.kind == "T" {
        o.kind := Str("Tool");
        if o.interface == NoneValue {
          var itype := if a.interface == "" then NoneValue else Str(a.interface);
          o.interface := itype;
        }
      } else if a.kind == "I" {
        o.kind := Str("Interface");
      } else {
        o.kind := Str("simple");
      }
    } else if o.kind == Str("Tool") && o.interface == NoneValue {
      o.interface := Str(a.interface);
    }
  }

  /** The functional sub-kind question (MakeLHCbCppClass.py:46-58); false when the answer is rejected. */
  method AskFunctional(o: Options, a: Answers) returns (ok: bool)
    modifies o`gaudiFunctional
    ensures ok == ResolveFunctional(old(o.Snapshot()), a).Resolved?
    ensures o.Snapshot() == ResolveFunctional(old(o.Snapshot()), a).config
  {
    ok := true;
    if o.kind == Str("GaudiFunctionalAlgorithm") && o.gaudiFunctional == NoneValue {
      if a.functional == "T" || a.functional == "" {
        o.gaudiFunctional := Str("Transformer");
      } else if a.functional == "P" {
        o.gaudiFunctional := Str("Producer");
      } else if a.functional == "C" {
        o.gaudiFunctional := Str("Consumer");
      } else if a.functional == "M" {
        o.gaudiFunctional := Str("MultiTransformer");
      } else {
        ok := false;
      }
    }
  }

  /** The algorithm sub-type question (MakeLHCbCppClass.py:110-117); false when the answer is rejected. */
  method AskAlgorithmType(o: Options, a: Answers) returns (ok: bool)
    modifies o`algorithmType
    ensures ok == ResolveAlgorithm(old(o.Snapshot()), a).Resolved?
    ensures o.Snapshot() == ResolveAlgorithm(old(o.Snapshot()), a).config
  {
    ok := true;
    if o.kind == Str("Algorithm") && o.algorithmType == NoneValue {
      if a.algorithm == "" || a.algorithm == "N" {
        o.algorithmType := Str("Normal");
      } else if a.algorithm == "H" {
        o.algorithmType := Str("Histo");
      } else if a.algorithm == "T" {
        o.algorithmType := Str("Tuple");
      } else {
        ok := false;
      }
    }
  }

  /** The DaVinci sub-type question (MakeLHCbCppClass.py:118-125); false when the answer is rejected. */
  method AskDaVinciType(o: Options, a: Answers) returns (ok: bool)
    modifies o`daVinciAlgorithmType
    ensures ok == ResolveDaVinci(old(o.Snapshot()), a).Resolved?
    ensures o.Snapshot() == ResolveDaVinci(old(o.Snapshot()), a).config
  {
    ok := true;
    if o.kind == Str("DaVinciAlgorithm") && o.daVinciAlgorithmType == NoneValue {
      if a.daVinci == "" || a.daVinci == "N" {
        o.daVinciAlgorithmType := Str("Normal");
      } else if a.daVinci == "H" {
        o.daVinciAlgorithmType := Str("Histo");
      } else if a.daVinci == "T" {
        o.daVinciAlgorithmType := Str("Tuple");
      } else {
        ok := false;
      }
    }
  }

  /** One declare/types question pair when it is asked (`asked`), or the value it falls back to
      when it is not (`otherwise`). */
  method DeclareTypes(asked: bool, declare: string, text: string, placeholder: string, otherwise: string)
    returns (r: string)
    ensures r == if asked then DeclaredTypes(declare, text, placeholder) else otherwise
  {
    if asked {
      if declare == "y" || declare == "" {
        if text == "" {
          r := placeholder;
        } else {
          r := JoinTypes(text);
        }
      } else {
        r := placeholder;
      }
    } else {
      r := otherwise;
    }
  }

  // ---------------------------------------------------------------------------
  // What the resolution promises

  /** The run stops exactly when a sub-kind or sub-type question is asked and its answer is rejected. */
  lemma ResolveAborts(c: Config, a: Answers)
    ensures Resolve(c, a).Aborted? <==>
      var t := ResolveType(c, a);
      (t.kind == Str("GaudiFunctionalAlgorithm") && t.gaudiFunctional == NoneValue && FunctionalToken(a.functional).None?) ||
      (t.kind == Str("Algorithm") && t.algorithmType == NoneValue && SubTypeToken(a.algorithm).None?) ||
      (t.kind == Str("DaVinciAlgorithm") && t.daVinciAlgorithmType == NoneValue && SubTypeToken(a.daVinci).None?)
  {
  }

  /** A type chosen at the question is always one of the long names; one given on the command line is kept. */
  lemma ResolveKind(c: Config, a: Answers)
    ensures c.kind == NoneValue ==> Resolve(c, a).config.kind == Str(TypeToken(a.kind))
    ensures c.kind != NoneValue ==> Resolve(c, a).config.kind == c.kind
  {
  }

  /** Sub-kinds and sub-types given on the command line are kept, whatever the outcome. */
  lemma ResolveKeepsExplicit(c: Config, a: Answers)
    ensures c.gaudiFunctional != NoneValue ==> Resolve(c, a).config.gaudiFunctional == c.gaudiFunctional
    ensures c.algorithmType != NoneValue ==> Resolve(c, a).config.algorithmType == c.algorithmType
    ensures c.daVinciAlgorithmType != NoneValue ==> Resolve(c, a).config.daVinciAlgorithmType == c.daVinciAlgorithmType
    ensures c.interface != NoneValue ==> Resolve(c, a).config.interface == c.interface
  {
  }

  /** An input given on the command line is not kept: once the questions are through, the input
      is emptied unless it was unset and asked for (functional algorithm, not a producer). */
  lemma ResolveInputOverwrites(c: Config, a: Answers)
    requires Resolve(c, a).Resolved?
    ensures var r := Resolve(c, a).config;
      (c.functionalInput != NoneValue ==> r.functionalInput == Str("")) &&
      (r.kind != Str("GaudiFunctionalAlgorithm") || r.gaudiFunctional == Str("Producer") ==> r.functionalInput == Str("")) &&
      (r.functionalInput != Str("") ==> r.kind == Str("GaudiFunctionalAlgorithm") && c.functionalInput == NoneValue)
  {
  }

  /** The output likewise: `void` unless it was unset and asked for (functional algorithm, not a consumer). */
  lemma ResolveOutputOverwrites(c: Config, a: Answers)
    requires Resolve(c, a).Resolved?
    ensures var r := Resolve(c, a).config;
      (c.functionalOutput != NoneValue ==> r.functionalOutput == Str("void")) &&
      (r.kind != Str("GaudiFunctionalAlgorithm") || r.gaudiFunctional == Str("Consumer") ==> r.functionalOutput == Str("void"))
  {
  }

  /** When the input is asked for, declining or typing nothing gives `INPUT`, and a list gives its join;
      the output likewise gives `OUTPUT`. */
  lemma DeclaredTypesPlaceholder(declare: string, text: string, placeholder: string)
    ensures declare != "y" && declare != "" ==> DeclaredTypes(declare, text, placeholder) == placeholder
    ensures text == "" ==> DeclaredTypes(declare, text, placeholder) == placeholder
    ensures (declare == "y" || declare == "") && ';' !in text && text != "" ==>
      DeclaredTypes(declare, text, placeholder) == RStrip(text)
  {
    if ';' !in text {
      JoinedTypesSingle(text);
    }
  }

  /** A blank interface answer means no interface on the interactive path, but is stored as an
      empty interface name when the type `Tool` came from the command line. */
  lemma BlankInterface(c: Config, a: Answers)
    requires c.interface == NoneValue && a.interface == ""
    ensures c.kind == NoneValue && a.kind == "T" ==>
      Resolve(c, a) == Resolved(c.(kind := Str("Tool"), functionalInput := Str(""), functionalOutput := Str("void")))
    ensures c.kind == Str("Tool") ==>
      Resolve(c, a) == Resolved(c.(interface := Str(""), functionalInput := Str(""), functionalOutput := Str("void")))
  {
  }
}

# LHCbSkeleton in Dafny

LHCbSkeleton generates starting C++ classes for LHCb/Gaudi software. You can give the
kind of class on the command line (`-t`, `-f`, `-a`, `-d`, `-I`), or answer questions for
whatever you leave unset. Then:

- With `-H`, and when no `<name>.h` exists yet, it builds a header (an include preamble, a Doxygen block and the class declaration) and prints it. It writes the header to `<name>.h` only when `-W` is also given.
- It always builds an implementation text from a skeleton `.cpp` whose `${key}` placeholders are filled from the options. With `-C`, and when no `<name>.cpp` exists yet, it then calls that text as a function, which fails, so no implementation is ever printed. If `-W` is also given, it opens `<name>.cpp` for writing before that failing call, so the run leaves an empty `<name>.cpp` behind, and a later `-C` run skips the file because it now exists (see "## Left out").
- The functional input and output types (`-i`, `-o`) are taken from the questions only. A value given on the command line is replaced by an empty input or a `void` output (`Front.ResolveInputOverwrites`, `Front.ResolveOutputOverwrites`).

This project models that logic as Dafny and proves what each piece promises:

- `Text` (text.dfy) models the Python 2 string operations the tool relies on: `split` on one character, `rstrip()` and `s * n`.
- `Config` (config.dfy) models the options object. The class `Options` holds the command-line attributes as fields, plus a map of the attributes assigned later. `Vars()` is `vars(options)`. A Python value (`None`, a string, a flag, a list) is a `Value`, and `%s` formatting is `Fmt`.
- `Support` (support.dfy) models `comment` and `doxyComment` (support.py).
- `Header` (header.dfy) models `genHeader` and `makebody` (LHCbHeader.py), as pure functions of the class name and the options.
- `Template` (template.dfy) models `string.Template.safe_substitute`.
- `Cpp` (cpp.dfy) models the `LHCbCpp` constructor as a class. Its constructor stamps the date, the author and a type-specific name into the shared options. It then picks the skeleton and substitutes into it.
- `Front` (front.dfy) models `make_files` up to file generation:
  - the letter tables of the questions;
  - the `;`-separated type lists;
  - the rules that fill in or overwrite the functional input and output.

  The pure functions `Resolve*` specify each step. The method `MakeFiles` and its `Ask*` steps update an `Options` object and are proved against them.
- `Generate` (generate.dfy) models the header text `make_files` builds. It also follows the options from the questions to the generated texts.

The generators compare the `type` attribute with the short codes `GFA`, `T`, `I`, `DVA` and
`A`. The questions, however, store long names such as `Algorithm` or `Tool`. The model
keeps this as written. A type chosen at the question therefore reaches the default
branches of both generators (`Generate.InteractiveTypeFallsThrough`).

Values the source reads from the environment are parameters:

- the date;
- the working directory path;
- the GECOS text of the user's password entry (the author is its first comma-separated field);
- the skeleton file contents (a map from file name to text);
- the answers to the questions (`Front.Answers`).

## Model

| member | source | states |
|---|---|---|
| `Text.RStrip` | MakeLHCbCppClass.py:77 | the result is a prefix of the input, does not end in whitespace, and only whitespace was removed |
| `Config.Options.constructor` | MakeLHCbCppClass.py:161-171 | the options hold exactly the parsed attributes and nothing assigned later |
| `Config.Options.Vars` | LHCbCpp.py:38 | `vars(options)` has every command-line attribute, each mapped to its field's value, plus every attribute assigned later with its value |
| `Support.Banner` | support.py:17 | the banner starts with `//` and is `2 + 75*len(sep)` long |
| `Support.Comment` | support.py:16-18 | a final comment is exactly the banner, with length `2 + 75*len(sep)`; otherwise the text starts with banner, newline, `// text`, newline, ends with the banner and a newline, and is two banners plus the text plus 6 characters long |
| `Support.CommentLines` | support.py:18 | a non-final comment splits into exactly the lines banner, `// text`, banner (for one-line text) |
| `Support.CommentFinalLine` | support.py:18 | a final comment is a single line, the banner, with no line end |
| `Support.AuthorName` | support.py:12 | the author is the prefix of the GECOS text up to its first comma, or all of it |
| `Support.LastSegment` | support.py:7 | the directory name is the suffix after the last `/`, or the whole path |
| `Support.DoxyComment` | support.py:4-15 | the block starts with `/*`, ends with `*/` and a newline, and contains two `*` lines |
| `Support.DoxyClassLines` | support.py:6-14 | the first block has exactly six lines: `@class <name> <name>.h <dir>/<name>.h`, `*`, `*`, `@author`, `@date` and the closing line |
| `Support.DoxyTextLines` | support.py:9-14 | any other block has exactly four lines: `* <text>`, `*`, `*` and the closing line |
| `Header.GenHeader` | LHCbHeader.py:11-35 | the header always starts with `#pragma once` and `// from Gaudi` |
| `Header.GenHeaderDefault` | LHCbHeader.py:31-32 | a type outside the five codes yields the preamble and a lone newline |
| `Header.GenHeaderAlgorithm` | LHCbHeader.py:26-30 | type `A` gets just the preamble and one include: `GaudiAlg/GaudiAlgorithm.h` for `Normal`, else `GaudiAlg/Gaudi<type>Alg.h` |
| `Header.GenHeaderDaVinci` | LHCbHeader.py:24-25 | type `DVA` gets just the preamble and the one `Kernel/DaVinci...Algorithm.h` include |
| `Header.GenHeaderTool` | LHCbHeader.py:16-19 | type `T` includes `GaudiTool.h` first; the interface's include follows, and the header is longer, exactly when an interface is set |
| `Header.GenHeaderInterface` | LHCbHeader.py:20-23 | type `I` gets the STL block after the preamble, the `GaudiAlg/IAlgTool.h` include, and ends with the `IID_<name>` declaration |
| `Header.GenHeaderFunctional` | LHCbHeader.py:14-15 | type `GFA` gets just the preamble, the include of `GaudiAlg/<sub-kind>.h` and the `using` line |
| `Header.GenHeaderUsing` | LHCbHeader.py:33-34 | the header ends with `using namespace Gaudi::Functional;` if and only if the type is `GFA` |
| `Header.FuncIOKeyValues` | LHCbHeader.py:62-71 | Producer and Consumer pass the same single output location; Transformer passes an input location, then that output; MultiTransformer passes a braced input pair, then a braced output pair; any other sub-kind passes nothing |
| `Header.MakeBody` | LHCbHeader.py:37-101 | the declaration starts with `class <name> : `, contains `public:` and ends with the protected/private tail and `};` |
| `Header.MakeBodyLifecycle` | LHCbHeader.py:96-99 | the initialize/execute/finalize declarations close the class body if and only if the type is `A` or `DVA` |
| `Header.MakeBodyDestructor` | LHCbHeader.py:87-95 | the destructor is declared, right before any lifecycle declarations, if and only if the type is neither `GFA` nor `I` |
| `Header.MakeBodyTool` | LHCbHeader.py:48-53 | with an interface, a tool's base list names it and `interfaceID()` follows `public:`; without one the class is exactly a `GaudiTool` with its constructor and destructor |
| `Header.MakeBodyInterface` | LHCbHeader.py:45-47 | an interface derives from `IAlgTool`, has only the `interfaceID()` accessor and no destructor |
| `Header.MakeBodyDefaultBase` | LHCbHeader.py:39-41 | because the DaVinci test is misspelt, type `DVA` (like any unrecognised type) gets an empty base list, then `public:` and the plain constructor |
| `Header.MakeBodyAlgorithm` | LHCbHeader.py:42-44 | type `A` derives from `GaudiAlgorithm` (with two spaces before the brace) for `Normal` and from `Gaudi<type>Alg` otherwise, then declares the plain constructor after `public:` |
| `Header.MakeBodyFunctionalBase` | LHCbHeader.py:54-56 | type `GFA` derives from `Gaudi::Functional::<sub-kind><output(input)>`, then declares the functional constructor after `public:` |
| `Header.MakeBodyFunctional` | LHCbHeader.py:54-91 | a functional algorithm's constructor passes its sub-kind's key/values, and the class ends with the call operator built from the output and input types |
| `Template.IdentLength` | LHCbCpp.py:37-38 | the placeholder name is the longest identifier at that point, and it is not followed by an identifier character |
| `Template.SubstitutePlain` | LHCbCpp.py:38 | text before the first `$` is copied unchanged |
| `Template.SubstituteNoDollar` | LHCbCpp.py:38 | a skeleton without `$` comes back unchanged, whatever the mapping |
| `Template.SubstituteSplit` | LHCbCpp.py:38 | a text split after a line break substitutes as its two parts substituted separately: no placeholder reaches across a line end |
| `Template.PlaceholderLocal` | LHCbCpp.py:38 | a placeholder starting in a text that ends with a line break is decided, and its replacement found, within that text |
| `Template.SubstituteAfterLines` | LHCbCpp.py:38 | a line substituted after whole lines of a skeleton turns into what it turns into alone, following the substituted lines before it |
| `Template.SubstituteBraced` | LHCbCpp.py:38 | `${key}` becomes `%s` of the key's value when the mapping has it, and otherwise stays verbatim |
| `Template.SubstituteNamed` | LHCbCpp.py:38 | `$key` behaves the same when the next character cannot extend the identifier |
| `Template.SubstituteEscaped` | LHCbCpp.py:38 | `$$` becomes a single `$` |
| `Cpp.SkeletonFile` | LHCbCpp.py:14-36 | the skeleton is one of the six files; the plain class skeleton is chosen if and only if the type is not one of the five codes |
| `Cpp.SkeletonFileInjective` | LHCbCpp.py:14-34 | different type codes get different skeletons |
| `Cpp.AlgorithmNameMatchesInclude` | LHCbCpp.py:29-33 | `Gaudi<AlgorithmTypeName>` is the class the header includes for type `A` (`Histo` gives `HistoAlg`) |
| `Cpp.DaVinciNameMatchesInclude` | LHCbCpp.py:23-28 | `DaVinci<DaVinciAlgorithmTypeName>Algorithm` is the class the header includes for type `DVA`, and the name is the DaVinci type itself unless `Normal` |
| `Cpp.OperatorParenTextReturns` | LHCbCpp.py:16-18 | the operator body is exactly `return;` if and only if the sub-kind is Consumer; otherwise it declares a value of the output type and returns it |
| `Cpp.Derived` | LHCbCpp.py:14-33 | `GFA` adds only `operatorParenText`, `DVA` only `DaVinciAlgorithmTypeName`, `A` only `AlgorithmTypeName`, and every other type nothing |
| `Cpp.Stamp` | LHCbCpp.py:11-12 | the constructor adds `date`, `author` and the derived name, none of which is a command-line attribute |
| `Cpp.StampOptions` | LHCbCpp.py:11-33 | the date, the author and the derived name are added to the options, which still never shadow a command-line attribute |
| `Cpp.AddDerived` | LHCbCpp.py:14-33 | the type-specific assignments add exactly the derived attributes to the options |
| `Cpp.Implementation.constructor` | LHCbCpp.py:7-38 | the options gain exactly the stamp; the text is the chosen skeleton substituted with every attribute of the stamped options |
| `Cpp.StampedVars` | LHCbCpp.py:11-12 | after stamping, every command-line attribute and every earlier attribute the stamp does not set is still visible to the substitution |
| `Cpp.UnsetKeyVerbatim` | LHCbCpp.py:38 | a placeholder that no step sets, such as `${name}`, `${tool_interface}` or `${ref}`, stays verbatim wherever it sits in a skeleton: after any whole lines, which are substituted on their own, and a `$`-free lead-in |
| `Cpp.FunctionalPlaceholders` | LHCbCpp.py:16-18 | in a functional skeleton `${operatorParenText}` becomes the sub-kind's operator body and `${GaudiFunctionalOutput}` the output type |
| `Cpp.AlgorithmPlaceholders` | LHCbCpp.py:29-38 | after the constructor has run for type `A`, `${AlgorithmTypeName}` becomes `Algorithm` for `Normal` and `<type>Alg` otherwise, wherever it sits after any whole lines of the skeleton and a `$`-free lead-in |
| `Cpp.DaVinciPlaceholders` | LHCbCpp.py:23-38 | after the constructor has run for type `DVA`, `${DaVinciAlgorithmTypeName}` becomes nothing for `Normal` and the DaVinci type otherwise, wherever it sits after any whole lines of the skeleton and a `$`-free lead-in |
| `Front.TypeToken` | MakeLHCbCppClass.py:22-38 | the type question always yields one of the six type names, and `simple` if and only if the answer is not A/F/D/T/I |
| `Front.FunctionalToken` | MakeLHCbCppClass.py:47-58 | T/P/C/M give a functional sub-kind, blank gives Transformer, and every other answer is rejected |
| `Front.SubTypeToken` | MakeLHCbCppClass.py:111-117 | N/H/T give a sub-type, blank gives Normal, and every other answer is rejected |
| `Front.JoinTypes` | MakeLHCbCppClass.py:75-80 | the typed list becomes its right-stripped pieces joined by `, ` |
| `Front.AsWrittenJoinDistinct` | MakeLHCbCppClass.py:76-79 | while no earlier piece repeats the last, the joiner as written gives the same `, `-join |
| `Front.JoinedTypesSingle` | MakeLHCbCppClass.py:76-77 | a list without `;` is its one piece right-stripped |
| `Front.AsWrittenJoinRepeat` | MakeLHCbCppClass.py:78-79 | the joiner as written turns `a;b;a` into `ab, a` rather than `a, b, a` |
| `Front.MakeFiles` | MakeLHCbCppClass.py:21-125 | the options end as the step-by-step resolution says, and the run succeeds if and only if no answer is rejected |
| `Front.AskType` | MakeLHCbCppClass.py:21-43 | the type and interface become what the type step specifies |
| `Front.AskFunctional` | MakeLHCbCppClass.py:46-58 | the functional sub-kind becomes what the sub-kind step specifies, failing on a rejected answer |
| `Front.DeclareTypes` | MakeLHCbCppClass.py:68-81 | one declare/types question pair yields the declared list or its placeholder when asked, and the fallback when not |
| `Front.AskAlgorithmType` | MakeLHCbCppClass.py:110-117 | the algorithm sub-type becomes what its step specifies, failing on a rejected answer |
| `Front.AskDaVinciType` | MakeLHCbCppClass.py:118-125 | the DaVinci sub-type becomes what its step specifies, failing on a rejected answer |
| `Front.ResolveAborts` | MakeLHCbCppClass.py:56-58 | the run stops if and only if a sub-kind or sub-type question is asked and its answer is rejected |
| `Front.ResolveKind` | MakeLHCbCppClass.py:21-43 | a type chosen at the question is the token's long name; a type given on the command line is kept |
| `Front.ResolveKeepsExplicit` | MakeLHCbCppClass.py:46-118 | a sub-kind, sub-type or interface given on the command line is never changed |
| `Front.ResolveInputOverwrites` | MakeLHCbCppClass.py:65-83 | an input given on the command line is emptied; the input is non-empty only for a functional algorithm whose input was unset |
| `Front.ResolveOutputOverwrites` | MakeLHCbCppClass.py:85-103 | an output given on the command line becomes `void`, as does the output of a consumer or of any other type |
| `Front.DeclaredTypesPlaceholder` | MakeLHCbCppClass.py:68-81 | declining, or typing nothing, gives the placeholder (`INPUT`/`OUTPUT`); a single typed type gives that type right-stripped |
| `Front.BlankInterface` | MakeLHCbCppClass.py:31-42 | a blank interface answer means no interface on the interactive path, but an empty interface name after `-t Tool` |
| `Generate.HeaderText` | MakeLHCbCppClass.py:134-136 | the header file starts with the include preamble and ends with the class declaration's tail |
| `Generate.InteractiveTypeFallsThrough` | MakeLHCbCppClass.py:23-38 | a type chosen at the question gets the bare preamble, a base-less class with constructor and destructor, and the plain class skeleton |
| `Generate.ShortFunctionalCode` | MakeLHCbCppClass.py:65-103 | after `-t GFA` no question is asked, the input is empty and the output `void`, so the operator is `void operator() ()` and builds a `void` value unless it is a consumer |
| `Generate.AlgorithmHeaderMatchesImplementation` | LHCbCpp.py:29-33 | after `-t A -a <type>` the type is kept and the header includes `GaudiAlg/Gaudi<AlgorithmTypeName>.h` |
| `Generate.AlgorithmHeaderBase` | LHCbHeader.py:26-44 | a type `A` header includes, and unless `Normal` derives from, `Gaudi<AlgorithmTypeName>` |
| `Generate.AlgorithmBaseAgrees` | raw_skeletons/raw_Algorithm.cpp:59-63 | once the options are stamped, the skeleton's line `\treturn Gaudi${AlgorithmTypeName}...` in `finalize`, after whatever lines precede it in the skeleton, becomes `\treturn Gaudi<AlgorithmTypeName>...`, naming the class the header includes |
| `Generate.DaVinciBaseAgrees` | raw_skeletons/raw_DaVinciAlgorithm.cpp:62-66 | once the options are stamped, the skeleton's line `  return DaVinci${DaVinciAlgorithmTypeName}Algorithm...` in `finalize`, after whatever lines precede it in the skeleton, names the `DaVinci...Algorithm` class the header includes |

## Left out

- Front.MakeFiles: joins a typed list of types with the corrected joiner (see "## Findings"). So `a;b;a` is stored as `a, b, a` where the source stores `ab, a`. The two agree whenever no earlier piece repeats the last one (`Front.AsWrittenJoinDistinct`).
- Front.DeclareTypes: returns the corrected join of a typed list, not the as-written join of MakeLHCbCppClass.py:75-80, for the same reason.
- The questions themselves (`raw_input`), `print`, `sys.exit` and the option parser (MakeLHCbCppClass.py:158-178) are left out. Answers are a parameter, and giving up is the `Aborted` outcome.
- Reading the skeleton files is left out. The skeleton texts are a map parameter, and the constructor requires the chosen file to be present (where the source would raise `IOError`).
- The environment reads are left out: `time.strftime`, `pwd.getpwuid(os.getuid())` and `os.getcwd()` are parameters.
- The steps after the header text are not modelled:
  - the `HeaderOnly`/`cppOnly`/`write` tests;
  - `exists` (support.py:20-21);
  - writing the `.h` and `.cpp` files;
  - printing them.
- The call `thing2.genText()` (MakeLHCbCppClass.py:150, 152) calls a string and would fail. It is not modelled, and neither is the empty `<name>.cpp` that `open(name+'.cpp','w')` (MakeLHCbCppClass.py:149) creates before that call under `-C -W`.
- The `DaVinciAlgortihm` branch of `makebody` names an undefined variable and would fail. `Header.BodyReady` excludes that type value.
- A `+` between a string and a non-string raises `TypeError` in Python. The generators' `requires` exclude those inputs:
  - `Header.HeaderReady`: a `GFA` sub-kind must be a string;
  - `Cpp.CppReady`: a `GFA` output and an `A` algorithm type must be strings.
- Python's `repr` of a list (what `%s` prints for an `-i`/`-o` list) is modelled with plain single quotes around each item, without escaping quotes or backslashes inside items.
- The commented-out `genText` implementation in LHCbCpp.py and the unused `requirements` argument are not modelled.
- The skeleton files are not embedded. raw_class.cpp and raw_Interface.cpp are not part of this model.
- `Template` matches identifiers over ASCII letters only, as Python 2's `re.IGNORECASE` does for byte strings.

## Findings

| source | as written | input that shows it | evidently intended | confidence | as-written member | corrected member |
|---|---|---|---|---|---|---|
| MakeLHCbCppClass.py:78-79 | `, ` is appended after a piece unless the piece equals the last piece in value, so a repeated type loses its separator | `a;b;a` is joined into `ab, a` | `, ` after every piece but the last by position: `a, b, a` | high, not executed | `Front.AsWrittenJoinRepeat` | `Front.JoinTypes` |

The rest of the model uses the corrected joiner. `Front.AsWrittenJoinDistinct` proves that
both joiners agree whenever no earlier piece repeats the last one.

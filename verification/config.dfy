/** The options record that the front end fills in and both generators read.
    In the source it is an `optparse` values object whose attributes are set ad hoc;
    here it is the class `Options`, whose fields are the command-line attributes and
    whose map `added` holds the attributes set after parsing (date, author and the
    derived names). */
module Config {

  /** A Python value held by an attribute: `None`, a string, a `store_true` flag,
      or the list an `append` option collects. */
  datatype Value = NoneValue | Str(s: string) | Flag(b: bool) | StrList(items: seq<string>)

  /** Python 2's `'%s' % v`. */
  function Fmt(v: Value): string
  {
    match v
    case NoneValue => "None"
    case Str(s) => s
    case Flag(b) => if b then "True" else "False"
    case StrList(items) => "[" + QuotedList(items) + "]"
  }

  /** The inside of the `repr` of a list of strings, each in single quotes. */
  function QuotedList(items: seq<string>): string
  {
    if items == [] then ""
    else "'" + items[0] + "'" + (if |items| == 1 then "" else ", " + QuotedList(items[1..]))
  }

  /** The attributes the resolver sets and the header generator reads.
      `kind` is the `type` attribute (`type` is a reserved word in Dafny). */
  datatype Config = Config(
    kind: Value,
    gaudiFunctional: Value,
    daVinciAlgorithmType: Value,
    algorithmType: Value,
    interface: Value,
    functionalInput: Value,
    functionalOutput: Value)

  /** The attribute names the command line defines (the `dest` of every option). */
  const CliNames: set<string> := {"type", "GaudiFunctional", "DaVinciAlgorithmType", "AlgorithmType",
                                  "Interface", "Tool", "GaudiFunctionalInput", "GaudiFunctionalOutput",
                                  "HeaderOnly", "cppOnly", "write"}

  class Options {
    var kind: Value
    var gaudiFunctional: Value
    var daVinciAlgorithmType: Value
    var algorithmType: Value
    var interface: Value
    var tool: Value
    var functionalInput: Value
    var functionalOutput: Value
    var headerOnly: Value
    var cppOnly: Value
    var write: Value
    /** Attributes assigned after parsing. */
    var added: map<string, Value>

    /** The attributes set later never shadow a command-line attribute. */
    ghost predicate Valid()
      reads this
    {
      added.Keys !! CliNames
    }

    /** Options as the command line leaves them. */
    constructor (c: Config, tool: Value, headerOnly: Value, cppOnly: Value, write: Value)
      ensures Valid() && Snapshot() == c && added == map[]
      ensures this.tool == tool && this.headerOnly == headerOnly
      ensures this.cppOnly == cppOnly && this.write == write
    {
      kind := c.kind;
      gaudiFunctional := c.gaudiFunctional;
      daVinciAlgorithmType := c.daVinciAlgorithmType;
      algorithmType := c.algorithmType;
      interface := c.interface;
      functionalInput := c.functionalInput;
      functionalOutput := c.functionalOutput;
      this.tool := tool;
      this.headerOnly := headerOnly;
      this.cppOnly := cppOnly;
      this.write := write;
      added := map[];
    }

    /** The values the resolver and the header generator work on. */
    function Snapshot(): Config
      reads this
    {
      Config(kind, gaudiFunctional, daVinciAlgorithmType, algorithmType, interface,
             functionalInput, functionalOutput)
    }

    /** `vars(options)`: every attribute by name. */
    function Vars(): (m: map<string, Value>)
      reads this
      requires Valid()
      ensures m.Keys == CliNames + added.Keys
      ensures forall k :: k in added ==> m[k] == added[k]
      ensures m["type"] == kind && m["GaudiFunctional"] == gaudiFunctional
      ensures m["DaVinciAlgorithmType"] == daVinciAlgorithmType && m["AlgorithmType"] == algorithmType
      ensures m["Interface"] == interface && m["Tool"] == tool
      ensures m["GaudiFunctionalInput"] == functionalInput && m["GaudiFunctionalOutput"] == functionalOutput
      ensures m["HeaderOnly"] == headerOnly && m["cppOnly"] == cppOnly && m["write"] == write
    {
      map["type" := kind, "GaudiFunctional" := gaudiFunctional,
          "DaVinciAlgorithmType" := daVinciAlgorithmType, "AlgorithmType" := algorithmType,
          "Interface" := interface, "Tool" := tool,
          "GaudiFunctionalInput" := functionalInput, "GaudiFunctionalOutput" := functionalOutput,
          "HeaderOnly" := headerOnly, "cppOnly" := cppOnly, "write" := write] + added
    }
  }
}

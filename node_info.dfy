/** How `main.py` describes a loaded node class to the editor: `node_info`
    collects the class attributes (with their defaults) and
    `node_info_to_node_dict` turns them into the node description the editor
    reads, converting every input port's type into a type string. */
module NodeInfo {
  import opened Wrappers
  import opened Strings
  import opened Dicts

  /** A Python value standing as the type of an input port (the first element
      of its `INPUT_TYPES` tuple): a string, a list, or anything else, kept as
      its `str()`. */
  datatype PyValue = Str(s: string) | List(items: seq<PyValue>) | Other(text: string)

  /** `str(v)`: a list shows the `repr` of its items, a string item in single
      quotes. */
  function Repr(v: PyValue): string
    decreases v, 1
  {
    match v
    case Str(s) => s
    case List(items) => "[" + ItemsRepr(v, items) + "]"
    case Other(t) => t
  }

  function ItemsRepr(v: PyValue, items: seq<PyValue>): string
    requires forall x :: x in items ==> x < v
    decreases v, 0, |items|
  {
    if items == [] then ""
    else
      assert items[0] in items;
      assert forall x :: x in items[1..] ==> x in items;
      var head := if items[0].Str? then Quote(items[0].s) else Repr(items[0]);
      if |items| == 1 then head else head + ", " + ItemsRepr(v, items[1..])
  }

  predicate AllStr(items: seq<PyValue>) {
    forall i :: 0 <= i < |items| ==> items[i].Str?
  }

  function Strs(items: seq<PyValue>): (r: seq<string>)
    requires AllStr(items)
    ensures |r| == |items| && forall i :: 0 <= i < |items| ==> r[i] == items[i].s
  {
    seq(|items|, i requires 0 <= i < |items| => items[i].s)
  }

  const LiteralPrefix := "typing.Literal["

  /** `typing.Literal['a', 'b', ...]`. */
  function Literal(choices: seq<string>): string {
    LiteralPrefix + QuotedJoin(choices) + "]"
  }

  const UnsupportedTail := " is not supported. Please report this issue to https://github.com/KokeCacao/KatUI/issues"

  function Unsupported(v: PyValue): string {
    "Type " + Repr(v) + UnsupportedTail
  }

  /** `convert_type`: a string stands for itself, a list of strings for the
      literal type of its choices; anything else raises `ValueError`. */
  function ConvertType(v: PyValue): (r: Result<string>)
    ensures v.Str? ==> r == Ok(v.s)
    ensures r.Err? <==> !v.Str? && !(v.List? && AllStr(v.items))
    ensures r.Err? ==> r.error == Unsupported(v)
  {
    match v
    case Str(s) => Ok(s)
    case List(items) => if AllStr(items) then Ok(Literal(Strs(items))) else Err(Unsupported(v))
    case Other(_) => Err(Unsupported(v))
  }

  /** A list of strings becomes a literal type that names every choice,
      quoted, between `typing.Literal[` and `]` (the order is
      `LiteralAppendsChoice`'s). */
  lemma LiteralListsEveryChoice(items: seq<PyValue>, i: nat)
    requires AllStr(items) && i < |items|
    ensures ConvertType(List(items)).Ok?
    ensures var t := ConvertType(List(items)).value;
      StartsWith(t, LiteralPrefix) && EndsWith(t, "]") && Contains(t, Quote(items[i].s))
  {
    var xs := Strs(items);
    var t := Literal(xs);
    assert xs[i] == items[i].s;
    assert Quoted(xs)[i] == Quote(items[i].s);
    JoinWithContains(Quoted(xs), ", ", Quote(items[i].s));
    ContainsRight(LiteralPrefix, QuotedJoin(xs), Quote(items[i].s));
    ContainsLeft(LiteralPrefix + QuotedJoin(xs), "]", Quote(items[i].s));
    assert t[..|LiteralPrefix|] == LiteralPrefix;
    assert t[|t| - 1..] == "]";
  }

  /** The two smallest literal types: no choice and one choice. */
  lemma LiteralShapes(a: string)
    ensures ConvertType(List([])) == Ok("typing.Literal[]")
    ensures ConvertType(List([Str(a)])) == Ok("typing.Literal['" + a + "']")
  {
    assert Strs([]) == [];
    assert QuotedJoin([]) == "";
    assert LiteralPrefix + "" + "]" == "typing.Literal[]";
    assert Strs([Str(a)]) == [a];
    assert QuotedJoin([a]) == Quote(a);
    assert LiteralPrefix + Quote(a) + "]" == "typing.Literal['" + a + "']";
  }

  /** One more choice at the end of the list adds `, 'x'` just before the
      closing bracket; with `LiteralShapes` this fixes the whole text: the
      choices, quoted, in list order, separated by `, `. */
  lemma LiteralAppendsChoice(items: seq<PyValue>, x: string)
    requires AllStr(items) && items != []
    ensures AllStr(items + [Str(x)])
    ensures var before := ConvertType(List(items)).value;
      ConvertType(List(items + [Str(x)])) == Ok(before[..|before| - 1] + ", " + Quote(x) + "]")
  {
    var xs := Strs(items);
    assert Strs(items + [Str(x)]) == xs + [x];
    QuotedJoinSnoc(xs, x);
    var before := Literal(xs);
    assert ConvertType(List(items)) == Ok(before);
    assert before[..|before| - 1] == LiteralPrefix + QuotedJoin(xs);
    assert ConvertType(List(items + [Str(x)])) == Ok(Literal(xs + [x]));
    calc {
      Literal(xs + [x]);
      LiteralPrefix + (QuotedJoin(xs) + ", " + Quote(x)) + "]";
      (LiteralPrefix + QuotedJoin(xs)) + ", " + Quote(x) + "]";
    }
  }

  /** One item that is not a string makes the whole list unsupported. */
  lemma NonStringChoiceRejected(items: seq<PyValue>, i: nat)
    requires i < |items| && !items[i].Str?
    ensures ConvertType(List(items)) == Err(Unsupported(List(items)))
  {
  }

  /** The types of a port list in order; the first unsupported one raises. */
  function ConvertAll(vs: seq<PyValue>): (r: Result<seq<string>>)
    ensures r.Ok? ==> |r.value| == |vs| && forall i :: 0 <= i < |vs| ==> ConvertType(vs[i]) == Ok(r.value[i])
    ensures r.Err? ==> exists i :: 0 <= i < |vs| && ConvertType(vs[i]).Err? && r.error == ConvertType(vs[i]).error
                                 && forall j :: 0 <= j < i ==> ConvertType(vs[j]).Ok?
    decreases |vs|
  {
    if vs == [] then Ok([])
    else match ConvertType(vs[0])
      case Err(e) => Err(e)
      case Ok(t) =>
        match ConvertAll(vs[1..])
        case Err(e) =>
          var i :| 0 <= i < |vs[1..]| && ConvertType(vs[1..][i]).Err? && e == ConvertType(vs[1..][i]).error
                   && forall j :: 0 <= j < i ==> ConvertType(vs[1..][j]).Ok?;
          FirstErrorShifts(vs, i);
          Err(e)
        case Ok(ts) =>
          ConvertedCons(vs, t, ts);
          Ok([t] + ts)
  }

  lemma FirstErrorShifts(vs: seq<PyValue>, i: nat)
    requires |vs| > 0 && ConvertType(vs[0]).Ok? && i < |vs[1..]|
    requires forall j :: 0 <= j < i ==> ConvertType(vs[1..][j]).Ok?
    ensures vs[i + 1] == vs[1..][i]
    ensures forall j :: 0 <= j < i + 1 ==> ConvertType(vs[j]).Ok?
  {
    assert forall j :: 1 <= j < i + 1 ==> vs[j] == vs[1..][j - 1];
  }

  lemma ConvertedCons(vs: seq<PyValue>, t: string, ts: seq<string>)
    requires |vs| > 0 && ConvertType(vs[0]) == Ok(t)
    requires |ts| == |vs| - 1 && forall i :: 0 <= i < |vs[1..]| ==> ConvertType(vs[1..][i]) == Ok(ts[i])
    ensures forall i :: 0 <= i < |vs| ==> ConvertType(vs[i]) == Ok(([t] + ts)[i])
  {
    assert forall i :: 1 <= i < |vs| ==> vs[i] == vs[1..][i - 1] && ([t] + ts)[i] == ts[i - 1];
  }

  /** The ports of one section of `INPUT_TYPES()`, with the type of each. */
  datatype InputTypes = InputTypes(required: Option<Dict<PyValue>>, optional: Option<Dict<PyValue>>)

  /** The class attributes `node_info` reads; an attribute the class does not
      define is `None`. */
  datatype NodeClass = NodeClass(
    inputTypes: InputTypes,
    returnTypes: seq<string>,
    outputIsList: Option<seq<bool>>,
    returnNames: Option<seq<string>>,
    description: Option<string>,
    outputNode: Option<bool>,
    category: Option<string>)

  datatype Info = Info(
    input: InputTypes,
    output: seq<string>,
    outputIsList: seq<bool>,
    outputName: seq<string>,
    name: string,
    displayName: string,
    description: string,
    category: string,
    outputNode: bool)

  function Falses(n: nat): (r: seq<bool>)
    ensures |r| == n && forall i :: 0 <= i < n ==> !r[i]
  {
    seq(n, i => false)
  }

  /** `node_info(name)`: a name with no class raises `KeyError`. */
  function GetNodeInfo(name: string, classes: map<string, NodeClass>, displays: map<string, string>): (r: Result<Info>)
    ensures r.Err? <==> name !in classes
    ensures r.Err? ==> r.error == Quote(name)
  {
    if name !in classes then Err(Quote(name))
    else
      var c := classes[name];
      Ok(Info(
        input := c.inputTypes,
        output := c.returnTypes,
        outputIsList := if c.outputIsList.Some? then c.outputIsList.value else Falses(|c.returnTypes|),
        outputName := if c.returnNames.Some? then c.returnNames.value else c.returnTypes,
        name := name,
        displayName := if name in displays then displays[name] else name,
        description := if c.description.Some? then c.description.value else "",
        category := if c.category.Some? then c.category.value else "sd",
        outputNode := c.outputNode == Some(true)))
  }

  /** A class that declares only its inputs and return types gets the
      defaults: no list outputs, outputs named by their types, its own name
      shown (unless a display name is registered), an empty description, the
      `sd` category and no output node. */
  lemma NodeInfoDefaults(name: string, c: NodeClass, classes: map<string, NodeClass>, displays: map<string, string>)
    requires name in classes && classes[name] == c
    requires c.outputIsList.None? && c.returnNames.None? && c.description.None?
    requires c.outputNode.None? && c.category.None? && name !in displays
    ensures var info := GetNodeInfo(name, classes, displays).value;
      |info.outputIsList| == |info.output| == |info.outputName| &&
      (forall i :: 0 <= i < |info.outputIsList| ==> !info.outputIsList[i]) &&
      info.outputName == info.output == c.returnTypes &&
      info.name == info.displayName == name &&
      info.description == "" && info.category == "sd" && !info.outputNode
  {
  }

  /** What the editor reads about a node (the constant fields and the
      defaults taken from the execute function's signature are not modelled). */
  datatype NodeDict = NodeDict(
    nodeType: string,
    className: string,
    displayName: string,
    inputs: Dict<string>,
    outputs: Dict<string>,
    nodeDescription: string,
    pluginName: string)

  /** `s.replace(a, b)` for single characters. */
  function ReplaceChar(s: string, a: char, b: char): (r: string)
    ensures |r| == |s|
    ensures forall i :: 0 <= i < |s| ==> r[i] == if s[i] == a then b else s[i]
  {
    seq(|s|, i requires 0 <= i < |s| => if s[i] == a then b else s[i])
  }

  const ListType := "<class 'list'>"

  /** Each return type, or the list type where its `OUTPUT_IS_LIST` flag is
      set; `zip` stops at the shorter of the two. */
  function OutputTypes(output: seq<string>, isList: seq<bool>): (r: seq<string>)
    ensures |r| == Min(|output|, |isList|)
  {
    seq(Min(|output|, |isList|), i requires 0 <= i < Min(|output|, |isList|) => if isList[i] then ListType else output[i])
  }

  function PortIds(section: Option<Dict<PyValue>>): seq<string> {
    if section.Some? then Keys(section.value) else []
  }

  function PortTypes(section: Option<Dict<PyValue>>): seq<PyValue> {
    if section.Some? then Values(section.value) else []
  }

  /** `node_info_to_node_dict`: the required ports followed by the optional
      ones, each with its converted type; the outputs by name; and the
      category, with `/` turned into `.`, as the plugin name. */
  function NodeInfoToNodeDict(nodeType: string, info: Info): (r: Result<NodeDict>)
    ensures r.Ok? ==> r.value.nodeType == nodeType && r.value.className == info.name
    ensures r.Ok? ==> r.value.displayName == info.displayName && r.value.nodeDescription == info.description
  {
    match ConvertAll(PortTypes(info.input.required))
    case Err(e) => Err(e)
    case Ok(requiredTypes) =>
      match ConvertAll(PortTypes(info.input.optional))
      case Err(e) => Err(e)
      case Ok(optionalTypes) =>
        var inputs := ZipDict(PortIds(info.input.required) + PortIds(info.input.optional), requiredTypes + optionalTypes);
        var outputs := ZipDict(info.outputName, OutputTypes(info.output, info.outputIsList));
        Ok(NodeDict(
          nodeType := nodeType,
          className := info.name,
          displayName := info.displayName,
          inputs := inputs,
          outputs := if |outputs| == 0 then [Entry("output", "None")] else outputs,
          nodeDescription := info.description,
          pluginName := ReplaceChar(info.category, '/', '.')))
  }

  /** The description is built exactly when every port type converts. */
  lemma NodeDictFailsOnUnsupportedPort(nodeType: string, info: Info)
    ensures NodeInfoToNodeDict(nodeType, info).Ok? <==>
      (forall i :: 0 <= i < |PortTypes(info.input.required)| ==> ConvertType(PortTypes(info.input.required)[i]).Ok?) &&
      (forall i :: 0 <= i < |PortTypes(info.input.optional)| ==> ConvertType(PortTypes(info.input.optional)[i]).Ok?)
  {
  }

  /** With distinct port ids, the inputs are the required ports followed by
      the optional ones, in declaration order, each with its converted type. */
  lemma InputsRequiredThenOptional(nodeType: string, info: Info)
    requires NodeInfoToNodeDict(nodeType, info).Ok?
    requires Distinct(PortIds(info.input.required) + PortIds(info.input.optional))
    ensures var inputs := NodeInfoToNodeDict(nodeType, info).value.inputs;
      var ids := PortIds(info.input.required) + PortIds(info.input.optional);
      var types := PortTypes(info.input.required) + PortTypes(info.input.optional);
      Keys(inputs) == ids && |Values(inputs)| == |types| &&
      forall i :: 0 <= i < |types| ==> ConvertType(types[i]) == Ok(Values(inputs)[i])
  {
    var req, opt := info.input.required, info.input.optional;
    var rt := ConvertAll(PortTypes(req)).value;
    var ot := ConvertAll(PortTypes(opt)).value;
    ZipDictDistinct(PortIds(req) + PortIds(opt), rt + ot);
    var types := PortTypes(req) + PortTypes(opt);
    forall i | 0 <= i < |types| ensures ConvertType(types[i]) == Ok((rt + ot)[i]) {
      if i >= |rt| {
        assert types[i] == PortTypes(opt)[i - |rt|];
      }
    }
  }

  /** Every named output gets the type of its last occurrence in the zip of
      names and types, the list type where flagged; the outputs are never
      empty, and without any `{"output": "None"}` stands in. */
  lemma OutputsByName(nodeType: string, info: Info, k: string)
    requires NodeInfoToNodeDict(nodeType, info).Ok?
    ensures var outputs := NodeInfoToNodeDict(nodeType, info).value.outputs;
      var types := OutputTypes(info.output, info.outputIsList);
      |outputs| >= 1 &&
      (Min(|info.outputName|, |types|) == 0 ==> outputs == [Entry("output", "None")]) &&
      (Min(|info.outputName|, |types|) > 0 ==> Get(outputs, k) == LastValue(info.outputName, types, k))
  {
    var types := OutputTypes(info.output, info.outputIsList);
    PutAllGet([], info.outputName, types, k);
  }

  /** A flagged output, with distinct output names, has the list type. */
  lemma ListOutputMarked(nodeType: string, info: Info, i: nat)
    requires NodeInfoToNodeDict(nodeType, info).Ok?
    requires |info.outputName| == |info.output| == |info.outputIsList| && Distinct(info.outputName)
    requires i < |info.output| && info.outputIsList[i]
    ensures Get(NodeInfoToNodeDict(nodeType, info).value.outputs, info.outputName[i]) == Some(ListType)
  {
    var types := OutputTypes(info.output, info.outputIsList);
    ZipDictDistinct(info.outputName, types);
    var outputs := ZipDict(info.outputName, types);
    PutAllUnique([], info.outputName, types);
    assert outputs[i].key == info.outputName[i] && outputs[i].value == types[i];
    EntryGet(outputs, i);
  }

  /** The plugin name is the category with every `/` turned into `.`: same
      length, no `/` left, every other character kept. */
  lemma PluginNameFromCategory(nodeType: string, info: Info)
    requires NodeInfoToNodeDict(nodeType, info).Ok?
    ensures var p := NodeInfoToNodeDict(nodeType, info).value.pluginName;
      |p| == |info.category| && '/' !in p &&
      forall i :: 0 <= i < |p| ==> (p[i] == '.' <==> info.category[i] == '/' || info.category[i] == '.')
  {
  }

  /** A class with no outputs is described with the one output `None`, and one
      with plain distinct return types has one output per type, named by it. */
  lemma DefaultOutputs(name: string, nodeType: string, c: NodeClass, classes: map<string, NodeClass>, displays: map<string, string>)
    requires name in classes && classes[name] == c
    requires c.outputIsList.None? && c.returnNames.None?
    requires NodeInfoToNodeDict(nodeType, GetNodeInfo(name, classes, displays).value).Ok?
    ensures var outputs := NodeInfoToNodeDict(nodeType, GetNodeInfo(name, classes, displays).value).value.outputs;
      (c.returnTypes == [] ==> outputs == [Entry("output", "None")]) &&
      (c.returnTypes != [] && Distinct(c.returnTypes) ==> Keys(outputs) == c.returnTypes && Values(outputs) == c.returnTypes)
  {
    var info := GetNodeInfo(name, classes, displays).value;
    var types := OutputTypes(info.output, info.outputIsList);
    assert types == c.returnTypes;
    if c.returnTypes != [] && Distinct(c.returnTypes) {
      ZipDictDistinct(c.returnTypes, types);
    }
  }
}

/**
 * The structural extractor for React component text (src/utils/wordpress/codeAnalyzer.ts).
 *
 * The parser is a function parameter: it yields the statements of the program, or `None`
 * when the text does not parse. The syntax tree keeps the node kinds the visitors look at
 * and an `Other` kind for every remaining node, with its children in the order the
 * traversal visits them. The traversal enters a node (running its visitor) before its
 * children, so the facts are gathered in pre-order.
 */
module CodeAnalyzer {
  import opened Wrappers
  import opened JsString
  import opened ThemeConverter

  datatype Node =
    | Import(source: string)
    | Call(callee: Node, arguments: seq<Node>)
    | Declarator(id: Node, init: Option<Node>)
    | ArrayPattern(elements: seq<Node>)
    | Identifier(name: string)
    | Hole
    | Other(children: seq<Node>)

  datatype AnalysisResult = AnalysisResult(
    components: seq<string>,
    hooks: seq<string>,
    dependencies: seq<string>,
    stateVariables: seq<string>,
    props: seq<string>)

  const EMPTY := AnalysisResult([], [], [], [], [])

  const ANALYSIS_ERROR := "Could not analyze component code"

  /** Facts `b` pushed after facts `a`, list by list. */
  function Then(a: AnalysisResult, b: AnalysisResult): AnalysisResult {
    AnalysisResult(
      a.components + b.components,
      a.hooks + b.hooks,
      a.dependencies + b.dependencies,
      a.stateVariables + b.stateVariables,
      a.props + b.props)
  }

  predicate StartsWith(s: string, prefix: string) {
    |prefix| <= |s| && s[..|prefix|] == prefix
  }

  /** The call visitor's test: the callee is a bare identifier whose name starts with `use`. */
  predicate IsHookCall(n: Node) {
    n.Call? && n.callee.Identifier? && StartsWith(n.callee.name, "use")
  }

  /** A call of the bare identifier `useState`. */
  predicate IsUseStateCall(n: Node) {
    n.Call? && n.callee.Identifier? && n.callee.name == "useState"
  }

  /**
   * The declarator visitor's test: an array pattern initialised by a `useState` call whose
   * first slot is present and is an identifier.
   */
  predicate IsStateDeclarator(n: Node) {
    && n.Declarator? && n.id.ArrayPattern? && n.init.Some? && IsUseStateCall(n.init.value)
    && |n.id.elements| > 0 && n.id.elements[0].Identifier?
  }

  /** What the visitors push when the traversal enters `n`. */
  function Own(n: Node): AnalysisResult {
    AnalysisResult(
      [],
      if IsHookCall(n) then [n.callee.name] else [],
      if n.Import? then [n.source] else [],
      if IsStateDeclarator(n) then [n.id.elements[0].name] else [],
      [])
  }

  // ---- The traversal as a fold over the tree ----

  /**
   * The facts gathered by traversing `n`: its own, then its children's in order. No visitor
   * pushes a component or a prop.
   */
  function Collect(n: Node): (r: AnalysisResult)
    ensures r.components == [] && r.props == []
    decreases n, 1
  {
    Then(Own(n), match n
      case Import(_) => EMPTY
      case Call(callee, arguments) => Then(Collect(callee), CollectAll(arguments))
      case Declarator(id, init) => Then(Collect(id), if init.Some? then Collect(init.value) else EMPTY)
      case ArrayPattern(elements) => CollectAll(elements)
      case Identifier(_) => EMPTY
      case Hole => EMPTY
      case Other(children) => CollectAll(children))
  }

  function CollectAll(ns: seq<Node>): (r: AnalysisResult)
    ensures r.components == [] && r.props == []
    decreases ns, 0
  {
    if ns == [] then EMPTY else Then(CollectAll(ns[..|ns| - 1]), Collect(ns[|ns| - 1]))
  }

  // ---- A reference definition: the nodes in pre-order, and the facts of a node list ----

  /** Every node of the tree, each once, a node before its children. */
  function PreOrder(n: Node): seq<Node>
    decreases n, 1
  {
    [n] + match n
      case Import(_) => []
      case Call(callee, arguments) => PreOrder(callee) + PreOrderAll(arguments)
      case Declarator(id, init) => PreOrder(id) + (if init.Some? then PreOrder(init.value) else [])
      case ArrayPattern(elements) => PreOrderAll(elements)
      case Identifier(_) => []
      case Hole => []
      case Other(children) => PreOrderAll(children)
  }

  function PreOrderAll(ns: seq<Node>): seq<Node>
    decreases ns, 0
  {
    if ns == [] then [] else PreOrderAll(ns[..|ns| - 1]) + PreOrder(ns[|ns| - 1])
  }

  /** The facts of a list of nodes: each node's own, in list order. */
  function FactsOf(nodes: seq<Node>): AnalysisResult {
    if nodes == [] then EMPTY else Then(FactsOf(nodes[..|nodes| - 1]), Own(nodes[|nodes| - 1]))
  }

  lemma ThenAssoc(x: AnalysisResult, y: AnalysisResult, z: AnalysisResult)
    ensures Then(Then(x, y), z) == Then(x, Then(y, z))
  {
  }

  lemma ThenEmpty(x: AnalysisResult)
    ensures Then(EMPTY, x) == x && Then(x, EMPTY) == x
  {
  }

  lemma {:induction false} FactsOfConcat(a: seq<Node>, b: seq<Node>)
    ensures FactsOf(a + b) == Then(FactsOf(a), FactsOf(b))
    decreases |b|
  {
    if b == [] {
      assert a + b == a;
    } else {
      var ab, init, last := a + b, b[..|b| - 1], b[|b| - 1];
      assert ab[..|ab| - 1] == a + init;
      assert ab[|ab| - 1] == last;
      calc {
        FactsOf(ab);
        Then(FactsOf(a + init), Own(last));
        { FactsOfConcat(a, init); }
        Then(Then(FactsOf(a), FactsOf(init)), Own(last));
        { ThenAssoc(FactsOf(a), FactsOf(init), Own(last)); }
        Then(FactsOf(a), Then(FactsOf(init), Own(last)));
      }
    }
  }

  lemma FactsOfOne(n: Node)
    ensures FactsOf([n]) == Own(n)
  {
    assert [n][..0] == [];
  }

  /** The traversal sees every node once, in pre-order: the fold equals the facts of that list. */
  lemma {:induction false} CollectPreOrder(n: Node)
    ensures Collect(n) == FactsOf(PreOrder(n))
    decreases n, 1
  {
    FactsOfOne(n);
    match n
    case Import(_) =>
      assert PreOrder(n) == [n];
    case Call(callee, arguments) =>
      CollectPreOrder(callee);
      CollectAllPreOrder(arguments);
      FactsOfConcat(PreOrder(callee), PreOrderAll(arguments));
      FactsOfConcat([n], PreOrder(callee) + PreOrderAll(arguments));
    case Declarator(id, init) =>
      CollectPreOrder(id);
      var rest := if init.Some? then PreOrder(init.value) else [];
      if init.Some? {
        CollectPreOrder(init.value);
      }
      FactsOfConcat(PreOrder(id), rest);
      FactsOfConcat([n], PreOrder(id) + rest);
    case ArrayPattern(elements) =>
      CollectAllPreOrder(elements);
      FactsOfConcat([n], PreOrderAll(elements));
    case Identifier(_) =>
      assert PreOrder(n) == [n];
    case Hole =>
      assert PreOrder(n) == [n];
    case Other(children) =>
      CollectAllPreOrder(children);
      FactsOfConcat([n], PreOrderAll(children));
  }

  lemma {:induction false} CollectAllPreOrder(ns: seq<Node>)
    ensures CollectAll(ns) == FactsOf(PreOrderAll(ns))
    decreases ns, 0
  {
    if ns != [] {
      CollectAllPreOrder(ns[..|ns| - 1]);
      CollectPreOrder(ns[|ns| - 1]);
      FactsOfConcat(PreOrderAll(ns[..|ns| - 1]), PreOrder(ns[|ns| - 1]));
    }
  }

  /**
   * A name is among the hooks of a node list exactly when some node of the list is a call of
   * a bare identifier of that name starting with `use`; member calls such as `React.useState()`
   * are never hook calls.
   */
  lemma {:induction false} HooksOfIff(nodes: seq<Node>, x: string)
    ensures x in FactsOf(nodes).hooks <==> exists i :: 0 <= i < |nodes| && IsHookCall(nodes[i]) && nodes[i].callee.name == x
  {
    if nodes != [] {
      var init, last := nodes[..|nodes| - 1], nodes[|nodes| - 1];
      assert FactsOf(nodes).hooks == FactsOf(init).hooks + Own(last).hooks;
      HooksOfIff(init, x);
      if x in FactsOf(init).hooks {
        var i :| 0 <= i < |init| && IsHookCall(init[i]) && init[i].callee.name == x;
        assert nodes[i] == init[i];
      } else if IsHookCall(last) && last.callee.name == x {
        assert IsHookCall(nodes[|nodes| - 1]);
      } else {
        forall i | 0 <= i < |nodes| ensures !(IsHookCall(nodes[i]) && nodes[i].callee.name == x) {
          if i < |init| {
            assert nodes[i] == init[i];
          }
        }
      }
    }
  }

  /** Every import source of a node list is a dependency, and every dependency is one. */
  lemma {:induction false} DependenciesOfIff(nodes: seq<Node>, x: string)
    ensures x in FactsOf(nodes).dependencies <==> exists i :: 0 <= i < |nodes| && nodes[i] == Import(x)
  {
    if nodes != [] {
      var init, last := nodes[..|nodes| - 1], nodes[|nodes| - 1];
      assert FactsOf(nodes).dependencies == FactsOf(init).dependencies + Own(last).dependencies;
      DependenciesOfIff(init, x);
      if x in FactsOf(init).dependencies {
        var i :| 0 <= i < |init| && init[i] == Import(x);
        assert nodes[i] == init[i];
      } else if last == Import(x) {
        assert nodes[|nodes| - 1] == Import(x);
      } else {
        forall i | 0 <= i < |nodes| ensures nodes[i] != Import(x) {
          if i < |init| {
            assert nodes[i] == init[i];
          }
        }
      }
    }
  }

  /** The number of occurrences of `x` in `s`. */
  function Count(s: seq<string>, x: string): nat {
    if s == [] then 0 else (if s[0] == x then 1 else 0) + Count(s[1..], x)
  }

  lemma {:induction false} CountConcat(a: seq<string>, b: seq<string>, x: string)
    ensures Count(a + b, x) == Count(a, x) + Count(b, x)
  {
    if a == [] {
      assert a + b == b;
    } else {
      assert (a + b)[1..] == a[1..] + b;
      CountConcat(a[1..], b, x);
    }
  }

  /**
   * A node pushes one state variable exactly when it is a state declarator, and one
   * "useState" hook exactly when it calls `useState`.
   */
  lemma OwnCounts(n: Node)
    ensures |Own(n).stateVariables| == if IsStateDeclarator(n) then 1 else 0
    ensures Count(Own(n).hooks, "useState") == if IsUseStateCall(n) then 1 else 0
  {
    if IsHookCall(n) {
      assert Own(n).hooks == [n.callee.name];
      assert Count([n.callee.name], "useState") == if n.callee.name == "useState" then 1 else 0;
    }
  }

  /**
   * Every state variable comes from a `useState` call that the call visitor records too, so
   * there are never more state variables than `useState` hooks; a `useState` call itself
   * accounts for one hook more than the state variables inside it.
   */
  lemma {:induction false} StateBound(n: Node)
    ensures |Collect(n).stateVariables| + (if IsUseStateCall(n) then 1 else 0) <= Count(Collect(n).hooks, "useState")
    decreases n, 1
  {
    var own := Own(n);
    var kids := match n
      case Import(_) => EMPTY
      case Call(callee, arguments) => Then(Collect(callee), CollectAll(arguments))
      case Declarator(id, init) => Then(Collect(id), if init.Some? then Collect(init.value) else EMPTY)
      case ArrayPattern(elements) => CollectAll(elements)
      case Identifier(_) => EMPTY
      case Hole => EMPTY
      case Other(children) => CollectAll(children);
    assert Collect(n) == Then(own, kids);
    OwnCounts(n);
    CountConcat(own.hooks, kids.hooks, "useState");
    match n
    case Import(_) =>
    case Call(callee, arguments) =>
      StateBound(callee);
      StateBoundAll(arguments);
      CountConcat(Collect(callee).hooks, CollectAll(arguments).hooks, "useState");
    case Declarator(id, init) =>
      StateBound(id);
      var rest := if init.Some? then Collect(init.value) else EMPTY;
      if init.Some? {
        StateBound(init.value);
      }
      CountConcat(Collect(id).hooks, rest.hooks, "useState");
    case ArrayPattern(elements) =>
      StateBoundAll(elements);
    case Identifier(_) =>
    case Hole =>
    case Other(children) =>
      StateBoundAll(children);
  }

  lemma {:induction false} StateBoundAll(ns: seq<Node>)
    ensures |CollectAll(ns).stateVariables| <= Count(CollectAll(ns).hooks, "useState")
    decreases ns, 0
  {
    if ns != [] {
      StateBoundAll(ns[..|ns| - 1]);
      StateBound(ns[|ns| - 1]);
      CountConcat(CollectAll(ns[..|ns| - 1]).hooks, Collect(ns[|ns| - 1]).hooks, "useState");
    }
  }

  /** No visitor pushes a component or a prop: both lists stay empty. */
  lemma {:induction false} NeverPopulated(nodes: seq<Node>)
    ensures FactsOf(nodes).components == [] && FactsOf(nodes).props == []
  {
    if nodes != [] {
      NeverPopulated(nodes[..|nodes| - 1]);
    }
  }

  /** The facts of a program: its statements traversed in order. */
  lemma ProgramFacts(program: seq<Node>)
    ensures CollectAll(program).components == [] && CollectAll(program).props == []
    ensures |CollectAll(program).stateVariables| <= Count(CollectAll(program).hooks, "useState")
    ensures forall x :: x in CollectAll(program).hooks <==>
      exists i :: 0 <= i < |PreOrderAll(program)| && IsHookCall(PreOrderAll(program)[i]) && PreOrderAll(program)[i].callee.name == x
  {
    CollectAllPreOrder(program);
    NeverPopulated(PreOrderAll(program));
    StateBoundAll(program);
    forall x {
      HooksOfIff(PreOrderAll(program), x);
    }
  }

  // ---- Worked declarations ----

  /** `const [count, setCount] = useState(0);` records the state variable and the hook. */
  lemma StateDeclarationExample()
    ensures var d := Declarator(ArrayPattern([Identifier("count"), Identifier("setCount")]),
                                Some(Call(Identifier("useState"), [Other([])])));
      Collect(d).stateVariables == ["count"] && Collect(d).hooks == ["useState"]
  {
    var slots := [Identifier("count"), Identifier("setCount")];
    assert slots[..1] == [Identifier("count")];
    assert slots[..1][..0] == [];
    assert [Other([])][..0] == [];
  }

  /** `const [, setX] = useState(0);`: a hole in the first slot records no state variable. */
  lemma HoleSkippedExample()
    ensures var d := Declarator(ArrayPattern([Hole, Identifier("setX")]),
                                Some(Call(Identifier("useState"), [])));
      Collect(d).stateVariables == [] && Collect(d).hooks == ["useState"]
  {
    var slots := [Hole, Identifier("setX")];
    assert slots[..1] == [Hole];
    assert slots[..1][..0] == [];
  }

  /** `React.useState(0)` is a member call and is not recorded; `user()` is. */
  lemma CalleeExamples()
    ensures Collect(Call(Other([Identifier("React"), Identifier("useState")]), [])).hooks == []
    ensures Collect(Call(Identifier("user"), [])).hooks == ["user"]
  {
    var member := [Identifier("React"), Identifier("useState")];
    assert member[..1] == [Identifier("React")];
    assert member[..1][..0] == [];
  }

  /** Two imports of the same module are both kept. */
  lemma DuplicateImportsKept()
    ensures CollectAll([Import("react"), Import("react")]).dependencies == ["react", "react"]
  {
    var two := [Import("react"), Import("react")];
    assert two[..1] == [Import("react")];
    assert two[..1][..0] == [];
  }

  // ---- The analysis record and its visitors ----

  /** The `analysis` record the visitors push into. */
  class Analysis {
    var components: seq<string>
    var hooks: seq<string>
    var dependencies: seq<string>
    var stateVariables: seq<string>
    var props: seq<string>

    function Snapshot(): AnalysisResult
      reads this
    {
      AnalysisResult(components, hooks, dependencies, stateVariables, props)
    }

    constructor()
      ensures Snapshot() == EMPTY
    {
      components, hooks, dependencies, stateVariables, props := [], [], [], [], [];
    }

    /** The `ImportDeclaration` visitor. */
    method ImportDeclaration(n: Node)
      requires n.Import?
      modifies this
      ensures Snapshot() == Then(old(Snapshot()), Own(n))
    {
      dependencies := dependencies + [n.source];
    }

    /** The `CallExpression` visitor. */
    method CallExpression(n: Node)
      requires n.Call?
      modifies this
      ensures Snapshot() == Then(old(Snapshot()), Own(n))
    {
      if n.callee.Identifier? && StartsWith(n.callee.name, "use") {
        hooks := hooks + [n.callee.name];
      }
    }

    /** The `VariableDeclarator` visitor. */
    method VariableDeclarator(n: Node)
      requires n.Declarator?
      modifies this
      ensures Snapshot() == Then(old(Snapshot()), Own(n))
    {
      if n.id.ArrayPattern? && n.init.Some? && n.init.value.Call? && n.init.value.callee.Identifier?
        && n.init.value.callee.name == "useState" && |n.id.elements| > 0 && n.id.elements[0].Identifier?
      {
        stateVariables := stateVariables + [n.id.elements[0].name];
      }
    }

    /** Enters `n`, running the visitor for its kind, then traverses its children in order. */
    method Traverse(n: Node)
      modifies this
      ensures Snapshot() == Then(old(Snapshot()), Collect(n))
      decreases n, 1
    {
      ghost var before := Snapshot();
      match n {
        case Import(_) =>
          ImportDeclaration(n);
          ThenEmpty(Own(n));
        case Call(callee, arguments) =>
          CallExpression(n);
          Traverse(callee);
          TraverseAll(arguments);
          ThenAssoc(Then(before, Own(n)), Collect(callee), CollectAll(arguments));
          ThenAssoc(before, Own(n), Then(Collect(callee), CollectAll(arguments)));
        case Declarator(id, init) =>
          VariableDeclarator(n);
          Traverse(id);
          var rest := if init.Some? then Collect(init.value) else EMPTY;
          if init.Some? {
            Traverse(init.value);
          } else {
            ThenEmpty(Then(Then(before, Own(n)), Collect(id)));
          }
          ThenAssoc(Then(before, Own(n)), Collect(id), rest);
          ThenAssoc(before, Own(n), Then(Collect(id), rest));
        case ArrayPattern(elements) =>
          TraverseAll(elements);
          assert Own(n) == EMPTY;
          ThenEmpty(CollectAll(elements));
        case Identifier(_) =>
          assert Own(n) == EMPTY;
          ThenEmpty(before);
        case Hole =>
          assert Own(n) == EMPTY;
          ThenEmpty(before);
        case Other(children) =>
          TraverseAll(children);
          assert Own(n) == EMPTY;
          ThenEmpty(CollectAll(children));
      }
    }

    method TraverseAll(ns: seq<Node>)
      modifies this
      ensures Snapshot() == Then(old(Snapshot()), CollectAll(ns))
      decreases ns, 0
    {
      var i := 0;
      while i < |ns|
        invariant 0 <= i <= |ns|
        invariant Snapshot() == Then(old(Snapshot()), CollectAll(ns[..i]))
      {
        assert ns[..i + 1][..i] == ns[..i];
        ThenAssoc(old(Snapshot()), CollectAll(ns[..i]), Collect(ns[i]));
        Traverse(ns[i]);
        i := i + 1;
      }
      assert ns[..|ns|] == ns;
    }

  }

  /**
   * `analyzeReactCode`: parses the text and traverses the program once. Text that does not
   * parse yields the one error, never a partial result; otherwise the facts are those of the
   * program's nodes in pre-order, and no component or prop is ever listed.
   */
  method AnalyzeReactCode(code: string, parse: string -> Option<seq<Node>>) returns (r: Result<AnalysisResult>)
    ensures r.Failure? <==> parse(code).None?
    ensures r.Failure? ==> r.error == ANALYSIS_ERROR
    ensures r.Success? ==> r.value == FactsOf(PreOrderAll(parse(code).value))
    ensures r.Success? ==> r.value.components == [] && r.value.props == []
  {
    var program := parse(code);
    if program.None? {
      return Failure(ANALYSIS_ERROR);
    }
    var analysis := new Analysis();
    analysis.TraverseAll(program.value);
    ThenEmpty(CollectAll(program.value));
    CollectAllPreOrder(program.value);
    NeverPopulated(PreOrderAll(program.value));
    r := Success(analysis.Snapshot());
  }

  // ---- The preview ----

  /** `import ${dep} from '${dep}';`. */
  function DependencyLine(dep: string): string {
    "import " + dep + " from '" + dep + "';"
  }

  /** `const ${hook.toLowerCase()} = ${hook}();`. */
  function HookLine(hook: string): string {
    "const " + ToLower(hook) + " = " + hook + "();"
  }

  function DependencyLines(deps: seq<string>): (r: seq<string>)
    ensures |r| == |deps| && forall i :: 0 <= i < |deps| ==> r[i] == DependencyLine(deps[i])
  {
    if deps == [] then [] else [DependencyLine(deps[0])] + DependencyLines(deps[1..])
  }

  function HookLines(hooks: seq<string>): (r: seq<string>)
    ensures |r| == |hooks| && forall i :: 0 <= i < |hooks| ==> r[i] == HookLine(hooks[i])
  {
    if hooks == [] then [] else [HookLine(hooks[0])] + HookLines(hooks[1..])
  }

  const PREVIEW_COMMENT := "// Component Preview\n"
  const PREVIEW_IMPORT_REACT := "import React from 'react';\n"
  const PREVIEW_COMPONENT_OPEN := "\n\nconst "
  const PREVIEW_ARROW := " = () => {\n  "
  const PREVIEW_BODY := "\n  \n  return (\n    <div className=\"preview\">\n      {/* Component Structure */}\n    </div>\n  );\n};\n\n"
  const PREVIEW_EXPORT := "export default "
  const PREVIEW_END := ";"

  /** The pieces of the preview template between the white space `trim` removes. */
  function PreviewPieces(name: string, analysis: AnalysisResult): seq<string> {
    [PREVIEW_COMMENT, PREVIEW_IMPORT_REACT, Join(DependencyLines(analysis.dependencies), "\n"), PREVIEW_COMPONENT_OPEN, name,
     PREVIEW_ARROW, Join(HookLines(analysis.hooks), "\n"), PREVIEW_BODY, PREVIEW_EXPORT, name, PREVIEW_END]
  }

  /** The preview text for a component and its analysis, trimmed. */
  function PreviewText(name: string, analysis: AnalysisResult): (r: string)
    ensures Trimmed(r)
  {
    Trim("\n" + Concat(PreviewPieces(name, analysis)) + "\n")
  }

  lemma PreviewTrimmed(name: string, analysis: AnalysisResult)
    ensures PreviewText(name, analysis) == Concat(PreviewPieces(name, analysis))
  {
    assert PREVIEW_COMMENT[0] == '/';
    assert PREVIEW_END[0] == ';';
    TrimTemplate("\n", PreviewPieces(name, analysis), "\n");
  }

  lemma PreviewPiecesFrame(name: string, analysis: AnalysisResult)
    ensures var text := Concat(PreviewPieces(name, analysis));
      && PREVIEW_COMMENT + PREVIEW_IMPORT_REACT <= text
      && EndsWith(text, PREVIEW_EXPORT + name + PREVIEW_END)
  {
    var parts := PreviewPieces(name, analysis);
    ConcatPrefix(parts, 2);
    assert parts[..2] == [PREVIEW_COMMENT, PREVIEW_IMPORT_REACT];
    Concat2(PREVIEW_COMMENT, PREVIEW_IMPORT_REACT);
    assert parts[8..] == [PREVIEW_EXPORT, name, PREVIEW_END];
    Concat3(PREVIEW_EXPORT, name, PREVIEW_END);
    ConcatSuffix(parts, 8);
  }

  /** The preview opens with the fixed header and ends by exporting the component. */
  lemma PreviewFrame(name: string, analysis: AnalysisResult)
    ensures var text := PreviewText(name, analysis);
      && PREVIEW_COMMENT + PREVIEW_IMPORT_REACT <= text
      && EndsWith(text, "export default " + name + ";")
  {
    PreviewTrimmed(name, analysis);
    PreviewPiecesFrame(name, analysis);
  }

  lemma PreviewPiecesDependency(name: string, analysis: AnalysisResult, i: nat)
    requires i < |analysis.dependencies|
    ensures Contains(Concat(PreviewPieces(name, analysis)), DependencyLine(analysis.dependencies[i]))
  {
    var lines := DependencyLines(analysis.dependencies);
    JoinContains(lines, "\n", i);
    ConcatContainsPiece(PreviewPieces(name, analysis), 2, lines[i]);
  }

  /** Each dependency has its import line in the preview. */
  lemma PreviewImportsEachDependency(name: string, analysis: AnalysisResult, i: nat)
    requires i < |analysis.dependencies|
    ensures Contains(PreviewText(name, analysis), DependencyLine(analysis.dependencies[i]))
  {
    PreviewTrimmed(name, analysis);
    PreviewPiecesDependency(name, analysis, i);
  }

  lemma PreviewPiecesHook(name: string, analysis: AnalysisResult, i: nat)
    requires i < |analysis.hooks|
    ensures Contains(Concat(PreviewPieces(name, analysis)), HookLine(analysis.hooks[i]))
  {
    var lines := HookLines(analysis.hooks);
    JoinContains(lines, "\n", i);
    ConcatContainsPiece(PreviewPieces(name, analysis), 6, lines[i]);
  }

  /** Each hook has its call line in the preview. */
  lemma PreviewCallsEachHook(name: string, analysis: AnalysisResult, i: nat)
    requires i < |analysis.hooks|
    ensures Contains(PreviewText(name, analysis), HookLine(analysis.hooks[i]))
  {
    PreviewTrimmed(name, analysis);
    PreviewPiecesHook(name, analysis, i);
  }

  /**
   * `generatePreview`: fails, with the analyzer's error, exactly when the analyzer fails on
   * the component's code; otherwise the preview text of the name and the analysis.
   */
  method GeneratePreview(componentData: ComponentData, parse: string -> Option<seq<Node>>) returns (r: Result<string>)
    ensures r.Failure? <==> parse(componentData.code).None?
    ensures r.Failure? ==> r.error == ANALYSIS_ERROR
    ensures r.Success? ==> r.value == PreviewText(componentData.name, FactsOf(PreOrderAll(parse(componentData.code).value)))
  {
    var analysis := AnalyzeReactCode(componentData.code, parse);
    match analysis {
      case Failure(e) => r := Failure(e);
      case Success(a) => r := Success(PreviewText(componentData.name, a));
    }
  }
}

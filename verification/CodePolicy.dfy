/** The static policy for generated analysis code: an early-exit visitor, and exactly which trees it accepts. */
module CodePolicy {
  import opened WorkflowTypes

  const MAX_AST_NODES := 500

  const FORBIDDEN_NODES: set<string> := {
    "Import", "ImportFrom", "FunctionDef", "AsyncFunctionDef", "ClassDef", "Lambda", "With", "AsyncWith", "Try",
    "Raise", "Global", "Nonlocal", "Delete", "Await", "Yield", "YieldFrom", "While"
  }

  const FORBIDDEN_NAMES: set<string> := {
    "__builtins__", "breakpoint", "compile", "eval", "exec", "exit", "getattr", "globals", "help", "input", "locals",
    "memoryview", "open", "quit", "setattr", "vars", "os", "sys", "subprocess", "socket", "pathlib", "shutil",
    "requests", "urllib", "http", "importlib", "builtins"
  }

  const PROTECTED_NAMES: set<string> := {"datasets", "pd", "np"}

  const SAFE_DIRECT_CALLS: set<string> := {
    "abs", "all", "any", "bool", "dict", "enumerate", "float", "int", "isinstance", "iter", "len", "list", "max",
    "min", "next", "print", "range", "reversed", "round", "set", "sorted", "str", "sum", "tuple", "zip"
  }

  const SAFE_PD_CALLS: set<string> := {
    "DataFrame", "Series", "concat", "crosstab", "cut", "isna", "merge", "notna", "pivot_table", "qcut",
    "to_datetime", "to_numeric"
  }

  const SAFE_NP_CALLS: set<string> := {
    "abs", "arange", "array", "clip", "isfinite", "isnan", "max", "mean", "median", "min", "percentile", "round",
    "std", "sum", "where"
  }

  const FORBIDDEN_ATTRIBUTES: set<string> := {
    "eval", "query", "system", "popen", "spawn", "fork", "kill", "remove", "unlink", "rmdir", "rename", "replace",
    "write", "save", "dump", "environ", "getenv", "load", "listdir", "makedirs", "os", "pathlib", "connect",
    "request", "urlopen", "read_pickle", "read_sql", "read_html", "read_xml", "shutil", "socket", "subprocess",
    "sys", "read_parquet", "read_feather", "to_pickle", "to_csv", "to_json", "to_excel", "to_sql", "to_parquet",
    "to_feather", "to_html", "to_xml"
  }

  const SAFE_TO_ATTRIBUTES: set<string> := {"to_dict", "to_list", "to_numpy", "tolist"}

  /** A syntax tree; expression contexts are nodes as well. `Other` is any other node, with its class name. */
  datatype Node =
    | Name(id: string, ctx: Node)
    | Attribute(target: Node, attr: string, ctx: Node)
    | Call(func: Node, arguments: seq<Node>)
    | Other(kind: string, children: seq<Node>)

  function Arity(n: Node): nat {
    match n
    case Name(_, _) => 1
    case Attribute(_, _, _) => 2
    case Call(_, arguments) => 1 + |arguments|
    case Other(_, children) => |children|
  }

  function Child(n: Node, i: nat): (c: Node)
    requires i < Arity(n)
    ensures c < n
  {
    match n
    case Name(_, ctx) => ctx
    case Attribute(target, _, ctx) => if i == 0 then target else ctx
    case Call(func, arguments) => if i == 0 then func else arguments[i - 1]
    case Other(_, children) => children[i]
  }

  function KindOf(n: Node): string {
    match n
    case Name(_, _) => "Name"
    case Attribute(_, _, _) => "Attribute"
    case Call(_, _) => "Call"
    case Other(kind, _) => kind
  }

  predicate IsStore(ctx: Node) {
    KindOf(ctx) == "Store"
  }

  /** All nodes of a tree, parents first. */
  function Walk(n: Node): seq<Node>
    decreases n, Arity(n) + 1
  {
    [n] + WalkUpTo(n, Arity(n))
  }

  function WalkUpTo(n: Node, k: nat): seq<Node>
    requires k <= Arity(n)
    decreases n, k
  {
    if k == 0 then [] else WalkUpTo(n, k - 1) + Walk(Child(n, k - 1))
  }

  // ---------------------------------------------------------------- the rule for one node

  predicate StartsWith(s: string, prefix: string) {
    |prefix| <= |s| && s[..|prefix|] == prefix
  }

  /** The name at the left end of an attribute chain. */
  function RootOf(n: Node): Option<string> {
    match n
    case Attribute(target, _, _) => RootOf(target)
    case Name(id, _) => Some(id)
    case _ => None
  }

  predicate NameAllowed(id: string, ctx: Node) {
    !StartsWith(id, "_") && id !in FORBIDDEN_NAMES && !(IsStore(ctx) && id in PROTECTED_NAMES)
  }

  predicate AttributeAllowed(attr: string) {
    && !StartsWith(attr, "_")
    && attr !in FORBIDDEN_ATTRIBUTES
    && !StartsWith(attr, "read_")
    && (StartsWith(attr, "to_") ==> attr in SAFE_TO_ATTRIBUTES)
  }

  predicate CallAllowed(func: Node) {
    match func
    case Name(id, _) => id in SAFE_DIRECT_CALLS
    case Attribute(_, attr, _) =>
      && (RootOf(func) == Some("pd") ==> attr in SAFE_PD_CALLS)
      && (RootOf(func) == Some("np") ==> attr in SAFE_NP_CALLS)
    case _ => false
  }

  predicate Allowed(n: Node) {
    match n
    case Name(id, ctx) => NameAllowed(id, ctx)
    case Attribute(_, attr, _) => AttributeAllowed(attr)
    case Call(func, _) => CallAllowed(func)
    case Other(kind, _) => kind !in FORBIDDEN_NODES
  }

  predicate StoresResult(n: Node) {
    n.Name? && IsStore(n.ctx) && n.id == "result"
  }

  ghost predicate AllAllowed(nodes: seq<Node>) {
    forall n :: n in nodes ==> Allowed(n)
  }

  ghost predicate SomeStore(nodes: seq<Node>) {
    exists n :: n in nodes && StoresResult(n)
  }

  lemma Joined(a: seq<Node>, b: seq<Node>)
    ensures AllAllowed(a + b) <==> AllAllowed(a) && AllAllowed(b)
    ensures SomeStore(a + b) <==> SomeStore(a) || SomeStore(b)
  {
    assert forall n :: n in a + b <==> n in a || n in b;
  }

  lemma Single(n: Node)
    ensures AllAllowed([n]) <==> Allowed(n)
    ensures SomeStore([n]) <==> StoresResult(n)
  {
    assert n in [n];
  }

  lemma {:induction false} WalkHasChildren(n: Node, i: nat, k: nat)
    requires i < k <= Arity(n)
    ensures forall m :: m in Walk(Child(n, i)) ==> m in WalkUpTo(n, k)
    decreases k
  {
    if i == k - 1 {
    } else {
      WalkHasChildren(n, i, k - 1);
    }
  }

  // ---------------------------------------------------------------- the visitor

  /** The cursor loop down an attribute chain. */
  method RootName(node: Node) returns (root: Option<string>)
    ensures root == RootOf(node)
  {
    var current := node;
    while current.Attribute?
      invariant RootOf(current) == RootOf(node)
      decreases current
    {
      current := current.target;
    }
    return if current.Name? then Some(current.id) else None;
  }

  class PolicyVisitor {
    var resultAssigned: bool

    constructor ()
      ensures !resultAssigned
    {
      resultAssigned := false;
    }

    /** Dispatches on the node and then visits its children in order; the first violation ends the visit. */
    method Visit(node: Node) returns (ok: bool)
      modifies this
      ensures ok <==> AllAllowed(Walk(node))
      ensures ok ==> (resultAssigned <==> old(resultAssigned) || SomeStore(Walk(node)))
      decreases node, Arity(node) + 2
    {
      Joined([node], WalkUpTo(node, Arity(node)));
      Single(node);
      match node {
        case Name(id, ctx) =>
          if StartsWith(id, "_") || id in FORBIDDEN_NAMES {
            return false;
          }
          if IsStore(ctx) && id in PROTECTED_NAMES {
            return false;
          }
          if IsStore(ctx) && id == "result" {
            resultAssigned := true;
          }
        case Attribute(_, attr, _) =>
          var unsafeReader := StartsWith(attr, "read_");
          var unsafeExporter := StartsWith(attr, "to_") && attr !in SAFE_TO_ATTRIBUTES;
          if StartsWith(attr, "_") || attr in FORBIDDEN_ATTRIBUTES || unsafeReader || unsafeExporter {
            return false;
          }
        case Call(func, _) =>
          var permitted := CheckCall(func);
          if !permitted {
            return false;
          }
        case Other(_, _) =>
      }
      ok := GenericVisit(node);
    }

    method CheckCall(func: Node) returns (permitted: bool)
      ensures permitted <==> CallAllowed(func)
    {
      match func
      case Name(id, _) =>
        return id in SAFE_DIRECT_CALLS;
      case Attribute(_, attr, _) =>
        var root := RootName(func);
        if root == Some("pd") && attr !in SAFE_PD_CALLS {
          return false;
        }
        if root == Some("np") && attr !in SAFE_NP_CALLS {
          return false;
        }
        return true;
      case _ =>
        return false;
    }

    method GenericVisit(node: Node) returns (ok: bool)
      modifies this
      ensures ok <==> KindOf(node) !in FORBIDDEN_NODES && AllAllowed(WalkUpTo(node, Arity(node)))
      ensures ok ==> (resultAssigned <==> old(resultAssigned) || SomeStore(WalkUpTo(node, Arity(node))))
      decreases node, Arity(node) + 1
    {
      if KindOf(node) in FORBIDDEN_NODES {
        return false;
      }
      ok := VisitChildren(node);
    }

    method VisitChildren(node: Node) returns (ok: bool)
      modifies this
      ensures ok <==> AllAllowed(WalkUpTo(node, Arity(node)))
      ensures ok ==> (resultAssigned <==> old(resultAssigned) || SomeStore(WalkUpTo(node, Arity(node))))
      decreases node, Arity(node)
    {
      hide Allowed, StoresResult;
      for i := 0 to Arity(node)
        invariant AllAllowed(WalkUpTo(node, i))
        invariant resultAssigned <==> old(resultAssigned) || SomeStore(WalkUpTo(node, i))
      {
        Joined(WalkUpTo(node, i), Walk(Child(node, i)));
        var visited := Visit(Child(node, i));
        if !visited {
          WalkHasChildren(node, i, Arity(node));
          return false;
        }
      }
      return true;
    }
  }

  // ---------------------------------------------------------------- the walk that counts the nodes

  function WalkAll(nodes: seq<Node>): seq<Node> {
    if nodes == [] then [] else WalkAll(nodes[..|nodes| - 1]) + Walk(nodes[|nodes| - 1])
  }

  lemma {:induction false} WalkAllSplits(a: seq<Node>, b: seq<Node>)
    ensures WalkAll(a + b) == WalkAll(a) + WalkAll(b)
  {
    if b == [] {
      assert a + b == a;
    } else {
      var n := |b| - 1;
      WalkAllSplits(a, b[..n]);
      assert (a + b)[..|a + b| - 1] == a + b[..n];
    }
  }

  function Children(n: Node): (children: seq<Node>)
    ensures |children| == Arity(n)
    ensures forall i :: 0 <= i < Arity(n) ==> children[i] == Child(n, i)
  {
    seq(Arity(n), i requires 0 <= i < Arity(n) => Child(n, i))
  }

  lemma {:induction false} ChildrenWalk(n: Node, k: nat)
    requires k <= Arity(n)
    ensures WalkAll(Children(n)[..k]) == WalkUpTo(n, k)
  {
    hide Walk, Child;
    if k == 0 {
    } else {
      ChildrenWalk(n, k - 1);
      var children := Children(n)[..k];
      assert children != [] && children[..|children| - 1] == Children(n)[..k - 1];
      assert children[|children| - 1] == Child(n, k - 1);
    }
  }

  lemma WalkAllOne(n: Node)
    ensures WalkAll([n]) == Walk(n)
  {
    assert [n][..0] == [];
    assert WalkAll([n]) == WalkAll([]) + Walk(n);
  }

  lemma FirstOut(todo: seq<Node>)
    requires todo != []
    ensures WalkAll(todo) == Walk(todo[0]) + WalkAll(todo[1..])
    ensures WalkAll(todo[1..] + Children(todo[0])) == WalkAll(todo[1..]) + WalkUpTo(todo[0], Arity(todo[0]))
  {
    hide Walk, WalkAll;
    assert todo == [todo[0]] + todo[1..];
    WalkAllSplits([todo[0]], todo[1..]);
    WalkAllSplits(todo[1..], Children(todo[0]));
    ChildrenWalk(todo[0], Arity(todo[0]));
    assert Children(todo[0])[..Arity(todo[0])] == Children(todo[0]);
    WalkAllOne(todo[0]);
  }

  /** The queue-driven walk, level by level: it meets exactly the nodes of the tree. */
  method WalkByLevel(tree: Node) returns (visited: seq<Node>)
    ensures multiset(visited) == multiset(Walk(tree))
  {
    visited := [];
    var todo := [tree];
    assert [tree][..0] == [];
    while todo != []
      invariant multiset(visited) + multiset(WalkAll(todo)) == multiset(Walk(tree))
      decreases |WalkAll(todo)|
    {
      var node := todo[0];
      FirstOut(todo);
      todo := todo[1..] + Children(node);
      visited := visited + [node];
    }
  }

  // ---------------------------------------------------------------- acceptance

  datatype PolicyError = CodeLimitExceeded | CodeSyntaxError | SecurityViolation | ResultMissing

  ghost predicate Acceptable(nodes: seq<Node>) {
    |nodes| <= MAX_AST_NODES && AllAllowed(nodes) && SomeStore(nodes)
  }

  /** `parsed` is what the Python parser makes of the source. */
  method ValidateAnalysisCode(source: string, parsed: Option<Node>) returns (error: Option<PolicyError>)
    ensures error.None? <==>
              && 0 < |source| <= MAX_CODE_CHARACTERS
              && parsed.Some?
              && Acceptable(Walk(parsed.value))
    ensures error == Some(CodeSyntaxError) <==> 0 < |source| <= MAX_CODE_CHARACTERS && parsed.None?
    ensures error == Some(CodeLimitExceeded) <==>
              source == "" || |source| > MAX_CODE_CHARACTERS || (parsed.Some? && |Walk(parsed.value)| > MAX_AST_NODES)
    ensures error == Some(SecurityViolation) ==> parsed.Some? && !AllAllowed(Walk(parsed.value))
    ensures error == Some(ResultMissing) ==>
              parsed.Some? && AllAllowed(Walk(parsed.value)) && !SomeStore(Walk(parsed.value))
  {
    hide Walk, AllAllowed, SomeStore;
    if source == "" || |source| > MAX_CODE_CHARACTERS {
      return Some(CodeLimitExceeded);
    }
    if parsed.None? {
      return Some(CodeSyntaxError);
    }
    var tree := parsed.value;
    var nodes := WalkByLevel(tree);
    assert |nodes| == |multiset(nodes)| == |multiset(Walk(tree))| == |Walk(tree)|;
    if |nodes| > MAX_AST_NODES {
      return Some(CodeLimitExceeded);
    }
    var visitor := new PolicyVisitor();
    var ok := visitor.Visit(tree);
    if !ok {
      return Some(SecurityViolation);
    }
    return if visitor.resultAssigned then None else Some(ResultMissing);
  }

  lemma SameNodes(met: seq<Node>, others: seq<Node>)
    requires multiset(met) == multiset(others)
    ensures Acceptable(met) <==> Acceptable(others)
  {
    assert |met| == |multiset(met)| == |multiset(others)| == |others|;
    assert forall n :: n in met <==> n in multiset(met);
    assert forall n :: n in others <==> n in multiset(others);
    if SomeStore(met) {
      var n :| n in met && StoresResult(n);
      assert n in others;
    }
    if SomeStore(others) {
      var n :| n in others && StoresResult(n);
      assert n in met;
    }
  }

  /**
   * The order of the visit is irrelevant: a check that meets the nodes of the tree in any order at all, stops at the
   * first violation and sets the flag as it goes accepts exactly what `ValidateAnalysisCode` accepts.
   */
  method ValidateInOrder(source: string, tree: Node, met: seq<Node>) returns (accepted: bool)
    requires multiset(met) == multiset(Walk(tree))
    ensures accepted <==> 0 < |source| <= MAX_CODE_CHARACTERS && Acceptable(Walk(tree))
  {
    SameNodes(met, Walk(tree));
    if source == "" || |source| > MAX_CODE_CHARACTERS || |met| > MAX_AST_NODES {
      return false;
    }
    var resultAssigned := false;
    for i := 0 to |met|
      invariant AllAllowed(met[..i])
      invariant resultAssigned <==> SomeStore(met[..i])
    {
      assert met[..i + 1] == met[..i] + [met[i]];
      Joined(met[..i], [met[i]]);
      Single(met[i]);
      if !Allowed(met[i]) {
        assert met[i] in met;
        return false;
      }
      if StoresResult(met[i]) {
        resultAssigned := true;
      }
    }
    assert met[..|met|] == met;
    return resultAssigned;
  }

  /** What is met below a node that is met in a tree is met in the tree. */
  lemma {:induction false} WalkCloses(tree: Node, m: Node, n: Node)
    requires m in Walk(tree) && n in Walk(m)
    ensures n in Walk(tree)
    decreases tree, Arity(tree) + 1
  {
    if m == tree {
    } else {
      WalkUpToCloses(tree, Arity(tree), m, n);
    }
  }

  lemma {:induction false} WalkUpToCloses(tree: Node, k: nat, m: Node, n: Node)
    requires k <= Arity(tree) && m in WalkUpTo(tree, k) && n in Walk(m)
    ensures n in WalkUpTo(tree, k)
    decreases tree, k
  {
    if m in WalkUpTo(tree, k - 1) {
      WalkUpToCloses(tree, k - 1, m, n);
    } else {
      WalkCloses(Child(tree, k - 1), m, n);
    }
  }

  /** A tree inside an accepted one breaks no rule, however deep it is. */
  lemma SubtreesAreAllowed(tree: Node, m: Node)
    requires m in Walk(tree) && AllAllowed(Walk(tree))
    ensures AllAllowed(Walk(m))
  {
    forall n | n in Walk(m)
      ensures Allowed(n)
    {
      WalkCloses(tree, m, n);
    }
  }

  // ---------------------------------------------------------------- what the functions of the policy mean

  lemma PrefixIsExact(s: string, prefix: string)
    ensures StartsWith(s, prefix) <==> exists rest: string :: s == prefix + rest
  {
    if StartsWith(s, prefix) {
      assert s == prefix + s[|prefix|..];
    }
  }

  /** The walk leaves out no part of any node: expression contexts, the called function and every argument included. */
  lemma WalkIsWhole(n: Node)
    ensures n.Name? ==> Walk(n) == [n] + Walk(n.ctx)
    ensures n.Attribute? ==> Walk(n) == [n] + Walk(n.target) + Walk(n.ctx)
    ensures n.Call? ==> Walk(n) == [n] + Walk(n.func) + WalkAll(n.arguments)
    ensures n.Other? ==> Walk(n) == [n] + WalkAll(n.children)
  {
    hide Walk, WalkAll;
    var children := Children(n);
    WalkOfChildren(n);
    match n
    case Name(_, ctx) =>
      WalkAllOne(ctx);
      assert children == [ctx];
    case Attribute(target, _, ctx) =>
      WalkAllOne(target);
      WalkAllOne(ctx);
      assert children == [target] + [ctx];
      WalkAllSplits([target], [ctx]);
    case Call(func, arguments) =>
      WalkAllOne(func);
      assert children == [func] + arguments;
      WalkAllSplits([func], arguments);
    case Other(_, inner) =>
      assert children == inner;
  }

  lemma WalkOfChildren(n: Node)
    ensures Walk(n) == [n] + WalkAll(Children(n))
  {
    hide WalkAll;
    ChildrenWalk(n, Arity(n));
    assert Children(n)[..Arity(n)] == Children(n);
  }

  /** The attributes taken one after the other of a base, with their contexts. */
  function Chain(base: Node, attributes: seq<(string, Node)>): Node {
    if attributes == [] then base
    else
      var last := attributes[|attributes| - 1];
      Attribute(Chain(base, attributes[..|attributes| - 1]), last.0, last.1)
  }

  /** However long an attribute chain is, its root is the name it starts from. */
  lemma {:induction false} RootOfChain(base: Node, attributes: seq<(string, Node)>)
    requires !base.Attribute?
    ensures RootOf(Chain(base, attributes)) == if base.Name? then Some(base.id) else None
  {
    if attributes == [] {
    } else {
      RootOfChain(base, attributes[..|attributes| - 1]);
    }
  }

  /** Of pandas and NumPy only the listed functions may be called, also through any chain of attributes. */
  lemma LibraryCalls(base: Node, attributes: seq<(string, Node)>)
    requires base.Name? && attributes != []
    ensures var called := attributes[|attributes| - 1].0;
            CallAllowed(Chain(base, attributes)) <==>
              (base.id == "pd" ==> called in SAFE_PD_CALLS) && (base.id == "np" ==> called in SAFE_NP_CALLS)
  {
    RootOfChain(base, attributes);
  }
}

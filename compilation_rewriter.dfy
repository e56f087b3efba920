/** The driver: a compilation is rewritten by the unskip pass and then by the
    trace-capture pass, each pass replacing the compilation's syntax trees one at a
    time. A compilation is an immutable value; the driver reassigns a local
    variable, so it is modelled as a method over values. */
module CompilationRewriter {
  import opened Syntax
  import opened UnskipTests
  import opened CaptureTraces

  /** Parse options of a tree (language version, preprocessor symbols), carried
      along untouched. */
  datatype ParseOptions = ParseOptions(languageVersion: string, preprocessorSymbols: seq<string>)

  datatype SyntaxTree = SyntaxTree(filePath: string, root: CompilationUnit, options: ParseOptions)

  /** The trees in their ordinal order, plus what the rewriter never touches. */
  datatype Compilation = Compilation(
    assemblyName: string,
    syntaxTrees: seq<SyntaxTree>,
    references: seq<string>,
    outputKind: string)

  /** The two rewriters the driver runs. */
  datatype Rewriter = UnskipTestsRewriter | CaptureTracesAsTestOutputRewriter

  /** What a rewriter makes of the root of one tree. */
  function Visit(rewriter: Rewriter, root: CompilationUnit): CompilationUnit {
    match rewriter
    case UnskipTestsRewriter => UnskipUnit(root)
    case CaptureTracesAsTestOutputRewriter => CaptureUnit(root)
  }

  /** The tree with the rewritten root and the tree's own options (and path). */
  function RewriteTree(rewriter: Rewriter, tree: SyntaxTree): SyntaxTree {
    SyntaxTree(tree.filePath, Visit(rewriter, tree.root), tree.options)
  }

  /** Swapping one tree for another keeps its ordinal position and every other
      tree, and leaves the rest of the compilation alone. Trees are found by
      identity in the compilation; here by their position. */
  function ReplaceSyntaxTree(compilation: Compilation, index: nat, newTree: SyntaxTree): (r: Compilation)
    requires index < |compilation.syntaxTrees|
    ensures |r.syntaxTrees| == |compilation.syntaxTrees|
    ensures r.syntaxTrees[index] == newTree
    ensures forall j :: 0 <= j < |r.syntaxTrees| && j != index ==>
              r.syntaxTrees[j] == compilation.syntaxTrees[j]
    ensures r.assemblyName == compilation.assemblyName && r.references == compilation.references &&
            r.outputKind == compilation.outputKind
  {
    compilation.(syntaxTrees := compilation.syntaxTrees[index := newTree])
  }

  /** One pass over a compilation: each tree of the original compilation, in
      turn, is replaced by its rewritten version with the same options. */
  method RewriteWith(compilation: Compilation, rewriter: Rewriter) returns (r: Compilation)
    ensures |r.syntaxTrees| == |compilation.syntaxTrees|
    ensures forall i :: 0 <= i < |compilation.syntaxTrees| ==>
              r.syntaxTrees[i] == RewriteTree(rewriter, compilation.syntaxTrees[i])
    ensures r.assemblyName == compilation.assemblyName && r.references == compilation.references &&
            r.outputKind == compilation.outputKind
  {
    var trees := compilation.syntaxTrees;
    r := compilation;
    var i := 0;
    while i < |trees|
      invariant 0 <= i <= |trees|
      invariant |r.syntaxTrees| == |trees|
      invariant forall j :: 0 <= j < i ==> r.syntaxTrees[j] == RewriteTree(rewriter, trees[j])
      invariant forall j :: i <= j < |trees| ==> r.syntaxTrees[j] == trees[j]
      invariant r.assemblyName == compilation.assemblyName && r.references == compilation.references &&
                r.outputKind == compilation.outputKind
    {
      var syntaxTree := trees[i];
      r := ReplaceSyntaxTree(r, i, RewriteTree(rewriter, syntaxTree));
      i := i + 1;
    }
  }

  /** The whole rewrite of one file: unskip first, then capture traces. */
  function RewriteUnit(u: CompilationUnit): CompilationUnit {
    CaptureUnit(UnskipUnit(u))
  }

  /** The full rewrite: the unskip pass over every tree, then the trace-capture
      pass over every tree. Each tree ends up as the composition, in that order,
      applied to its root, with its path and options kept. */
  method Rewrite(compilation: Compilation) returns (r: Compilation)
    ensures |r.syntaxTrees| == |compilation.syntaxTrees|
    ensures forall i :: 0 <= i < |compilation.syntaxTrees| ==>
              r.syntaxTrees[i].filePath == compilation.syntaxTrees[i].filePath &&
              r.syntaxTrees[i].options == compilation.syntaxTrees[i].options &&
              r.syntaxTrees[i].root == RewriteUnit(compilation.syntaxTrees[i].root)
    ensures r.assemblyName == compilation.assemblyName && r.references == compilation.references &&
            r.outputKind == compilation.outputKind
  {
    var unskipped := RewriteWith(compilation, UnskipTestsRewriter);
    r := RewriteWith(unskipped, CaptureTracesAsTestOutputRewriter);
  }

  // ---------------------------------------------------------------------------
  // How the passes interact.

  /** The unskip pass never touches class names or nesting, so it keeps the test
      classes that the second pass looks for. */
  lemma {:induction false} UnskipMemberKeepsTestClasses(m: Member)
    ensures DeclaresTestClass(UnskipMember(m)) == DeclaresTestClass(m)
    decreases m
  {
    match m
    case Namespace(_, ms) => UnskipMembersKeepTestClasses(ms);
    case Class(_, _, _, _, ms) => UnskipMembersKeepTestClasses(ms);
    case OtherType(_, _, _, _, _, ms) => UnskipMembersKeepTestClasses(ms);
    case _ =>
  }

  lemma {:induction false} UnskipMembersKeepTestClasses(ms: seq<Member>)
    ensures ContainsTestClass(UnskipMembers(ms)) == ContainsTestClass(ms)
    decreases ms
  {
    if ms != [] {
      UnskipMemberKeepsTestClasses(ms[0]);
      UnskipMembersKeepTestClasses(ms[1..]);
    }
  }

  /** The injected members carry no attributes, so the unskip pass leaves them be. */
  lemma UnskipInjectedMembers(rest: seq<Member>)
    ensures UnskipMembers([LoggerConstructor, DisposeMethod] + rest) ==
            [LoggerConstructor, DisposeMethod] + UnskipMembers(rest)
  {
  }

  lemma {:induction false} PassesCommuteOnMember(m: Member)
    ensures CaptureMember(UnskipMember(m)) == UnskipMember(CaptureMember(m))
    decreases m
  {
    match m
    case Namespace(_, ms) => PassesCommuteOnMembers(ms);
    case Class(_, _, id, _, ms) =>
      PassesCommuteOnMembers(ms);
      if EndsWithTest(id) {
        UnskipInjectedMembers(CaptureMembers(ms));
      }
    case OtherType(_, _, _, _, _, ms) => PassesCommuteOnMembers(ms);
    case _ =>
  }

  lemma {:induction false} PassesCommuteOnMembers(ms: seq<Member>)
    ensures CaptureMembers(UnskipMembers(ms)) == UnskipMembers(CaptureMembers(ms))
    decreases ms
  {
    if ms != [] {
      PassesCommuteOnMember(ms[0]);
      PassesCommuteOnMembers(ms[1..]);
      assert CaptureMembers(ms)[1..] == CaptureMembers(ms[1..]);
      assert UnskipMembers(ms)[1..] == UnskipMembers(ms[1..]);
    }
  }

  /** The two passes are independent: running them in the other order gives the
      same file. */
  lemma PassesCommute(u: CompilationUnit)
    ensures CaptureUnit(UnskipUnit(u)) == UnskipUnit(CaptureUnit(u))
  {
    UnskipMembersKeepTestClasses(u.members);
    PassesCommuteOnMembers(u.members);
  }

  /** The trace-capture pass adds no attribute argument and removes none. */
  lemma {:induction false} CaptureMemberKeepsArguments(m: Member)
    ensures MemberArguments(CaptureMember(m)) == MemberArguments(m)
    decreases m
  {
    match m
    case Namespace(_, ms) => CaptureMembersKeepArguments(ms);
    case Class(ats, _, id, _, ms) =>
      CaptureMembersKeepArguments(ms);
      if EndsWithTest(id) {
        var s := [LoggerConstructor, DisposeMethod] + CaptureMembers(ms);
        assert s[1..] == [DisposeMethod] + CaptureMembers(ms);
        assert s[1..][1..] == CaptureMembers(ms);
        assert s[0] == LoggerConstructor && s[1..][0] == DisposeMethod;
        assert MemberArguments(LoggerConstructor) == [] && MemberArguments(DisposeMethod) == [];
        assert MembersArguments(s[1..]) == MembersArguments(CaptureMembers(ms));
      }
    case OtherType(_, _, _, _, _, ms) => CaptureMembersKeepArguments(ms);
    case _ =>
  }

  lemma {:induction false} CaptureMembersKeepArguments(ms: seq<Member>)
    ensures MembersArguments(CaptureMembers(ms)) == MembersArguments(ms)
    decreases ms
  {
    if ms != [] {
      CaptureMemberKeepsArguments(ms[0]);
      CaptureMembersKeepArguments(ms[1..]);
      assert CaptureMembers(ms)[1..] == CaptureMembers(ms[1..]);
    }
  }

  /** What the full rewrite guarantees of every file: no skip marker is left and
      exactly the skip markers are gone; every test class, nested ones included, is
      instrumented; the usings grow by the two namespaces exactly when the original
      file declares a test class. */
  lemma RewriteUnitProperties(u: CompilationUnit)
    ensures NoSkip(UnitArguments(RewriteUnit(u)))
    ensures |UnitArguments(RewriteUnit(u))| == |UnitArguments(u)| - SkipCount(UnitArguments(u))
    ensures AllMembersInstrumented(RewriteUnit(u).members)
    ensures RewriteUnit(u).usings ==
            if AnyTestClass(Descendants(u.members)) then u.usings + [XunitAbstractions, SystemNamespace]
            else u.usings
  {
    ContainsTestClassIffDescendant(u.members);
    var v := UnskipUnit(u);
    UnskipRemovesEverySkip(u);
    CaptureMembersKeepArguments(v.members);
    CaptureMembersInstrument(v.members);
    UnskipMembersKeepTestClasses(u.members);
  }
}

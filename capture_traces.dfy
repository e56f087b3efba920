/** The second pass: every test class implements `IDisposable` and gains a
    constructor that registers the xUnit output helper and a `Dispose` method that
    flushes it; a file that declares a test class anywhere gains two usings. */
module CaptureTraces {
  import opened Syntax

  const TestSuffix: string := "Test"

  /** Ordinal, case-sensitive suffix match on the identifier text. */
  predicate EndsWithTest(identifier: string) {
    |identifier| >= |TestSuffix| && identifier[|identifier| - |TestSuffix|..] == TestSuffix
  }

  /** Only class declarations are test classes; structs, interfaces and records
      with the same name are not. */
  predicate IsTestClass(m: Member) {
    m.Class? && EndsWithTest(m.identifier)
  }

  /** The suffix test means: the identifier is some text followed by `Test`. */
  lemma EndsWithTestIffSuffix(identifier: string)
    ensures EndsWithTest(identifier) <==> exists p: string :: p + TestSuffix == identifier
  {
    if EndsWithTest(identifier) {
      var p := identifier[..|identifier| - |TestSuffix|];
      assert p + TestSuffix == identifier;
    }
    if exists p: string :: p + TestSuffix == identifier {
      var p: string :| p + TestSuffix == identifier;
      assert identifier[|identifier| - |TestSuffix|..] == TestSuffix;
    }
  }

  const XunitAbstractions: string := "Xunit.Abstractions"
  const SystemNamespace: string := "System"
  const DisposableInterface: string := "IDisposable"

  /** `public void Dispose() { XunitContext.Flush(); }` */
  const DisposeMethod: Member :=
    Method([], ["public"], "void", "Dispose", [], [Invocation("XunitContext", "Flush", [])])

  /** `public XunitLoggerSample(ITestOutputHelper testOutput) { XunitContext.Register(testOutput); }` */
  const LoggerConstructor: Member :=
    Constructor([], ["public"], "XunitLoggerSample",
                [Parameter("ITestOutputHelper", "testOutput")],
                [Invocation("XunitContext", "Register", ["testOutput"])])

  // ---------------------------------------------------------------------------
  // Test classes among the descendants of a node.

  /** The member is a test class or has one among its descendants. */
  predicate DeclaresTestClass(m: Member)
    decreases m
  {
    match m
    case Namespace(_, ms) => ContainsTestClass(ms)
    case Class(_, _, id, _, ms) => EndsWithTest(id) || ContainsTestClass(ms)
    case OtherType(_, _, _, _, _, ms) => ContainsTestClass(ms)
    case _ => false
  }

  predicate ContainsTestClass(ms: seq<Member>)
    decreases ms
  {
    ms != [] && (DeclaresTestClass(ms[0]) || ContainsTestClass(ms[1..]))
  }

  function TestClassCount(m: Member): nat
    decreases m
  {
    match m
    case Namespace(_, ms) => TestClassesCount(ms)
    case Class(_, _, id, _, ms) => (if EndsWithTest(id) then 1 else 0) + TestClassesCount(ms)
    case OtherType(_, _, _, _, _, ms) => TestClassesCount(ms)
    case _ => 0
  }

  function TestClassesCount(ms: seq<Member>): nat
    decreases ms
  {
    if ms == [] then 0 else TestClassCount(ms[0]) + TestClassesCount(ms[1..])
  }

  /** Number of member declarations, nested ones included. */
  function DeclarationCount(m: Member): nat
    decreases m
  {
    match m
    case Namespace(_, ms) => 1 + DeclarationsCount(ms)
    case Class(_, _, _, _, ms) => 1 + DeclarationsCount(ms)
    case OtherType(_, _, _, _, _, ms) => 1 + DeclarationsCount(ms)
    case _ => 1
  }

  function DeclarationsCount(ms: seq<Member>): nat
    decreases ms
  {
    if ms == [] then 0 else DeclarationCount(ms[0]) + DeclarationsCount(ms[1..])
  }

  /** Every node below the given members, each before its own descendants, in
      document order. */
  function MemberDescendants(m: Member): (r: seq<Member>)
    ensures r != [] && r[0] == m
    decreases m
  {
    match m
    case Namespace(_, ms) => [m] + Descendants(ms)
    case Class(_, _, _, _, ms) => [m] + Descendants(ms)
    case OtherType(_, _, _, _, _, ms) => [m] + Descendants(ms)
    case _ => [m]
  }

  function Descendants(ms: seq<Member>): seq<Member>
    decreases ms
  {
    if ms == [] then [] else MemberDescendants(ms[0]) + Descendants(ms[1..])
  }

  /** Some node of the list is a test class. */
  predicate AnyTestClass(nodes: seq<Member>) {
    exists d :: d in nodes && IsTestClass(d)
  }

  lemma AnyTestClassAppend(xs: seq<Member>, ys: seq<Member>)
    ensures AnyTestClass(xs + ys) <==> AnyTestClass(xs) || AnyTestClass(ys)
  {
  }

  lemma {:induction false} DeclaresTestClassIffDescendant(m: Member)
    ensures DeclaresTestClass(m) <==> AnyTestClass(MemberDescendants(m))
    decreases m
  {
    AnyTestClassAppend([m], MemberDescendants(m)[1..]);
    assert [m] + MemberDescendants(m)[1..] == MemberDescendants(m);
    assert AnyTestClass([m]) <==> IsTestClass(m) by {
      if IsTestClass(m) { assert m in [m]; }
    }
    match m
    case Namespace(_, ms) => ContainsTestClassIffDescendant(ms);
    case Class(_, _, _, _, ms) => ContainsTestClassIffDescendant(ms);
    case OtherType(_, _, _, _, _, ms) => ContainsTestClassIffDescendant(ms);
    case _ =>
  }

  /** The recursive test agrees with the one on the descendant list: a member list
      contains a test class exactly when one of its descendant nodes is one. */
  lemma {:induction false} ContainsTestClassIffDescendant(ms: seq<Member>)
    ensures ContainsTestClass(ms) <==> AnyTestClass(Descendants(ms))
    decreases ms
  {
    if ms != [] {
      DeclaresTestClassIffDescendant(ms[0]);
      ContainsTestClassIffDescendant(ms[1..]);
      AnyTestClassAppend(MemberDescendants(ms[0]), Descendants(ms[1..]));
    }
  }

  lemma {:induction false} DeclaresTestClassIffCounted(m: Member)
    ensures DeclaresTestClass(m) <==> TestClassCount(m) > 0
    decreases m
  {
    match m
    case Namespace(_, ms) => ContainsTestClassIffCounted(ms);
    case Class(_, _, _, _, ms) => ContainsTestClassIffCounted(ms);
    case OtherType(_, _, _, _, _, ms) => ContainsTestClassIffCounted(ms);
    case _ =>
  }

  /** The presence test and the count agree. */
  lemma {:induction false} ContainsTestClassIffCounted(ms: seq<Member>)
    ensures ContainsTestClass(ms) <==> TestClassesCount(ms) > 0
    decreases ms
  {
    if ms != [] {
      DeclaresTestClassIffCounted(ms[0]);
      ContainsTestClassIffCounted(ms[1..]);
    }
  }

  // ---------------------------------------------------------------------------
  // The pass.

  /** A test class gets the base list `IDisposable` in place of its own, and the
      constructor and `Dispose` in front of its members, which keep their order
      (each visited in turn); any other node only has its children visited. The
      visitor also walks the two injected members, which hold no class and so come
      out unchanged: they are written here as they are built. */
  function CaptureMember(m: Member): (r: Member)
    ensures r.Namespace? == m.Namespace? && r.Class? == m.Class? && r.OtherType? == m.OtherType?
    ensures m.Namespace? ==>
              r.name == m.name && |r.members| == |m.members| &&
              forall i :: 0 <= i < |m.members| ==> r.members[i] == CaptureMember(m.members[i])
    ensures m.OtherType? ==> r.keyword == m.keyword
    ensures IsTestClass(m) ==>
              r.attributes == m.attributes && r.modifiers == m.modifiers &&
              r.identifier == m.identifier && r.baseList == [DisposableInterface] &&
              |r.members| == |m.members| + 2 &&
              r.members[0] == LoggerConstructor && r.members[1] == DisposeMethod &&
              forall i :: 0 <= i < |m.members| ==> r.members[i + 2] == CaptureMember(m.members[i])
    ensures (m.Class? || m.OtherType?) && !IsTestClass(m) ==>
              r.attributes == m.attributes && r.modifiers == m.modifiers &&
              r.identifier == m.identifier && r.baseList == m.baseList &&
              |r.members| == |m.members| &&
              forall i :: 0 <= i < |m.members| ==> r.members[i] == CaptureMember(m.members[i])
    ensures !(m.Namespace? || m.Class? || m.OtherType?) ==> r == m
    decreases m
  {
    match m
    case Namespace(name, ms) => Namespace(name, CaptureMembers(ms))
    case Class(ats, mods, id, bases, ms) =>
      if EndsWithTest(id) then
        Class(ats, mods, id, [DisposableInterface],
              [LoggerConstructor, DisposeMethod] + CaptureMembers(ms))
      else
        Class(ats, mods, id, bases, CaptureMembers(ms))
    case OtherType(kw, ats, mods, id, bases, ms) =>
      OtherType(kw, ats, mods, id, bases, CaptureMembers(ms))
    case _ => m
  }

  /** Each member visited in place: the list keeps its length and its order. */
  function CaptureMembers(ms: seq<Member>): (r: seq<Member>)
    ensures |r| == |ms|
    ensures forall i :: 0 <= i < |ms| ==> r[i] == CaptureMember(ms[i])
    decreases ms
  {
    if ms == [] then [] else [CaptureMember(ms[0])] + CaptureMembers(ms[1..])
  }

  /** The pass over a whole file: the usings are extended once when any descendant
      of the file (before its classes are visited) is a test class. */
  function CaptureUnit(u: CompilationUnit): CompilationUnit {
    var usings :=
      if ContainsTestClass(u.members) then u.usings + [XunitAbstractions, SystemNamespace]
      else u.usings;
    CompilationUnit(usings, u.attributes, CaptureMembers(u.members))
  }

  // ---------------------------------------------------------------------------
  // Properties of the pass.

  /** A file with no test class among its descendants keeps its usings; a file
      with at least one gets exactly `Xunit.Abstractions` then `System` appended,
      however many test classes it has and whatever it already imports. */
  lemma CaptureUnitUsings(u: CompilationUnit)
    ensures !AnyTestClass(Descendants(u.members)) ==> CaptureUnit(u).usings == u.usings
    ensures AnyTestClass(Descendants(u.members)) ==>
              CaptureUnit(u).usings == u.usings + [XunitAbstractions, SystemNamespace]
  {
    ContainsTestClassIffDescendant(u.members);
  }

  /** Subtrees without a test class come out of the pass unchanged. */
  lemma {:induction false} CaptureMemberWithoutTestClass(m: Member)
    requires !DeclaresTestClass(m)
    ensures CaptureMember(m) == m
    decreases m
  {
    match m
    case Namespace(_, ms) => CaptureMembersWithoutTestClass(ms);
    case Class(_, _, _, _, ms) => CaptureMembersWithoutTestClass(ms);
    case OtherType(_, _, _, _, _, ms) => CaptureMembersWithoutTestClass(ms);
    case _ =>
  }

  lemma {:induction false} CaptureMembersWithoutTestClass(ms: seq<Member>)
    requires !ContainsTestClass(ms)
    ensures CaptureMembers(ms) == ms
    decreases ms
  {
    if ms != [] {
      CaptureMemberWithoutTestClass(ms[0]);
      CaptureMembersWithoutTestClass(ms[1..]);
    }
  }

  /** A file without any test class is a fixed point of the pass. */
  lemma CaptureUnitWithoutTestClass(u: CompilationUnit)
    requires !ContainsTestClass(u.members)
    ensures CaptureUnit(u) == u
  {
    CaptureMembersWithoutTestClass(u.members);
  }

  /** The pass neither creates nor removes test classes: the injected members are
      not classes and no class is renamed. */
  lemma {:induction false} CaptureMemberKeepsTestClasses(m: Member)
    ensures TestClassCount(CaptureMember(m)) == TestClassCount(m)
    ensures DeclaresTestClass(CaptureMember(m)) == DeclaresTestClass(m)
    decreases m
  {
    match m
    case Namespace(_, ms) => CaptureMembersKeepsTestClasses(ms);
    case Class(_, _, id, _, ms) =>
      CaptureMembersKeepsTestClasses(ms);
      if EndsWithTest(id) {
        InjectedMembers(CaptureMembers(ms));
      }
    case OtherType(_, _, _, _, _, ms) => CaptureMembersKeepsTestClasses(ms);
    case _ =>
  }

  lemma {:induction false} CaptureMembersKeepsTestClasses(ms: seq<Member>)
    ensures TestClassesCount(CaptureMembers(ms)) == TestClassesCount(ms)
    ensures ContainsTestClass(CaptureMembers(ms)) == ContainsTestClass(ms)
    decreases ms
  {
    if ms != [] {
      CaptureMemberKeepsTestClasses(ms[0]);
      CaptureMembersKeepsTestClasses(ms[1..]);
      assert CaptureMembers(ms)[1..] == CaptureMembers(ms[1..]);
    }
  }

  /** Every test class grows by exactly the two injected members; nothing else
      is added or removed anywhere in the tree. */
  lemma {:induction false} CaptureMemberDeclarationCount(m: Member)
    ensures DeclarationCount(CaptureMember(m)) == DeclarationCount(m) + 2 * TestClassCount(m)
    decreases m
  {
    match m
    case Namespace(_, ms) => CaptureMembersDeclarationCount(ms);
    case Class(_, _, id, _, ms) =>
      CaptureMembersDeclarationCount(ms);
      if EndsWithTest(id) {
        InjectedMembers(CaptureMembers(ms));
      }
    case OtherType(_, _, _, _, _, ms) => CaptureMembersDeclarationCount(ms);
    case _ =>
  }

  lemma {:induction false} CaptureMembersDeclarationCount(ms: seq<Member>)
    ensures DeclarationsCount(CaptureMembers(ms)) == DeclarationsCount(ms) + 2 * TestClassesCount(ms)
    decreases ms
  {
    if ms != [] {
      CaptureMemberDeclarationCount(ms[0]);
      CaptureMembersDeclarationCount(ms[1..]);
      assert CaptureMembers(ms)[1..] == CaptureMembers(ms[1..]);
    }
  }

  // ---------------------------------------------------------------------------
  // After the pass, every test class anywhere in the tree is instrumented.

  /** The shape the pass gives a test class. */
  predicate Instrumented(m: Member)
    requires m.Class?
  {
    m.baseList == [DisposableInterface] &&
    |m.members| >= 2 && m.members[0] == LoggerConstructor && m.members[1] == DisposeMethod
  }

  /** Every test class in the subtree, nested ones included, is instrumented. */
  predicate AllInstrumented(m: Member)
    decreases m
  {
    match m
    case Namespace(_, ms) => AllMembersInstrumented(ms)
    case Class(_, _, id, _, ms) =>
      (EndsWithTest(id) ==> Instrumented(m)) && AllMembersInstrumented(ms)
    case OtherType(_, _, _, _, _, ms) => AllMembersInstrumented(ms)
    case _ => true
  }

  predicate AllMembersInstrumented(ms: seq<Member>)
    decreases ms
  {
    ms == [] || (AllInstrumented(ms[0]) && AllMembersInstrumented(ms[1..]))
  }

  lemma {:induction false} CaptureMemberInstruments(m: Member)
    ensures AllInstrumented(CaptureMember(m))
    decreases m
  {
    match m
    case Namespace(_, ms) => CaptureMembersInstrument(ms);
    case Class(_, _, id, _, ms) =>
      CaptureMembersInstrument(ms);
      if EndsWithTest(id) {
        InjectedMembers(CaptureMembers(ms));
      }
    case OtherType(_, _, _, _, _, ms) => CaptureMembersInstrument(ms);
    case _ =>
  }

  lemma {:induction false} CaptureMembersInstrument(ms: seq<Member>)
    ensures AllMembersInstrumented(CaptureMembers(ms))
    decreases ms
  {
    if ms != [] {
      CaptureMemberInstruments(ms[0]);
      CaptureMembersInstrument(ms[1..]);
      assert CaptureMembers(ms)[1..] == CaptureMembers(ms[1..]);
    }
  }

  /** The two injected members hold no class and add two declarations. */
  lemma InjectedMembers(rest: seq<Member>)
    ensures TestClassesCount([LoggerConstructor, DisposeMethod] + rest) == TestClassesCount(rest)
    ensures ContainsTestClass([LoggerConstructor, DisposeMethod] + rest) == ContainsTestClass(rest)
    ensures DeclarationsCount([LoggerConstructor, DisposeMethod] + rest) == 2 + DeclarationsCount(rest)
    ensures AllMembersInstrumented([LoggerConstructor, DisposeMethod] + rest) == AllMembersInstrumented(rest)
  {
    var s := [LoggerConstructor, DisposeMethod] + rest;
    assert s[1..] == [DisposeMethod] + rest;
    assert s[1..][1..] == rest;
    assert s[0] == LoggerConstructor && s[1..][0] == DisposeMethod;
    assert TestClassesCount(s[1..]) == TestClassesCount(rest);
    assert ContainsTestClass(s[1..]) == ContainsTestClass(rest);
    assert DeclarationsCount(s[1..]) == 1 + DeclarationsCount(rest);
    assert AllMembersInstrumented(s[1..]) == AllMembersInstrumented(rest);
  }
}

/** Concrete inputs: the integration test's test file with one test class and one
    helper class, and a test class whose middle fact is skipped. */
module Samples {
  import opened Syntax
  import opened UnskipTests
  import opened CaptureTraces
  import opened CompilationRewriter

  /** `[Fact]`, without an argument list. */
  function Fact(): Attribute { Attribute("Fact", None) }

  function AssertEqual(expected: string, actual: string): Statement {
    Invocation("Assert", "Equal", [expected, actual])
  }

  function FactMethod(attribute: Attribute, name: string, body: Statement): Member {
    Method([attribute], ["public"], "void", name, [], [body])
  }

  const FakeTestClass: Member :=
    Class([], ["public"], "FakeTest", [], [
      FactMethod(Fact(), "Add_should_add_numbers", AssertEqual("2", "Fake.Add(1, 1)")),
      FactMethod(Fact(), "Sub_should_subtract_numbers", AssertEqual("1", "Fake.Sub(2, 1)")),
      FactMethod(Fact(), "Mul_should_multiply_numbers", AssertEqual("5", "Fake.Mul(2, 3)"))])

  const OrdererClass: Member :=
    Class([], ["public"], "SequentialTestsOrderer", ["ITestCaseOrderer"], [
      Method([], ["public"], "IEnumerable<TTestCase>", "OrderTestCases",
             [Parameter("IEnumerable<TTestCase>", "testCases")],
             [Invocation("testCases", "ToList", [])])])

  /** The test file: it already imports `Xunit.Abstractions`, twice. */
  const FakeTestFile: CompilationUnit :=
    CompilationUnit(
      ["Xunit", "Xunit.Abstractions", "Xunit.Sdk", "System.Collections.Generic",
       "System.Linq", "Xunit.Abstractions"],
      [],
      [FakeTestClass, OrdererClass])

  /** The classification is by class name alone, case-sensitive. */
  lemma TestClassNames()
    ensures IsTestClass(FakeTestClass)
    ensures !IsTestClass(OrdererClass)
    ensures EndsWithTest("Test") && !EndsWithTest("Tests") && !EndsWithTest("FakeTEST")
    ensures !IsTestClass(OtherType("struct", [], [], "FakeTest", [], []))
  {
  }

  /** The three facts carry argument-free attributes and hold no class. */
  lemma FactsArePlain()
    ensures MembersArguments(FakeTestClass.members) == []
    ensures !ContainsTestClass(FakeTestClass.members)
  {
  }

  lemma OrdererIsPlain()
    ensures MemberArguments(OrdererClass) == []
    ensures !DeclaresTestClass(OrdererClass)
  {
  }

  lemma FakeTestFileUnskipped()
    ensures UnskipUnit(FakeTestFile) == FakeTestFile
  {
    FactsArePlain();
    OrdererIsPlain();
    var ms := FakeTestFile.members;
    assert ms[1..][1..] == [];
    assert MembersArguments(ms) == MemberArguments(FakeTestClass) + MemberArguments(OrdererClass);
    UnskipMembersWithoutSkip(ms);
  }

  /** On the test file: the usings gain `Xunit.Abstractions` (a third time)
      and `System`; `FakeTest` is instrumented with its facts kept in order;
      `SequentialTestsOrderer` is untouched. */
  lemma FakeTestFileRewrite()
    ensures RewriteUnit(FakeTestFile).usings == FakeTestFile.usings + ["Xunit.Abstractions", "System"]
    ensures RewriteUnit(FakeTestFile).members ==
            [Class([], ["public"], "FakeTest", ["IDisposable"],
                   [LoggerConstructor, DisposeMethod] + FakeTestClass.members),
             OrdererClass]
  {
    FakeTestFileUnskipped();
    FactsArePlain();
    OrdererIsPlain();
    CaptureMembersWithoutTestClass(FakeTestClass.members);
    CaptureMemberWithoutTestClass(OrdererClass);
    assert DeclaresTestClass(FakeTestClass);
    assert ContainsTestClass(FakeTestFile.members);
  }

  /** A test class with a skipped fact between two plain ones. */
  const SkippedFactClass: Member :=
    Class([], ["public"], "FakeTest", [], [
      FactMethod(Fact(), "Add_should_add_numbers", AssertEqual("2", "Fake.Add(1, 1)")),
      FactMethod(Attribute("Fact", Some([AttributeArgument(Some("Skip"), None, "\"Remove to run test\"")])),
                 "Sub_should_subtract_numbers", AssertEqual("1", "Fake.Sub(2, 1)")),
      FactMethod(Fact(), "Mul_should_multiply_numbers", AssertEqual("5", "Fake.Mul(2, 3)"))])

  /** After the rewrite no fact is skipped any more: the skipped one keeps its
      attribute with an empty argument list, `[Fact()]`, which nothing repairs. */
  lemma SkippedFactRewrite()
    ensures RewriteUnit(CompilationUnit([], [], [SkippedFactClass])).members ==
            [Class([], ["public"], "FakeTest", ["IDisposable"],
                   [LoggerConstructor, DisposeMethod,
                    FakeTestClass.members[0],
                    FactMethod(Attribute("Fact", Some([])), "Sub_should_subtract_numbers",
                               AssertEqual("1", "Fake.Sub(2, 1)")),
                    FakeTestClass.members[2]])]
  {
    var u := CompilationUnit([], [], [SkippedFactClass]);
    var unskipped := UnskipMember(SkippedFactClass);
    var facts := [FakeTestClass.members[0],
                  FactMethod(Attribute("Fact", Some([])), "Sub_should_subtract_numbers",
                             AssertEqual("1", "Fake.Sub(2, 1)")),
                  FakeTestClass.members[2]];
    assert unskipped.members[0] == facts[0];
    assert unskipped.members[2] == facts[2];
    assert unskipped.members[1].attributes == [Attribute("Fact", Some([]))] by {
      var skipped := SkippedFactClass.members[1].attributes;
      assert UnskipAttributes(skipped)[0].Arguments() == [];
    }
    assert unskipped.members[1] == facts[1];
    assert unskipped.members == facts;
    assert unskipped == Class([], ["public"], "FakeTest", [], facts);
    assert UnskipMembers(u.members) == [unskipped];
    assert !ContainsTestClass(facts) by {
      assert facts[1..][1..][1..] == [];
    }
    CaptureMembersWithoutTestClass(facts);
    assert CaptureMembers([unskipped]) == [CaptureMember(unskipped)];
    assert CaptureMember(unskipped) ==
           Class([], ["public"], "FakeTest", ["IDisposable"], [LoggerConstructor, DisposeMethod] + facts);
    assert UnskipUnit(u).members == [unskipped];
    assert RewriteUnit(u).members == CaptureMembers([unskipped]);
    assert [LoggerConstructor, DisposeMethod] + facts ==
           [LoggerConstructor, DisposeMethod, facts[0], facts[1], facts[2]];
  }
}

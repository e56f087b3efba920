# Compilation rewriter of the C# test runner, in Dafny

The C# test runner compiles a student's solution together with the exercise's
xUnit test file. Before compiling, it rewrites every syntax tree of the
compilation with two fixed passes, always in this order:

1. **Unskip.** Every attribute argument whose name-equals identifier is exactly
   `Skip` (as in `[Fact(Skip = "Remove to run test")]`) is deleted, so that every
   test runs. An attribute left with an empty argument list, `[Fact()]`, stays as
   it is.
2. **Capture traces.** A *test class* is a class declaration whose identifier ends
   with `Test`. A file with a test class anywhere among its descendants gets
   `using Xunit.Abstractions;` and `using System;` appended to its usings. Every test
   class, nested ones included, gets the base list `IDisposable` in place of its own,
   and two new members in front of its existing ones: a constructor
   `XunitLoggerSample(ITestOutputHelper testOutput)` that calls
   `XunitContext.Register(testOutput)`, then `public void Dispose()` that calls
   `XunitContext.Flush()`.

Each pass walks the compilation's trees one at a time and swaps each tree for its
rewritten version, with the same options.

The model has five modules:

- `Syntax` (`syntax.dfy`): a small syntax tree. It has compilation units, namespaces,
  classes, other type declarations, constructors, methods, other members, attributes
  and attribute arguments. Names are plain strings. An attribute's argument list is
  optional, so `[Fact]` and `[Fact()]` are different values.
- `UnskipTests` (`unskip_tests.dfy`): the first pass as recursive functions. Its
  properties are stated on the list of all attribute arguments of a file, in
  document order.
- `CaptureTraces` (`capture_traces.dfy`): the second pass as recursive functions,
  with the test-class predicate and the two injected members.
- `CompilationRewriter` (`compilation_rewriter.dfy`): the compilation as an immutable
  value. The per-tree replacement is a method with a loop, and the full rewrite is a
  method that runs it twice. This module also holds the lemmas that relate the two
  passes.
- `Samples` (`samples.dfy`): the integration test's test file
  (`FakeTest` and `SequentialTestsOrderer`) and a test class with a skipped fact, as
  concrete inputs.

The driver runs the passes in a fixed order, unskip first. The model also shows
(`PassesCommute`) that the other order would give the same file. The injected
members carry no attributes, and unskip never renames or removes a class, so
neither pass affects what the other one does.

## Model

| member | source | states |
|---|---|---|
| `CompilationRewriter.Rewrite` | src/Exercism.TestRunner.CSharp/CompilationRewriter.cs:11-20 | The compilation keeps its number of trees and everything other than its trees. Each tree keeps its path and options, and its root becomes the capture-traces pass applied to the unskipped root: unskip first, never the reverse. |
| `CompilationRewriter.RewriteWith` | src/Exercism.TestRunner.CSharp/CompilationRewriter.cs:22-31 | One pass replaces every tree of the original compilation, at its own position, by the tree with the rewritten root and the tree's own options. The number of trees is unchanged. The loop invariant says that after step i, the trees before i are rewritten and the trees from i on are untouched. |
| `CompilationRewriter.ReplaceSyntaxTree` | src/Exercism.TestRunner.CSharp/CompilationRewriter.cs:25-28 | Replacing one tree puts the new tree at that tree's position. Every other tree, the tree count and the rest of the compilation stay the same. |
| `UnskipTests.UnskipArguments` | src/Exercism.TestRunner.CSharp/CompilationRewriter.cs:35-44 | An argument list loses exactly its skip markers. An argument survives if and only if it was in the list and is not a skip marker. The length drops by the number of skip markers. |
| `UnskipTests.UnskipArgumentsAppend` | src/Exercism.TestRunner.CSharp/CompilationRewriter.cs:35-41 | Filtering distributes over concatenation, so the surviving arguments keep their original order. |
| `UnskipTests.UnskipArgumentsWithoutSkip` | src/Exercism.TestRunner.CSharp/CompilationRewriter.cs:37-40 | An argument list with no skip marker is returned unchanged. |
| `UnskipTests.UnskipAttributes` | src/Exercism.TestRunner.CSharp/CompilationRewriter.cs:35-44 | No attribute is removed, moved or renamed, and each keeps whether it has an argument list. Each attribute loses exactly the skip markers among its own arguments; no argument moves to another attribute. |
| `UnskipTests.UnskipMember` | src/Exercism.TestRunner.CSharp/CompilationRewriter.cs:35-44 | A declaration keeps its kind and every field of its own: name, keyword, modifiers, return type, base list, parameters, body and text. Its attributes go through the attribute filter, and its members are each visited in turn. |
| `UnskipTests.UnskipKeepsAllButArguments` | src/Exercism.TestRunner.CSharp/CompilationRewriter.cs:35-44 | With every argument list emptied (its presence kept), a file and its unskipped version are equal, so the pass changes nothing but argument lists. |
| `UnskipTests.UnskipMembers` | src/Exercism.TestRunner.CSharp/CompilationRewriter.cs:40 | Each member is visited in place, so the member list keeps its length and order. |
| `UnskipTests.UnskipUnitArguments` | src/Exercism.TestRunner.CSharp/CompilationRewriter.cs:35-44 | Across a whole file, the attribute arguments in document order after the pass are exactly the argument filter applied to those before it. |
| `UnskipTests.UnskipRemovesEverySkip` | src/Exercism.TestRunner.CSharp/CompilationRewriter.cs:35-44 | After the pass, no attribute argument in the file has the name-equals identifier `Skip`. The argument count drops by exactly the number of skip markers. |
| `UnskipTests.UnskipKeepsExactlyNonSkip` | src/Exercism.TestRunner.CSharp/CompilationRewriter.cs:43-44 | An argument survives if and only if it is not a skip marker. Arguments with no name-equals clause, and those named anything other than `Skip`, are kept. |
| `UnskipTests.UnskipMembersWithoutSkip` | src/Exercism.TestRunner.CSharp/CompilationRewriter.cs:35-44 | Members with no skip marker among their attribute arguments come out unchanged. |
| `UnskipTests.UnskipIdempotent` | src/Exercism.TestRunner.CSharp/CompilationRewriter.cs:35-44 | Applying the pass a second time changes nothing. |
| `CaptureTraces.EndsWithTestIffSuffix` | src/Exercism.TestRunner.CSharp/CompilationRewriter.cs:122-124 | An identifier passes the test-class check if and only if it is some text followed by the case-sensitive suffix `Test`. |
| `CaptureTraces.CaptureMember` | src/Exercism.TestRunner.CSharp/CompilationRewriter.cs:63-120 | A test class keeps its attributes, modifiers and name, and its base list becomes exactly `[IDisposable]`. Its members become the constructor, then `Dispose`, then its original members in order, each visited. Other classes, other types and namespaces keep their name, keyword, attributes, modifiers and base list, and each of their members is visited in place. Leaf members are unchanged. |
| `CaptureTraces.ContainsTestClassIffDescendant` | src/Exercism.TestRunner.CSharp/CompilationRewriter.cs:51 | The recursive test-class search is true if and only if some node in the list of all descendants is a test class. |
| `CaptureTraces.ContainsTestClassIffCounted` | src/Exercism.TestRunner.CSharp/CompilationRewriter.cs:122-124 | A member list contains a test class if and only if its test-class count is positive. |
| `CaptureTraces.CaptureMembers` | src/Exercism.TestRunner.CSharp/CompilationRewriter.cs:61-66 | Each member is visited in place, so the list keeps its length and order. |
| `CaptureTraces.CaptureUnitUsings` | src/Exercism.TestRunner.CSharp/CompilationRewriter.cs:49-61 | Stated on the list of all descendant nodes: a file with no test-class descendant keeps its usings. Otherwise exactly `Xunit.Abstractions` then `System` are appended after the existing usings, once, with no de-duplication. |
| `CaptureTraces.CaptureMembersWithoutTestClass` | src/Exercism.TestRunner.CSharp/CompilationRewriter.cs:61-119 | Members with no test class among them or their descendants come out unchanged. |
| `CaptureTraces.CaptureUnitWithoutTestClass` | src/Exercism.TestRunner.CSharp/CompilationRewriter.cs:49-61 | A file with no test class is left exactly as it was. |
| `CaptureTraces.CaptureMembersKeepsTestClasses` | src/Exercism.TestRunner.CSharp/CompilationRewriter.cs:63-124 | The pass neither creates nor removes test classes. The number of test classes, and whether there are any, stay the same. |
| `CaptureTraces.CaptureMembersDeclarationCount` | src/Exercism.TestRunner.CSharp/CompilationRewriter.cs:73-117 | The total number of declarations grows by exactly two per test class, nested ones included. Nothing else is added or removed. |
| `CaptureTraces.CaptureMembersInstrument` | src/Exercism.TestRunner.CSharp/CompilationRewriter.cs:63-120 | After the pass, every test class at any depth has base list `[IDisposable]` and starts with the constructor, then `Dispose`. |
| `CompilationRewriter.UnskipMembersKeepTestClasses` | src/Exercism.TestRunner.CSharp/CompilationRewriter.cs:11-14 | Unskip leaves unchanged whether a member list contains a test class, so the second pass sees the same test classes. |
| `CompilationRewriter.PassesCommute` | src/Exercism.TestRunner.CSharp/CompilationRewriter.cs:11-14 | Running capture-traces then unskip gives the same file as the order the driver uses. |
| `CompilationRewriter.CaptureMembersKeepArguments` | src/Exercism.TestRunner.CSharp/CompilationRewriter.cs:63-120 | The capture-traces pass adds and removes no attribute argument. |
| `CompilationRewriter.RewriteUnitProperties` | src/Exercism.TestRunner.CSharp/CompilationRewriter.cs:11-124 | After the full rewrite of a file: no skip marker is left, and exactly the skip markers are gone. Every test class is instrumented. The usings grow by the two namespaces if and only if some descendant of the original file is a test class. |
| `Samples.TestClassNames` | tests/Exercism.TestRunner.CSharp.IntegrationTests/Solutions/MultipleTestsWithSingleFail/FakeTest.cs:9-24 | `FakeTest` and `Test` are test classes. `SequentialTestsOrderer`, `Tests`, `FakeTEST` and a struct named `FakeTest` are not. |
| `Samples.FakeTestFileRewrite` | tests/Exercism.TestRunner.CSharp.IntegrationTests/Solutions/MultipleTestsWithSingleFail/FakeTest.cs:1-28 | The test file gets `Xunit.Abstractions`, a third time, and `System`. `FakeTest` becomes disposable, with the constructor, `Dispose` and its three facts in order. `SequentialTestsOrderer` is untouched. |
| `Samples.SkippedFactRewrite` | src/Exercism.TestRunner.CSharp/CompilationRewriter.cs:35-44 | A test class with a skipped fact between two plain `[Fact]` methods ends up with no skipped fact. The skipped one keeps its attribute as `[Fact()]`, with an empty argument list that nothing repairs. The two others stay `[Fact]`. |

## Left out

- `src/Exercism.TestRunner.CSharp/ProjectCompiler.cs` is not part of this model. It loads the MSBuild workspace asynchronously, builds the project path from the slug with Humanizer, reads the trusted platform assemblies from the process environment, and sets the DLL output kind. All of this is I/O or foreign-library glue.
- Compiling the rewritten trees, the diagnostics, running the tests and reporting results are external services and are not modelled.
- Roslyn trivia (the spaces added around injected tokens), token kinds and `ToString` formatting are not represented. Names are their identifier text. A verbatim `@Skip` therefore does not match `Skip`.
- The generic Roslyn traversal is modelled only for the node kinds the model has. Attributes on parameters, accessors, local functions, lambdas, type parameters, enum members and return values are not represented. Structs, interfaces and records are folded into one `OtherType` node. Statements other than invocations are not represented.
- `CaptureTraces.EndsWithTest`: does not model that .NET's `String.EndsWith(string)` compares with the current culture. The model uses an ordinal suffix match. This differs only for identifiers ending in characters that the culture comparison ignores.
- `CompilationRewriter.ReplaceSyntaxTree`: Roslyn finds the tree to replace by reference identity. The model finds it by position. The error Roslyn raises for a tree that is not in the compilation cannot happen in the driver and is not modelled.
- The visitor also walks the injected constructor and `Dispose` after they are inserted. The model writes them directly, as built, because they hold no class and no attribute. The last ensures of `CaptureTraces.CaptureMember` (constructors and methods come out unchanged) and `CompilationRewriter.UnskipInjectedMembers` state this.
- When a file has several test classes, each gets the same constructor name `XunitLoggerSample`. Nothing checks or repairs these names, and the model does not either.

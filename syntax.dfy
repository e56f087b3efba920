/** A small C# syntax tree: the node kinds that the two rewriting passes look at or
    build. Names are the identifier text as written in the source file (a verbatim
    identifier `@Skip` keeps its `@`); trivia and token kinds are not represented. */
module Syntax {

  datatype Option<T> = None | Some(value: T)

  /** One argument of an attribute: `Skip = "reason"` has a name-equals clause,
      `skip: "reason"` a name-colon clause, `"reason"` neither. */
  datatype AttributeArgument = AttributeArgument(
    nameEquals: Option<string>,
    nameColon: Option<string>,
    expression: string)

  /** `[Fact]` has no argument list, `[Fact()]` an empty one, and
      `[Fact(Skip = "Remove to run test")]` a list of one argument. */
  datatype Attribute = Attribute(name: string, argumentList: Option<seq<AttributeArgument>>) {
    /** The arguments, none when there is no argument list. */
    function Arguments(): seq<AttributeArgument> {
      if argumentList.Some? then argumentList.value else []
    }
  }

  datatype Parameter = Parameter(typeName: string, identifier: string)

  /** The only statements either pass builds or inspects: `receiver.name(arguments);`. */
  datatype Statement = Invocation(receiver: string, name: string, arguments: seq<string>)

  /** A member declaration. `Class` is a class declaration; `OtherType` is any other
      type declaration that can hold members (struct, interface, record), which is
      visited but never counts as a test class. `Field` stands for every other member
      (fields, properties, events) as opaque text with its attributes. */
  datatype Member =
    | Namespace(name: string, members: seq<Member>)
    | Class(attributes: seq<Attribute>, modifiers: seq<string>, identifier: string,
            baseList: seq<string>, members: seq<Member>)
    | OtherType(keyword: string, attributes: seq<Attribute>, modifiers: seq<string>,
                identifier: string, baseList: seq<string>, members: seq<Member>)
    | Constructor(attributes: seq<Attribute>, modifiers: seq<string>, identifier: string,
                  parameters: seq<Parameter>, body: seq<Statement>)
    | Method(attributes: seq<Attribute>, modifiers: seq<string>, returnType: string,
             identifier: string, parameters: seq<Parameter>, body: seq<Statement>)
    | Field(attributes: seq<Attribute>, text: string)

  /** The root of one source file: its using directives (as qualified names),
      its assembly-level attributes and its top-level members. */
  datatype CompilationUnit = CompilationUnit(
    usings: seq<string>,
    attributes: seq<Attribute>,
    members: seq<Member>)
}

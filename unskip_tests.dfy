/** The first pass: every attribute argument whose name-equals identifier is exactly
    `Skip` is deleted; every other node is rebuilt unchanged. */
module UnskipTests {
  import opened Syntax

  /** The argument's name-equals clause exists and its identifier text is `Skip`.
      A missing clause (null in the source) never matches. */
  predicate IsSkipAttributeArgument(a: AttributeArgument) {
    a.nameEquals == Some("Skip")
  }

  function SkipCount(args: seq<AttributeArgument>): nat {
    if args == [] then 0
    else (if IsSkipAttributeArgument(args[0]) then 1 else 0) + SkipCount(args[1..])
  }

  predicate NoSkip(args: seq<AttributeArgument>) {
    forall a :: a in args ==> !IsSkipAttributeArgument(a)
  }

  /** One attribute argument list after the pass: each argument visited in turn,
      the skip markers dropped. */
  function UnskipArguments(args: seq<AttributeArgument>): (r: seq<AttributeArgument>)
    ensures |r| + SkipCount(args) == |args|
    ensures forall a :: a in r <==> a in args && !IsSkipAttributeArgument(a)
  {
    if args == [] then []
    else if IsSkipAttributeArgument(args[0]) then UnskipArguments(args[1..])
    else [args[0]] + UnskipArguments(args[1..])
  }

  /** The pass distributes over concatenation: what survives of a list is what
      survives of its parts, in the same order. */
  lemma {:induction false} UnskipArgumentsAppend(xs: seq<AttributeArgument>, ys: seq<AttributeArgument>)
    ensures UnskipArguments(xs + ys) == UnskipArguments(xs) + UnskipArguments(ys)
  {
    if xs == [] {
      assert xs + ys == ys;
    } else {
      var zs := xs + ys;
      assert zs[0] == xs[0] && zs[1..] == xs[1..] + ys;
      UnskipArgumentsAppend(xs[1..], ys);
      var rest := UnskipArguments(xs[1..]) + UnskipArguments(ys);
      if IsSkipAttributeArgument(xs[0]) {
        calc {
          UnskipArguments(zs);
          UnskipArguments(zs[1..]);
          rest;
        }
      } else {
        calc {
          UnskipArguments(zs);
          [xs[0]] + UnskipArguments(zs[1..]);
          [xs[0]] + rest;
          ([xs[0]] + UnskipArguments(xs[1..])) + UnskipArguments(ys);
        }
      }
    }
  }

  /** A list without skip markers is left exactly as it was. */
  lemma {:induction false} UnskipArgumentsWithoutSkip(args: seq<AttributeArgument>)
    requires NoSkip(args)
    ensures UnskipArguments(args) == args
  {
    if args != [] {
      assert args[0] in args;
      UnskipArgumentsWithoutSkip(args[1..]);
    }
  }

  /** An attribute keeps its name and whether it has an argument list; an emptied
      list stays (`[Fact(Skip = "…")]` becomes `[Fact()]`). */
  function UnskipAttribute(at: Attribute): Attribute {
    match at.argumentList
    case None => at
    case Some(args) => Attribute(at.name, Some(UnskipArguments(args)))
  }

  /** Every attribute keeps its name, its place and whether it has an argument
      list, and loses exactly the skip markers among its own arguments. */
  function UnskipAttributes(ats: seq<Attribute>): (r: seq<Attribute>)
    ensures |r| == |ats|
    ensures forall i :: 0 <= i < |ats| ==>
              r[i].name == ats[i].name && r[i].argumentList.Some? == ats[i].argumentList.Some? &&
              r[i].Arguments() == UnskipArguments(ats[i].Arguments())
  {
    if ats == [] then [] else [UnskipAttribute(ats[0])] + UnskipAttributes(ats[1..])
  }

  /** Only attribute arguments change: every declaration keeps its kind and all
      its own fields, its attributes lose their skip markers and its members are
      visited in turn. */
  function UnskipMember(m: Member): (r: Member)
    ensures r.Namespace? == m.Namespace? && r.Class? == m.Class? && r.OtherType? == m.OtherType? &&
            r.Constructor? == m.Constructor? && r.Method? == m.Method? && r.Field? == m.Field?
    ensures m.Namespace? ==> r.name == m.name && r.members == UnskipMembers(m.members)
    ensures !m.Namespace? ==> r.attributes == UnskipAttributes(m.attributes)
    ensures m.Class? || m.OtherType? ==>
              r.identifier == m.identifier && r.modifiers == m.modifiers &&
              r.baseList == m.baseList && r.members == UnskipMembers(m.members)
    ensures m.OtherType? ==> r.keyword == m.keyword
    ensures m.Constructor? || m.Method? ==>
              r.modifiers == m.modifiers && r.identifier == m.identifier &&
              r.parameters == m.parameters && r.body == m.body
    ensures m.Method? ==> r.returnType == m.returnType
    ensures m.Field? ==> r.text == m.text
    decreases m
  {
    match m
    case Namespace(name, ms) => Namespace(name, UnskipMembers(ms))
    case Class(ats, mods, id, bases, ms) =>
      Class(UnskipAttributes(ats), mods, id, bases, UnskipMembers(ms))
    case OtherType(kw, ats, mods, id, bases, ms) =>
      OtherType(kw, UnskipAttributes(ats), mods, id, bases, UnskipMembers(ms))
    case Constructor(ats, mods, id, ps, body) =>
      Constructor(UnskipAttributes(ats), mods, id, ps, body)
    case Method(ats, mods, ret, id, ps, body) =>
      Method(UnskipAttributes(ats), mods, ret, id, ps, body)
    case Field(ats, text) => Field(UnskipAttributes(ats), text)
  }

  function UnskipMembers(ms: seq<Member>): (r: seq<Member>)
    ensures |r| == |ms|
    ensures forall i :: 0 <= i < |ms| ==> r[i] == UnskipMember(ms[i])
    decreases ms
  {
    if ms == [] then [] else [UnskipMember(ms[0])] + UnskipMembers(ms[1..])
  }

  /** The pass over a whole file. */
  function UnskipUnit(u: CompilationUnit): CompilationUnit {
    CompilationUnit(u.usings, UnskipAttributes(u.attributes), UnskipMembers(u.members))
  }

  // ---------------------------------------------------------------------------
  // Every attribute argument of a tree, in document order. The properties of the
  // whole-tree pass are stated on this list.

  function AttributesArguments(ats: seq<Attribute>): seq<AttributeArgument> {
    if ats == [] then [] else ats[0].Arguments() + AttributesArguments(ats[1..])
  }

  function MemberArguments(m: Member): seq<AttributeArgument>
    decreases m
  {
    match m
    case Namespace(_, ms) => MembersArguments(ms)
    case Class(ats, _, _, _, ms) => AttributesArguments(ats) + MembersArguments(ms)
    case OtherType(_, ats, _, _, _, ms) => AttributesArguments(ats) + MembersArguments(ms)
    case Constructor(ats, _, _, _, _) => AttributesArguments(ats)
    case Method(ats, _, _, _, _, _) => AttributesArguments(ats)
    case Field(ats, _) => AttributesArguments(ats)
  }

  function MembersArguments(ms: seq<Member>): seq<AttributeArgument>
    decreases ms
  {
    if ms == [] then [] else MemberArguments(ms[0]) + MembersArguments(ms[1..])
  }

  function UnitArguments(u: CompilationUnit): seq<AttributeArgument> {
    AttributesArguments(u.attributes) + MembersArguments(u.members)
  }

  lemma {:induction false} UnskipAttributesArguments(ats: seq<Attribute>)
    ensures AttributesArguments(UnskipAttributes(ats)) == UnskipArguments(AttributesArguments(ats))
  {
    if ats != [] {
      UnskipAttributesArguments(ats[1..]);
      UnskipArgumentsAppend(ats[0].Arguments(), AttributesArguments(ats[1..]));
    }
  }

  lemma {:induction false} UnskipMemberArguments(m: Member)
    ensures MemberArguments(UnskipMember(m)) == UnskipArguments(MemberArguments(m))
    decreases m
  {
    match m
    case Namespace(_, ms) =>
      UnskipMembersArguments(ms);
    case Class(ats, _, _, _, ms) =>
      UnskipAttributesArguments(ats);
      UnskipMembersArguments(ms);
      UnskipArgumentsAppend(AttributesArguments(ats), MembersArguments(ms));
    case OtherType(_, ats, _, _, _, ms) =>
      UnskipAttributesArguments(ats);
      UnskipMembersArguments(ms);
      UnskipArgumentsAppend(AttributesArguments(ats), MembersArguments(ms));
    case Constructor(ats, _, _, _, _) =>
      UnskipAttributesArguments(ats);
    case Method(ats, _, _, _, _, _) =>
      UnskipAttributesArguments(ats);
    case Field(ats, _) =>
      UnskipAttributesArguments(ats);
  }

  lemma {:induction false} UnskipMembersArguments(ms: seq<Member>)
    ensures MembersArguments(UnskipMembers(ms)) == UnskipArguments(MembersArguments(ms))
    decreases ms
  {
    if ms != [] {
      UnskipMemberArguments(ms[0]);
      UnskipMembersArguments(ms[1..]);
      UnskipArgumentsAppend(MemberArguments(ms[0]), MembersArguments(ms[1..]));
    }
  }

  /** Seen as the list of all its attribute arguments, the whole-file pass is
      exactly the argument filter: the surviving arguments are the non-skip ones,
      in their original order. */
  lemma UnskipUnitArguments(u: CompilationUnit)
    ensures UnitArguments(UnskipUnit(u)) == UnskipArguments(UnitArguments(u))
  {
    UnskipAttributesArguments(u.attributes);
    UnskipMembersArguments(u.members);
    UnskipArgumentsAppend(AttributesArguments(u.attributes), MembersArguments(u.members));
  }

  /** After the pass no attribute argument anywhere in the file is a skip marker,
      and the file has exactly as many arguments fewer as it had skip markers. */
  lemma UnskipRemovesEverySkip(u: CompilationUnit)
    ensures NoSkip(UnitArguments(UnskipUnit(u)))
    ensures |UnitArguments(UnskipUnit(u))| == |UnitArguments(u)| - SkipCount(UnitArguments(u))
  {
    UnskipUnitArguments(u);
  }

  /** An argument survives the pass exactly when it is not a skip marker: arguments
      with no name-equals clause, or one naming anything other than `Skip`, stay. */
  lemma UnskipKeepsExactlyNonSkip(u: CompilationUnit, a: AttributeArgument)
    ensures a in UnitArguments(UnskipUnit(u)) <==> a in UnitArguments(u) && !IsSkipAttributeArgument(a)
  {
    UnskipUnitArguments(u);
  }

  // ---------------------------------------------------------------------------
  // Idempotence: a tree without skip markers is a fixed point of the pass.

  lemma {:induction false} UnskipAttributesWithoutSkip(ats: seq<Attribute>)
    requires NoSkip(AttributesArguments(ats))
    ensures UnskipAttributes(ats) == ats
  {
    if ats != [] {
      var head, tail := ats[0].Arguments(), AttributesArguments(ats[1..]);
      assert forall a :: a in head ==> a in head + tail;
      assert forall a :: a in tail ==> a in head + tail;
      UnskipArgumentsWithoutSkip(head);
      UnskipAttributesWithoutSkip(ats[1..]);
    }
  }

  lemma NoSkipSplit(xs: seq<AttributeArgument>, ys: seq<AttributeArgument>)
    requires NoSkip(xs + ys)
    ensures NoSkip(xs) && NoSkip(ys)
  {
  }

  lemma {:induction false} UnskipMemberWithoutSkip(m: Member)
    requires NoSkip(MemberArguments(m))
    ensures UnskipMember(m) == m
    decreases m
  {
    match m
    case Namespace(_, ms) =>
      UnskipMembersWithoutSkip(ms);
    case Class(ats, _, _, _, ms) =>
      NoSkipSplit(AttributesArguments(ats), MembersArguments(ms));
      UnskipAttributesWithoutSkip(ats);
      UnskipMembersWithoutSkip(ms);
    case OtherType(_, ats, _, _, _, ms) =>
      NoSkipSplit(AttributesArguments(ats), MembersArguments(ms));
      UnskipAttributesWithoutSkip(ats);
      UnskipMembersWithoutSkip(ms);
    case Constructor(ats, _, _, _, _) =>
      UnskipAttributesWithoutSkip(ats);
    case Method(ats, _, _, _, _, _) =>
      UnskipAttributesWithoutSkip(ats);
    case Field(ats, _) =>
      UnskipAttributesWithoutSkip(ats);
  }

  lemma {:induction false} UnskipMembersWithoutSkip(ms: seq<Member>)
    requires NoSkip(MembersArguments(ms))
    ensures UnskipMembers(ms) == ms
    decreases ms
  {
    if ms != [] {
      NoSkipSplit(MemberArguments(ms[0]), MembersArguments(ms[1..]));
      UnskipMemberWithoutSkip(ms[0]);
      UnskipMembersWithoutSkip(ms[1..]);
    }
  }

  /** Applying the pass a second time changes nothing. */
  lemma UnskipIdempotent(u: CompilationUnit)
    ensures UnskipUnit(UnskipUnit(u)) == UnskipUnit(u)
  {
    var v := UnskipUnit(u);
    UnskipRemovesEverySkip(u);
    NoSkipSplit(AttributesArguments(v.attributes), MembersArguments(v.members));
    UnskipAttributesWithoutSkip(v.attributes);
    UnskipMembersWithoutSkip(v.members);
  }
  // ---------------------------------------------------------------------------
  // Nothing but arguments changes: with every argument list emptied (its presence
  // kept), a tree and its unskipped version are the same.

  function EraseAttributes(ats: seq<Attribute>): (r: seq<Attribute>)
    ensures |r| == |ats|
    ensures forall i :: 0 <= i < |ats| ==> r[i].name == ats[i].name && r[i].Arguments() == [] &&
                                           r[i].argumentList.Some? == ats[i].argumentList.Some?
  {
    if ats == [] then []
    else [Attribute(ats[0].name, if ats[0].argumentList.Some? then Some([]) else None)] +
         EraseAttributes(ats[1..])
  }

  function EraseMember(m: Member): Member
    decreases m
  {
    match m
    case Namespace(name, ms) => Namespace(name, EraseMembers(ms))
    case Class(ats, mods, id, bases, ms) => Class(EraseAttributes(ats), mods, id, bases, EraseMembers(ms))
    case OtherType(kw, ats, mods, id, bases, ms) =>
      OtherType(kw, EraseAttributes(ats), mods, id, bases, EraseMembers(ms))
    case Constructor(ats, mods, id, ps, body) => Constructor(EraseAttributes(ats), mods, id, ps, body)
    case Method(ats, mods, ret, id, ps, body) => Method(EraseAttributes(ats), mods, ret, id, ps, body)
    case Field(ats, text) => Field(EraseAttributes(ats), text)
  }

  function EraseMembers(ms: seq<Member>): seq<Member>
    decreases ms
  {
    if ms == [] then [] else [EraseMember(ms[0])] + EraseMembers(ms[1..])
  }

  function EraseUnit(u: CompilationUnit): CompilationUnit {
    CompilationUnit(u.usings, EraseAttributes(u.attributes), EraseMembers(u.members))
  }

  lemma UnskipAttributesErased(ats: seq<Attribute>)
    ensures EraseAttributes(UnskipAttributes(ats)) == EraseAttributes(ats)
  {
  }

  lemma {:induction false} UnskipMemberErased(m: Member)
    ensures EraseMember(UnskipMember(m)) == EraseMember(m)
    decreases m
  {
    match m
    case Namespace(_, ms) => UnskipMembersErased(ms);
    case Class(ats, _, _, _, ms) => UnskipAttributesErased(ats); UnskipMembersErased(ms);
    case OtherType(_, ats, _, _, _, ms) => UnskipAttributesErased(ats); UnskipMembersErased(ms);
    case Constructor(ats, _, _, _, _) => UnskipAttributesErased(ats);
    case Method(ats, _, _, _, _, _) => UnskipAttributesErased(ats);
    case Field(ats, _) => UnskipAttributesErased(ats);
  }

  lemma {:induction false} UnskipMembersErased(ms: seq<Member>)
    ensures EraseMembers(UnskipMembers(ms)) == EraseMembers(ms)
    decreases ms
  {
    if ms != [] {
      UnskipMemberErased(ms[0]);
      UnskipMembersErased(ms[1..]);
    }
  }

  /** The pass changes nothing but argument lists: usings, declarations, names,
      modifiers, base lists, bodies, attribute names and the presence of argument
      lists are all kept. */
  lemma UnskipKeepsAllButArguments(u: CompilationUnit)
    ensures EraseUnit(UnskipUnit(u)) == EraseUnit(u)
  {
    UnskipAttributesErased(u.attributes);
    UnskipMembersErased(u.members);
  }
}

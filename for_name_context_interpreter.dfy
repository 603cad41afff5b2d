/** The context interpreter for java.lang.Class.forName(String) in a
    JavaTypeContext, whose type is the point-type of the class object the call
    creates. It claims the call-graph nodes of forName in such a context and
    synthesizes their bodies: load the class and return it when the context
    knows the type, throw when it does not. The interpreter keeps no state. */
module ForNameContextInterpreter {
  import opened Wala

  const ForNameAtom: string := "forName"

  const ForNameDescriptor: string := "(Ljava/lang/String;)Ljava/lang/Class;"

  /** java.lang.Class.forName(String): Class, the one method this interpreter models. */
  const FOR_NAME_REF: MethodRef := MethodRef(JavaLangClass, ForNameAtom, ForNameDescriptor)

  /** The message of the IllegalArgumentException for a null node. */
  const NodeIsNull: string := "node is null"

  /** The first value number the synthesized body hands out. */
  const FirstLocal: int := 1

  /** Whether this interpreter owns a node: a null node is rejected; otherwise
      the context must be a JavaTypeContext and the method must be forName. */
  function Understands(node: Option<CGNode>): (r: Outcome<bool>)
    ensures r.IllegalArgument? <==> node.None?
    ensures r.IllegalArgument? ==> r.message == NodeIsNull
    ensures node.Some? ==>
              (r == Ok(true) <==> node.value.context.JavaTypeContext? && node.value.methodRef == FOR_NAME_REF)
  {
    match node
    case None => IllegalArgument(NodeIsNull)
    case Some(n) =>
      if !n.context.JavaTypeContext? then Ok(false)
      else Ok(n.methodRef == FOR_NAME_REF)
  }

  /** The body synthesized for a JavaTypeContext. It returns normally exactly
      when the context knows the type, and then returns the class object its
      load defined; otherwise it throws. */
  function StatementsFor(context: Context): (body: seq<Instruction>)
    requires context.JavaTypeContext?
    ensures StraightLine(body)
    ensures body[|body| - 1].Return? <==> context.typeRef.Some?
    ensures forall k :: 0 <= k < |body| ==> body[k].LoadClass? || body[k].Return? || body[k].Throw?
    ensures context.typeRef.Some? ==>
              |body| == 2 && body[0] == LoadClass(FirstLocal, context.typeRef.value) &&
              body[1] == Return(body[0].def, false)
    ensures context.typeRef.None? ==> body == [Throw(FirstLocal)]
  {
    match context.typeRef
    case Some(tr) => [LoadClass(FirstLocal, tr), Return(FirstLocal, false)]
    case None => [Throw(FirstLocal)]
  }

  /** makeStatements: build the list of instructions, then copy it, in the
      order of its iterator, into a new array of the list's size. */
  method MakeStatements(context: Context) returns (result: array<Instruction>)
    requires context.JavaTypeContext?
    ensures fresh(result)
    ensures result[..] == StatementsFor(context)
  {
    var statements: seq<Instruction> := [];
    var nextLocal := FirstLocal;
    var retValue := nextLocal;
    nextLocal := nextLocal + 1;
    var tr := context.typeRef;
    if tr.Some? {
      var l := LoadClass(retValue, tr.value);
      statements := statements + [l];
      var r := Return(retValue, false);
      statements := statements + [r];
    } else {
      var t := Throw(retValue);
      statements := statements + [t];
    }
    result := new Instruction[|statements|];
    var it := 0;  // the position of the list's iterator
    for i := 0 to result.Length
      invariant it == i
      invariant result[..i] == statements[..i]
    {
      result[i] := statements[it];
      it := it + 1;
    }
  }

  /** makeIR: the synthetic IR of a method in a JavaTypeContext. */
  method MakeIR(methodRef: MethodRef, context: Context) returns (ir: SyntheticIR)
    requires context.JavaTypeContext?
    ensures ir.methodRef == methodRef && ir.context == context
    ensures ir.instructions == StatementsFor(context)
  {
    var instrs := MakeStatements(context);
    ir := SyntheticIR(methodRef, context, instrs[..]);
  }

  /** getIR: a null node is rejected; any other node must be one this
      interpreter understands. */
  method GetIR(node: Option<CGNode>) returns (r: Outcome<SyntheticIR>)
    requires node.Some? ==> Understands(node) == Ok(true)
    ensures node.None? ==> r == IllegalArgument(NodeIsNull)
    ensures node.Some? ==>
              r.Ok? && r.value.methodRef == node.value.methodRef && r.value.context == node.value.context &&
              r.value.instructions == StatementsFor(node.value.context)
  {
    if node.None? {
      return IllegalArgument(NodeIsNull);
    }
    var ir := MakeIR(node.value.methodRef, node.value.context);
    r := Ok(ir);
  }

  /** getNumberOfStatements: the length of the synthesized body. */
  method GetNumberOfStatements(node: Option<CGNode>) returns (count: int)
    requires Understands(node) == Ok(true)
    ensures count == |StatementsFor(node.value.context)|
    ensures count == if node.value.context.typeRef.Some? then 2 else 1
  {
    var ir := GetIR(node);
    count := |ir.value.instructions|;
  }

  /** iterateNewSites: the allocation the synthesized body stands for, the
      class object made at program counter 0 when the context knows its type. */
  function IterateNewSites(node: Option<CGNode>): (r: Outcome<seq<NewSiteRef>>)
    requires node.Some? ==> Understands(node) == Ok(true)
    ensures node.None? ==> r == IllegalArgument(NodeIsNull)
    ensures node.Some? ==> r.Ok? && r.value == NewSitesOf(StatementsFor(node.value.context), 0)
    ensures node.Some? ==> |r.value| <= 1 && (r.value == [] <==> node.value.context.typeRef.None?)
    ensures node.Some? ==>
              forall s :: s in r.value <==>
                exists k :: 0 <= k < |StatementsFor(node.value.context)| &&
                            AllocationAt(StatementsFor(node.value.context)[k], k) == Some(s)
  {
    match node
    case None => IllegalArgument(NodeIsNull)
    case Some(n) =>
      NewSitesOfStatements(n.context);
      NewSitesOfExactly(StatementsFor(n.context), 0);
      match n.context.typeRef
      case Some(tr) => Ok([NewSiteRef(0, tr)])
      case None => Ok([])
  }

  /** The synthesized body allocates one class object, at program counter 0,
      when the type is known, and nothing otherwise. */
  lemma NewSitesOfStatements(context: Context)
    requires context.JavaTypeContext?
    ensures NewSitesOf(StatementsFor(context), 0) ==
            match context.typeRef case Some(tr) => [NewSiteRef(0, tr)] case None => []
  {
    var body := StatementsFor(context);
    if context.typeRef.Some? {
      assert NewSitesOf(body[1..][1..], 2) == [];
    }
    assert NewSitesOf(body[1..], 1) == [];
  }

  /** iterateCallSites: the synthesized body calls nothing. */
  function IterateCallSites(node: Option<CGNode>): (r: seq<CallSiteRef>)
    requires Understands(node) == Ok(true)
    ensures r == CallSitesOf(StatementsFor(node.value.context))
    ensures r == []
  {
    NoCallOrFieldEffects(StatementsFor(node.value.context));
    []
  }

  /** iterateFieldsRead: no field is read, whatever the node. */
  function IterateFieldsRead(node: Option<CGNode>): (r: seq<FieldRef>)
    ensures r == []
    ensures Understands(node) == Ok(true) ==> r == FieldsReadOf(StatementsFor(node.value.context))
  {
    if Understands(node) == Ok(true) then
      NoCallOrFieldEffects(StatementsFor(node.value.context));
      []
    else []
  }

  /** iterateFieldsWritten: no field is written, whatever the node. */
  function IterateFieldsWritten(node: Option<CGNode>): (r: seq<FieldRef>)
    ensures r == []
    ensures Understands(node) == Ok(true) ==> r == FieldsWrittenOf(StatementsFor(node.value.context))
  {
    if Understands(node) == Ok(true) then
      NoCallOrFieldEffects(StatementsFor(node.value.context));
      []
    else []
  }

  /** recordFactoryType: this interpreter learns nothing from factory types. */
  function RecordFactoryType(node: Option<CGNode>, klass: TypeRef): (r: bool)
    ensures !r
  {
    false
  }

  /** Two syntheses for one context give equal bodies in distinct arrays. */
  method SynthesisIsIdempotent(context: Context) returns (first: array<Instruction>, second: array<Instruction>)
    requires context.JavaTypeContext?
    ensures first[..] == second[..]
    ensures first != second
  {
    first := MakeStatements(context);
    second := MakeStatements(context);
  }
}

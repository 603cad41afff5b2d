/** The collaborators of a context interpreter, as values: type and method
    references, analysis contexts, call-graph nodes, the SSA instruction model,
    and what a call-graph builder reads off an instruction sequence (allocation
    sites, call sites, field accesses). References are compared structurally,
    which is what interning them in process-wide tables amounts to. */
module Wala {

  datatype Option<+T> = None | Some(value: T)

  /** The result of an operation that rejects a null argument with an
      IllegalArgumentException carrying a message. */
  datatype Outcome<+T> = Ok(value: T) | IllegalArgument(message: string)

  /** A TypeReference: a class loader and a type name in JVM notation. */
  datatype TypeRef = TypeRef(classLoader: string, name: string)

  /** TypeReference.JavaLangClass. */
  const JavaLangClass: TypeRef := TypeRef("Primordial", "Ljava/lang/Class")

  /** A MethodReference: declaring class, method name and descriptor. */
  datatype MethodRef = MethodRef(declaringClass: TypeRef, name: string, descriptor: string)

  datatype FieldRef = FieldRef(declaringClass: TypeRef, name: string, fieldType: TypeRef)

  /** An allocation site: the program counter and the type of the object made there. */
  datatype NewSiteRef = NewSiteRef(programCounter: int, declaredType: TypeRef)

  datatype CallSiteRef = CallSiteRef(programCounter: int, declaredTarget: MethodRef)

  /** The context of a call-graph node. A JavaTypeContext holds the type
      reference of its type abstraction (getType().getTypeReference()), which
      may be absent (null); every other kind of context is one of the
      OtherContext values. */
  datatype Context = JavaTypeContext(typeRef: Option<TypeRef>) | OtherContext(id: nat)

  /** A call-graph node: the reference of its method and its context. */
  datatype CGNode = CGNode(methodRef: MethodRef, context: Context)

  /** SSA instructions; operands are value numbers. The forName interpreter
      emits only the first three; the others are the allocation, call and
      field instructions a body may hold in general. */
  datatype Instruction =
    | LoadClass(def: int, loadedClass: TypeRef)
    | Return(result: int, isPrimitive: bool)
    | Throw(exception: int)
    | New(def: int, site: NewSiteRef)
    | Invoke(callSite: CallSiteRef, params: seq<int>)
    | GetField(def: int, objectRef: int, field: FieldRef)
    | PutField(objectRef: int, field: FieldRef, stored: int)

  /** A synthetic IR: the method and context it was made for and its instructions.
      Its control-flow graph and SSA options are not part of this model. */
  datatype SyntheticIR = SyntheticIR(methodRef: MethodRef, context: Context, instructions: seq<Instruction>)

  /** Instructions after which control does not fall through. */
  predicate IsTerminator(ins: Instruction) {
    ins.Return? || ins.Throw?
  }

  /** A straight-line body: non-empty, ending in a return or a throw, with no
      return or throw before the end (so no instruction is unreachable). */
  predicate StraightLine(body: seq<Instruction>) {
    |body| > 0 && IsTerminator(body[|body| - 1]) &&
    forall k :: 0 <= k < |body| - 1 ==> !IsTerminator(body[k])
  }

  /** The allocation an instruction at program counter pc stands for, if any:
      a `new`, or a class load, which materializes a class object. */
  function AllocationAt(ins: Instruction, pc: int): Option<NewSiteRef> {
    match ins
    case LoadClass(_, t) => Some(NewSiteRef(pc, t))
    case New(_, site) => Some(site)
    case _ => None
  }

  /** The allocation sites of a body whose first instruction is at program counter pc. */
  function NewSitesOf(body: seq<Instruction>, pc: int): seq<NewSiteRef>
    decreases |body|
  {
    if body == [] then [] else SitesAt(body[0], pc) + NewSitesOf(body[1..], pc + 1)
  }

  /** The allocation of one instruction, as a sequence of length 0 or 1. */
  function SitesAt(ins: Instruction, pc: int): seq<NewSiteRef> {
    match AllocationAt(ins, pc) case Some(s) => [s] case None => []
  }

  /** The call sites of a body, in order. */
  function CallSitesOf(body: seq<Instruction>): seq<CallSiteRef> {
    if body == [] then []
    else (if body[0].Invoke? then [body[0].callSite] else []) + CallSitesOf(body[1..])
  }

  /** The fields a body reads, in order. */
  function FieldsReadOf(body: seq<Instruction>): seq<FieldRef> {
    if body == [] then []
    else (if body[0].GetField? then [body[0].field] else []) + FieldsReadOf(body[1..])
  }

  /** The fields a body writes, in order. */
  function FieldsWrittenOf(body: seq<Instruction>): seq<FieldRef> {
    if body == [] then []
    else (if body[0].PutField? then [body[0].field] else []) + FieldsWrittenOf(body[1..])
  }

  /** Every site NewSitesOf lists is the allocation of some instruction of
      the body at its own program counter. */
  lemma {:induction false} NewSitesOfSound(body: seq<Instruction>, pc: int, s: NewSiteRef)
    requires s in NewSitesOf(body, pc)
    ensures exists k :: 0 <= k < |body| && AllocationAt(body[k], pc + k) == Some(s)
    decreases |body|
  {
    var tail := body[1..];
    if s in SitesAt(body[0], pc) {
      assert AllocationAt(body[0], pc + 0) == Some(s);
    } else {
      NewSitesOfSound(tail, pc + 1, s);
      var k :| 0 <= k < |tail| && AllocationAt(tail[k], pc + 1 + k) == Some(s);
      assert AllocationAt(body[k + 1], pc + (k + 1)) == Some(s);
    }
  }

  /** The allocation of every instruction of the body, at its own program
      counter, is listed by NewSitesOf. */
  lemma {:induction false} NewSitesOfComplete(body: seq<Instruction>, pc: int, k: int)
    requires 0 <= k < |body| && AllocationAt(body[k], pc + k).Some?
    ensures AllocationAt(body[k], pc + k).value in NewSitesOf(body, pc)
    decreases |body|
  {
    if k > 0 {
      var tail := body[1..];
      assert tail[k - 1] == body[k] && pc + 1 + (k - 1) == pc + k;
      NewSitesOfComplete(tail, pc + 1, k - 1);
    }
  }

  /** A site is listed by NewSitesOf exactly when some instruction of the
      body stands for it at its own program counter. */
  lemma {:induction false} NewSitesOfExactly(body: seq<Instruction>, pc: int)
    ensures forall s :: s in NewSitesOf(body, pc) <==>
                        exists k :: 0 <= k < |body| && AllocationAt(body[k], pc + k) == Some(s)
  {
    forall s | s in NewSitesOf(body, pc) {
      NewSitesOfSound(body, pc, s);
    }
    forall k | 0 <= k < |body| && AllocationAt(body[k], pc + k).Some? {
      NewSitesOfComplete(body, pc, k);
    }
  }

  /** A body made only of class loads, returns and throws makes no calls and
      touches no fields. */
  lemma {:induction false} NoCallOrFieldEffects(body: seq<Instruction>)
    requires forall k :: 0 <= k < |body| ==> body[k].LoadClass? || body[k].Return? || body[k].Throw?
    ensures CallSitesOf(body) == [] && FieldsReadOf(body) == [] && FieldsWrittenOf(body) == []
    decreases |body|
  {
    if body != [] {
      assert forall k :: 0 <= k < |body[1..]| ==> body[1..][k] == body[k + 1];
      NoCallOrFieldEffects(body[1..]);
    }
  }
}

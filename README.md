# ForNameContextInterpreter, modelled in Dafny

`ForNameContextInterpreter` is WALA's context interpreter specialized to
interpret `java.lang.Class.forName(String)` in a `JavaTypeContext`. For such a
call-graph node it replaces the library body of `forName` with a synthetic SSA
body that depends only on the type the context carries. It claims a call-graph
node (a method reference paired with an analysis context) when the context is a
`JavaTypeContext` and the method is `forName`. The body it synthesizes is:

- type known: load the class into value 1, then return value 1 normally;
- type unknown: throw value 1.

It also tells the builder what that body does: one allocation site (the class
object, at program counter 0) when the type is known and none otherwise. It
reports no call sites and no field reads or writes. It learns nothing from
factory types.

Files:

- `wala_types.dfy` (module `Wala`): the collaborators as values. These are type,
  method and field references, contexts, call-graph nodes, SSA instructions, the
  synthetic IR, and reference definitions of what a builder reads off a body
  (`NewSitesOf`, `CallSitesOf`, `FieldsReadOf`, `FieldsWrittenOf`, `StraightLine`).
- `for_name_context_interpreter.dfy` (module `ForNameContextInterpreter`): the
  interpreter.

How the model handles the source:

- A null node is `None`. The `IllegalArgumentException("node is null")` is the
  outcome `IllegalArgument(NodeIsNull)`.
- Each `Assertions._assert(understands(node))` is a precondition
  `Understands(node) == Ok(true)`. In `getIR` and `iterateNewSites` the null check
  comes first, so there the precondition only applies to a non-null node.
- `makeStatements` is an imperative method. It builds the list as a `seq`,
  allocates an array of the list's size, and copies the list into it in
  iterator order with a `for` loop. It is proved equal to the function
  `StatementsFor`, and the properties are proved about that function.
- The instruction datatype also has the allocation, call and field variants an
  SSA body can hold in general, so each enumeration can be checked against the
  body. The interpreter never emits those variants.

Line 108 starts `nextLocal` at 1, so the body loads, returns and throws value 1.
The model does the same.

## Model

| member | source | states |
|---|---|---|
| ForNameContextInterpreter.Understands | com.ibm.wala.core/src/com/ibm/wala/analysis/reflection/ForNameContextInterpreter.java:75-82 | Null node is rejected with "node is null". Otherwise the answer is true iff the context is a JavaTypeContext and the method reference equals FOR_NAME_REF (java/lang/Class, forName, (Ljava/lang/String;)Ljava/lang/Class;). So a type context on another method, or another context on forName, gives false. |
| ForNameContextInterpreter.StatementsFor | com.ibm.wala.core/src/com/ibm/wala/analysis/reflection/ForNameContextInterpreter.java:106-119 | The body is straight-line and ends in its only return or throw. It returns normally iff the context's type is known. With type t it is exactly [LoadClass(1, t), Return(1, false)], and the return uses the value the load defined. Without a type it is exactly [Throw(1)]. Only load, return and throw instructions appear. |
| ForNameContextInterpreter.MakeStatements | com.ibm.wala.core/src/com/ibm/wala/analysis/reflection/ForNameContextInterpreter.java:106-126 | Returns a freshly allocated array whose contents equal StatementsFor(context): same length as the built list, same elements, same order, never partly filled. |
| ForNameContextInterpreter.MakeIR | com.ibm.wala.core/src/com/ibm/wala/analysis/reflection/ForNameContextInterpreter.java:128-131 | The IR carries the given method and context, and its instructions are the synthesized body. |
| ForNameContextInterpreter.GetIR | com.ibm.wala.core/src/com/ibm/wala/analysis/reflection/ForNameContextInterpreter.java:57-66 | A null node gives IllegalArgument("node is null"). An understood node gives an IR for its own method and context whose instructions are StatementsFor of its context. |
| ForNameContextInterpreter.GetNumberOfStatements | com.ibm.wala.core/src/com/ibm/wala/analysis/reflection/ForNameContextInterpreter.java:68-73 | The count equals the length of the synthesized body: 2 when the type is known, 1 when it is not. |
| ForNameContextInterpreter.IterateNewSites | com.ibm.wala.core/src/com/ibm/wala/analysis/reflection/ForNameContextInterpreter.java:84-97 | A null node gives IllegalArgument("node is null"). Otherwise the result equals the allocation sites of the synthesized body. It has at most one element, and it is empty iff the type is unknown. A site is reported iff some instruction of the synthesized body allocates it at its own program counter. |
| ForNameContextInterpreter.NewSitesOfStatements | com.ibm.wala.core/src/com/ibm/wala/analysis/reflection/ForNameContextInterpreter.java:91-96 | The synthesized body allocates exactly NewSite(0, t) when the type t is known and nothing otherwise. |
| ForNameContextInterpreter.IterateCallSites | com.ibm.wala.core/src/com/ibm/wala/analysis/reflection/ForNameContextInterpreter.java:99-104 | For an understood node the result is empty and equals the call sites of the synthesized body. |
| ForNameContextInterpreter.IterateFieldsRead | com.ibm.wala.core/src/com/ibm/wala/analysis/reflection/ForNameContextInterpreter.java:137-139 | Empty for every node. For an understood node it equals the fields the synthesized body reads. |
| ForNameContextInterpreter.IterateFieldsWritten | com.ibm.wala.core/src/com/ibm/wala/analysis/reflection/ForNameContextInterpreter.java:141-143 | Empty for every node. For an understood node it equals the fields the synthesized body writes. |
| ForNameContextInterpreter.RecordFactoryType | com.ibm.wala.core/src/com/ibm/wala/analysis/reflection/ForNameContextInterpreter.java:133-135 | Always false. The interpreter has no state, so later syntheses are unaffected. |
| ForNameContextInterpreter.SynthesisIsIdempotent | com.ibm.wala.core/src/com/ibm/wala/analysis/reflection/ForNameContextInterpreter.java:106-126 | Two syntheses for the same context give structurally equal bodies in two distinct arrays. |
| Wala.NewSitesOfSound | com.ibm.wala.core/src/com/ibm/wala/analysis/reflection/ForNameContextInterpreter.java:91-96 | Every site a body's allocation list holds is the allocation of one of its instructions at that instruction's own program counter. |
| Wala.NewSitesOfComplete | com.ibm.wala.core/src/com/ibm/wala/analysis/reflection/ForNameContextInterpreter.java:91-96 | The allocation of every instruction of a body, at its own program counter, is in the body's allocation list (a class load at pc k gives NewSite(k, t)). |
| Wala.NewSitesOfExactly | com.ibm.wala.core/src/com/ibm/wala/analysis/reflection/ForNameContextInterpreter.java:91-96 | Both directions together: a site is among a body's allocation sites iff some instruction of the body stands for that allocation at its own program counter. IterateNewSites uses it to state that each site it reports is the allocation of an instruction of the synthesized body, and each such allocation is reported. |
| Wala.NoCallOrFieldEffects | com.ibm.wala.core/src/com/ibm/wala/analysis/reflection/ForNameContextInterpreter.java:99-104 | A body made only of class loads, returns and throws has no call sites, reads no field and writes no field. |

## Left out

- `getCFG` and `getDU` (lines 145-151) are left out. They wrap `InducedCFG` and `DefUse`, which are not part of this model. The synthetic IR holds the method, the context and the instructions. It does not hold the induced control-flow graph or `SSAOptions`. `StatementsFor` does state the shape that graph would be built from: one straight line that ends at its only return or throw.
- Interning of `Atom`, `Descriptor`, `TypeReference` and `MethodReference` through `findOrCreate` is not modelled. The references are immutable values compared structurally.
- The `Assertions.verifyAssertions` switch is not modelled. The asserted `understands(node)` is always a precondition. With assertions off, `getIR` and `getNumberOfStatements` (through the cast at line 64) and `iterateNewSites` (through the cast at line 91) would throw a `ClassCastException` for a non-type context. For a type context on another method they would synthesize a body, or report a new site, as if it were `forName`. `iterateCallSites` returns an empty iterator for any node, null included. None of these paths is modelled.
- On a null node, `iterateCallSites` and `getNumberOfStatements` fail inside the asserted `understands`. The model excludes null for them by the same precondition.
- `iterateFieldsRead`, `iterateFieldsWritten` and `recordFactoryType` check nothing about their node in the source. The model accepts any node, null included.
- `EmptyIterator` and `NonNullSingletonIterator` are modelled as sequences of length 0 or 1. Laziness of the iteration is not modelled.
- The `TypeAbstraction` of a `JavaTypeContext` is reduced to its `getTypeReference()`. Two abstractions with the same reference, such as a point type and a cone type of one class, are therefore one context in the model. A null `getType()` is not modelled.
- `IClass`, `IMethod`, `CGNode` and `JavaTypeContext` are datatypes. A node holds its method's reference. The class passed to `recordFactoryType` is its type reference. A context other than a `JavaTypeContext` is an opaque `OtherContext`.
- Concurrency is not modelled: the interpreter keeps no mutable state.

# IDRC sensitive-data rule, modelled in Dafny

IDRC is an Eclipse plug-in. This project models its one rule, `VarDecVisitor`, which checks local-variable
declaration statements. If a declaration's FIRST modifier is the annotation `@sensitive`, the rule takes the
initializer of the FIRST declared fragment. The initializer must be a method invocation whose simple name is on
the allow-list `["encrypt"]`. If it is not, the rule records one high-priority problem marker,
"Sensitive data is not encrypted!", at the initializer's line, and tells the traversal not to descend.

Files:

- `jdt_nodes.dfy` (module `JdtNodes`): the JDT node shapes the rule reads, as closed datatypes. There is a
  modifier list of keywords and annotations, and fragments whose initializer is optional. Expressions are tagged
  by their exact node class; `MethodInvocation` is one variant, and `SuperMethodInvocation`, names and literals
  are others. Each expression carries the line of its start position.
- `var_dec_visitor.dfy` (module `IdrcAst`):
  - The allow-list is a constant.
  - The judgement of one declaration is the pure function `Classify`. It is parameterised by an allow-list so
    that the effect of adding a name can be stated.
  - `Report` gives the markers one judgement produces, and `VisitOutcome` gives how `visit` ends.
  - The class `VarDecVisitor` holds the compilation unit and a log of the findings it has reported.
    Its `Visit` method follows the Java step by step: it calls `CastList` and `IsValidEncryption` and appends
    through `CreateEncryptionProblemMarker`. Its contract ties the new log and the outcome to `Classify`.

The Java's partial operations are modelled as an explicit fault outcome (`Outcome.Threw`), not as
preconditions. The guard `mods.size() < 0` can never hold, so the following declarations make `visit` throw:

- an empty modifier list (`mods.get(0)`);
- a keyword first modifier (cast to `Annotation`);
- a qualified annotation name (cast to `SimpleName`);
- a sensitive declaration with no fragment (`frags.get(0)`);
- a sensitive declaration without an initializer (`e.getClass()` on null).

Each of these faults happens before any marker is created, so a fault leaves the log unchanged.

Some consequences of the code that a reader might not expect:

- The comment at `VarDecVisitor.java:60` says "If no modifiers, do nothing", but its guard `mods.size() < 0`
  never holds, so a declaration without modifiers throws at line 63 (see "## Findings").
- A missing initializer is not reported: `e.getClass()` throws a NullPointerException.
- Only the first modifier is inspected: in `@Other @sensitive String s = raw;` the `@sensitive` is ignored, and
  `final @sensitive String s = raw;` throws a ClassCastException at the cast of `final` to `Annotation`.
- Only a reported declaration stops the descent: a compliant one returns `super.visit(vd)`, which is true.

## Model

| member | source | states |
|---|---|---|
| `IdrcAst.IsValidEncryption` | IDRC/src/idrc/ast/VarDecVisitor.java:36-43 | answers true exactly when some allow-list entry equals the name (exact, case-sensitive), and false after a full scan; since the list is `["encrypt"]`, that is exactly when the name is `"encrypt"` |
| `IdrcAst.CastList` | IDRC/src/idrc/ast/VarDecVisitor.java:29-34 | the copy has the input's length and the same element at every index, so order is kept |
| `IdrcAst.FirstAnnotationName` | IDRC/src/idrc/ast/VarDecVisitor.java:59-63 | an identifier is produced exactly when the first modifier exists, is an annotation and has a simple name, and it is that name; an empty list, a keyword and a qualified name give, each exactly, the index fault, the Annotation cast fault and the SimpleName cast fault |
| `IdrcAst.FirstInitializer` | IDRC/src/idrc/ast/VarDecVisitor.java:68-70 | the expression is produced exactly when the first fragment exists and has an initializer; an empty fragment list gives exactly the index fault, a missing initializer exactly the null fault |
| `IdrcAst.Classify` | IDRC/src/idrc/ast/VarDecVisitor.java:58-82 | "not sensitive" exactly when the first annotation is simply named and not `sensitive`; any other verdict only for a `@sensitive` first modifier with an initializer; compliant exactly when that initializer is a MethodInvocation of an allow-listed name; an unencrypted verdict carries the initializer's line; a fault exactly when the first modifier is not a simply-named annotation or a `@sensitive` declaration has no first initializer, and then the fault of the first failing access |
| `IdrcAst.Report` | IDRC/src/idrc/ast/VarDecVisitor.java:45-51 | at most one finding; exactly one for an unencrypted verdict; each carries the verdict's line, the message "Sensitive data is not encrypted!" and high priority |
| `IdrcAst.VisitOutcome` | IDRC/src/idrc/ast/VarDecVisitor.java:72-81 | throws exactly on a fault, with that fault; returns false exactly when one finding is reported; returning true reports nothing |
| `IdrcAst.VarDecVisitor.constructor` | IDRC/src/idrc/ast/VarDecVisitor.java:25-27 | keeps the compilation unit and starts with no findings |
| `IdrcAst.VarDecVisitor.CreateEncryptionProblemMarker` | IDRC/src/idrc/ast/VarDecVisitor.java:45-55 | appends one finding at the given line with the fixed message and high priority |
| `IdrcAst.VarDecVisitor.Visit` | IDRC/src/idrc/ast/VarDecVisitor.java:57-82 | outcome and new log agree with `Classify` against the fixed allow-list; at most one finding is appended; false is returned exactly when one is; every new finding has the fixed message and high priority |
| `IdrcAst.UncheckedAccessFaults` | IDRC/src/idrc/ast/VarDecVisitor.java:60-70 | the modifier list is never rejected up front: an empty one, a keyword first modifier, a qualified annotation name, a sensitive declaration with no fragment and one with no initializer each end in their own fault |
| `IdrcAst.OtherAnnotationIsNotSensitive` | IDRC/src/idrc/ast/VarDecVisitor.java:63-81 | a first annotation simply named other than `sensitive` gives no finding and the default "continue", whatever follows it |
| `IdrcAst.OnlyFirstModifierAndFragmentInspected` | IDRC/src/idrc/ast/VarDecVisitor.java:63-70 | two declarations with the same first modifier and the same first initializer are judged alike |
| `IdrcAst.SensitiveDeclarationJudged` | IDRC/src/idrc/ast/VarDecVisitor.java:70-81 | for a `@sensitive` declaration: a non-MethodInvocation initializer or a call to an unapproved name gives exactly one finding at the initializer's line and returns false; a call to an approved name gives none and returns the default |
| `IdrcAst.RegistryExtension` | IDRC/src/idrc/ast/VarDecVisitor.java:36-43 | adding a name to the allow-list turns exactly the unencrypted verdicts for calls to that name into compliant ones and leaves every other judgement unchanged |
| `IdrcAst.UnmodifiedDeclarationThrows` | IDRC/src/idrc/ast/VarDecVisitor.java:60-63 | with the guard as written, `int x = 5;` (no modifiers) makes `visit` throw the index fault instead of returning |
| `IdrcAst.GuardedVisitOutcome` | IDRC/src/idrc/ast/VarDecVisitor.java:59-60 | with the guard its comment describes, no declaration throws for lack of modifiers: one without modifiers returns false, every other ends as `Classify` says |
| `IdrcAst.GuardedVisitSkipsUnmodified` | IDRC/src/idrc/ast/VarDecVisitor.java:60 | the corrected guard reports nothing for a declaration without modifiers, and it changes the outcome of exactly those declarations |

## Left out

- Marker creation in the Eclipse workspace is not modelled: `getJavaElement`, `createMarker(IMarker.PROBLEM)`, `setAttribute`, and the caught and printed `CoreException`. The model keeps only the finding's line, message and priority, appended to the visitor's log.
- Console output (`System.out.println`, `printStackTrace`) is not modelled. It is logging only.
- `cu.getLineNumber(e.getStartPosition())` is not modelled. It is JDT's position-to-line map; each expression carries its line as given.
- The JDT traversal driver is not modelled. `super.visit(vd)` is the constant `DefaultVisit` (true, JDT's default), and `Visit` is specified one declaration at a time. Whether a whole traversal run twice yields the same findings is therefore not stated; it is covered only in that `Classify` is a function of the declaration.
- CastList: the `Class.cast` of each element is the identity, because the element type is the static type here. JDT's lists always hold the cast class, so the ClassCastException that `cast` could raise is not modelled.
- The allow-list is a module constant. `IsValidEncryption` reads it, as the static field is read in the source. Only `Classify` takes an allow-list parameter, and `Visit` passes the constant.
- The `cu` field is kept only as the visitor's identity. The compilation unit's source text and resource are not modelled.

## Findings

| source | as written | input that shows it | evidently intended | confidence | as-written member | corrected member |
|---|---|---|---|---|---|---|
| IDRC/src/idrc/ast/VarDecVisitor.java:60 | `if(mods.size() < 0) { return false; }`, a guard no list length meets | `int x = 5;` (no modifiers): `mods.get(0)` at line 63 throws IndexOutOfBoundsException | `mods.size() == 0`: a declaration without modifiers returns false and reports nothing, as the line's comment "If no modifiers, do nothing" says | high; not executed | `IdrcAst.UnmodifiedDeclarationThrows` | `IdrcAst.GuardedVisitOutcome` |

`Visit` keeps the guard as written; `GuardedVisitOutcome` and `GuardedVisitSkipsUnmodified` state the corrected
behaviour beside it.

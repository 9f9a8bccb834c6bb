/** The "sensitive data must be encrypted" rule of package idrc.ast: a visitor
    over local-variable declarations that reports a high-priority problem when
    a declaration whose first modifier is the annotation `@sensitive` is not
    initialised by a call to an approved encryption routine.

    The decision is a pure function, Classify, over the declaration's shape;
    the class VarDecVisitor performs it step by step as the Java does and
    appends the finding it reports to its log. Where the Java would throw, the
    model returns an explicit Fault instead. */
module IdrcAst {
  import opened JdtNodes

  /** The allow-list of approved encryption routines. It is seeded once and
      never changed. */
  const ValidEncryptionMethods: seq<string> := ["encrypt"]

  /** The annotation name that puts a declaration in scope. */
  const SensitiveAnnotation: string := "sensitive"

  /** The message of every problem the rule reports. */
  const UnencryptedMessage: string := "Sensitive data is not encrypted!"

  /** What JDT's default `ASTVisitor.visit` answers for a declaration
      statement: descend into its children. */
  const DefaultVisit: bool := true

  /** The priorities a problem marker can carry. */
  datatype Priority = PriorityLow | PriorityNormal | PriorityHigh

  /** The content of one problem marker: where, what, how urgent. */
  datatype Finding = Finding(line: int, message: string, priority: Priority)

  /** The runtime exceptions that `visit` raises on declarations it does not expect. */
  datatype Fault =
      /** `mods.get(0)` on an empty modifier list: IndexOutOfBoundsException. */
    | NoModifier
      /** The first modifier is a keyword, cast to Annotation: ClassCastException. */
    | NotAnAnnotation
      /** The annotation's type name is qualified, cast to SimpleName: ClassCastException. */
    | QualifiedAnnotationName
      /** `frags.get(0)` on an empty fragment list: IndexOutOfBoundsException. */
    | NoFragment
      /** `e.getClass()` on a missing (null) initializer: NullPointerException. */
    | NoInitializer

  datatype Result<T> = Success(value: T) | Failure(fault: Fault)

  /** How the rule judges one declaration statement. */
  datatype Verdict =
    | NotSensitive
    | Compliant
    | Unencrypted(line: int)

  /** How one call of `visit` ends: it returns "descend?" or it throws. */
  datatype Outcome = Returned(descend: bool) | Threw(fault: Fault)

  /** Whether the declaration's first modifier is exactly `@sensitive`. */
  predicate IsSensitive(vd: VariableDeclarationStatement)
  {
    |vd.modifiers| > 0 && vd.modifiers[0] == Annotation(SimpleName(SensitiveAnnotation))
  }

  /** The identifier of the first modifier, read as a simply-named annotation;
      every other shape makes the unchecked access or casts fail. */
  function FirstAnnotationName(vd: VariableDeclarationStatement): (r: Result<string>)
    ensures r.Success? <==> |vd.modifiers| > 0 && vd.modifiers[0].Annotation? && vd.modifiers[0].typeName.SimpleName?
    ensures r.Success? ==> vd.modifiers[0] == Annotation(SimpleName(r.value))
    ensures r == Success(SensitiveAnnotation) <==> IsSensitive(vd)
    ensures r == Failure(NoModifier) <==> |vd.modifiers| == 0
    ensures r == Failure(NotAnAnnotation) <==> |vd.modifiers| > 0 && vd.modifiers[0].Keyword?
    ensures r == Failure(QualifiedAnnotationName) <==>
      |vd.modifiers| > 0 && vd.modifiers[0].Annotation? && vd.modifiers[0].typeName.QualifiedName?
  {
    if |vd.modifiers| == 0 then Failure(NoModifier)
    else match vd.modifiers[0]
      case Keyword(_) => Failure(NotAnAnnotation)
      case Annotation(QualifiedName(_, _)) => Failure(QualifiedAnnotationName)
      case Annotation(SimpleName(id)) => Success(id)
  }

  /** The initializer of the first fragment; an empty fragment list or a
      missing initializer is a fault. */
  function FirstInitializer(vd: VariableDeclarationStatement): (r: Result<Expression>)
    ensures r.Success? <==> |vd.fragments| > 0 && vd.fragments[0].initializer.Some?
    ensures r.Success? ==> vd.fragments[0].initializer == Some(r.value)
    ensures r == Failure(NoFragment) <==> |vd.fragments| == 0
    ensures r == Failure(NoInitializer) <==> |vd.fragments| > 0 && vd.fragments[0].initializer.None?
  {
    if |vd.fragments| == 0 then Failure(NoFragment)
    else match vd.fragments[0].initializer
      case None => Failure(NoInitializer)
      case Some(e) => Success(e)
  }

  /** An initializer meets the rule when its node class is exactly
      MethodInvocation and its callee is on the allow-list. */
  predicate EncryptedBy(e: Expression, allowList: seq<string>)
  {
    e.MethodInvocation? && e.methodName in allowList
  }

  /** The rule's judgement of one declaration against an allow-list. */
  function Classify(vd: VariableDeclarationStatement, allowList: seq<string>): (r: Result<Verdict>)
    ensures r == Success(NotSensitive) <==>
      FirstAnnotationName(vd).Success? && FirstAnnotationName(vd).value != SensitiveAnnotation
    ensures r.Success? && !r.value.NotSensitive? ==> IsSensitive(vd) && FirstInitializer(vd).Success?
    ensures r == Success(Compliant) <==>
      IsSensitive(vd) && FirstInitializer(vd).Success? && EncryptedBy(FirstInitializer(vd).value, allowList)
    ensures r.Success? && r.value.Unencrypted? ==>
      !EncryptedBy(FirstInitializer(vd).value, allowList) && r.value.line == FirstInitializer(vd).value.line
    ensures r.Failure? <==> FirstAnnotationName(vd).Failure? || (IsSensitive(vd) && FirstInitializer(vd).Failure?)
    ensures r.Failure? ==>
      r.fault == if FirstAnnotationName(vd).Failure? then FirstAnnotationName(vd).fault else FirstInitializer(vd).fault
  {
    match FirstAnnotationName(vd)
    case Failure(f) => Failure(f)
    case Success(name) =>
      if name != SensitiveAnnotation then Success(NotSensitive)
      else match FirstInitializer(vd)
        case Failure(f) => Failure(f)
        case Success(e) => if EncryptedBy(e, allowList) then Success(Compliant) else Success(Unencrypted(e.line))
  }

  /** The problems reported for one judgement: one for an unencrypted
      sensitive declaration, none otherwise. */
  function Report(r: Result<Verdict>): (fs: seq<Finding>)
    ensures |fs| <= 1
    ensures |fs| == 1 <==> r.Success? && r.value.Unencrypted?
    ensures forall f :: f in fs ==>
      f.line == r.value.line && f.message == UnencryptedMessage && f.priority == PriorityHigh
  {
    if r.Success? && r.value.Unencrypted? then [Finding(r.value.line, UnencryptedMessage, PriorityHigh)] else []
  }

  /** How `visit` ends for one judgement: a fault is thrown, a reported
      declaration stops the descent, anything else defers to the default. */
  function VisitOutcome(r: Result<Verdict>): (o: Outcome)
    ensures o.Threw? <==> r.Failure?
    ensures o.Threw? ==> o.fault == r.fault
    ensures o == Returned(false) <==> |Report(r)| == 1
    ensures o.Returned? && o.descend ==> Report(r) == []
  {
    match r
    case Failure(f) => Threw(f)
    case Success(v) => Returned(if v.Unencrypted? then false else DefaultVisit)
  }

  /** The allow-list scan: a for-each loop that stops at the first entry equal
      to `methName`. */
  method IsValidEncryption(methName: string) returns (valid: bool)
    ensures valid <==> exists i :: 0 <= i < |ValidEncryptionMethods| && ValidEncryptionMethods[i] == methName
    ensures valid <==> methName == "encrypt"
  {
    for i := 0 to |ValidEncryptionMethods|
      invariant forall j :: 0 <= j < i ==> ValidEncryptionMethods[j] != methName
    {
      if ValidEncryptionMethods[i] == methName {
        return true;
      }
    }
    assert ValidEncryptionMethods[0] == "encrypt";
    return false;
  }

  /** A fresh list holding the elements of `c` in the same order. The element
      class is already the static type here, so each cast is the identity. */
  method CastList<T>(c: seq<T>) returns (r: seq<T>)
    ensures |r| == |c|
    ensures forall i :: 0 <= i < |c| ==> r[i] == c[i]
  {
    r := [];
    for k := 0 to |c|
      invariant r == c[..k]
    {
      r := r + [c[k]];
    }
  }

  /** The visitor for one compilation unit. `findings` is the log of the
      problem markers it has created, oldest first. */
  class VarDecVisitor {
    const cu: CompilationUnit
    var findings: seq<Finding>

    constructor (cu: CompilationUnit)
      ensures this.cu == cu && findings == []
    {
      this.cu := cu;
      findings := [];
    }

    /** Records one high-priority "not encrypted" problem at `lineNum`. */
    method CreateEncryptionProblemMarker(lineNum: int)
      modifies this
      ensures findings == old(findings) + [Finding(lineNum, UnencryptedMessage, PriorityHigh)]
    {
      findings := findings + [Finding(lineNum, UnencryptedMessage, PriorityHigh)];
    }

    /** Visits one declaration statement: reports at most one problem, and
        answers false exactly when it reported one. */
    method Visit(vd: VariableDeclarationStatement) returns (o: Outcome)
      modifies this
      ensures o == VisitOutcome(Classify(vd, ValidEncryptionMethods))
      ensures findings == old(findings) + Report(Classify(vd, ValidEncryptionMethods))
      ensures |findings| <= |old(findings)| + 1
      ensures o == Returned(false) <==> |findings| == |old(findings)| + 1
      ensures forall k :: |old(findings)| <= k < |findings| ==>
        findings[k].message == UnencryptedMessage && findings[k].priority == PriorityHigh
    {
      var mods := CastList(vd.modifiers);
      // The source guards with `mods.size() < 0`, which no list length meets,
      // so an empty modifier list goes on to the unchecked `mods.get(0)`.
      if |mods| == 0 {
        return Threw(NoModifier);
      }
      match mods[0]
      case Keyword(_) =>
        return Threw(NotAnAnnotation);
      case Annotation(QualifiedName(_, _)) =>
        return Threw(QualifiedAnnotationName);
      case Annotation(SimpleName(annName)) =>
        if annName == SensitiveAnnotation {
          var frags := CastList(vd.fragments);
          if |frags| == 0 {
            return Threw(NoFragment);
          }
          match frags[0].initializer
          case None =>
            return Threw(NoInitializer);
          case Some(e) =>
            if e.MethodInvocation? {
              var valid := IsValidEncryption(e.methodName);
              if !valid {
                CreateEncryptionProblemMarker(e.line);
                return Returned(false);
              }
            } else {
              CreateEncryptionProblemMarker(e.line);
              return Returned(false);
            }
        }
      o := Returned(DefaultVisit);
    }
  }

  // ---------------------------------------------------------------------
  // Properties of the judgement

  /** Every malformed shape that the unchecked accesses and casts reach ends
      in the matching fault; in particular the modifier list is never
      rejected up front, so an empty one faults. */
  lemma UncheckedAccessFaults(vd: VariableDeclarationStatement, allowList: seq<string>)
    ensures |vd.modifiers| == 0 ==> Classify(vd, allowList) == Failure(NoModifier)
    ensures |vd.modifiers| > 0 && vd.modifiers[0].Keyword? ==> Classify(vd, allowList) == Failure(NotAnAnnotation)
    ensures |vd.modifiers| > 0 && vd.modifiers[0].Annotation? && vd.modifiers[0].typeName.QualifiedName? ==>
      Classify(vd, allowList) == Failure(QualifiedAnnotationName)
    ensures IsSensitive(vd) && |vd.fragments| == 0 ==> Classify(vd, allowList) == Failure(NoFragment)
    ensures IsSensitive(vd) && |vd.fragments| > 0 && vd.fragments[0].initializer.None? ==>
      Classify(vd, allowList) == Failure(NoInitializer)
  {
  }

  /** A first annotation with a simple name other than `sensitive` ends the
      rule with no finding, whatever the later modifiers and fragments say. */
  lemma OtherAnnotationIsNotSensitive(vd: VariableDeclarationStatement, allowList: seq<string>, id: string)
    requires |vd.modifiers| > 0 && vd.modifiers[0] == Annotation(SimpleName(id))
    requires id != SensitiveAnnotation
    ensures Classify(vd, allowList) == Success(NotSensitive)
    ensures Report(Classify(vd, allowList)) == []
    ensures VisitOutcome(Classify(vd, allowList)) == Returned(DefaultVisit)
  {
  }

  /** Only the first modifier and the first fragment's initializer are
      inspected: two declarations that agree on them are judged alike. */
  lemma OnlyFirstModifierAndFragmentInspected(a: VariableDeclarationStatement, b: VariableDeclarationStatement, allowList: seq<string>)
    requires |a.modifiers| > 0 <==> |b.modifiers| > 0
    requires |a.modifiers| > 0 ==> a.modifiers[0] == b.modifiers[0]
    requires |a.fragments| > 0 <==> |b.fragments| > 0
    requires |a.fragments| > 0 ==> a.fragments[0].initializer == b.fragments[0].initializer
    ensures Classify(a, allowList) == Classify(b, allowList)
  {
  }

  /** A sensitive declaration with initializer `e`: a non-call or a call to an
      unapproved name is reported once at `e`'s line and stops the descent; a
      call to an approved name is compliant and defers to the default. */
  lemma SensitiveDeclarationJudged(vd: VariableDeclarationStatement, allowList: seq<string>, e: Expression)
    requires IsSensitive(vd)
    requires |vd.fragments| > 0 && vd.fragments[0].initializer == Some(e)
    ensures !e.MethodInvocation? ==> Classify(vd, allowList) == Success(Unencrypted(e.line))
    ensures e.MethodInvocation? && e.methodName !in allowList ==> Classify(vd, allowList) == Success(Unencrypted(e.line))
    ensures e.MethodInvocation? && e.methodName in allowList ==> Classify(vd, allowList) == Success(Compliant)
    ensures !EncryptedBy(e, allowList) ==>
      Report(Classify(vd, allowList)) == [Finding(e.line, UnencryptedMessage, PriorityHigh)] &&
      VisitOutcome(Classify(vd, allowList)) == Returned(false)
    ensures EncryptedBy(e, allowList) ==>
      Report(Classify(vd, allowList)) == [] && VisitOutcome(Classify(vd, allowList)) == Returned(DefaultVisit)
  {
  }

  /** Adding `name` to the allow-list clears exactly the findings for calls to
      `name` and changes no other judgement. */
  lemma RegistryExtension(vd: VariableDeclarationStatement, allowList: seq<string>, name: string)
    ensures
      var before, after := Classify(vd, allowList), Classify(vd, allowList + [name]);
      if before.Success? && before.value.Unencrypted? &&
         FirstInitializer(vd).value.MethodInvocation? && FirstInitializer(vd).value.methodName == name
      then after == Success(Compliant)
      else after == before
  {
  }

  // ---------------------------------------------------------------------
  // The modifier guard

  /** With the guard as written (`mods.size() < 0`), a declaration without
      modifiers such as `int x = 5;` is not skipped: `visit` throws. */
  lemma UnmodifiedDeclarationThrows()
    ensures
      var vd := VariableDeclarationStatement([], [VariableDeclarationFragment("x", Some(OtherExpression(1)))]);
      VisitOutcome(Classify(vd, ValidEncryptionMethods)) == Threw(NoModifier)
  {
  }

  /** How `visit` ends with the guard its comment describes: a declaration
      without modifiers returns false at once, reporting nothing; every other
      declaration is judged as before. */
  function GuardedVisitOutcome(vd: VariableDeclarationStatement, allowList: seq<string>): (o: Outcome)
    ensures o != Threw(NoModifier)
    ensures |vd.modifiers| == 0 ==> o == Returned(false)
    ensures |vd.modifiers| > 0 ==> o == VisitOutcome(Classify(vd, allowList))
  {
    if |vd.modifiers| == 0 then Returned(false) else VisitOutcome(Classify(vd, allowList))
  }

  /** With the guard corrected, no declaration throws for lack of modifiers
      and none without modifiers is reported; the two guards differ on
      exactly the declarations without modifiers. */
  lemma GuardedVisitSkipsUnmodified(vd: VariableDeclarationStatement, allowList: seq<string>)
    ensures GuardedVisitOutcome(vd, allowList).Threw? ==> GuardedVisitOutcome(vd, allowList).fault != NoModifier
    ensures |vd.modifiers| == 0 ==> Report(Classify(vd, allowList)) == [] && GuardedVisitOutcome(vd, allowList) == Returned(false)
    ensures GuardedVisitOutcome(vd, allowList) != VisitOutcome(Classify(vd, allowList)) <==> |vd.modifiers| == 0
  {
  }
}

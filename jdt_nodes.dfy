/** The shapes of the Eclipse JDT syntax-tree nodes that the declaration rule
    looks at, as closed datatypes. Each variant stands for one concrete node
    class, so a test of a node's exact runtime class becomes a variant test. */
module JdtNodes {

  datatype Option<T> = None | Some(value: T)

  /** A type name as written after `@`: `sensitive` or `a.b.sensitive`. */
  datatype Name =
    | SimpleName(identifier: string)
    | QualifiedName(qualifier: Name, identifier: string)

  /** An initializer expression, tagged by its exact node class. `line` is the
      source line of the expression's start position as the compilation unit
      maps it; JDT answers a negative number when it cannot tell. */
  datatype Expression =
      /** `encrypt(raw)` or `box.encrypt(raw)`: the callee is always a simple name. */
    | MethodInvocation(methodName: string, line: int)
      /** `super.encrypt(raw)`: a node class of its own, not a MethodInvocation. */
    | SuperMethodInvocation(methodName: string, line: int)
    | NameReference(name: Name, line: int)
    | StringLiteral(literal: string, line: int)
      /** Every other expression class: operators, `new`, casts, conditionals, ... */
    | OtherExpression(line: int)

  /** An element of a declaration's modifier list: a keyword such as `final`,
      or an annotation (`@sensitive`, `@sensitive("pii")`, `@a.sensitive`). */
  datatype ExtendedModifier =
    | Keyword(keyword: string)
    | Annotation(typeName: Name)

  /** One bound name of a declaration, with its initializer if it has one. */
  datatype VariableDeclarationFragment =
    VariableDeclarationFragment(name: string, initializer: Option<Expression>)

  /** A local-variable declaration statement such as `@sensitive String s = encrypt(raw), t;`. */
  datatype VariableDeclarationStatement =
    VariableDeclarationStatement(modifiers: seq<ExtendedModifier>, fragments: seq<VariableDeclarationFragment>)

  /** The compilation unit a visitor reports against. Only its identity is
      modelled: parsing and the position-to-line map are not. */
  datatype CompilationUnit = CompilationUnit(path: string)
}

/**
  Abstract view of the Java syntax tree as the HiddenField check sees it.
  The tree itself is not modelled: each node the check is told about
  arrives as a record carrying exactly the facts the check asks of it.
*/
module Syntax {
  import opened Base

  /** Whether a MODIFIERS subtree of a type or a field contains `static`. */
  datatype Mods = Mods(hasStatic: bool)

  /** The construct kinds the check distinguishes when it walks upwards. */
  datatype NodeKind = MethodDef | CtorDef | StaticInit | OtherNode

  /** One enclosing node of a declaration, with whether its modifiers contain `static`. */
  datatype Ancestor = Ancestor(kind: NodeKind, hasStatic: bool)

  /** The two declaration tokens the check visits. */
  datatype DeclKind = VariableDef | ParameterDef

  /**
    A VARIABLE_DEF or PARAMETER_DEF node.
    - `ancestors` lists the enclosing nodes, nearest (the parent) first.
    - `parentChildCount` is the number of children of the parent node
      (for a method parameter, of the parameter list).
    - `ownerKind`, `methodName`, `returnsVoid`, `returnType` and
      `ownerAbstract` describe the parent's parent: its kind, its identifier,
      whether its TYPE subtree contains `void`, the text of the TYPE's first
      child, and whether its modifiers contain `abstract`.
  */
  datatype Declaration = Declaration(
    name: string,
    kind: DeclKind,
    inInterfaceOrAnnotation: bool,
    isLocal: bool,
    ancestors: seq<Ancestor>,
    parentChildCount: nat,
    ownerKind: NodeKind,
    methodName: string,
    returnsVoid: bool,
    returnType: string,
    ownerAbstract: bool)

  /** A direct child of a type body: a field declaration or anything else. */
  datatype BodyChild = FieldChild(name: string, mods: Mods) | OtherChild

  /** The three type tokens that open a field frame. */
  datatype TypeKind = ClassDef | EnumDef | EnumConstantDef

  /**
    A CLASS_DEF, ENUM_DEF or ENUM_CONSTANT_DEF node: its own MODIFIERS child
    (absent for enum constants), its identifier, and the children of its
    OBJBLOCK (absent for an enum constant without a body).
  */
  datatype TypeNode = TypeNode(kind: TypeKind, mods: Option<Mods>, name: string, body: Option<seq<BodyChild>>)

  /** Every token kind the check is registered for. */
  datatype Token = TypeToken(typeKind: TypeKind) | DeclToken(declKind: DeclKind)

  /** Depth-first traversal callbacks: visiting a type, visiting a declaration, leaving a token. */
  datatype Event = Enter(node: TypeNode) | Visit(decl: Declaration) | Leave(token: Token)

  /**
    The check's properties. `ignoreFormat` is the compiled ignore pattern as an
    opaque "finds a match in" predicate; None when no pattern was configured.
  */
  datatype Config = Config(
    ignoreFormat: Option<string -> bool>,
    ignoreSetter: bool,
    setterCanReturnItsClass: bool,
    ignoreConstructorParameter: bool,
    ignoreAbstractMethods: bool)

  /** The configuration a freshly created check has: no pattern and every flag off. */
  const DefaultConfig := Config(None, false, false, false, false)

  /**
    The ways the check aborts on a null reference: no current frame
    (the root frame was popped), or no remembered class name when a
    chain setter is compared with it.
  */
  datatype Fault = NullCurrentFrame | NullClassName
}

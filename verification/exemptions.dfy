/**
  The exemption layer: the ignore pattern and the three predicates that
  suppress an otherwise detected shadow (setter parameter, constructor
  parameter, parameter of an abstract method).
*/
module Exemptions {
  import opened Base
  import opened Syntax
  import opened Naming

  /** The configured ignore pattern finds a match in the name; false when none is configured. */
  predicate PatternMatches(cfg: Config, name: string)
    ensures cfg.ignoreFormat.None? ==> !PatternMatches(cfg, name)
    ensures cfg.ignoreFormat.Some? ==> (PatternMatches(cfg, name) <==> cfg.ignoreFormat.value(name))
  {
    cfg.ignoreFormat.Some? && cfg.ignoreFormat.value(name)
  }

  /** The method name a setter for property `name` must have. */
  function SetterName(name: string): (m: string)
    ensures |m| == |name| + 3
    ensures m[..3] == "set"
    ensures forall k :: 1 <= k < |name| ==> m[k + 3] == name[k]
    ensures |name| > 1 && IsUpperCase(name[1]) ==> m == "set" + name
    ensures |name| > 0 && !(|name| > 1 && IsUpperCase(name[1])) ==> m[3] == ToUpperCase(name[0])
  {
    "set" + Capitalize(name)
  }

  /** A parameter shaped like a setter's: the only child of its list, owned by a METHOD_DEF named set<Name>. */
  predicate SetterShaped(d: Declaration)
  {
    && d.kind == ParameterDef
    && d.parentChildCount == 1
    && d.ownerKind == MethodDef
    && d.methodName == SetterName(d.name)
  }

  /**
    isIgnoredSetterParam. A setter parameter is ignored when `ignoreSetter` is on
    and its method returns void, or, with `setterCanReturnItsClass` also on,
    returns the remembered class name; comparing with a class name that was
    never set is a null dereference.
  */
  function IsIgnoredSetterParam(cfg: Config, d: Declaration, className: Option<string>): (r: Result<bool, Fault>)
    ensures r == Ok(true) <==>
              && cfg.ignoreSetter && SetterShaped(d)
              && (d.returnsVoid || (cfg.setterCanReturnItsClass && className == Some(d.returnType)))
    ensures r.Err? <==>
              && cfg.ignoreSetter && SetterShaped(d)
              && !d.returnsVoid && cfg.setterCanReturnItsClass && className == None
    ensures r.Err? ==> r.error == NullClassName
  {
    if d.kind != ParameterDef || !cfg.ignoreSetter then Ok(false)
    else if d.parentChildCount != 1 then Ok(false)
    else if d.ownerKind != MethodDef then Ok(false)
    else if d.methodName != SetterName(d.name) then Ok(false)
    else if d.returnsVoid then Ok(true)
    else if !cfg.setterCanReturnItsClass then Ok(false)
    else if className.None? then Err(NullClassName)
    else Ok(className.value == d.returnType)
  }

  /** isIgnoredConstructorParam: the flag is on and the parameter belongs to a constructor. */
  predicate IsIgnoredConstructorParam(cfg: Config, d: Declaration)
    ensures IsIgnoredConstructorParam(cfg, d) ==> d.kind == ParameterDef && d.ownerKind == CtorDef
    ensures d.kind == ParameterDef && d.ownerKind == CtorDef ==> (IsIgnoredConstructorParam(cfg, d) <==> cfg.ignoreConstructorParameter)
  {
    d.kind == ParameterDef && cfg.ignoreConstructorParameter && d.ownerKind == CtorDef
  }

  /** isIgnoredParamOfAbstractMethod: the flag is on and the parameter belongs to an abstract method. */
  predicate IsIgnoredParamOfAbstractMethod(cfg: Config, d: Declaration)
    ensures IsIgnoredParamOfAbstractMethod(cfg, d) ==> d.kind == ParameterDef && d.ownerKind == MethodDef && d.ownerAbstract
    ensures d.kind == ParameterDef && d.ownerKind == MethodDef && d.ownerAbstract ==>
              (IsIgnoredParamOfAbstractMethod(cfg, d) <==> cfg.ignoreAbstractMethods)
  {
    d.kind == ParameterDef && cfg.ignoreAbstractMethods && d.ownerKind == MethodDef && d.ownerAbstract
  }

  /** Some exemption predicate holds. */
  predicate Exempt(cfg: Config, d: Declaration, className: Option<string>)
  {
    || IsIgnoredSetterParam(cfg, d, className) == Ok(true)
    || IsIgnoredConstructorParam(cfg, d)
    || IsIgnoredParamOfAbstractMethod(cfg, d)
  }

  /** Local variables are never exempted by the parameter predicates, and neither is anything when every flag is off. */
  lemma ExemptionsNeedParametersAndFlags(cfg: Config, d: Declaration, className: Option<string>)
    requires d.kind == VariableDef || (!cfg.ignoreSetter && !cfg.ignoreConstructorParameter && !cfg.ignoreAbstractMethods)
    ensures IsIgnoredSetterParam(cfg, d, className) == Ok(false)
    ensures !Exempt(cfg, d, className)
  {
  }

  /**
    A constructor parameter is never a setter or abstract-method parameter, so the
    constructor exemption never overlaps the other two.
  */
  lemma ConstructorExemptionExclusive(cfg: Config, d: Declaration, className: Option<string>)
    requires IsIgnoredConstructorParam(cfg, d)
    ensures IsIgnoredSetterParam(cfg, d, className) == Ok(false)
    ensures !IsIgnoredParamOfAbstractMethod(cfg, d)
  {
  }

  /**
    An exempted setter parameter's method name is `set` followed by the parameter
    name, with at most the first letter's case changed.
  */
  lemma SetterNameShape(cfg: Config, d: Declaration, className: Option<string>)
    requires IsIgnoredSetterParam(cfg, d, className) == Ok(true)
    ensures d.methodName[..3] == "set"
    ensures |d.methodName| == |d.name| + 3
    ensures |d.name| > 0 ==> d.methodName[4..] == d.name[1..]
    ensures |d.name| > 0 ==> d.methodName[3] == d.name[0] || d.methodName[3] == ToUpperCase(d.name[0])
  {
  }

  /** Two parameters exempted as setters of the same method have names that agree after the first letter. */
  lemma SetterNameDeterminesProperty(cfg: Config, d: Declaration, e: Declaration, className: Option<string>)
    requires IsIgnoredSetterParam(cfg, d, className) == Ok(true)
    requires IsIgnoredSetterParam(cfg, e, className) == Ok(true)
    requires d.methodName == e.methodName
    ensures |d.name| == |e.name|
    ensures |d.name| > 0 ==> d.name[1..] == e.name[1..]
  {
  }

  /** Every flag of `a` that is on is also on in `b`. */
  predicate FlagsWithin(a: Config, b: Config)
  {
    && (a.ignoreSetter ==> b.ignoreSetter)
    && (a.setterCanReturnItsClass ==> b.setterCanReturnItsClass)
    && (a.ignoreConstructorParameter ==> b.ignoreConstructorParameter)
    && (a.ignoreAbstractMethods ==> b.ignoreAbstractMethods)
  }

  /**
    Turning more exemption flags on only exempts more: a declaration exempted
    under `a` stays exempted under `b`.
  */
  lemma ExemptionMonotone(a: Config, b: Config, d: Declaration, className: Option<string>)
    requires FlagsWithin(a, b)
    requires Exempt(a, d, className)
    ensures Exempt(b, d, className)
  {
  }
}

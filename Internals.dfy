/**
 * Model of typed_python/internals.py: how a Python function's argument spec
 * becomes a typed function signature, how a class body is recorded and sorted
 * into members, methods, static methods, properties and plain attributes, how
 * subclass checks answer, and the positional-count queries of a function
 * overload.
 *
 * Python types and values are identities only; just the types named in the
 * magic-method table are told apart.  `inspect.getfullargspec` is replaced by
 * its result, an `ArgSpec`, and the C++ `_types.Function`/`_types.Class`
 * constructors by the records they are given.
 */
module Internals {
  import opened Wrappers

  /** A Python type object. */
  datatype PyType = NoneType | StrType | BoolType | BytesType | FloatType | IntType | ObjectType | OtherType(id: nat)

  /** A Python value, known only by its identity. */
  datatype PyValue = PyValue(id: nat)

  /** An entry of `__annotations__`: the literal `None` or a type. */
  datatype Annotation = NoneAnnotation | TypeAnnotation(t: PyType)

  /** The parts of `inspect.getfullargspec(f)` that are read. */
  datatype ArgSpec = ArgSpec(
    args: seq<string>,
    varargs: Option<string>,
    varkw: Option<string>,
    defaults: Option<seq<PyValue>>,
    kwonlyargs: seq<string>,
    annotations: map<string, Annotation>)

  /**
   * One argument of an overload: its name, its default (Python's one-element
   * tuple, or None), its type filter, and whether it is `*args` or `**kwargs`.
   */
  datatype FunctionOverloadArg = FunctionOverloadArg(
    name: string,
    defaultValue: Option<PyValue>,
    typeFilter: Option<PyType>,
    isStarArg: bool,
    isKwarg: bool)

  /** One overload of a typed function. */
  datatype Overload = Overload(name: string, qualname: string, returnType: Option<PyType>, args: seq<FunctionOverloadArg>)

  /** A typed_python `Function` type: its overloads, in order. */
  datatype FunctionType = FunctionType(overloads: seq<Overload>)

  /** What `makeFunctionType` is given: a plain Python function, or something already typed. */
  datatype Callable = PlainFunction(spec: ArgSpec) | TypedFunction(ft: FunctionType)

  /** The exceptions the modelled code raises. */
  datatype Error =
    | MagicReturnMismatch(methodName: string, expected: PyType)
    | KeywordOnlyArgs
    // `type.__new__` hands class keywords to `object.__init_subclass__`, which takes none (a TypeError)
    | UnexpectedClassKeyword

  /** The return types the magic methods of a class must have. */
  const MagicMethodTypes: seq<(string, PyType)> := [
    ("__init__", NoneType),
    ("__repr__", StrType),
    ("__str__", StrType),
    ("__bool__", BoolType),
    ("__bytes__", BytesType),
    ("__contains__", BoolType),
    ("__float__", FloatType),
    ("__int__", IntType),
    ("__len__", IntType),
    ("__lt__", BoolType),
    ("__gt__", BoolType),
    ("__le__", BoolType),
    ("__ge__", BoolType),
    ("__eq__", BoolType),
    ("__ne__", BoolType),
    ("__hash__", IntType),
    ("__setattr__", NoneType),
    ("__delattr__", NoneType),
    ("__setitem__", NoneType),
    ("__delitem__", NoneType)
  ]

  /** The return type a magic method must have, or None for any other name. */
  function MagicReturnType(name: string): Option<PyType> {
    Lookup(MagicMethodTypes, name)
  }

  // ---------------------------------------------------------------------------
  // ClassMetaNamespace

  /** What a class body binds a name to, classified as the class construction needs it. */
  datatype NamespaceValue =
    | MemberDecl(memberType: PyType, memberDefault: Option<PyValue>)
    | PropertyDecl(getter: Callable)
    | StaticMethodDecl(staticFunc: Callable)
    | FunctionDecl(func: Callable)
    | PlainValue(value: PyValue)

  /** The mapping a sequence of assignments leaves behind: each name bound to its last value. */
  function LatestValues(order: seq<(string, NamespaceValue)>): map<string, NamespaceValue> {
    if order == [] then map[]
    else LatestValues(order[..|order| - 1])[order[|order| - 1].0 := order[|order| - 1].1]
  }

  /** A name is bound iff it was assigned, and then to the value of its last assignment. */
  lemma {:induction false} LatestValuesMeaning(order: seq<(string, NamespaceValue)>, k: string)
    ensures k in LatestValues(order) <==> exists i :: 0 <= i < |order| && order[i].0 == k
    ensures forall i :: 0 <= i < |order| && order[i].0 == k && (forall j :: i < j < |order| ==> order[j].0 != k) ==>
      k in LatestValues(order) && LatestValues(order)[k] == order[i].1
  {
    LatestValuesKeys(order, k);
    forall i | 0 <= i < |order| && order[i].0 == k && (forall j :: i < j < |order| ==> order[j].0 != k)
      ensures k in LatestValues(order) && LatestValues(order)[k] == order[i].1
    {
      LatestValuesLast(order, i);
    }
  }

  lemma {:induction false} LatestValuesKeys(order: seq<(string, NamespaceValue)>, k: string)
    ensures k in LatestValues(order) <==> exists i :: 0 <= i < |order| && order[i].0 == k
  {
    if order != [] {
      var n := |order| - 1;
      var front := order[..n];
      LatestValuesKeys(front, k);
      if order[n].0 != k {
        if exists i :: 0 <= i < |order| && order[i].0 == k {
          var i :| 0 <= i < |order| && order[i].0 == k;
          assert front[i].0 == k;
        }
        if exists i :: 0 <= i < |front| && front[i].0 == k {
          var i :| 0 <= i < |front| && front[i].0 == k;
          assert order[i].0 == k;
        }
      } else {
        assert order[n].0 == k;
      }
    }
  }

  lemma {:induction false} LatestValuesLast(order: seq<(string, NamespaceValue)>, i: nat)
    requires i < |order| && forall j :: i < j < |order| ==> order[j].0 != order[i].0
    ensures order[i].0 in LatestValues(order) && LatestValues(order)[order[i].0] == order[i].1
  {
    var n := |order| - 1;
    if i < n {
      var front := order[..n];
      assert front[i] == order[i];
      LatestValuesLast(front, i);
    }
  }

  /** The namespace a class body is executed in: it remembers every assignment, in order. */
  class ClassMetaNamespace {
    var ns: map<string, NamespaceValue>
    var order: seq<(string, NamespaceValue)>

    ghost predicate Valid()
      reads this
    {
      ns == LatestValues(order)
    }

    constructor ()
      ensures Valid() && ns == map[] && order == []
    {
      ns := map[];
      order := [];
    }

    /** `ns[k] = v` and one more `(k, v)` at the end of `order`, repeats included. */
    method SetItem(k: string, v: NamespaceValue)
      requires Valid()
      modifies this
      ensures Valid()
      ensures order == old(order) + [(k, v)]
      ensures ns == old(ns)[k := v]
    {
      ns := ns[k := v];
      order := order + [(k, v)];
      assert order[..|order| - 1] == old(order);
    }

    /** `namespace[k]`: the last value assigned to `k`, or None (a KeyError) when `k` was never assigned. */
    function GetItem(k: string): (r: Option<NamespaceValue>)
      requires Valid()
      reads this
      ensures r.None? <==> forall i :: 0 <= i < |order| ==> order[i].0 != k
      ensures forall i :: 0 <= i < |order| && order[i].0 == k && (forall j :: i < j < |order| ==> order[j].0 != k) ==>
        r == Some(order[i].1)
    {
      LatestValuesMeaning(order, k);
      if k in ns then Some(ns[k]) else None
    }

    /** `namespace.get(k, default)`. */
    function Get(k: string, default: NamespaceValue): (v: NamespaceValue)
      requires Valid()
      reads this
      ensures (forall i :: 0 <= i < |order| ==> order[i].0 != k) ==> v == default
      ensures forall i :: 0 <= i < |order| && order[i].0 == k && (forall j :: i < j < |order| ==> order[j].0 != k) ==>
        v == order[i].1
    {
      LatestValuesMeaning(order, k);
      if k in ns then ns[k] else default
    }
  }

  // ---------------------------------------------------------------------------
  // makeFunctionType

  /** The type an annotation denotes: the literal `None` stands for NoneType. */
  function AnnotationType(a: Annotation): PyType {
    match a
    case NoneAnnotation => NoneType
    case TypeAnnotation(t) => t
  }

  /** `getAnn(argname)`: the annotated type, or None when unannotated or annotations are ignored. */
  function GetAnn(spec: ArgSpec, ignoreAnnotations: bool, argname: string): (t: Option<PyType>)
    ensures t.None? <==> ignoreAnnotations || argname !in spec.annotations
    ensures t.Some? && spec.annotations[argname] == NoneAnnotation ==> t.value == NoneType
    ensures t.Some? && spec.annotations[argname].TypeAnnotation? ==> t.value == spec.annotations[argname].t
  {
    if ignoreAnnotations || argname !in spec.annotations then None
    else Some(AnnotationType(spec.annotations[argname]))
  }

  /** `getDefault(idx)`: defaults line up with the last positional arguments. */
  function GetDefault(spec: ArgSpec, idx: nat): (d: Option<PyValue>)
    requires idx < |spec.args|
    ensures d.Some? <==> spec.defaults.Some? && idx >= |spec.args| - |spec.defaults.value|
    ensures d.Some? ==> d.value == spec.defaults.value[idx + |spec.defaults.value| - |spec.args|]
  {
    match spec.defaults
    case None => None
    case Some(defaults) =>
      if idx >= |spec.args| - |defaults| then Some(defaults[idx - (|spec.args| - |defaults|)]) else None
  }

  /** The descriptor of the `i`-th positional argument. */
  function PositionalArg(spec: ArgSpec, ignoreAnnotations: bool, i: nat): FunctionOverloadArg
    requires i < |spec.args|
  {
    FunctionOverloadArg(spec.args[i], GetDefault(spec, i), GetAnn(spec, ignoreAnnotations, spec.args[i]), false, false)
  }

  /** The argument list `makeFunctionType` builds for a plain function. */
  function ArgList(spec: ArgSpec, ignoreAnnotations: bool): seq<FunctionOverloadArg> {
    seq(|spec.args|, i requires 0 <= i < |spec.args| => PositionalArg(spec, ignoreAnnotations, i)) +
    (match spec.varargs
     case Some(v) => [FunctionOverloadArg(v, None, GetAnn(spec, ignoreAnnotations, v), true, false)]
     case None => []) +
    (match spec.varkw
     case Some(v) => [FunctionOverloadArg(v, None, GetAnn(spec, ignoreAnnotations, v), false, true)]
     case None => [])
  }

  /**
   * The full argument list: one entry per positional argument (default and
   * annotation attached, no flags), then `*args` flagged as star argument, then
   * `**kwargs` flagged as keyword argument.
   */
  lemma ArgListShape(spec: ArgSpec, ignoreAnnotations: bool)
    ensures var r := ArgList(spec, ignoreAnnotations);
      var n := |spec.args|;
      && |r| == n + (if spec.varargs.Some? then 1 else 0) + (if spec.varkw.Some? then 1 else 0)
      && (forall i :: 0 <= i < n ==>
            && r[i].name == spec.args[i]
            && r[i].defaultValue == GetDefault(spec, i)
            && r[i].typeFilter == GetAnn(spec, ignoreAnnotations, spec.args[i])
            && !r[i].isStarArg && !r[i].isKwarg)
      && (spec.varargs.Some? ==>
            r[n] == FunctionOverloadArg(spec.varargs.value, None, GetAnn(spec, ignoreAnnotations, spec.varargs.value), true, false))
      && (spec.varkw.Some? ==>
            r[|r| - 1] == FunctionOverloadArg(spec.varkw.value, None, GetAnn(spec, ignoreAnnotations, spec.varkw.value), false, true))
      && (forall i :: 0 <= i < |r| && r[i].isStarArg ==> i == n)
      && (forall i :: 0 <= i < |r| && r[i].isKwarg ==> i == |r| - 1)
  {
  }

  /** The declared return type, or None when undeclared or annotations are ignored. */
  function DeclaredReturn(spec: ArgSpec, ignoreAnnotations: bool): Option<PyType> {
    if "return" in spec.annotations && !ignoreAnnotations then Some(AnnotationType(spec.annotations["return"])) else None
  }

  /** The return type after the magic-method check and the override. */
  function ReturnTypeOf(name: string, spec: ArgSpec, classname: Option<string>, ignoreAnnotations: bool,
                        returnTypeOverride: Option<PyType>): (r: Result<Option<PyType>, Error>)
    ensures r.Err? <==> classname.Some? && MagicReturnType(name).Some? &&
                        DeclaredReturn(spec, ignoreAnnotations).Some? &&
                        DeclaredReturn(spec, ignoreAnnotations).value != MagicReturnType(name).value
    ensures r.Err? ==> r.error == MagicReturnMismatch(name, MagicReturnType(name).value)
    ensures r.Ok? && returnTypeOverride.Some? ==> r.value == returnTypeOverride
    ensures r.Ok? && returnTypeOverride.None? && classname.Some? && MagicReturnType(name).Some? ==>
      r.value == MagicReturnType(name)
    ensures r.Ok? && returnTypeOverride.None? && !(classname.Some? && MagicReturnType(name).Some?) ==>
      r.value == DeclaredReturn(spec, ignoreAnnotations)
  {
    var declared := DeclaredReturn(spec, ignoreAnnotations);
    var checked :=
      var magic := MagicReturnType(name);
      if classname.Some? && magic.Some? then
        if declared.None? then Ok(magic)
        else if declared.value != magic.value then Err(MagicReturnMismatch(name, magic.value))
        else Ok(declared)
      else Ok(declared);
    if checked.Ok? && returnTypeOverride.Some? then Ok(returnTypeOverride) else checked
  }

  /** `classname + "." + name` for a method, `name` otherwise. */
  function QualName(name: string, classname: Option<string>): string {
    match classname
    case Some(c) => c + "." + name
    case None => name
  }

  /**
   * The function type `makeFunctionType` produces, or the exception it raises:
   * a typed function is returned unchanged; a plain one becomes a single
   * overload, unless it has keyword-only arguments or a magic method declares
   * the wrong return type.
   */
  function FunctionTypeOf(name: string, f: Callable, classname: Option<string>, ignoreAnnotations: bool,
                          returnTypeOverride: Option<PyType>): (r: Result<FunctionType, Error>)
    ensures f.TypedFunction? ==> r == Ok(f.ft)
    ensures f.PlainFunction? ==>
      (r.Err? <==> |f.spec.kwonlyargs| > 0 || ReturnTypeOf(name, f.spec, classname, ignoreAnnotations, returnTypeOverride).Err?)
    ensures f.PlainFunction? && r.Ok? ==>
      && |r.value.overloads| == 1
      && r.value.overloads[0].name == name
      && r.value.overloads[0].qualname == QualName(name, classname)
      && r.value.overloads[0].args == ArgList(f.spec, ignoreAnnotations)
      && r.value.overloads[0].returnType == ReturnTypeOf(name, f.spec, classname, ignoreAnnotations, returnTypeOverride).value
  {
    match f
    case TypedFunction(ft) => Ok(ft)
    case PlainFunction(spec) =>
      match ReturnTypeOf(name, spec, classname, ignoreAnnotations, returnTypeOverride)
      case Err(e) => Err(e)
      case Ok(rt) =>
        if |spec.kwonlyargs| > 0 then Err(KeywordOnlyArgs)
        else Ok(FunctionType([Overload(name, QualName(name, classname), rt, ArgList(spec, ignoreAnnotations))]))
  }

  /**
   * `makeFunctionType(name, f, classname, ignoreAnnotations, returnTypeOverride)`.
   * The closure-rebuilding path for typed functions with non-global closures
   * is not modelled: a typed function comes back as it is.
   */
  method MakeFunctionType(name: string, f: Callable, classname: Option<string>, ignoreAnnotations: bool,
                          returnTypeOverride: Option<PyType>) returns (r: Result<FunctionType, Error>)
    ensures r == FunctionTypeOf(name, f, classname, ignoreAnnotations, returnTypeOverride)
  {
    if f.TypedFunction? {
      return Ok(f.ft);
    }
    var spec := f.spec;
    var argTypes: seq<FunctionOverloadArg> := [];
    var i := 0;
    while i < |spec.args|
      invariant 0 <= i <= |spec.args|
      invariant argTypes == seq(i, j requires 0 <= j < i => PositionalArg(spec, ignoreAnnotations, j))
    {
      var default := GetDefault(spec, i);
      argTypes := argTypes + [FunctionOverloadArg(spec.args[i], default, GetAnn(spec, ignoreAnnotations, spec.args[i]), false, false)];
      i := i + 1;
    }
    ghost var positional := argTypes;
    assert positional == seq(|spec.args|, j requires 0 <= j < |spec.args| => PositionalArg(spec, ignoreAnnotations, j));

    var returnType: Option<PyType> := None;
    if "return" in spec.annotations && !ignoreAnnotations {
      returnType := Some(AnnotationType(spec.annotations["return"]));
    }
    var magic := MagicReturnType(name);
    if classname.Some? && magic.Some? {
      var tgtType := magic.value;
      if returnType.None? {
        returnType := Some(tgtType);
      } else if returnType.value != tgtType {
        assert ReturnTypeOf(name, spec, classname, ignoreAnnotations, returnTypeOverride) == Err(MagicReturnMismatch(name, tgtType));
        return Err(MagicReturnMismatch(name, tgtType));
      }
    }
    if returnTypeOverride.Some? {
      returnType := returnTypeOverride;
    }
    assert ReturnTypeOf(name, spec, classname, ignoreAnnotations, returnTypeOverride) == Ok(returnType);
    if spec.varargs.Some? {
      argTypes := argTypes + [FunctionOverloadArg(spec.varargs.value, None, GetAnn(spec, ignoreAnnotations, spec.varargs.value), true, false)];
    }
    if |spec.kwonlyargs| > 0 {
      return Err(KeywordOnlyArgs);
    }
    if spec.varkw.Some? {
      argTypes := argTypes + [FunctionOverloadArg(spec.varkw.value, None, GetAnn(spec, ignoreAnnotations, spec.varkw.value), false, true)];
    }
    var qualname := if classname.Some? then classname.value + "." + name else name;
    assert argTypes == positional +
      (if spec.varargs.Some? then [FunctionOverloadArg(spec.varargs.value, None, GetAnn(spec, ignoreAnnotations, spec.varargs.value), true, false)] else []) +
      (if spec.varkw.Some? then [FunctionOverloadArg(spec.varkw.value, None, GetAnn(spec, ignoreAnnotations, spec.varkw.value), false, true)] else []);
    assert argTypes == ArgList(spec, ignoreAnnotations);
    return Ok(FunctionType([Overload(name, qualname, returnType, argTypes)]));
  }

  // ---------------------------------------------------------------------------
  // ClassMetaclass.__new__

  /** A base class as the class construction sees it. */
  datatype BaseClass = ClassRoot | FinalMixin | OtherBase(id: nat)

  /** The bases recorded for a class: `Class` and `Final` are dropped, the rest kept in order. */
  function RecordedBases(bases: seq<BaseClass>): (kept: seq<BaseClass>)
    ensures forall b :: b in kept <==> b in bases && b != ClassRoot && b != FinalMixin
    ensures |kept| <= |bases|
    ensures |bases| == 1 ==> kept == if bases[0] == ClassRoot || bases[0] == FinalMixin then [] else bases
  {
    if bases == [] then []
    else
      var rest := RecordedBases(bases[1..]);
      if bases[0] == ClassRoot || bases[0] == FinalMixin then rest else [bases[0]] + rest
  }

  /**
   * Filtering the bases distributes over concatenation; with the one-base case
   * above, this fixes the order and the repeats of what is kept: every base
   * that is neither `Class` nor `Final` stays, once per occurrence, in place.
   */
  lemma {:induction false} RecordedBasesAppend(a: seq<BaseClass>, b: seq<BaseClass>)
    ensures RecordedBases(a + b) == RecordedBases(a) + RecordedBases(b)
    decreases |a|
  {
    if a == [] {
      assert a + b == b;
    } else {
      assert (a + b)[0] == a[0] && (a + b)[1..] == a[1..] + b;
      RecordedBasesAppend(a[1..], b);
      assert [a[0]] + (RecordedBases(a[1..]) + RecordedBases(b)) == [a[0]] + RecordedBases(a[1..]) + RecordedBases(b);
    }
  }

  /** The value bound to `k` in an insertion-ordered dictionary (its first entry for `k`). */
  function Lookup<T>(d: seq<(string, T)>, k: string): Option<T> {
    if d == [] then None else if d[0].0 == k then Some(d[0].1) else Lookup(d[1..], k)
  }

  /** `d[k] = v` on an insertion-ordered dictionary: replaced in place, or appended when new. */
  function Assign<T>(d: seq<(string, T)>, k: string, v: T): (r: seq<(string, T)>)
    ensures Lookup(r, k) == Some(v)
    ensures forall k' :: k' != k ==> Lookup(r, k') == Lookup(d, k')
    ensures |r| == if Lookup(d, k).Some? then |d| else |d| + 1
  {
    if d == [] then [(k, v)]
    else if d[0].0 == k then [(k, v)] + d[1..]
    else [d[0]] + Assign(d[1..], k, v)
  }

  /** Adds a function to a dictionary of overload sets: a new name starts a set, a repeated one extends it. */
  function AddOverloads(d: seq<(string, FunctionType)>, k: string, ft: FunctionType): (r: seq<(string, FunctionType)>)
    ensures Lookup(r, k) == Some(FunctionType(Collected(Lookup(d, k)) + ft.overloads))
    ensures forall k' :: k' != k ==> Lookup(r, k') == Lookup(d, k')
  {
    match Lookup(d, k)
    case None =>
      assert [] + ft.overloads == ft.overloads;
      Assign(d, k, ft)
    case Some(prev) => Assign(d, k, FunctionType(prev.overloads + ft.overloads))
  }

  /** What a class body contributes, in the order the class construction collects it. */
  datatype ClassBody = ClassBody(
    members: seq<(string, PyType, Option<PyValue>)>,
    memberFunctions: seq<(string, FunctionType)>,
    staticFunctions: seq<(string, FunctionType)>,
    properties: seq<(string, FunctionType)>,
    classMembers: seq<(string, NamespaceValue)>)

  const EmptyBody: ClassBody := ClassBody([], [], [], [], [])

  /** One namespace entry sorted into the body. */
  function Step(className: string, body: ClassBody, eltName: string, elt: NamespaceValue): Result<ClassBody, Error> {
    match elt
    case MemberDecl(t, d) =>
      Ok(body.(members := body.members + [(eltName, t, d)], classMembers := body.classMembers + [(eltName, elt)]))
    case PropertyDecl(getter) =>
      (match FunctionTypeOf(eltName, getter, None, false, None)
       case Err(e) => Err(e)
       case Ok(ft) => Ok(body.(properties := Assign(body.properties, eltName, ft))))
    case StaticMethodDecl(func) =>
      (match FunctionTypeOf(eltName, func, None, false, None)
       case Err(e) => Err(e)
       case Ok(ft) => Ok(body.(staticFunctions := AddOverloads(body.staticFunctions, eltName, ft))))
    case FunctionDecl(func) =>
      (match FunctionTypeOf(eltName, func, Some(className), false, None)
       case Err(e) => Err(e)
       case Ok(ft) => Ok(body.(memberFunctions := AddOverloads(body.memberFunctions, eltName, ft))))
    case PlainValue(_) =>
      Ok(body.(classMembers := body.classMembers + [(eltName, elt)] +
                 (if eltName == "__module__" then [("__typed_python_module__", elt)] else [])))
  }

  /** The body built from entries `i..` of the namespace order, starting from `body`. */
  function BuildFrom(className: string, order: seq<(string, NamespaceValue)>, i: nat, body: ClassBody): Result<ClassBody, Error>
    requires i <= |order|
    decreases |order| - i
  {
    if i == |order| then Ok(body)
    else
      match Step(className, body, order[i].0, order[i].1)
      case Err(e) => Err(e)
      case Ok(next) => BuildFrom(className, order, i + 1, next)
  }

  /** The class `ClassMetaclass.__new__` creates. */
  datatype ClassType =
    | PlainPythonClass(name: string, ns: map<string, NamespaceValue>)
    | TypedClass(name: string, bases: seq<BaseClass>, isFinal: bool, body: ClassBody)

  /** The class created from a name, bases, the namespace and an optional `__name__` keyword. */
  function ClassOf(name: string, bases: seq<BaseClass>, order: seq<(string, NamespaceValue)>,
                   ns: map<string, NamespaceValue>, nameOverride: Option<string>): Result<ClassType, Error>
  {
    if bases == [] then
      if nameOverride.Some? then Err(UnexpectedClassKeyword) else Ok(PlainPythonClass(name, ns))
    else
      match BuildFrom(name, order, 0, EmptyBody)
      case Err(e) => Err(e)
      case Ok(body) => Ok(TypedClass(nameOverride.GetOr(name), RecordedBases(bases), FinalMixin in bases, body))
  }

  /** `ClassMetaclass.__new__(cls, name, bases, namespace, **kwds)`, with `kwds["__name__"]` as `nameOverride`. */
  method NewClass(name: string, bases: seq<BaseClass>, namespace: ClassMetaNamespace, nameOverride: Option<string>)
    returns (r: Result<ClassType, Error>)
    ensures r == ClassOf(name, bases, namespace.order, namespace.ns, nameOverride)
  {
    if bases == [] {
      if nameOverride.Some? {
        return Err(UnexpectedClassKeyword);
      }
      return Ok(PlainPythonClass(name, namespace.ns));
    }
    var isFinal := FinalMixin in bases;
    var recorded := RecordedBases(bases);
    var order := namespace.order;
    var body := EmptyBody;
    var i := 0;
    while i < |order|
      invariant 0 <= i <= |order|
      invariant BuildFrom(name, order, i, body) == BuildFrom(name, order, 0, EmptyBody)
    {
      var (eltName, elt) := order[i];
      ghost var before := body;
      match elt {
        case MemberDecl(t, d) =>
          body := body.(members := body.members + [(eltName, t, d)], classMembers := body.classMembers + [(eltName, elt)]);
        case PropertyDecl(getter) =>
          var ft := MakeFunctionType(eltName, getter, None, false, None);
          if ft.Err? {
            return Err(ft.error);
          }
          body := body.(properties := Assign(body.properties, eltName, ft.value));
        case StaticMethodDecl(func) =>
          var ft := MakeFunctionType(eltName, func, None, false, None);
          if ft.Err? {
            return Err(ft.error);
          }
          body := body.(staticFunctions := AddOverloads(body.staticFunctions, eltName, ft.value));
        case FunctionDecl(func) =>
          var ft := MakeFunctionType(eltName, func, Some(name), false, None);
          if ft.Err? {
            return Err(ft.error);
          }
          body := body.(memberFunctions := AddOverloads(body.memberFunctions, eltName, ft.value));
        case PlainValue(_) =>
          body := body.(classMembers := body.classMembers + [(eltName, elt)]);
          if eltName == "__module__" {
            body := body.(classMembers := body.classMembers + [("__typed_python_module__", elt)]);
          } else {
            assert body.classMembers == before.classMembers + [(eltName, elt)] + [];
          }
      }
      assert Step(name, before, eltName, elt) == Ok(body);
      i := i + 1;
    }
    var className := if nameOverride.Some? then nameOverride.value else name;
    return Ok(TypedClass(className, recorded, isFinal, body));
  }

  /** Which dictionary of overload sets a namespace entry goes to. */
  datatype MethodKind = InstanceMethod | StaticMethod

  function Functions(body: ClassBody, kind: MethodKind): seq<(string, FunctionType)> {
    match kind
    case InstanceMethod => body.memberFunctions
    case StaticMethod => body.staticFunctions
  }

  /** The function an entry of the given kind defines, if it is of that kind. */
  function EntryFunction(elt: NamespaceValue, kind: MethodKind): Option<Callable> {
    match (elt, kind)
    case (FunctionDecl(f), InstanceMethod) => Some(f)
    case (StaticMethodDecl(f), StaticMethod) => Some(f)
    case _ => None
  }

  /** Whether some entry from `i` on defines a function of the kind under the name `k`. */
  predicate Defines(order: seq<(string, NamespaceValue)>, i: nat, kind: MethodKind, k: string)
    requires i <= |order|
  {
    exists j :: i <= j < |order| && order[j].0 == k && EntryFunction(order[j].1, kind).Some?
  }

  /**
   * The overloads of all functions of the kind named `k` from entry `i` on,
   * concatenated in namespace order: the overload set the class should end up with.
   */
  function OverloadsNamed(className: string, order: seq<(string, NamespaceValue)>, i: nat, kind: MethodKind, k: string): seq<Overload>
    requires i <= |order|
    decreases |order| - i
  {
    if i == |order| then []
    else EntryOverloads(className, order[i].0, order[i].1, kind, k) + OverloadsNamed(className, order, i + 1, kind, k)
  }

  /** The overloads one namespace entry adds under the name `k`. */
  function EntryOverloads(className: string, eltName: string, elt: NamespaceValue, kind: MethodKind, k: string): seq<Overload> {
    if eltName == k && EntryFunction(elt, kind).Some? then
      match FunctionTypeOf(k, EntryFunction(elt, kind).value,
                           if kind == InstanceMethod then Some(className) else None, false, None)
      case Ok(ft) => ft.overloads
      case Err(_) => []
    else []
  }

  /** One entry extends the overload set under its own name and leaves every other set alone. */
  lemma StepFunctions(className: string, body: ClassBody, eltName: string, elt: NamespaceValue, kind: MethodKind, k: string)
    requires Step(className, body, eltName, elt).Ok?
    ensures var next := Step(className, body, eltName, elt).value;
      Lookup(Functions(next, kind), k) ==
        if eltName == k && EntryFunction(elt, kind).Some?
        then Some(FunctionType(Collected(Lookup(Functions(body, kind), k)) + EntryOverloads(className, eltName, elt, kind, k)))
        else Lookup(Functions(body, kind), k)
  {
  }

  /** The overloads already collected under a name. */
  function Collected(d: Option<FunctionType>): seq<Overload> {
    match d
    case Some(ft) => ft.overloads
    case None => []
  }

  lemma {:induction false} OverloadsMergeFrom(className: string, order: seq<(string, NamespaceValue)>, i: nat,
                                              body: ClassBody, kind: MethodKind, k: string)
    requires i <= |order|
    requires BuildFrom(className, order, i, body).Ok?
    ensures var built := BuildFrom(className, order, i, body).value;
      Lookup(Functions(built, kind), k) ==
        if Defines(order, i, kind, k)
        then Some(FunctionType(Collected(Lookup(Functions(body, kind), k)) + OverloadsNamed(className, order, i, kind, k)))
        else Lookup(Functions(body, kind), k)
    decreases |order| - i
  {
    if i < |order| {
      var (eltName, elt) := order[i];
      var next := Step(className, body, eltName, elt).value;
      OverloadsMergeFrom(className, order, i + 1, next, kind, k);
      StepFunctions(className, body, eltName, elt, kind, k);
      var here := EntryOverloads(className, eltName, elt, kind, k);
      var rest := OverloadsNamed(className, order, i + 1, kind, k);
      assert OverloadsNamed(className, order, i, kind, k) == here + rest;
      var defines := eltName == k && EntryFunction(elt, kind).Some?;
      if defines {
        assert Defines(order, i, kind, k) by { assert order[i].0 == k; }
      } else {
        assert Defines(order, i, kind, k) == Defines(order, i + 1, kind, k);
      }
      if !Defines(order, i + 1, kind, k) {
        NoneNamed(className, order, i + 1, kind, k);
      }
      MergeStep(Lookup(Functions(body, kind), k), Lookup(Functions(next, kind), k),
                Lookup(Functions(BuildFrom(className, order, i, body).value, kind), k),
                here, rest, defines, Defines(order, i + 1, kind, k));
    }
  }

  /** How one entry's overloads and the later entries' overloads combine with what was collected before. */
  lemma MergeStep(prev: Option<FunctionType>, mid: Option<FunctionType>, last: Option<FunctionType>,
                  here: seq<Overload>, rest: seq<Overload>, defines: bool, later: bool)
    requires mid == if defines then Some(FunctionType(Collected(prev) + here)) else prev
    requires last == if later then Some(FunctionType(Collected(mid) + rest)) else mid
    requires !defines ==> here == []
    requires !later ==> rest == []
    ensures last == if defines || later then Some(FunctionType(Collected(prev) + (here + rest))) else prev
  {
    if defines {
      assert Collected(prev) + here + rest == Collected(prev) + (here + rest);
      if !later {
        assert Collected(prev) + here + [] == Collected(prev) + here;
      }
    } else {
      assert here + rest == rest;
    }
  }

  lemma {:induction false} NoneNamed(className: string, order: seq<(string, NamespaceValue)>, i: nat, kind: MethodKind, k: string)
    requires i <= |order| && !Defines(order, i, kind, k)
    ensures OverloadsNamed(className, order, i, kind, k) == []
    decreases |order| - i
  {
    if i < |order| {
      NoneNamed(className, order, i + 1, kind, k);
    }
  }

  /** The `Member` declaration one entry contributes. */
  function EntryMembers(eltName: string, elt: NamespaceValue): seq<(string, PyType, Option<PyValue>)> {
    match elt
    case MemberDecl(t, d) => [(eltName, t, d)]
    case _ => []
  }

  /** The `Member` declarations of entries `i..`, in namespace order. */
  function MembersFrom(order: seq<(string, NamespaceValue)>, i: nat): seq<(string, PyType, Option<PyValue>)>
    requires i <= |order|
    decreases |order| - i
  {
    if i == |order| then [] else EntryMembers(order[i].0, order[i].1) + MembersFrom(order, i + 1)
  }

  /**
   * The class members one entry contributes: a `Member` or a plain value is
   * kept under its name, and `__module__` is repeated as
   * `__typed_python_module__`; functions, static methods and properties add
   * nothing.
   */
  function EntryClassMembers(eltName: string, elt: NamespaceValue): seq<(string, NamespaceValue)> {
    match elt
    case MemberDecl(_, _) => [(eltName, elt)]
    case PlainValue(_) => [(eltName, elt)] + (if eltName == "__module__" then [("__typed_python_module__", elt)] else [])
    case _ => []
  }

  /** The class members of entries `i..`, in namespace order. */
  function ClassMembersFrom(order: seq<(string, NamespaceValue)>, i: nat): seq<(string, NamespaceValue)>
    requires i <= |order|
    decreases |order| - i
  {
    if i == |order| then [] else EntryClassMembers(order[i].0, order[i].1) + ClassMembersFrom(order, i + 1)
  }

  /** The getter of the last property named `k` among entries `i..`. */
  function LastPropertyFrom(order: seq<(string, NamespaceValue)>, i: nat, k: string): Option<Callable>
    requires i <= |order|
    decreases |order| - i
  {
    if i == |order| then None
    else
      var later := LastPropertyFrom(order, i + 1, k);
      if later.Some? then later
      else if order[i].0 == k && order[i].1.PropertyDecl? then Some(order[i].1.getter)
      else None
  }

  /** The function type of a property getter, when it can be built. */
  function PropertyType(k: string, getter: Callable): Option<FunctionType> {
    match FunctionTypeOf(k, getter, None, false, None)
    case Ok(ft) => Some(ft)
    case Err(_) => None
  }

  /** One entry appends its own contributions to the two member lists. */
  lemma StepLists(className: string, body: ClassBody, eltName: string, elt: NamespaceValue)
    requires Step(className, body, eltName, elt).Ok?
    ensures var next := Step(className, body, eltName, elt).value;
      && next.members == body.members + EntryMembers(eltName, elt)
      && next.classMembers == body.classMembers + EntryClassMembers(eltName, elt)
  {
  }

  lemma {:induction false} MembersListFrom(className: string, order: seq<(string, NamespaceValue)>, i: nat, body: ClassBody)
    requires i <= |order|
    requires BuildFrom(className, order, i, body).Ok?
    ensures BuildFrom(className, order, i, body).value.members == body.members + MembersFrom(order, i)
    decreases |order| - i
  {
    if i < |order| {
      var next := Step(className, body, order[i].0, order[i].1).value;
      MembersListFrom(className, order, i + 1, next);
      StepLists(className, body, order[i].0, order[i].1);
      assert body.members + EntryMembers(order[i].0, order[i].1) + MembersFrom(order, i + 1) ==
             body.members + MembersFrom(order, i);
    }
  }

  lemma {:induction false} ClassMembersListFrom(className: string, order: seq<(string, NamespaceValue)>, i: nat, body: ClassBody)
    requires i <= |order|
    requires BuildFrom(className, order, i, body).Ok?
    ensures BuildFrom(className, order, i, body).value.classMembers == body.classMembers + ClassMembersFrom(order, i)
    decreases |order| - i
  {
    if i < |order| {
      var next := Step(className, body, order[i].0, order[i].1).value;
      ClassMembersListFrom(className, order, i + 1, next);
      StepLists(className, body, order[i].0, order[i].1);
      assert body.classMembers + EntryClassMembers(order[i].0, order[i].1) + ClassMembersFrom(order, i + 1) ==
             body.classMembers + ClassMembersFrom(order, i);
    }
  }

  lemma {:induction false} PropertiesFrom(className: string, order: seq<(string, NamespaceValue)>, i: nat,
                                          body: ClassBody, k: string)
    requires i <= |order|
    requires BuildFrom(className, order, i, body).Ok?
    ensures var last := LastPropertyFrom(order, i, k);
      Lookup(BuildFrom(className, order, i, body).value.properties, k) ==
        if last.Some? then PropertyType(k, last.value) else Lookup(body.properties, k)
    decreases |order| - i
  {
    if i < |order| {
      var next := Step(className, body, order[i].0, order[i].1).value;
      PropertiesFrom(className, order, i + 1, next, k);
      if order[i].0 == k && order[i].1.PropertyDecl? {
        assert Lookup(next.properties, k) == PropertyType(k, order[i].1.getter);
      } else {
        assert Lookup(next.properties, k) == Lookup(body.properties, k);
      }
    }
  }

  /**
   * The rest of a created typed class's body: the `Member` declarations in
   * namespace order, the class members (members and plain values, with
   * `__module__` repeated as `__typed_python_module__`) in namespace order,
   * and under every property name the getter of the last property so named.
   */
  lemma ClassBodyContents(name: string, bases: seq<BaseClass>, order: seq<(string, NamespaceValue)>,
                          ns: map<string, NamespaceValue>, nameOverride: Option<string>, k: string)
    requires ClassOf(name, bases, order, ns, nameOverride).Ok?
    ensures var c := ClassOf(name, bases, order, ns, nameOverride).value;
      c.TypedClass? ==>
        && c.body.members == MembersFrom(order, 0)
        && c.body.classMembers == ClassMembersFrom(order, 0)
        && Lookup(c.body.properties, k) ==
             if LastPropertyFrom(order, 0, k).Some? then PropertyType(k, LastPropertyFrom(order, 0, k).value) else None
  {
    if bases != [] {
      MembersListFrom(name, order, 0, EmptyBody);
      ClassMembersListFrom(name, order, 0, EmptyBody);
      PropertiesFrom(name, order, 0, EmptyBody, k);
      assert [] + MembersFrom(order, 0) == MembersFrom(order, 0);
      assert [] + ClassMembersFrom(order, 0) == ClassMembersFrom(order, 0);
    }
  }

  /**
   * Without bases a plain Python class is made, and a `__name__` keyword is
   * refused there. A created typed class is final iff `Final` is among the bases, records the
   * bases with `Class` and `Final` filtered out, and holds under every method or
   * static method name one overload set: the overloads of every function the
   * body defined under that name, in order, none overwritten.
   */
  lemma ClassConstruction(name: string, bases: seq<BaseClass>, order: seq<(string, NamespaceValue)>,
                          ns: map<string, NamespaceValue>, nameOverride: Option<string>, kind: MethodKind, k: string)
    requires ClassOf(name, bases, order, ns, nameOverride).Ok?
    ensures var c := ClassOf(name, bases, order, ns, nameOverride).value;
      && (bases == [] <==> c.PlainPythonClass?)
      && (bases == [] ==> nameOverride.None? && c == PlainPythonClass(name, ns))
      && (c.TypedClass? ==>
        && c.name == nameOverride.GetOr(name)
        && (c.isFinal <==> FinalMixin in bases)
        && c.bases == RecordedBases(bases)
        && Lookup(Functions(c.body, kind), k) ==
             if Defines(order, 0, kind, k) then Some(FunctionType(OverloadsNamed(name, order, 0, kind, k))) else None)
  {
    if bases != [] {
      OverloadsMergeFrom(name, order, 0, EmptyBody, kind, k);
      assert Lookup(Functions(EmptyBody, kind), k) == None;
      assert [] + OverloadsNamed(name, order, 0, kind, k) == OverloadsNamed(name, order, 0, kind, k);
    }
  }

  // ---------------------------------------------------------------------------
  // __subclasscheck__ / __instancecheck__

  /** A type object: its identity, its `__typed_python_category__` (if any) and its MRO. */
  datatype TypeObject = TypeObject(id: nat, category: Option<string>, mro: seq<nat>)

  /** The identity of `typed_python._types.Class`. */
  const ClassRootId: nat := 0

  /** `issubclass(subcls, cls)` for a typed class `cls`. */
  function SubclassCheck(clsId: nat, subcls: TypeObject): (r: bool)
    ensures subcls.category != Some("Class") ==> !r
    ensures subcls.category == Some("Class") && clsId == ClassRootId ==> r
    ensures subcls.category == Some("Class") && clsId != ClassRootId ==> (r <==> clsId in subcls.mro)
  {
    if subcls.category != Some("Class") then false
    else if clsId == ClassRootId then true
    else clsId in subcls.mro
  }

  /** `isinstance(instance, cls)`, given the type of the instance. */
  function InstanceCheck(clsId: nat, instanceType: TypeObject): (r: bool)
    ensures r == SubclassCheck(clsId, instanceType)
  {
    if instanceType.category != Some("Class") then false
    else if clsId == ClassRootId then true
    else clsId in instanceType.mro
  }

  // ---------------------------------------------------------------------------
  // FunctionOverloadArg / FunctionOverload

  /** An argument that can only be passed by position. */
  predicate PlainPositional(a: FunctionOverloadArg) {
    a.defaultValue.None? && !a.isStarArg && !a.isKwarg
  }

  /**
   * `FunctionOverloadArg.__repr__`, given how `str` renders a type and a value:
   * `name`, then `: T` when filtered, then ` = V` when defaulted, with `**`
   * and then `*` put in front for keyword and star arguments.
   */
  function ArgRepr(a: FunctionOverloadArg, showType: PyType -> string, showValue: PyValue -> string): (r: string)
    ensures var stars := (if a.isStarArg then 1 else 0) + (if a.isKwarg then 2 else 0);
      && |r| >= stars + |a.name|
      && (forall i :: 0 <= i < stars ==> r[i] == '*')
      && r[stars..stars + |a.name|] == a.name
      && (a.typeFilter.None? && a.defaultValue.None? ==> |r| == stars + |a.name|)
  {
    var typePart := if a.typeFilter.Some? then ": " + showType(a.typeFilter.value) else "";
    var defaultPart := if a.defaultValue.Some? then " = " + showValue(a.defaultValue.value) else "";
    var prefix := (if a.isStarArg then "*" else "") + (if a.isKwarg then "**" else "");
    var body := a.name + typePart + defaultPart;
    assert body[..|a.name|] == a.name;
    assert |prefix| == (if a.isStarArg then 1 else 0) + (if a.isKwarg then 2 else 0);
    assert forall i :: 0 <= i < |prefix| ==> prefix[i] == '*';
    Prefixed(prefix, body, a.name);
    prefix + body
  }

  /** Text put in front of a body that starts with `name` keeps both visible. */
  lemma Prefixed(prefix: string, body: string, name: string)
    requires |name| <= |body| && body[..|name|] == name
    ensures forall i :: 0 <= i < |prefix| ==> (prefix + body)[i] == prefix[i]
    ensures (prefix + body)[|prefix|..|prefix| + |name|] == name
  {
    assert (prefix + body)[|prefix|..|prefix| + |name|] == body[..|name|];
  }

  /** The Python-side record of one overload of a typed function. */
  class FunctionOverload {
    const name: string
    const index: nat
    const returnType: Option<PyType>
    var args: seq<FunctionOverloadArg>

    constructor (name: string, index: nat, returnType: Option<PyType>)
      ensures this.name == name && this.index == index && this.returnType == returnType
      ensures args == []
    {
      this.name := name;
      this.index := index;
      this.returnType := returnType;
      args := [];
    }

    /** The number of leading arguments that must be given by position. */
    method MinPositionalCount() returns (n: nat)
      ensures n <= |args|
      ensures forall i :: 0 <= i < n ==> PlainPositional(args[i])
      ensures n < |args| ==> !PlainPositional(args[n])
    {
      var i := 0;
      while i < |args|
        invariant 0 <= i <= |args|
        invariant forall j :: 0 <= j < i ==> PlainPositional(args[j])
      {
        var a := args[i];
        if a.defaultValue.Some? || a.isStarArg || a.isKwarg {
          return i;
        }
        i := i + 1;
      }
      return |args|;
    }

    /** The most positional arguments accepted: unbounded (None) iff there is a star argument. */
    method MaxPositionalCount() returns (n: Option<nat>)
      ensures n.None? <==> exists i :: 0 <= i < |args| && args[i].isStarArg
      ensures n.Some? ==> n.value == |args|
    {
      var i := 0;
      while i < |args|
        invariant 0 <= i <= |args|
        invariant forall j :: 0 <= j < i ==> !args[j].isStarArg
      {
        if args[i].isStarArg {
          return None;
        }
        i := i + 1;
      }
      return Some(|args|);
    }

    /** Appends one argument, leaving the earlier ones as they were. */
    method AddArg(name: string, defaultVal: Option<PyValue>, typeFilter: Option<PyType>, isStarArg: bool, isKwarg: bool)
      modifies this`args
      ensures args == old(args) + [FunctionOverloadArg(name, defaultVal, typeFilter, isStarArg, isKwarg)]
    {
      args := args + [FunctionOverloadArg(name, defaultVal, typeFilter, isStarArg, isKwarg)];
    }
  }
}

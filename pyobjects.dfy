/** The Python-side vocabulary shared by every registrar: class objects as
    records of optional attributes, namespace values, errors, and the list
    shapes the registrars iterate over. */
module PyObjects {

  /** Identity of a Python class object (the registrars compare classes by identity). */
  type ClassId = nat

  datatype Option<T> = None | Some(value: T)

  datatype Result<T> = Ok(value: T) | Err(error: Error)

  /** The exceptions the modelled code can raise. */
  datatype Error =
    | KeyError(key: string)                       // sys.modules[name] for a module that is not loaded
    | AttributeError(cls: ClassId, attr: string)  // an attribute or method that the value does not have
    | UnboundLocalError(cls: ClassId, local: string)
    | RegistrationFailed(cls: ClassId)            // bpy.utils.register_class / unregister_class raised

  /** One attribute as seen through `getattr`/`hasattr`: not there at all,
      bound to `None`, or bound to a value. */
  datatype Attr<T> = Missing | PyNone | Val(v: T) {
    /** `hasattr(cls, name)` */
    predicate Has() { !Missing? }
  }

  /** The payload a decorator may store in `bl_options_options`: a set of
      flag names or a dict whose keys are flag names. */
  datatype Options = SetOpts(items: set<string>) | DictOpts(keys: set<string>) {
    /** `set(options)`: the elements of a set, the keys of a dict. */
    function Keys(): set<string> {
      match this
      case SetOpts(s) => s
      case DictOpts(k) => k
    }
  }

  /** The empty collection of flag names: `set()`, or the keys of `{}`. */
  const NoFlags: set<string> := {}

  // Python truthiness of the attribute kinds in use ('' / empty set / empty
  // dict / None are false; a class object is always true).
  predicate StrTruthy(a: Attr<string>) { a.Val? && a.v != "" }
  predicate SetTruthy(a: Attr<set<string>>) { a.Val? && a.v != {} }
  predicate OptionsTruthy(a: Attr<Options>) { a.Val? && a.v.Keys() != {} }
  predicate ClassTruthy(a: Attr<ClassId>) { a.Val? }

  /** A Python class object with the attributes the registrars read or write.
      `bases` is `__bases__`; `mro` is `__mro__` (the class itself first, then
      every ancestor), which decides `issubclass`. A `description` defined as a
      method is a truthy value and is modelled by a non-empty text. */
  datatype PyClass = PyClass(
    name: string,
    bases: seq<ClassId>,
    mro: seq<ClassId>,
    blIdname: Attr<string>,
    blLabel: Attr<string>,
    blDescription: Attr<string>,
    description: Attr<string>,
    blOptions: Attr<set<string>>,
    blOptionsOptions: Attr<Options>,
    generateBlOptions: Attr<bool>,
    propertyGroupType: Attr<ClassId>,
    propertyGroupAttribute: Attr<string>)

  /** A value bound in a module's namespace. */
  datatype Value = ClassObj(id: ClassId) | Instance(cls: ClassId) | Other

  /** A class store in which every class lists itself and its direct bases in its MRO,
      as Python guarantees for every class. */
  ghost predicate WellFormed(classes: map<ClassId, PyClass>)
  {
    forall id :: id in classes ==>
      id in classes[id].mro && forall b :: b in classes[id].bases ==> b in classes[id].mro
  }

  /** The registrars keep one list of classes per module; this is the
      module-forward, class-forward order of the nested loops. */
  function Flatten<T>(xss: seq<seq<T>>): (r: seq<T>)
  {
    if xss == [] then [] else xss[0] + Flatten(xss[1..])
  }

  /** `reversed(xs)` */
  function Reverse<T>(xs: seq<T>): (r: seq<T>)
    ensures |r| == |xs|
    ensures forall i :: 0 <= i < |xs| ==> r[i] == xs[|xs| - 1 - i]
  {
    if xs == [] then [] else [xs[|xs| - 1]] + Reverse(xs[..|xs| - 1])
  }

  /** Modules forward, each module's classes in reverse: the teardown order. */
  function FlattenReversed<T>(xss: seq<seq<T>>): (r: seq<T>)
  {
    if xss == [] then [] else Reverse(xss[0]) + FlattenReversed(xss[1..])
  }

  lemma {:induction false} FlattenReversedPermutes<T>(xss: seq<seq<T>>)
    ensures multiset(FlattenReversed(xss)) == multiset(Flatten(xss))
  {
    if xss != [] {
      ReversePermutes(xss[0]);
      FlattenReversedPermutes(xss[1..]);
    }
  }

  lemma {:induction false} ReversePermutes<T>(xs: seq<T>)
    ensures multiset(Reverse(xs)) == multiset(xs)
  {
    if xs != [] {
      ReversePermutes(xs[..|xs| - 1]);
      assert xs == xs[..|xs| - 1] + [xs[|xs| - 1]];
    }
  }

  lemma FlattenAppend<T>(xss: seq<seq<T>>, yss: seq<seq<T>>)
    ensures Flatten(xss + yss) == Flatten(xss) + Flatten(yss)
  {
    if xss == [] {
      assert xss + yss == yss;
    } else {
      assert (xss + yss)[0] == xss[0];
      assert (xss + yss)[1..] == xss[1..] + yss;
      FlattenAppend(xss[1..], yss);
    }
  }

  /** Every element of the flattened list comes from one of the inner lists. */
  lemma {:induction false} FlattenMember<T>(xss: seq<seq<T>>, x: T)
    requires x in Flatten(xss)
    ensures exists m :: 0 <= m < |xss| && x in xss[m]
  {
    if x !in xss[0] {
      FlattenMember(xss[1..], x);
      var m :| 0 <= m < |xss[1..]| && x in xss[1..][m];
      assert x in xss[m + 1];
    }
  }

  /** Step lemma for the nested loops: the work left at (i, j). */
  lemma RestStep<T>(xss: seq<seq<T>>, i: nat, j: nat)
    requires i < |xss| && j < |xss[i]|
    ensures var rest := xss[i][j..] + Flatten(xss[i + 1..]);
      rest != [] && rest[0] == xss[i][j] && rest[1..] == xss[i][j + 1..] + Flatten(xss[i + 1..])
  {
  }

  lemma RestStart<T>(xss: seq<seq<T>>, i: nat)
    requires i < |xss|
    ensures Flatten(xss[i..]) == xss[i][0..] + Flatten(xss[i + 1..])
  {
    assert xss[i..][1..] == xss[i + 1..];
  }

  /** Step lemma for the reversed inner loop at (i, j). */
  lemma RevRestStep<T>(xss: seq<seq<T>>, i: nat, j: nat)
    requires i < |xss| && 0 < j <= |xss[i]|
    ensures var rest := Reverse(xss[i][..j]) + FlattenReversed(xss[i + 1..]);
      rest != [] && rest[0] == xss[i][j - 1]
      && rest[1..] == Reverse(xss[i][..j - 1]) + FlattenReversed(xss[i + 1..])
  {
    assert xss[i][..j][..j - 1] == xss[i][..j - 1];
  }

  lemma RevRestStart<T>(xss: seq<seq<T>>, i: nat)
    requires i < |xss|
    ensures FlattenReversed(xss[i..]) == Reverse(xss[i][..|xss[i]|]) + FlattenReversed(xss[i + 1..])
  {
    assert xss[i..][1..] == xss[i + 1..];
    assert xss[i][..|xss[i]|] == xss[i];
  }
}

/** The reflection helpers and constants of `util/core_utils.py`: class
    discovery over a module namespace, attribute selection by type, and the
    operator-flag allow-list. */
module CoreUtils {
  import opened PyObjects

  /** `CONSTANTS.operator_flag_items`: the flags an operator's `bl_options` may hold. */
  const OperatorFlagItems: set<string> := {
    "REGISTER", "UNDO", "UNDO_GROUPED", "BLOCKING", "MACRO", "GRAB_CURSOR",
    "GRAB_CURSOR_X", "GRAB_CURSOR_Y", "DEPENDS_ON_CURSOR", "PRESET", "INTERNAL"
  }

  /** `CONSTANTS.default_flag_items` */
  const DefaultFlagItems: set<string> := {"REGISTER", "UNDO"}

  /** The defaults are allowed flags, and the allow-list has eleven distinct flags. */
  lemma FlagConstants()
    ensures DefaultFlagItems <= OperatorFlagItems
    ensures |OperatorFlagItems| == 11
    ensures |DefaultFlagItems| == 2
  {
    var a := {"REGISTER", "UNDO", "UNDO_GROUPED", "BLOCKING", "MACRO"};
    var b := {"GRAB_CURSOR", "GRAB_CURSOR_X", "GRAB_CURSOR_Y", "DEPENDS_ON_CURSOR", "PRESET", "INTERNAL"};
    assert |a| == 5;
    assert |b| == 6;
    assert a !! b;
    assert OperatorFlagItems == a + b;
  }

  /** The two discovery tests in the repository: `class_type in cls.__bases__`
      (`get_classes`) and `issubclass(cls, class_type)` (the older registrar). */
  datatype Test = DirectBase | Subclass

  /** `inspect.isclass(v)` and the chosen test against `t`. */
  predicate Matches(classes: map<ClassId, PyClass>, v: Value, t: ClassId, test: Test)
  {
    v.ClassObj? && v.id in classes &&
    match test
    case DirectBase => t in classes[v.id].bases
    case Subclass => t in classes[v.id].mro
  }

  /** The classes of a namespace (its values in order) that pass the test. */
  function Discover(classes: map<ClassId, PyClass>, ns: seq<Value>, t: ClassId, test: Test): seq<ClassId>
  {
    if ns == [] then []
    else (if Matches(classes, ns[0], t, test) then [ns[0].id] else []) + Discover(classes, ns[1..], t, test)
  }

  /** `get_classes(module_name, class_type)`; `sys.modules[module_name]` raises
      `KeyError` for a module that is not loaded. */
  function GetClasses(sysModules: map<string, seq<Value>>, classes: map<ClassId, PyClass>,
                      moduleName: string, classType: ClassId): (r: Result<seq<ClassId>>)
    ensures r.Err? <==> moduleName !in sysModules
    ensures r.Err? ==> r.error == KeyError(moduleName)
    ensures r.Ok? ==> r.value == Discover(classes, sysModules[moduleName], classType, DirectBase)
  {
    if moduleName in sysModules then Ok(Discover(classes, sysModules[moduleName], classType, DirectBase))
    else Err(KeyError(moduleName))
  }

  /** `[get_classes(mod, class_type) for mod in modules]` with the discovery
      test as a parameter: one list per module, or the `KeyError` of the first
      module that is not loaded. */
  function DiscoverAll(sysModules: map<string, seq<Value>>, classes: map<ClassId, PyClass>,
                       modules: seq<string>, t: ClassId, test: Test): (r: Result<seq<seq<ClassId>>>)
    ensures r.Ok? <==> forall k :: 0 <= k < |modules| ==> modules[k] in sysModules
    ensures r.Ok? ==> |r.value| == |modules|
    ensures r.Ok? ==> forall k :: 0 <= k < |modules| ==> r.value[k] == Discover(classes, sysModules[modules[k]], t, test)
    ensures r.Err? ==> exists k :: 0 <= k < |modules| && modules[k] !in sysModules && r.error == KeyError(modules[k])
                                   && forall j :: 0 <= j < k ==> modules[j] in sysModules
  {
    if modules == [] then Ok([])
    else if modules[0] !in sysModules then Err(KeyError(modules[0]))
    else
      match DiscoverAll(sysModules, classes, modules[1..], t, test)
      case Err(e) =>
        assert forall k :: 0 <= k < |modules[1..]| ==> modules[1..][k] == modules[k + 1];
        var k :| 0 <= k < |modules[1..]| && modules[1..][k] !in sysModules && e == KeyError(modules[1..][k])
                 && forall j :: 0 <= j < k ==> modules[1..][j] in sysModules;
        assert forall j :: 0 <= j < k + 1 ==> modules[j] in sysModules by {
          forall j | 0 <= j < k + 1 ensures modules[j] in sysModules {
            if j > 0 { assert modules[j] == modules[1..][j - 1]; }
          }
        }
        Err(e)
      case Ok(rest) => Ok([Discover(classes, sysModules[modules[0]], t, test)] + rest)
  }

  /** `a` is `b` with some elements left out, order kept. */
  ghost predicate IsSubsequence<T>(a: seq<T>, b: seq<T>)
    decreases |b|
  {
    a == [] || (b != [] && ((a[0] == b[0] && IsSubsequence(a[1..], b[1..])) || IsSubsequence(a, b[1..])))
  }

  function AsClassValues(ids: seq<ClassId>): (r: seq<Value>)
    ensures |r| == |ids|
  {
    if ids == [] then [] else [ClassObj(ids[0])] + AsClassValues(ids[1..])
  }

  /** Discovery keeps exactly the namespace entries that pass the test. */
  lemma {:induction false} DiscoverMembers(classes: map<ClassId, PyClass>, ns: seq<Value>, t: ClassId, test: Test)
    ensures forall id :: id in Discover(classes, ns, t, test) <==> ClassObj(id) in ns && Matches(classes, ClassObj(id), t, test)
  {
    if ns != [] {
      DiscoverMembers(classes, ns[1..], t, test);
      assert ns == [ns[0]] + ns[1..];
    }
  }

  /** A class is kept as often as it is bound (a class bound under two names
      appears twice). */
  lemma {:induction false} DiscoverCount(classes: map<ClassId, PyClass>, ns: seq<Value>, t: ClassId, test: Test, id: ClassId)
    ensures multiset(Discover(classes, ns, t, test))[id] ==
              (if Matches(classes, ClassObj(id), t, test) then multiset(ns)[ClassObj(id)] else 0)
  {
    if ns != [] {
      DiscoverCount(classes, ns[1..], t, test, id);
      assert ns == [ns[0]] + ns[1..];
    }
  }

  /** The kept classes are in namespace order. */
  lemma {:induction false} DiscoverOrder(classes: map<ClassId, PyClass>, ns: seq<Value>, t: ClassId, test: Test)
    ensures IsSubsequence(AsClassValues(Discover(classes, ns, t, test)), ns)
  {
    if ns != [] {
      DiscoverOrder(classes, ns[1..], t, test);
      var rest := Discover(classes, ns[1..], t, test);
      if Matches(classes, ns[0], t, test) {
        var r := [ns[0].id] + rest;
        assert r[1..] == rest;
        assert AsClassValues(r) == [ns[0]] + AsClassValues(rest);
        assert AsClassValues(r)[1..] == AsClassValues(rest);
      } else {
        assert Discover(classes, ns, t, test) == rest;
        var r := AsClassValues(rest);
        if r != [] {
          assert IsSubsequence(r, ns[1..]);
        }
      }
    }
  }

  /** `get_classes` keeps the direct subclasses of `class_type` and nothing
      else: an indirect subclass is left out. */
  lemma GetClassesSpec(sysModules: map<string, seq<Value>>, classes: map<ClassId, PyClass>,
                       moduleName: string, classType: ClassId, id: ClassId)
    requires moduleName in sysModules
    ensures var r := GetClasses(sysModules, classes, moduleName, classType).value;
      (id in r <==> ClassObj(id) in sysModules[moduleName] && id in classes && classType in classes[id].bases)
      && multiset(r)[id] == (if id in classes && classType in classes[id].bases then multiset(sysModules[moduleName])[ClassObj(id)] else 0)
  {
    DiscoverMembers(classes, sysModules[moduleName], classType, DirectBase);
    DiscoverCount(classes, sysModules[moduleName], classType, DirectBase, id);
  }

  /** Every class that `get_classes` finds is also found by the `issubclass`
      test, in the same relative order; the converse fails for indirect
      subclasses and for the base class itself. */
  lemma {:induction false} DirectWithinSubclass(classes: map<ClassId, PyClass>, ns: seq<Value>, t: ClassId)
    requires WellFormed(classes)
    ensures IsSubsequence(Discover(classes, ns, t, DirectBase), Discover(classes, ns, t, Subclass))
  {
    if ns != [] {
      DirectWithinSubclass(classes, ns[1..], t);
      var d, s := Discover(classes, ns[1..], t, DirectBase), Discover(classes, ns[1..], t, Subclass);
      if Matches(classes, ns[0], t, DirectBase) {
        assert Matches(classes, ns[0], t, Subclass);
        assert ([ns[0].id] + d)[1..] == d;
        assert ([ns[0].id] + s)[1..] == s;
      } else if Matches(classes, ns[0], t, Subclass) {
        assert Discover(classes, ns, t, DirectBase) == d;
        var sNext := [ns[0].id] + s;
        assert Discover(classes, ns, t, Subclass) == sNext;
        assert sNext[1..] == s;
        if d != [] {
          assert IsSubsequence(d, sNext[1..]);
          assert IsSubsequence(d, sNext);
        }
      } else {
        assert Discover(classes, ns, t, DirectBase) == d;
        assert Discover(classes, ns, t, Subclass) == s;
      }
    }
  }

  /** The base class itself, bound in a namespace, passes the `issubclass`
      test but not the direct-base test (a class is not its own base). */
  lemma BaseItselfExample(t: ClassId, base: PyClass)
    requires base.mro == [t] && base.bases == []
    ensures Discover(map[t := base], [ClassObj(t)], t, Subclass) == [t]
    ensures Discover(map[t := base], [ClassObj(t)], t, DirectBase) == []
  {
  }

  /** `isinstance(v, t)`: an instance of a class that has `t` in its MRO. */
  predicate IsInstance(classes: map<ClassId, PyClass>, v: Value, t: ClassId)
  {
    v.Instance? && v.cls in classes && t in classes[v.cls].mro
  }

  /** `get_class_attrs`: the `(name, value)` members (as `inspect.getmembers`
      lists them, already narrowed by its optional predicate) whose value is an
      instance of `attributeType`. */
  function GetClassAttrs(classes: map<ClassId, PyClass>, members: seq<(string, Value)>,
                         attributeType: ClassId, predicate_: Option<Value -> bool>): seq<(string, Value)>
  {
    if members == [] then []
    else
      var m := members[0];
      var keep := (predicate_.None? || predicate_.value(m.1)) && IsInstance(classes, m.1, attributeType);
      (if keep then [m] else []) + GetClassAttrs(classes, members[1..], attributeType, predicate_)
  }

  /** `get_class_attrs` returns exactly the members that pass the predicate
      and hold an instance of the type, in member order. */
  lemma {:induction false} GetClassAttrsSpec(classes: map<ClassId, PyClass>, members: seq<(string, Value)>,
                                             attributeType: ClassId, predicate_: Option<Value -> bool>)
    ensures var r := GetClassAttrs(classes, members, attributeType, predicate_);
      (forall m :: m in r <==> m in members && (predicate_.None? || predicate_.value(m.1)) && IsInstance(classes, m.1, attributeType))
      && IsSubsequence(r, members)
  {
    if members != [] {
      GetClassAttrsSpec(classes, members[1..], attributeType, predicate_);
      var rest := GetClassAttrs(classes, members[1..], attributeType, predicate_);
      var r := GetClassAttrs(classes, members, attributeType, predicate_);
      assert members == [members[0]] + members[1..];
      if r == [members[0]] + rest {
        assert r[1..] == rest;
      } else {
        assert r == rest;
        if rest != [] {
          assert IsSubsequence(rest, members[1..]);
        }
      }
    }
  }
}

/** The host application as the registrars see it: Blender's class registry
    (`bpy.utils.register_class` / `unregister_class`), the pointer properties
    attached to host types, the class store the registrars write attributes
    into, and the log they write warnings and progress messages to. */
module Host {
  import opened PyObjects

  /** The warnings the registrars log. */
  datatype Warning =
    | MissingDescription(cls: ClassId)
    | MissingPrefix(cls: ClassId)
    | InvalidOptions(cls: ClassId)
    | SkippingGroup(cls: ClassId)

  /** One log entry: a warning, or the message after a successful
      `register_class` / `unregister_class`. */
  datatype Event = Warned(warning: Warning) | Registered(cls: ClassId) | Unregistered(cls: ClassId)

  /** A snapshot of everything the registrars can change, plus the set of
      classes the host refuses to register (an invalid class definition). */
  datatype HostState = HostState(
    classes: map<ClassId, PyClass>,
    registered: set<ClassId>,
    refused: set<ClassId>,
    pointers: map<(ClassId, string), ClassId>,
    log: seq<Event>)

  /** The state reached and, if a call raised, the exception that ended the run
      (nothing done before it is undone). */
  datatype Run = Run(state: HostState, error: Option<Error>)

  /** The empty registry. */
  const NoClasses: set<ClassId> := {}

  function Elems(xs: seq<ClassId>): set<ClassId>
  {
    set x | x in xs
  }

  /** No element occurs twice. */
  ghost predicate Distinct(xs: seq<ClassId>)
  {
    forall x :: multiset(xs)[x] <= 1
  }

  /** Every id has a class record. */
  ghost predicate Known(classes: map<ClassId, PyClass>, ids: seq<ClassId>)
  {
    forall x :: x in ids ==> x in classes
  }

  /** Every entry is a warning. */
  ghost predicate AllWarned(evs: seq<Event>)
  {
    forall i :: 0 <= i < |evs| ==> evs[i].Warned?
  }

  function RegEvents(ids: seq<ClassId>): (r: seq<Event>)
    ensures |r| == |ids|
  {
    if ids == [] then [] else [Registered(ids[0])] + RegEvents(ids[1..])
  }

  function UnregEvents(ids: seq<ClassId>): (r: seq<Event>)
    ensures |r| == |ids|
  {
    if ids == [] then [] else [Unregistered(ids[0])] + UnregEvents(ids[1..])
  }

  /** `register_class(cls)` followed by the info message: the host raises for a
      class that is already registered or that it refuses. */
  function RegisterOne(s: HostState, id: ClassId): Run
  {
    if id in s.registered || id in s.refused then Run(s, Some(RegistrationFailed(id)))
    else Run(s.(registered := s.registered + {id}, log := s.log + [Registered(id)]), None)
  }

  /** `unregister_class(cls)` followed by the info message: the host raises for a
      class that is not registered. */
  function UnregisterOne(s: HostState, id: ClassId): Run
  {
    if id !in s.registered then Run(s, Some(RegistrationFailed(id)))
    else Run(s.(registered := s.registered - {id}, log := s.log + [Unregistered(id)]), None)
  }

  /** A loop of `register_class` calls over `ids`, stopped by the first one that raises. */
  function RegisterSeq(s: HostState, ids: seq<ClassId>): Run
    decreases |ids|
  {
    if ids == [] then Run(s, None)
    else
      var r := RegisterOne(s, ids[0]);
      if r.error.Some? then r else RegisterSeq(r.state, ids[1..])
  }

  /** A loop of `unregister_class` calls over `ids`, stopped by the first one that raises. */
  function UnregisterSeq(s: HostState, ids: seq<ClassId>): Run
    decreases |ids|
  {
    if ids == [] then Run(s, None)
    else
      var r := UnregisterOne(s, ids[0]);
      if r.error.Some? then r else UnregisterSeq(r.state, ids[1..])
  }

  /** How many classes of `ids` the registration loop registers before it stops. */
  function RegisteredCount(s: HostState, ids: seq<ClassId>): (k: nat)
    decreases |ids|
    ensures k <= |ids|
  {
    if ids == [] || ids[0] in s.registered || ids[0] in s.refused then 0
    else 1 + RegisteredCount(RegisterOne(s, ids[0]).state, ids[1..])
  }

  /** How many classes of `ids` the unregistration loop unregisters before it stops. */
  function UnregisteredCount(s: HostState, ids: seq<ClassId>): (k: nat)
    decreases |ids|
    ensures k <= |ids|
  {
    if ids == [] || ids[0] !in s.registered then 0
    else 1 + UnregisteredCount(UnregisterOne(s, ids[0]).state, ids[1..])
  }

  lemma DistinctCons(x: ClassId, xs: seq<ClassId>)
    ensures Distinct([x] + xs) <==> Distinct(xs) && x !in xs
  {
    assert forall y :: multiset([x] + xs)[y] == (if y == x then 1 else 0) + multiset(xs)[y];
    assert x in xs ==> multiset([x] + xs)[x] >= 2;
  }

  /** A log that grew by warnings and then by more warnings grew by warnings only. */
  lemma WarnedExtend(a: seq<Event>, b: seq<Event>, c: seq<Event>)
    requires |a| <= |b| <= |c| && b[..|a|] == a && c[..|b|] == b
    requires AllWarned(b[|a|..]) && AllWarned(c[|b|..])
    ensures c[..|a|] == a && AllWarned(c[|a|..])
  {
    assert c[..|a|] == c[..|b|][..|a|];
    forall i | 0 <= i < |c| - |a| ensures c[|a|..][i].Warned? {
      if |a| + i < |b| {
        assert c[|a|..][i] == b[|a|..][i];
      } else {
        assert c[|a|..][i] == c[|b|..][|a| + i - |b|];
      }
    }
  }

  /** Registering the head and then a prefix of the tail registers a prefix of `ids`. */
  lemma RegisteredPrefixCons(s: HostState, ids: seq<ClassId>, k: nat)
    requires k < |ids| && ids[0] !in s.registered && ids[0] !in s.refused
    ensures var sNext := RegisterOne(s, ids[0]).state;
      sNext.registered + Elems(ids[1..][..k]) == s.registered + Elems(ids[..k + 1])
      && sNext.log + RegEvents(ids[1..][..k]) == s.log + RegEvents(ids[..k + 1])
  {
    var pre := ids[1..][..k];
    assert ids[..k + 1] == [ids[0]] + pre;
    assert Elems(ids[..k + 1]) == {ids[0]} + Elems(pre);
    assert RegEvents(ids[..k + 1]) == [Registered(ids[0])] + RegEvents(pre);
  }

  /** Unregistering the head and then a prefix of the tail unregisters a prefix of `ids`. */
  lemma UnregisteredPrefixCons(s: HostState, ids: seq<ClassId>, k: nat)
    requires k < |ids| && ids[0] in s.registered
    ensures var sNext := UnregisterOne(s, ids[0]).state;
      sNext.registered - Elems(ids[1..][..k]) == s.registered - Elems(ids[..k + 1])
      && sNext.log + UnregEvents(ids[1..][..k]) == s.log + UnregEvents(ids[..k + 1])
  {
    var pre := ids[1..][..k];
    assert ids[..k + 1] == [ids[0]] + pre;
    assert Elems(ids[..k + 1]) == {ids[0]} + Elems(pre);
    assert UnregEvents(ids[..k + 1]) == [Unregistered(ids[0])] + UnregEvents(pre);
  }

  /** The registration loop registers a prefix of `ids` in order, logging one
      message per class; it completes exactly when the prefix is everything,
      and otherwise stops at the first class the host rejects. */
  lemma {:induction false} RegisterSeqTrace(s: HostState, ids: seq<ClassId>)
    decreases |ids|
    ensures var k := RegisteredCount(s, ids);
      RegisterSeq(s, ids).state
        == s.(registered := s.registered + Elems(ids[..k]), log := s.log + RegEvents(ids[..k]))
    ensures RegisterSeq(s, ids).error.None? <==> RegisteredCount(s, ids) == |ids|
    ensures var k := RegisteredCount(s, ids);
      k < |ids| ==>
              RegisterSeq(s, ids).error == Some(RegistrationFailed(ids[k]))
              && (ids[k] in s.registered + Elems(ids[..k]) || ids[k] in s.refused)
  {
    if ids == [] {
      assert s.registered + Elems(ids[..0]) == s.registered;
      assert s.log + RegEvents(ids[..0]) == s.log;
    } else if ids[0] in s.registered || ids[0] in s.refused {
      assert s.registered + Elems(ids[..0]) == s.registered;
      assert s.log + RegEvents(ids[..0]) == s.log;
    } else {
      var sNext := RegisterOne(s, ids[0]).state;
      assert RegisterSeq(s, ids) == RegisterSeq(sNext, ids[1..]);
      RegisterSeqTrace(sNext, ids[1..]);
      var kRest := RegisteredCount(sNext, ids[1..]);
      var k := kRest + 1;
      RegisteredPrefixCons(s, ids, kRest);
      if kRest < |ids[1..]| {
        assert ids[k] == ids[1..][kRest];
      } else {
        assert ids[1..][..kRest] == ids[1..];
      }
    }
  }

  /** The registration loop completes exactly when no class occurs twice and
      none is registered already or refused by the host. */
  lemma {:induction false} RegisterSeqCompletes(s: HostState, ids: seq<ClassId>)
    decreases |ids|
    ensures RegisterSeq(s, ids).error.None?
      <==> Distinct(ids) && forall x :: x in ids ==> x !in s.registered && x !in s.refused
  {
    if ids != [] {
      DistinctCons(ids[0], ids[1..]);
      assert ids == [ids[0]] + ids[1..];
      if ids[0] !in s.registered && ids[0] !in s.refused {
        RegisterSeqCompletes(RegisterOne(s, ids[0]).state, ids[1..]);
      }
    }
  }

  /** The unregistration loop unregisters a prefix of `ids` in order, logging
      one message per class, and otherwise stops at the first class that is
      not registered. */
  lemma {:induction false} UnregisterSeqTrace(s: HostState, ids: seq<ClassId>)
    decreases |ids|
    ensures var k := UnregisteredCount(s, ids);
      UnregisterSeq(s, ids).state
        == s.(registered := s.registered - Elems(ids[..k]), log := s.log + UnregEvents(ids[..k]))
    ensures UnregisterSeq(s, ids).error.None? <==> UnregisteredCount(s, ids) == |ids|
    ensures var k := UnregisteredCount(s, ids);
      k < |ids| ==>
              UnregisterSeq(s, ids).error == Some(RegistrationFailed(ids[k]))
              && ids[k] !in s.registered - Elems(ids[..k])
  {
    if ids == [] || ids[0] !in s.registered {
      assert s.registered - Elems(ids[..0]) == s.registered;
      assert s.log + UnregEvents(ids[..0]) == s.log;
    } else {
      var sNext := UnregisterOne(s, ids[0]).state;
      assert UnregisterSeq(s, ids) == UnregisterSeq(sNext, ids[1..]);
      UnregisterSeqTrace(sNext, ids[1..]);
      var kRest := UnregisteredCount(sNext, ids[1..]);
      var k := kRest + 1;
      UnregisteredPrefixCons(s, ids, kRest);
      if kRest < |ids[1..]| {
        assert ids[k] == ids[1..][kRest];
      } else {
        assert ids[1..][..kRest] == ids[1..];
      }
    }
  }

  /** The unregistration loop completes exactly when no class occurs twice and
      every one is registered. */
  lemma {:induction false} UnregisterSeqCompletes(s: HostState, ids: seq<ClassId>)
    decreases |ids|
    ensures UnregisterSeq(s, ids).error.None?
      <==> Distinct(ids) && forall x :: x in ids ==> x in s.registered
  {
    if ids != [] {
      DistinctCons(ids[0], ids[1..]);
      assert ids == [ids[0]] + ids[1..];
      if ids[0] in s.registered {
        UnregisterSeqCompletes(UnregisterOne(s, ids[0]).state, ids[1..]);
      }
    }
  }

  /** Unregistering, in any order, exactly the classes a completed registration
      loop registered completes too and restores the registry; only the log has
      grown, by one message per class each way. */
  lemma RegisterUnregisterRoundTrip(s: HostState, ids: seq<ClassId>, back: seq<ClassId>)
    requires RegisterSeq(s, ids).error.None?
    requires multiset(back) == multiset(ids)
    ensures var r := RegisterSeq(s, ids).state;
      var u := UnregisterSeq(r, back);
      u.error.None?
      && u.state == s.(log := s.log + RegEvents(ids) + UnregEvents(back))
  {
    RegisterSeqCompletes(s, ids);
    RegisterSeqTrace(s, ids);
    var k := RegisteredCount(s, ids);
    assert ids[..k] == ids;
    var r := RegisterSeq(s, ids).state;
    assert Elems(back) == Elems(ids) by {
      forall x ensures x in back <==> x in ids {
        assert x in back <==> multiset(back)[x] > 0;
      }
    }
    assert Distinct(back);
    UnregisterSeqCompletes(r, back);
    UnregisterSeqTrace(r, back);
    var k2 := UnregisteredCount(r, back);
    assert back[..k2] == back;
    assert (s.registered + Elems(ids)) - Elems(ids) == s.registered;
  }

  /** Registration and unregistration change only the registry and the log. */
  lemma RegistryOnly(s: HostState, ids: seq<ClassId>)
    ensures var r := RegisterSeq(s, ids).state;
      r.classes == s.classes && r.pointers == s.pointers && r.refused == s.refused
    ensures var u := UnregisterSeq(s, ids).state;
      u.classes == s.classes && u.pointers == s.pointers && u.refused == s.refused
  {
    RegisterSeqTrace(s, ids);
    UnregisterSeqTrace(s, ids);
  }

  /** The host process: the class store (class attributes the registrars write),
      the loaded modules, the type objects `bpy.types.Operator` and
      `bpy.types.PropertyGroup`, Blender's registry and pointer properties, and
      the log. */
  class World {
    var classes: map<ClassId, PyClass>
    var registered: set<ClassId>
    var pointers: map<(ClassId, string), ClassId>
    var log: seq<Event>
    const refused: set<ClassId>
    const sysModules: map<string, seq<Value>>
    const operatorType: ClassId
    const propertyGroupType: ClassId

    constructor(classes: map<ClassId, PyClass>, sysModules: map<string, seq<Value>>,
                refused: set<ClassId>, operatorType: ClassId, propertyGroupType: ClassId)
      ensures this.classes == classes && this.sysModules == sysModules && this.refused == refused
      ensures this.operatorType == operatorType && this.propertyGroupType == propertyGroupType
      ensures registered == NoClasses && pointers == map[] && log == []
    {
      this.classes := classes;
      this.sysModules := sysModules;
      this.refused := refused;
      this.operatorType := operatorType;
      this.propertyGroupType := propertyGroupType;
      registered := {};
      pointers := map[];
      log := [];
    }

    ghost function State(): HostState
      reads this
    {
      HostState(classes, registered, refused, pointers, log)
    }

    /** `bpy.utils.register_class(cls)` and its info message. */
    method RegisterClass(id: ClassId) returns (err: Option<Error>)
      modifies this
      ensures Run(State(), err) == RegisterOne(old(State()), id)
    {
      if id in registered || id in refused {
        err := Some(RegistrationFailed(id));
      } else {
        registered := registered + {id};
        log := log + [Registered(id)];
        err := None;
      }
    }

    /** `bpy.utils.unregister_class(cls)` and its info message. */
    method UnregisterClass(id: ClassId) returns (err: Option<Error>)
      modifies this
      ensures Run(State(), err) == UnregisterOne(old(State()), id)
    {
      if id !in registered {
        err := Some(RegistrationFailed(id));
      } else {
        registered := registered - {id};
        log := log + [Unregistered(id)];
        err := None;
      }
    }

    /** `logger.warning(...)` */
    method Warn(w: Warning)
      modifies this
      ensures State() == old(State()).(log := old(log) + [Warned(w)])
    {
      log := log + [Warned(w)];
    }

    /** Writes the attributes of one class object. */
    method SetClass(id: ClassId, c: PyClass)
      requires id in classes
      modifies this
      ensures State() == old(State()).(classes := old(classes)[id := c])
    {
      classes := classes[id := c];
    }

    /** `setattr(owner, attribute, bpy.props.PointerProperty(type=group))` */
    method SetPointer(owner: ClassId, attribute: string, group: ClassId)
      modifies this
      ensures State() == old(State()).(pointers := old(pointers)[(owner, attribute) := group])
    {
      pointers := pointers[(owner, attribute) := group];
    }
  }
}

/** `core/register.py`: the main registration point. One operator registrar
    and one property-group registrar are built once from the same module
    list; `reg` runs the operator registrar and then the property-group one,
    `unreg` tears them down in the opposite order of kinds. */
module Register {
  import opened PyObjects
  import opened CoreUtils
  import opened Host
  import OperatorReg
  import PropReg

  /** The classes registered, in log order. */
  function RegisteredIds(evs: seq<Event>): seq<ClassId>
  {
    if evs == [] then []
    else (if evs[0].Registered? then [evs[0].cls] else []) + RegisteredIds(evs[1..])
  }

  /** The classes unregistered, in log order. */
  function UnregisteredIds(evs: seq<Event>): seq<ClassId>
  {
    if evs == [] then []
    else (if evs[0].Unregistered? then [evs[0].cls] else []) + UnregisteredIds(evs[1..])
  }

  lemma {:induction false} IdsAppend(a: seq<Event>, b: seq<Event>)
    ensures RegisteredIds(a + b) == RegisteredIds(a) + RegisteredIds(b)
    ensures UnregisteredIds(a + b) == UnregisteredIds(a) + UnregisteredIds(b)
  {
    RegisteredAppend(a, b);
    UnregisteredAppend(a, b);
  }

  lemma {:induction false} RegisteredAppend(a: seq<Event>, b: seq<Event>)
    ensures RegisteredIds(a + b) == RegisteredIds(a) + RegisteredIds(b)
  {
    if a == [] {
      assert a + b == b;
    } else {
      var ab := a + b;
      assert ab[0] == a[0] && ab[1..] == a[1..] + b;
      RegisteredAppend(a[1..], b);
      var h := if a[0].Registered? then [a[0].cls] else [];
      assert RegisteredIds(ab) == h + (RegisteredIds(a[1..]) + RegisteredIds(b));
      assert RegisteredIds(a) == h + RegisteredIds(a[1..]);
    }
  }

  lemma {:induction false} UnregisteredAppend(a: seq<Event>, b: seq<Event>)
    ensures UnregisteredIds(a + b) == UnregisteredIds(a) + UnregisteredIds(b)
  {
    if a == [] {
      assert a + b == b;
    } else {
      var ab := a + b;
      assert ab[0] == a[0] && ab[1..] == a[1..] + b;
      UnregisteredAppend(a[1..], b);
      var h := if a[0].Unregistered? then [a[0].cls] else [];
      assert UnregisteredIds(ab) == h + (UnregisteredIds(a[1..]) + UnregisteredIds(b));
      assert UnregisteredIds(a) == h + UnregisteredIds(a[1..]);
    }
  }

  lemma {:induction false} IdsOfWarnings(evs: seq<Event>)
    requires AllWarned(evs)
    ensures RegisteredIds(evs) == [] && UnregisteredIds(evs) == []
  {
    if evs != [] {
      assert evs[0].Warned?;
      assert AllWarned(evs[1..]) by {
        forall i | 0 <= i < |evs[1..]| ensures evs[1..][i].Warned? {
          assert evs[1..][i] == evs[i + 1];
        }
      }
      IdsOfWarnings(evs[1..]);
    }
  }

  lemma {:induction false} IdsOfRegEvents(ids: seq<ClassId>)
    ensures RegisteredIds(RegEvents(ids)) == ids && UnregisteredIds(RegEvents(ids)) == []
    ensures RegisteredIds(UnregEvents(ids)) == [] && UnregisteredIds(UnregEvents(ids)) == ids
  {
    if ids != [] {
      IdsOfRegEvents(ids[1..]);
      assert RegEvents(ids)[1..] == RegEvents(ids[1..]);
      assert UnregEvents(ids)[1..] == UnregEvents(ids[1..]);
    }
  }

  /** `reg()`: `ro.register()` and, if it returned, `rpg.register()`. */
  function RegSpec(s: HostState, operators: seq<seq<ClassId>>, groups: seq<seq<ClassId>>): Run
    requires Known(s.classes, Flatten(operators)) && Known(s.classes, Flatten(groups))
  {
    var a := OperatorReg.RegisterSpec(s, operators);
    OperatorKeys(s, operators);
    if a.error.Some? then a else PropReg.PropRegisterSpec(a.state, groups)
  }

  /** `unreg()`: `rpg.unregister()` and, if it returned, `ro.unregister()`. */
  function UnregSpec(s: HostState, operators: seq<seq<ClassId>>, groups: seq<seq<ClassId>>): Run
  {
    var a := PropReg.PropUnregisterSpec(s, groups);
    if a.error.Some? then a else OperatorReg.UnregisterSpec(a.state, operators)
  }

  /** A log that extends `before` by warnings and then the registration
      messages of `ids` registers `ids` and unregisters nothing. */
  lemma TailIds(before: seq<Event>, warned: seq<Event>, ids: seq<ClassId>)
    requires |before| <= |warned| && warned[..|before|] == before && AllWarned(warned[|before|..])
    ensures var l := warned + RegEvents(ids);
      |before| <= |l| && l[..|before|] == before
      && RegisteredIds(l[|before|..]) == ids && UnregisteredIds(l[|before|..]) == []
  {
    var l := warned + RegEvents(ids);
    assert l[|before|..] == warned[|before|..] + RegEvents(ids);
    IdsAppend(warned[|before|..], RegEvents(ids));
    IdsOfWarnings(warned[|before|..]);
    IdsOfRegEvents(ids);
  }

  /** The operator registrar's `register` only appends to the log, and
      registers a prefix of its classes in order (all of them exactly when it
      completes). */
  lemma OperatorPhase(s: HostState, operators: seq<seq<ClassId>>)
    requires Known(s.classes, Flatten(operators))
    ensures var all := Flatten(operators);
      var a := OperatorReg.RegisterSpec(s, operators);
      var k := RegisteredCount(OperatorReg.Prepared(s, operators), all);
      && |s.log| <= |a.state.log| && a.state.log[..|s.log|] == s.log
      && RegisteredIds(a.state.log[|s.log|..]) == all[..k]
      && UnregisteredIds(a.state.log[|s.log|..]) == []
      && (a.error.None? <==> k == |all|)
  {
    OperatorReg.RegisterOrder(s, operators);
    var k := RegisteredCount(OperatorReg.Prepared(s, operators), Flatten(operators));
    TailIds(s.log, OperatorReg.Prepared(s, operators).log, Flatten(operators)[..k]);
  }

  /** The operator registrar leaves every class record in place, so the
      groups are still known to the property-group registrar. */
  lemma OperatorKeys(s: HostState, operators: seq<seq<ClassId>>)
    requires Known(s.classes, Flatten(operators))
    ensures OperatorReg.RegisterSpec(s, operators).state.classes.Keys == s.classes.Keys
  {
    var all := Flatten(operators);
    OperatorReg.WarnSeqOnlyWarns(s, all);
    OperatorReg.GenerateSeqSpec(OperatorReg.WarnSeq(s, all), all);
    RegistryOnly(OperatorReg.Prepared(s, operators), all);
  }

  /** The group warnings only append warnings to the log. */
  lemma GroupWarningsLog(s: HostState, ids: seq<ClassId>)
    requires Known(s.classes, ids)
    ensures var w := PropReg.GroupWarnSeq(s, ids);
      w.classes == s.classes && |s.log| <= |w.log| && w.log[..|s.log|] == s.log && AllWarned(w.log[|s.log|..])
  {
    PropReg.GroupWarnSeqSpec(s, ids);
    var w := PropReg.GroupWarnSeq(s, ids);
    var ws := w.log[|s.log|..];
    forall i | 0 <= i < |ws| ensures ws[i].Warned? {
      assert ws[i] == w.log[i + |s.log|];
    }
  }

  /** The property-group registrar's `register` keeps the classes, only
      appends to the log, and registers a prefix of its groups in order (all
      of them exactly when it completes). */
  lemma GroupPhase(s: HostState, groups: seq<seq<ClassId>>)
    requires Known(s.classes, Flatten(groups))
    ensures var all := Flatten(groups);
      var a := PropReg.PropRegisterSpec(s, groups);
      var k := RegisteredCount(PropReg.GroupWarnSeq(s, all), all);
      && a.state.classes == s.classes
      && |s.log| <= |a.state.log| && a.state.log[..|s.log|] == s.log
      && RegisteredIds(a.state.log[|s.log|..]) == all[..k]
      && UnregisteredIds(a.state.log[|s.log|..]) == []
      && (a.error.None? <==> k == |all|)
  {
    var all := Flatten(groups);
    GroupWarningsLog(s, all);
    var w := PropReg.GroupWarnSeq(s, all);
    RegisterSeqTrace(w, all);
    var k := RegisteredCount(w, all);
    RegistryOnly(w, all);
    var reg := RegisterSeq(w, all);
    if reg.error.None? {
      PropReg.AssignSeqSpec(reg.state, all);
    }
    TailIds(s.log, w.log, all[..k]);
  }

  /** `reg` registers every operator before any property group: the log of
      `reg` is the operator phase followed by the group phase, the first
      registers only operators (in module-then-class order) and the second
      only groups, and no group is registered when an operator registration
      fails. */
  lemma RegOrder(s: HostState, operators: seq<seq<ClassId>>, groups: seq<seq<ClassId>>)
    requires Known(s.classes, Flatten(operators)) && Known(s.classes, Flatten(groups))
    ensures var a := OperatorReg.RegisterSpec(s, operators);
      var r := RegSpec(s, operators, groups);
      var m := |a.state.log|;
      |s.log| <= m <= |r.state.log| && r.state.log[..m] == a.state.log && r.state.log[..|s.log|] == s.log
      && RegisteredIds(r.state.log[|s.log|..m]) <= Flatten(operators)
      && RegisteredIds(r.state.log[m..]) <= Flatten(groups)
      && UnregisteredIds(r.state.log[|s.log|..]) == []
      && (a.error.Some? ==> r == a)
      && (r.error.None? ==> RegisteredIds(r.state.log[|s.log|..]) == Flatten(operators) + Flatten(groups))
  {
    var a := OperatorReg.RegisterSpec(s, operators);
    OperatorPhase(s, operators);
    var k := RegisteredCount(OperatorReg.Prepared(s, operators), Flatten(operators));
    OperatorKeys(s, operators);
    var r := RegSpec(s, operators, groups);
    if a.error.None? {
      assert r == PropReg.PropRegisterSpec(a.state, groups);
      GroupPhase(a.state, groups);
      var k2 := RegisteredCount(PropReg.GroupWarnSeq(a.state, Flatten(groups)), Flatten(groups));
      PhasesJoin(s.log, a.state.log, r.state.log);
      assert Flatten(operators)[..k] == Flatten(operators);
      assert k2 == |Flatten(groups)| ==> Flatten(groups)[..k2] == Flatten(groups);
    } else {
      assert r == a;
      PhasesJoin(s.log, a.state.log, r.state.log);
    }
  }

  /** Splitting a log that grew in two phases. */
  lemma PhasesJoin(base: seq<Event>, mid: seq<Event>, all: seq<Event>)
    requires |base| <= |mid| <= |all| && mid[..|base|] == base && all[..|mid|] == mid
    ensures all[..|base|] == base && all[|base|..|mid|] == mid[|base|..]
    ensures RegisteredIds(all[|base|..]) == RegisteredIds(mid[|base|..]) + RegisteredIds(all[|mid|..])
    ensures UnregisteredIds(all[|base|..]) == UnregisteredIds(mid[|base|..]) + UnregisteredIds(all[|mid|..])
  {
    assert all[|base|..] == all[|base|..|mid|] + all[|mid|..];
    assert all[|base|..|mid|] == mid[|base|..];
    IdsAppend(all[|base|..|mid|], all[|mid|..]);
  }

  /** `unreg` unregisters every property group before any operator: the log is
      the group phase (groups in module order, each module's in reverse)
      followed by the operator phase, no operator is unregistered when a group
      unregistration fails, and no pointer property is removed. */
  lemma UnregOrder(s: HostState, operators: seq<seq<ClassId>>, groups: seq<seq<ClassId>>)
    ensures var a := PropReg.PropUnregisterSpec(s, groups);
      var u := UnregSpec(s, operators, groups);
      var m := |a.state.log|;
      |s.log| <= m <= |u.state.log| && u.state.log[..m] == a.state.log && u.state.log[..|s.log|] == s.log
      && UnregisteredIds(u.state.log[|s.log|..m]) <= FlattenReversed(groups)
      && UnregisteredIds(u.state.log[m..]) <= FlattenReversed(operators)
      && RegisteredIds(u.state.log[|s.log|..]) == []
      && (a.error.Some? ==> u == a)
      && u.state.pointers == s.pointers && u.state.classes == s.classes
  {
    var a := PropReg.PropUnregisterSpec(s, groups);
    UnregPhase(s, FlattenReversed(groups));
    var u := UnregSpec(s, operators, groups);
    if a.error.None? {
      UnregPhase(a.state, FlattenReversed(operators));
      PhasesJoin(s.log, a.state.log, u.state.log);
    } else {
      assert u == a;
      PhasesJoin(s.log, a.state.log, u.state.log);
    }
  }

  /** A loop of `unregister_class` calls only appends the messages of a
      prefix of its classes to the log, and touches neither the classes nor
      the pointers. */
  lemma UnregPhase(x: HostState, ids: seq<ClassId>)
    ensures var a := UnregisterSeq(x, ids);
      var k := UnregisteredCount(x, ids);
      |x.log| <= |a.state.log| && a.state.log[..|x.log|] == x.log
      && UnregisteredIds(a.state.log[|x.log|..]) == ids[..k] && RegisteredIds(a.state.log[|x.log|..]) == []
      && a.state.pointers == x.pointers && a.state.classes == x.classes
  {
    UnregisterSeqTrace(x, ids);
    var k := UnregisteredCount(x, ids);
    var a := UnregisterSeq(x, ids);
    assert a.state.log[|x.log|..] == UnregEvents(ids[..k]);
    IdsOfRegEvents(ids[..k]);
  }

  /** Unregistration succeeds or fails by the registry alone. */
  lemma UnregisterOnSameRegistry(x: HostState, y: HostState, ids: seq<ClassId>)
    requires x.registered == y.registered
    requires UnregisterSeq(x, ids).error.None?
    ensures var b := UnregisterSeq(y, ids);
      b.error.None? && b.state == y.(registered := UnregisterSeq(x, ids).state.registered, log := y.log + UnregEvents(ids))
  {
    UnregisterSeqCompletes(x, ids);
    UnregisterSeqCompletes(y, ids);
    UnregisterSeqTrace(x, ids);
    var ka := UnregisteredCount(x, ids);
    UnregisterSeqTrace(y, ids);
    assert ids[..ka] == ids;
  }

  /** After a completed `reg`, `unreg` completes, restores the registry and
      keeps the pointer properties; its log adds the group unregistrations
      and then the operator unregistrations. */
  lemma RoundTripState(s: HostState, operators: seq<seq<ClassId>>, groups: seq<seq<ClassId>>)
    requires Known(s.classes, Flatten(operators)) && Known(s.classes, Flatten(groups))
    requires RegSpec(s, operators, groups).error.None?
    ensures var r := RegSpec(s, operators, groups).state;
      var u := UnregSpec(r, operators, groups);
      u.error.None? && u.state.registered == s.registered && u.state.pointers == r.pointers
      && u.state.log == r.log + UnregEvents(FlattenReversed(groups)) + UnregEvents(FlattenReversed(operators))
  {
    var a := OperatorReg.RegisterSpec(s, operators);
    OperatorKeys(s, operators);
    assert a.error.None?;
    var r := PropReg.PropRegisterSpec(a.state, groups);
    assert r == RegSpec(s, operators, groups);
    OperatorReg.RegisterThenUnregister(s, operators);
    PropReg.PropRoundTrip(a.state, groups);
    var g := PropReg.PropUnregisterSpec(r.state, groups);
    UnregisterOnSameRegistry(a.state, g.state, FlattenReversed(operators));
  }

  /** After a completed `reg`, `unreg` completes, restores the registry, keeps
      the pointer properties, and unregisters exactly the classes `reg`
      registered, as often as it registered them. */
  lemma RegUnregRoundTrip(s: HostState, operators: seq<seq<ClassId>>, groups: seq<seq<ClassId>>)
    requires Known(s.classes, Flatten(operators)) && Known(s.classes, Flatten(groups))
    requires RegSpec(s, operators, groups).error.None?
    ensures var r := RegSpec(s, operators, groups).state;
      var u := UnregSpec(r, operators, groups);
      u.error.None? && u.state.registered == s.registered && u.state.pointers == r.pointers
      && |s.log| <= |r.log| <= |u.state.log| && u.state.log[..|r.log|] == r.log
      && multiset(UnregisteredIds(u.state.log[|r.log|..])) == multiset(RegisteredIds(r.log[|s.log|..]))
  {
    RoundTripState(s, operators, groups);
    RegisteredAll(s, operators, groups);
    var r := RegSpec(s, operators, groups).state;
    var gs := FlattenReversed(groups);
    var os := FlattenReversed(operators);
    TailUnregisters(gs, os);
    PermutedBack(operators, groups);
    RoundTripLogs(s.log, r.log, UnregEvents(gs), UnregEvents(os), UnregSpec(r, operators, groups).state.log,
                  Flatten(operators) + Flatten(groups), gs + os);
  }

  /** The log arithmetic of the round trip. */
  lemma RoundTripLogs(before: seq<Event>, regLog: seq<Event>, first: seq<Event>, second: seq<Event>, u: seq<Event>,
                      ids: seq<ClassId>, back: seq<ClassId>)
    requires |before| <= |regLog| && RegisteredIds(regLog[|before|..]) == ids
    requires UnregisteredIds(first + second) == back && multiset(back) == multiset(ids)
    requires u == regLog + first + second
    ensures |regLog| <= |u| && u[..|regLog|] == regLog
    ensures multiset(UnregisteredIds(u[|regLog|..])) == multiset(RegisteredIds(regLog[|before|..]))
  {
    var tail := first + second;
    assert u == regLog + tail;
    assert u[|regLog|..] == tail;
  }

  lemma TailUnregisters(gs: seq<ClassId>, os: seq<ClassId>)
    ensures UnregisteredIds(UnregEvents(gs) + UnregEvents(os)) == gs + os
  {
    IdsAppend(UnregEvents(gs), UnregEvents(os));
    IdsOfRegEvents(gs);
    IdsOfRegEvents(os);
  }

  lemma PermutedBack(operators: seq<seq<ClassId>>, groups: seq<seq<ClassId>>)
    ensures multiset(FlattenReversed(groups) + FlattenReversed(operators)) == multiset(Flatten(operators) + Flatten(groups))
  {
    FlattenReversedPermutes(groups);
    FlattenReversedPermutes(operators);
  }

  /** A completed `reg` registers the operators and then the groups: one
      module-then-class walk over the operator lists followed by the group
      lists. */
  lemma RegisteredAll(s: HostState, operators: seq<seq<ClassId>>, groups: seq<seq<ClassId>>)
    requires Known(s.classes, Flatten(operators)) && Known(s.classes, Flatten(groups))
    requires RegSpec(s, operators, groups).error.None?
    ensures var r := RegSpec(s, operators, groups).state;
      |s.log| <= |r.log| && RegisteredIds(r.log[|s.log|..]) == Flatten(operators) + Flatten(groups)
      && RegisteredIds(r.log[|s.log|..]) == Flatten(operators + groups)
  {
    RegOrder(s, operators, groups);
    FlattenAppend(operators, groups);
  }

  /** The two registrars of `core/register.py`, built once from one module list. */
  class Registration {
    const ro: OperatorReg.RegisterOperators
    const rpg: PropReg.RegisterPropertyGroups

    constructor(ro: OperatorReg.RegisterOperators, rpg: PropReg.RegisterPropertyGroups)
      ensures this.ro == ro && this.rpg == rpg
    {
      this.ro := ro;
      this.rpg := rpg;
    }

    /** `ro = RO(modules)` and `rpg = RPG(modules)`, with `modules` the list
        computed at import time: both discover over the same modules, and the
        first module that is not loaded raises `KeyError`. */
    static method Create(w: World, modules: seq<string>) returns (r: Result<Registration>)
      ensures var d := DiscoverAll(w.sysModules, w.classes, modules, w.operatorType, DirectBase);
        var e := DiscoverAll(w.sysModules, w.classes, modules, w.propertyGroupType, DirectBase);
        (r.Ok? <==> forall k :: 0 <= k < |modules| ==> modules[k] in w.sysModules)
        && (r.Err? ==> r.error == d.error)
        && (r.Ok? ==> fresh(r.value) && r.value.ro.operators == d.value && r.value.rpg.propertyGroups == e.value
                      && Known(w.classes, Flatten(d.value)) && Known(w.classes, Flatten(e.value)))
    {
      var ro := OperatorReg.RegisterOperators.Create(w, modules);
      if ro.Err? {
        r := Err(ro.error);
        return;
      }
      // every module is loaded, so the group discovery succeeds as well
      var e := DiscoverAll(w.sysModules, w.classes, modules, w.propertyGroupType, DirectBase);
      PropReg.DiscoveredKnown(w.State(), w.sysModules, modules, w.propertyGroupType);
      var rpg := new PropReg.RegisterPropertyGroups(e.value);
      var reg := new Registration(ro.value, rpg);
      r := Ok(reg);
    }

    /** `reg()` */
    method Reg(w: World) returns (err: Option<Error>)
      requires Known(w.classes, Flatten(ro.operators)) && Known(w.classes, Flatten(rpg.propertyGroups))
      modifies w
      ensures Run(w.State(), err) == RegSpec(old(w.State()), ro.operators, rpg.propertyGroups)
    {
      ghost var s := w.State();
      err := ro.Register(w);
      if err.Some? {
        return;
      }
      OperatorKeys(s, ro.operators);
      err := rpg.Register(w);
    }

    /** `unreg()` */
    method Unreg(w: World) returns (err: Option<Error>)
      modifies w
      ensures Run(w.State(), err) == UnregSpec(old(w.State()), ro.operators, rpg.propertyGroups)
    {
      err := rpg.Unregister(w);
      if err.Some? {
        return;
      }
      err := ro.Unregister(w);
    }
  }
}

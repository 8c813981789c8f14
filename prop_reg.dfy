/** `core/class_register/prop_reg.py`: `RegisterPropertyGroups` discovers the
    property-group classes of a list of modules, warns about undecorated
    ones, registers all of them, and then attaches a pointer property for
    every decorated one to the host type the decorator named. */
module PropReg {
  import opened PyObjects
  import opened CoreUtils
  import opened Host

  /** `all([property_group_type, property_group_attribute])` */
  predicate Decorated(c: PyClass)
  {
    ClassTruthy(c.propertyGroupType) && StrTruthy(c.propertyGroupAttribute)
  }

  /** The pointer a decorated group asks for: (host type, attribute name). */
  function PointerKey(c: PyClass): (ClassId, string)
    requires Decorated(c)
  {
    (c.propertyGroupType.v, c.propertyGroupAttribute.v)
  }

  /** The `warnings` loop over `ids`. */
  function GroupWarnSeq(s: HostState, ids: seq<ClassId>): HostState
    requires Known(s.classes, ids)
    decreases |ids|
  {
    if ids == [] then s
    else
      var c := s.classes[ids[0]];
      GroupWarnSeq(s.(log := s.log + if Decorated(c) then [] else [Warned(SkippingGroup(ids[0]))]), ids[1..])
  }

  /** The `assign_attributes` loop over `ids`. */
  function AssignSeq(s: HostState, ids: seq<ClassId>): HostState
    requires Known(s.classes, ids)
    decreases |ids|
  {
    if ids == [] then s
    else
      var c := s.classes[ids[0]];
      AssignSeq(if Decorated(c) then s.(pointers := s.pointers[PointerKey(c) := ids[0]]) else s, ids[1..])
  }

  /** `register`: warnings, `register_class` for every group, and only when all
      of them are registered, the pointer properties. */
  function PropRegisterSpec(s: HostState, groups: seq<seq<ClassId>>): Run
    requires Known(s.classes, Flatten(groups))
  {
    var all := Flatten(groups);
    GroupWarnSeqSpec(s, all);
    var w := GroupWarnSeq(s, all);
    var r := RegisterSeq(w, all);
    RegistryOnly(w, all);
    if r.error.Some? then r else Run(AssignSeq(r.state, all), None)
  }

  /** `unregister`: modules forward, each module's groups in reverse. */
  function PropUnregisterSpec(s: HostState, groups: seq<seq<ClassId>>): Run
  {
    UnregisterSeq(s, FlattenReversed(groups))
  }

  /** The `Skipping` warnings for the undecorated groups of `ids`, one per
      occurrence, in list order. */
  function SkipWarnings(classes: map<ClassId, PyClass>, ids: seq<ClassId>): (r: seq<Event>)
    requires Known(classes, ids)
    ensures |r| <= |ids|
  {
    if ids == [] then []
    else (if Decorated(classes[ids[0]]) then [] else [Warned(SkippingGroup(ids[0]))]) + SkipWarnings(classes, ids[1..])
  }

  /** `SkipWarnings` holds only `Skipping` warnings, and the one for `x` as
      often as `x` occurs in `ids` when it is undecorated, never otherwise. */
  lemma {:induction false} SkipWarningsCount(classes: map<ClassId, PyClass>, ids: seq<ClassId>, x: ClassId)
    requires Known(classes, ids)
    decreases |ids|
    ensures forall e :: e in SkipWarnings(classes, ids) ==> e.Warned? && e.warning.SkippingGroup?
    ensures multiset(SkipWarnings(classes, ids))[Warned(SkippingGroup(x))]
      == if x in ids && !Decorated(classes[x]) then multiset(ids)[x] else 0
  {
    if ids != [] {
      var y, rest := ids[0], ids[1..];
      var head := if Decorated(classes[y]) then [] else [Warned(SkippingGroup(y))];
      SkipWarningsCount(classes, rest, x);
      assert SkipWarnings(classes, ids) == head + SkipWarnings(classes, rest);
      assert multiset(SkipWarnings(classes, ids)) == multiset(head) + multiset(SkipWarnings(classes, rest));
      assert ids == [y] + rest;
      assert multiset(ids)[x] == (if ids[0] == x then 1 else 0) + multiset(ids[1..])[x];
      assert multiset(head)[Warned(SkippingGroup(x))] == if y == x && !Decorated(classes[y]) then 1 else 0;
    }
  }

  /** The warnings loop appends exactly `SkipWarnings` to the log and changes nothing else. */
  lemma {:induction false} GroupWarnSeqLog(s: HostState, ids: seq<ClassId>)
    requires Known(s.classes, ids)
    decreases |ids|
    ensures GroupWarnSeq(s, ids) == s.(log := s.log + SkipWarnings(s.classes, ids))
  {
    if ids != [] {
      var c := s.classes[ids[0]];
      var added := if Decorated(c) then [] else [Warned(SkippingGroup(ids[0]))];
      var sNext := s.(log := s.log + added);
      GroupWarnSeqLog(sNext, ids[1..]);
      assert s.log + added + SkipWarnings(s.classes, ids[1..]) == s.log + SkipWarnings(s.classes, ids);
    }
  }

  /** `warnings` changes nothing but the log, and logs exactly one
      `Skipping` warning for every occurrence of an undecorated group, in
      list order, and none for a decorated one. */
  lemma GroupWarnSeqSpec(s: HostState, ids: seq<ClassId>)
    requires Known(s.classes, ids)
    ensures var r := GroupWarnSeq(s, ids);
      r == s.(log := r.log) && |s.log| <= |r.log| && r.log[..|s.log|] == s.log
      && r.log[|s.log|..] == SkipWarnings(s.classes, ids)
      && (forall x :: multiset(r.log[|s.log|..])[Warned(SkippingGroup(x))]
            == if x in ids && !Decorated(s.classes[x]) then multiset(ids)[x] else 0)
      && (forall i :: |s.log| <= i < |r.log| ==>
            r.log[i].Warned? && r.log[i].warning.SkippingGroup? && r.log[i].warning.cls in ids
            && !Decorated(s.classes[r.log[i].warning.cls]))
      && (forall x :: x in ids && !Decorated(s.classes[x]) ==> Warned(SkippingGroup(x)) in r.log[|s.log|..])
  {
    GroupWarnSeqSound(s, ids);
    GroupWarnSeqComplete(s, ids);
    GroupWarnSeqLog(s, ids);
    var r := GroupWarnSeq(s, ids);
    assert r.log[|s.log|..] == SkipWarnings(s.classes, ids);
    forall x ensures multiset(r.log[|s.log|..])[Warned(SkippingGroup(x))]
      == if x in ids && !Decorated(s.classes[x]) then multiset(ids)[x] else 0
    {
      SkipWarningsCount(s.classes, ids, x);
    }
  }

  /** The warnings loop only appends, and only `Skipping` warnings for undecorated groups of `ids`. */
  lemma {:induction false} GroupWarnSeqSound(s: HostState, ids: seq<ClassId>)
    requires Known(s.classes, ids)
    decreases |ids|
    ensures var r := GroupWarnSeq(s, ids);
      r == s.(log := r.log) && |s.log| <= |r.log| && r.log[..|s.log|] == s.log
      && (forall i :: |s.log| <= i < |r.log| ==>
            r.log[i].Warned? && r.log[i].warning.SkippingGroup? && r.log[i].warning.cls in ids
            && !Decorated(s.classes[r.log[i].warning.cls]))
  {
    if ids != [] {
      var c := s.classes[ids[0]];
      var added := if Decorated(c) then [] else [Warned(SkippingGroup(ids[0]))];
      var sNext := s.(log := s.log + added);
      GroupWarnSeqSound(sNext, ids[1..]);
      var r := GroupWarnSeq(s, ids);
      assert r == GroupWarnSeq(sNext, ids[1..]) && sNext.classes == s.classes;
      assert r.log[..|s.log|] == sNext.log[..|s.log|];
      forall i | |s.log| <= i < |r.log|
        ensures r.log[i].Warned? && r.log[i].warning.SkippingGroup? && r.log[i].warning.cls in ids
                && !Decorated(s.classes[r.log[i].warning.cls])
      {
        if i < |sNext.log| {
          assert r.log[i] == sNext.log[i] == added[i - |s.log|];
        } else {
          assert r.log[i].warning.cls in ids[1..];
        }
      }
    }
  }

  /** Every undecorated group of `ids` gets its `Skipping` warning. */
  lemma {:induction false} GroupWarnSeqComplete(s: HostState, ids: seq<ClassId>)
    requires Known(s.classes, ids)
    decreases |ids|
    ensures var r := GroupWarnSeq(s, ids);
      |s.log| <= |r.log|
      && (forall x :: x in ids && !Decorated(s.classes[x]) ==> Warned(SkippingGroup(x)) in r.log[|s.log|..])
  {
    if ids != [] {
      var c := s.classes[ids[0]];
      var added := if Decorated(c) then [] else [Warned(SkippingGroup(ids[0]))];
      var sNext := s.(log := s.log + added);
      GroupWarnSeqComplete(sNext, ids[1..]);
      GroupWarnSeqSound(sNext, ids[1..]);
      var r := GroupWarnSeq(s, ids);
      assert r == GroupWarnSeq(sNext, ids[1..]) && sNext.classes == s.classes;
      forall x | x in ids && !Decorated(s.classes[x]) ensures Warned(SkippingGroup(x)) in r.log[|s.log|..] {
        if x == ids[0] {
          assert r.log[|s.log|] == sNext.log[|s.log|] == Warned(SkippingGroup(x));
        } else {
          assert x in ids[1..];
          var j :| 0 <= j < |r.log[|sNext.log|..]| && r.log[|sNext.log|..][j] == Warned(SkippingGroup(x));
          assert r.log[|s.log|..][j + |added|] == Warned(SkippingGroup(x));
        }
      }
    }
  }

  /** `assign_attributes` changes only the pointer properties: every pointer a
      decorated group in `ids` asks for ends up attached, to one of the groups
      asking for it, and every other pointer is as it was. */
  lemma {:induction false} AssignSeqSpec(s: HostState, ids: seq<ClassId>)
    requires Known(s.classes, ids)
    decreases |ids|
    ensures var r := AssignSeq(s, ids);
      r == s.(pointers := r.pointers)
      && (forall g :: g in ids && Decorated(s.classes[g]) ==>
            PointerKey(s.classes[g]) in r.pointers
            && var h := r.pointers[PointerKey(s.classes[g])];
               h in ids && Decorated(s.classes[h]) && PointerKey(s.classes[h]) == PointerKey(s.classes[g]))
      && (forall k :: (forall g :: g in ids && Decorated(s.classes[g]) ==> PointerKey(s.classes[g]) != k) ==>
            (k in r.pointers <==> k in s.pointers) && (k in s.pointers ==> r.pointers[k] == s.pointers[k]))
  {
    if ids != [] {
      var c := s.classes[ids[0]];
      var sNext := if Decorated(c) then s.(pointers := s.pointers[PointerKey(c) := ids[0]]) else s;
      AssignSeqSpec(sNext, ids[1..]);
      var r := AssignSeq(s, ids);
      assert r == AssignSeq(sNext, ids[1..]);
      forall g | g in ids && Decorated(s.classes[g])
        ensures PointerKey(s.classes[g]) in r.pointers
                && var h := r.pointers[PointerKey(s.classes[g])];
                   h in ids && Decorated(s.classes[h]) && PointerKey(s.classes[h]) == PointerKey(s.classes[g])
      {
        if g !in ids[1..] {
          assert g == ids[0];
          var k := PointerKey(c);
          if exists gNext :: gNext in ids[1..] && Decorated(s.classes[gNext]) && PointerKey(s.classes[gNext]) == k {
            var gNext :| gNext in ids[1..] && Decorated(s.classes[gNext]) && PointerKey(s.classes[gNext]) == k;
            assert gNext in ids;
          }
        }
      }
    }
  }

  /** The pointers are attached only after every group is registered, and not
      at all when a registration fails; every discovered group is registered,
      decorated or not. */
  lemma PropRegisterOrder(s: HostState, groups: seq<seq<ClassId>>)
    requires Known(s.classes, Flatten(groups))
    ensures var all := Flatten(groups);
      var w := GroupWarnSeq(s, all);
      var reg := RegisterSeq(w, all);
      var r := PropRegisterSpec(s, groups);
      (reg.error.Some? ==> r == reg && r.state.pointers == s.pointers)
      && (reg.error.None? ==>
            r.error.None?
            && (forall x :: x in all ==> x in reg.state.registered)
            && Known(reg.state.classes, all) && r.state == AssignSeq(reg.state, all))
  {
    var all := Flatten(groups);
    GroupWarnSeqSpec(s, all);
    var w := GroupWarnSeq(s, all);
    RegistryOnly(w, all);
    RegisterSeqTrace(w, all);
    var k := RegisteredCount(w, all);
    assert k == |all| ==> all[..k] == all;
  }

  /** `register` completes exactly when no group is discovered twice and none
      is registered already or refused. */
  lemma PropRegisterCompletes(s: HostState, groups: seq<seq<ClassId>>)
    requires Known(s.classes, Flatten(groups))
    ensures PropRegisterSpec(s, groups).error.None? <==>
              Distinct(Flatten(groups))
              && forall x :: x in Flatten(groups) ==> x !in s.registered && x !in s.refused
  {
    var all := Flatten(groups);
    GroupWarnSeqSpec(s, all);
    RegisterSeqCompletes(GroupWarnSeq(s, all), all);
  }

  /** `unregister` leaves the pointer properties attached at registration in
      place, and after a completed `register` it completes and restores the
      registry. */
  lemma PropUnregisterKeepsPointers(s: HostState, groups: seq<seq<ClassId>>)
    ensures PropUnregisterSpec(s, groups).state.pointers == s.pointers
    ensures PropUnregisterSpec(s, groups).state.classes == s.classes
  {
    RegistryOnly(s, FlattenReversed(groups));
  }

  lemma PropRoundTrip(s: HostState, groups: seq<seq<ClassId>>)
    requires Known(s.classes, Flatten(groups))
    requires PropRegisterSpec(s, groups).error.None?
    ensures var r := PropRegisterSpec(s, groups).state;
      var u := PropUnregisterSpec(r, groups);
      u.error.None? && u.state.registered == s.registered && u.state.pointers == r.pointers
      && u.state.log == r.log + UnregEvents(FlattenReversed(groups))
  {
    var all := Flatten(groups);
    GroupWarnSeqSpec(s, all);
    var w := GroupWarnSeq(s, all);
    RegistryOnly(w, all);
    var reg := RegisterSeq(w, all);
    AssignSeqSpec(reg.state, all);
    var r := AssignSeq(reg.state, all);
    var back := FlattenReversed(groups);
    FlattenReversedPermutes(groups);
    RegisterUnregisterRoundTrip(w, all, back);
    // the pointer map plays no part in unregistration
    UnregisterSeqTrace(reg.state, back);
    var k1 := UnregisteredCount(reg.state, back);
    UnregisterSeqTrace(r, back);
    var k := UnregisteredCount(r, back);
    UnregisterSeqCompletes(reg.state, back);
    UnregisterSeqCompletes(r, back);
    assert back[..k] == back;
    assert back[..k1] == back;
  }

  /** The groups `Create` discovers have class records. */
  lemma DiscoveredKnown(w: HostState, sysModules: map<string, seq<Value>>, modules: seq<string>, t: ClassId)
    requires DiscoverAll(sysModules, w.classes, modules, t, DirectBase).Ok?
    ensures Known(w.classes, Flatten(DiscoverAll(sysModules, w.classes, modules, t, DirectBase).value))
  {
    var gs := DiscoverAll(sysModules, w.classes, modules, t, DirectBase).value;
    forall x | x in Flatten(gs) ensures x in w.classes {
      FlattenMember(gs, x);
      var m :| 0 <= m < |gs| && x in gs[m];
      DiscoverMembers(w.classes, sysModules[modules[m]], t, DirectBase);
    }
  }

  class RegisterPropertyGroups {
    /** One list of property-group classes per module. */
    const propertyGroups: seq<seq<ClassId>>

    constructor(propertyGroups: seq<seq<ClassId>>)
      ensures this.propertyGroups == propertyGroups
    {
      this.propertyGroups := propertyGroups;
    }

    /** `RegisterPropertyGroups(modules)`: `get_classes(mod, bpy.types.PropertyGroup)`
        for every module. */
    static method Create(w: World, modules: seq<string>) returns (r: Result<RegisterPropertyGroups>)
      ensures var d := DiscoverAll(w.sysModules, w.classes, modules, w.propertyGroupType, DirectBase);
        (r.Ok? <==> d.Ok?)
        && (r.Err? ==> r.error == d.error)
        && (r.Ok? ==> fresh(r.value) && r.value.propertyGroups == d.value && Known(w.classes, Flatten(d.value)))
    {
      var d := DiscoverAll(w.sysModules, w.classes, modules, w.propertyGroupType, DirectBase);
      if d.Err? {
        r := Err(d.error);
      } else {
        DiscoveredKnown(w.State(), w.sysModules, modules, w.propertyGroupType);
        var rpg := new RegisterPropertyGroups(d.value);
        r := Ok(rpg);
      }
    }

    /** `warnings()` */
    method Warnings(w: World)
      requires Known(w.classes, Flatten(propertyGroups))
      modifies w
      ensures w.State() == GroupWarnSeq(old(w.State()), Flatten(propertyGroups))
    {
      var i := 0;
      while i < |propertyGroups|
        invariant 0 <= i <= |propertyGroups|
        invariant w.classes == old(w.classes)
        invariant Known(w.classes, Flatten(propertyGroups[i..]))
        invariant GroupWarnSeq(old(w.State()), Flatten(propertyGroups))
                  == GroupWarnSeq(w.State(), Flatten(propertyGroups[i..]))
      {
        RestStart(propertyGroups, i);
        var j := 0;
        while j < |propertyGroups[i]|
          invariant 0 <= j <= |propertyGroups[i]|
          invariant w.classes == old(w.classes)
          invariant Known(w.classes, propertyGroups[i][j..] + Flatten(propertyGroups[i + 1..]))
          invariant GroupWarnSeq(old(w.State()), Flatten(propertyGroups))
                    == GroupWarnSeq(w.State(), propertyGroups[i][j..] + Flatten(propertyGroups[i + 1..]))
        {
          RestStep(propertyGroups, i, j);
          var id := propertyGroups[i][j];
          var c := w.classes[id];
          if !(ClassTruthy(c.propertyGroupType) && StrTruthy(c.propertyGroupAttribute)) {
            w.Warn(SkippingGroup(id));
          } else {
            assert w.log + [] == w.log;
          }
          j := j + 1;
        }
        assert propertyGroups[i][j..] + Flatten(propertyGroups[i + 1..]) == Flatten(propertyGroups[i + 1..]);
        i := i + 1;
      }
    }

    /** `assign_attributes()` */
    method AssignAttributes(w: World)
      requires Known(w.classes, Flatten(propertyGroups))
      modifies w
      ensures w.State() == AssignSeq(old(w.State()), Flatten(propertyGroups))
    {
      var i := 0;
      while i < |propertyGroups|
        invariant 0 <= i <= |propertyGroups|
        invariant w.classes == old(w.classes)
        invariant Known(w.classes, Flatten(propertyGroups[i..]))
        invariant AssignSeq(old(w.State()), Flatten(propertyGroups))
                  == AssignSeq(w.State(), Flatten(propertyGroups[i..]))
      {
        RestStart(propertyGroups, i);
        var j := 0;
        while j < |propertyGroups[i]|
          invariant 0 <= j <= |propertyGroups[i]|
          invariant w.classes == old(w.classes)
          invariant Known(w.classes, propertyGroups[i][j..] + Flatten(propertyGroups[i + 1..]))
          invariant AssignSeq(old(w.State()), Flatten(propertyGroups))
                    == AssignSeq(w.State(), propertyGroups[i][j..] + Flatten(propertyGroups[i + 1..]))
        {
          RestStep(propertyGroups, i, j);
          var id := propertyGroups[i][j];
          var c := w.classes[id];
          if StrTruthy(c.propertyGroupAttribute) && ClassTruthy(c.propertyGroupType) {
            // `str()` of the attribute name is the name itself
            w.SetPointer(c.propertyGroupType.v, c.propertyGroupAttribute.v, id);
          }
          j := j + 1;
        }
        assert propertyGroups[i][j..] + Flatten(propertyGroups[i + 1..]) == Flatten(propertyGroups[i + 1..]);
        i := i + 1;
      }
    }

    /** `register()` */
    method Register(w: World) returns (err: Option<Error>)
      requires Known(w.classes, Flatten(propertyGroups))
      modifies w
      ensures Run(w.State(), err) == PropRegisterSpec(old(w.State()), propertyGroups)
    {
      var all := Flatten(propertyGroups);
      GroupWarnSeqSpec(w.State(), all);
      Warnings(w);
      ghost var p := w.State();
      RegistryOnly(p, all);
      err := None;
      var i := 0;
      while i < |propertyGroups|
        invariant 0 <= i <= |propertyGroups|
        invariant err.None?
        invariant w.classes == p.classes
        invariant RegisterSeq(p, all) == RegisterSeq(w.State(), Flatten(propertyGroups[i..]))
      {
        RestStart(propertyGroups, i);
        var j := 0;
        while j < |propertyGroups[i]|
          invariant 0 <= j <= |propertyGroups[i]|
          invariant err.None?
          invariant w.classes == p.classes
          invariant RegisterSeq(p, all) == RegisterSeq(w.State(), propertyGroups[i][j..] + Flatten(propertyGroups[i + 1..]))
        {
          RestStep(propertyGroups, i, j);
          err := w.RegisterClass(propertyGroups[i][j]);
          if err.Some? {
            return;
          }
          j := j + 1;
        }
        assert propertyGroups[i][j..] + Flatten(propertyGroups[i + 1..]) == Flatten(propertyGroups[i + 1..]);
        i := i + 1;
      }
      assert propertyGroups[i..] == [];
      AssignAttributes(w);
    }

    /** `unregister()` */
    method Unregister(w: World) returns (err: Option<Error>)
      modifies w
      ensures Run(w.State(), err) == PropUnregisterSpec(old(w.State()), propertyGroups)
    {
      err := None;
      var i := 0;
      while i < |propertyGroups|
        invariant 0 <= i <= |propertyGroups|
        invariant err.None?
        invariant PropUnregisterSpec(old(w.State()), propertyGroups)
                  == UnregisterSeq(w.State(), FlattenReversed(propertyGroups[i..]))
      {
        RevRestStart(propertyGroups, i);
        var j := |propertyGroups[i]|;
        while j > 0
          invariant 0 <= j <= |propertyGroups[i]|
          invariant err.None?
          invariant PropUnregisterSpec(old(w.State()), propertyGroups)
                    == UnregisterSeq(w.State(), Reverse(propertyGroups[i][..j]) + FlattenReversed(propertyGroups[i + 1..]))
        {
          RevRestStep(propertyGroups, i, j);
          err := w.UnregisterClass(propertyGroups[i][j - 1]);
          if err.Some? {
            return;
          }
          j := j - 1;
        }
        assert Reverse(propertyGroups[i][..j]) + FlattenReversed(propertyGroups[i + 1..]) == FlattenReversed(propertyGroups[i + 1..]);
        i := i + 1;
      }
      assert propertyGroups[i..] == [];
    }
  }
}

/** `core/register/op_auto_reg.py`, the older operator registrar:
    `AutoRegisterOperators` discovers every subclass of `bpy.types.Operator`
    in one module, warns, generates attributes (tested with `hasattr` rather
    than truthiness), registers in list order and unregisters in reverse. */
module OpAutoReg {
  import opened PyObjects
  import opened PyStr
  import opened Naming
  import opened CoreUtils
  import opened Host

  /** The literal allow-list in `generate_attributes`. */
  const AutoFlagItems: set<string> := {
    "REGISTER", "UNDO", "UNDO_GROUPED", "BLOCKING", "MACRO", "GRAB_CURSOR",
    "GRAB_CURSOR_X", "GRAB_CURSOR_Y", "DEPENDS_ON_CURSOR", "PRESET", "INTERNAL"
  }

  /** The literal default `{'REGISTER', 'UNDO'}`. */
  const AutoDefaultFlags: set<string> := {"REGISTER", "UNDO"}

  /** Both registrar generations allow the same flags and default to the same ones. */
  lemma SameFlagsAsCurrent()
    ensures AutoFlagItems == OperatorFlagItems && AutoDefaultFlags == DefaultFlagItems
  {
  }

  /** The `get_classes` lambda: every class object in the module's namespace
      that is a subclass of `t` at any depth, the base itself included. */
  function SubclassesIn(sysModules: map<string, seq<Value>>, classes: map<ClassId, PyClass>,
                        moduleName: string, t: ClassId): (r: Result<seq<ClassId>>)
    ensures r.Err? <==> moduleName !in sysModules
    ensures r.Err? ==> r.error == KeyError(moduleName)
    ensures r.Ok? ==> r.value == Discover(classes, sysModules[moduleName], t, Subclass)
  {
    if moduleName in sysModules then Ok(Discover(classes, sysModules[moduleName], t, Subclass))
    else Err(KeyError(moduleName))
  }

  /** The lambda keeps a class exactly when `t` is in its MRO, as often as it
      is bound, and in namespace order. */
  lemma SubclassesInSpec(sysModules: map<string, seq<Value>>, classes: map<ClassId, PyClass>,
                         moduleName: string, t: ClassId, id: ClassId)
    requires moduleName in sysModules
    ensures var r := SubclassesIn(sysModules, classes, moduleName, t).value;
      (id in r <==> ClassObj(id) in sysModules[moduleName] && id in classes && t in classes[id].mro)
      && multiset(r)[id] == (if id in classes && t in classes[id].mro then multiset(sysModules[moduleName])[ClassObj(id)] else 0)
      && IsSubsequence(AsClassValues(r), sysModules[moduleName])
  {
    DiscoverMembers(classes, sysModules[moduleName], t, Subclass);
    DiscoverCount(classes, sysModules[moduleName], t, Subclass, id);
    DiscoverOrder(classes, sysModules[moduleName], t, Subclass);
  }

  /** `warnings` for one class: a missing description only when neither
      attribute exists, a missing prefix when the name does not start with `OT`. */
  function AutoWarnings(id: ClassId, c: PyClass): seq<Event>
  {
    (if !c.blDescription.Has() && !c.description.Has() then [Warned(MissingDescription(id))] else [])
    + (if !StartsWith(c.name, "OT") then [Warned(MissingPrefix(id))] else [])
  }

  /** A missing-description warning exactly when neither `bl_description` nor
      `description` exists (an empty one counts as present), a missing-prefix
      warning exactly when the name does not start with `OT`, and nothing else. */
  lemma AutoWarningsSpec(id: ClassId, c: PyClass)
    ensures var r := AutoWarnings(id, c);
      (Warned(MissingDescription(id)) in r <==> !c.blDescription.Has() && !c.description.Has())
      && (Warned(MissingPrefix(id)) in r <==> !StartsWith(c.name, "OT"))
      && |r| <= 2 && forall e :: e in r ==> e == Warned(MissingDescription(id)) || e == Warned(MissingPrefix(id))
  {
  }

  /** The `warnings` loop. */
  function AutoWarnSeq(s: HostState, ids: seq<ClassId>): HostState
    requires Known(s.classes, ids)
    decreases |ids|
  {
    if ids == [] then s
    else AutoWarnSeq(s.(log := s.log + AutoWarnings(ids[0], s.classes[ids[0]])), ids[1..])
  }

  /** `getattr(class_obj, "generate_bl_options", True)` as a condition. */
  predicate GenerateFlag(c: PyClass)
  {
    match c.generateBlOptions
    case Missing => true
    case PyNone => false
    case Val(b) => b
  }

  /** The state of the `generate_attributes` loop: the host, the local `label`
      (`None` while it is unbound), and the exception that ended the loop. */
  datatype GenRun = GenRun(state: HostState, carried: Option<string>, error: Option<Error>)

  /** The `bl_options` part of the loop body, on the class as the earlier
      parts left it. */
  function AutoOptionsStep(s: HostState, id: ClassId, c: PyClass, carried: Option<string>): GenRun
  {
    if GenerateFlag(c) && !c.blOptions.Has() then
      if c.blOptionsOptions.Has() then
        match c.blOptionsOptions
        case Val(SetOpts(o)) =>
          if o <= AutoFlagItems then GenRun(s.(classes := s.classes[id := c.(blOptions := Val(o))]), carried, None)
          else GenRun(s.(classes := s.classes[id := c], log := s.log + [Warned(InvalidOptions(id))]), carried, None)
        case _ =>
          // `None.issubset` and `dict.issubset` do not exist
          GenRun(s.(classes := s.classes[id := c]), carried, Some(AttributeError(id, "issubset")))
      else GenRun(s.(classes := s.classes[id := c.(blOptions := Val(AutoDefaultFlags))]), carried, None)
    else GenRun(s.(classes := s.classes[id := c]), carried, None)
  }

  /** The `bl_idname` part of the loop body: a missing `bl_idname` is
      generated and `label` assigned from the same id ending. */
  function AutoIdname(c: PyClass, carried: Option<string>): (PyClass, Option<string>)
  {
    if !c.blIdname.Has() then (c.(blIdname := Val(GeneratedIdname(c.name))), Some(Label(IdEnd(c.name))))
    else (c, carried)
  }

  /** One iteration of the `generate_attributes` loop. `label` is assigned only
      when `bl_idname` is generated; a class that has `bl_idname` but no
      `bl_label` gets whatever `label` holds, and raises `UnboundLocalError`
      when nothing has been assigned yet. */
  function AutoStep(s: HostState, carried: Option<string>, id: ClassId): (r: GenRun)
    requires id in s.classes
    ensures r.state.classes.Keys == s.classes.Keys
  {
    var p := AutoIdname(s.classes[id], carried);
    var c1, carried1 := p.0, p.1;
    if !c1.blLabel.Has() && carried1.None? then
      GenRun(s.(classes := s.classes[id := c1]), carried1, Some(UnboundLocalError(id, "label")))
    else
      var c2 := if !c1.blLabel.Has() then c1.(blLabel := Val(carried1.value)) else c1;
      AutoOptionsStep(s, id, c2, carried1)
  }

  /** The `generate_attributes` loop from a given `label`, stopped by the first exception. */
  function AutoGenerateSeq(s: HostState, carried: Option<string>, ids: seq<ClassId>): GenRun
    requires Known(s.classes, ids)
    decreases |ids|
  {
    if ids == [] then GenRun(s, carried, None)
    else
      var r := AutoStep(s, carried, ids[0]);
      assert r.state.classes.Keys == s.classes.Keys;
      if r.error.Some? then r else AutoGenerateSeq(r.state, r.carried, ids[1..])
  }

  /** `auto_register`: warnings, generation, then `register_class` in list order. */
  function AutoRegisterSpec(s: HostState, operators: seq<ClassId>): Run
    requires Known(s.classes, operators)
  {
    AutoWarnSeqOnlyWarns(s, operators);
    var g := AutoGenerateSeq(AutoWarnSeq(s, operators), None, operators);
    if g.error.Some? then Run(g.state, g.error) else RegisterSeq(g.state, operators)
  }

  /** `auto_unregister`: `unregister_class` over the reversed list. */
  function AutoUnregisterSpec(s: HostState, operators: seq<ClassId>): Run
  {
    UnregisterSeq(s, Reverse(operators))
  }

  /** `warnings` only logs warnings. */
  lemma {:induction false} AutoWarnSeqOnlyWarns(s: HostState, ids: seq<ClassId>)
    requires Known(s.classes, ids)
    decreases |ids|
    ensures var r := AutoWarnSeq(s, ids);
      r == s.(log := r.log) && |s.log| <= |r.log| && r.log[..|s.log|] == s.log && AllWarned(r.log[|s.log|..])
  {
    if ids != [] {
      var sNext := s.(log := s.log + AutoWarnings(ids[0], s.classes[ids[0]]));
      AutoWarnSeqOnlyWarns(sNext, ids[1..]);
      var r := AutoWarnSeq(s, ids);
      assert r.log[..|s.log|] == sNext.log[..|s.log|];
      forall i | |s.log| <= i < |r.log| ensures r.log[i].Warned? {
        if i < |sNext.log| {
          assert r.log[i] == sNext.log[i] == AutoWarnings(ids[0], s.classes[ids[0]])[i - |s.log|];
        } else {
          assert r.log[i] == r.log[|sNext.log|..][i - |sNext.log|];
        }
      }
    }
  }

  /** One iteration changes only that class, logs at most one warning, and
      raises only `UnboundLocalError` or `AttributeError`. */
  lemma AutoStepSpec(s: HostState, carried: Option<string>, id: ClassId)
    requires id in s.classes
    ensures var r := AutoStep(s, carried, id);
      r.state == s.(classes := r.state.classes, log := r.state.log)
      && id in r.state.classes
      && r.state.classes == s.classes[id := r.state.classes[id]]
      && (r.state.log == s.log || r.state.log == s.log + [Warned(InvalidOptions(id))])
      && (r.error.Some? ==> r.error == Some(UnboundLocalError(id, "label")) || r.error == Some(AttributeError(id, "issubset")))
  {
    var p := AutoIdname(s.classes[id], carried);
    if !(!p.0.blLabel.Has() && p.1.None?) {
      var c2 := if !p.0.blLabel.Has() then p.0.(blLabel := Val(p.1.value)) else p.0;
      AutoOptionsStepSpec(s, id, c2, p.1);
    }
  }

  /** The `bl_options` part changes only that class, logs at most one warning
      and raises only `AttributeError`. */
  lemma AutoOptionsStepSpec(s: HostState, id: ClassId, c: PyClass, carried: Option<string>)
    ensures var r := AutoOptionsStep(s, id, c, carried);
      r.state == s.(classes := s.classes[id := r.state.classes[id]], log := r.state.log)
      && r.carried == carried
      && (r.state.log == s.log || r.state.log == s.log + [Warned(InvalidOptions(id))])
      && (r.error.Some? ==> r.error == Some(AttributeError(id, "issubset")))
  {
  }

  /** The `bl_options` part does not depend on what the class slot held before. */
  lemma AutoOptionsStepFrame(s: HostState, id: ClassId, d: PyClass, c: PyClass, carried: Option<string>)
    ensures AutoOptionsStep(s.(classes := s.classes[id := d]), id, c, carried) == AutoOptionsStep(s, id, c, carried)
  {
    var t := s.(classes := s.classes[id := d]);
    assert t.classes[id := c] == s.classes[id := c];
    assert t.classes[id := c.(blOptions := Val(AutoDefaultFlags))] == s.classes[id := c.(blOptions := Val(AutoDefaultFlags))];
    if c.blOptionsOptions.Val? && c.blOptionsOptions.v.SetOpts? {
      var o := c.blOptionsOptions.v.items;
      assert t.classes[id := c.(blOptions := Val(o))] == s.classes[id := c.(blOptions := Val(o))];
    }
  }

  /** `generate_attributes` changes only the listed classes and logs only warnings. */
  lemma {:induction false} AutoGenerateSeqSpec(s: HostState, carried: Option<string>, ids: seq<ClassId>)
    requires Known(s.classes, ids)
    decreases |ids|
    ensures var r := AutoGenerateSeq(s, carried, ids).state;
      r == s.(classes := r.classes, log := r.log)
      && r.classes.Keys == s.classes.Keys
      && (forall x :: x in s.classes && x !in ids ==> r.classes[x] == s.classes[x])
      && |s.log| <= |r.log| && r.log[..|s.log|] == s.log && AllWarned(r.log[|s.log|..])
  {
    if ids != [] {
      AutoStepSpec(s, carried, ids[0]);
      var st := AutoStep(s, carried, ids[0]);
      if st.error.None? {
        AutoGenerateSeqSpec(st.state, st.carried, ids[1..]);
        AutoGenerateSeqCons(s, carried, ids);
        var r := AutoGenerateSeq(s, carried, ids).state;
        assert r == AutoGenerateSeq(st.state, st.carried, ids[1..]).state;
        assert AllWarned(st.state.log[|s.log|..]) by {
          if st.state.log != s.log {
            assert st.state.log[|s.log|..] == [Warned(InvalidOptions(ids[0]))];
          }
        }
        WarnedExtend(s.log, st.state.log, r.log);
        forall x | x in s.classes && x !in ids ensures r.classes[x] == s.classes[x] {
          assert x != ids[0] && x !in ids[1..];
        }
      }
    }
  }

  /** What `label` holds after the `bl_idname` parts of the classes `ids`,
      each run on its record in `classes`, starting from `carried`. */
  function LabelAfter(classes: map<ClassId, PyClass>, carried: Option<string>, ids: seq<ClassId>): Option<string>
    requires Known(classes, ids)
    decreases |ids|
  {
    if ids == [] then carried else LabelAfter(classes, AutoIdname(classes[ids[0]], carried).1, ids[1..])
  }

  /** `label` stays as it was when every class already has a `bl_idname`. */
  lemma {:induction false} LabelAfterKept(classes: map<ClassId, PyClass>, carried: Option<string>, ids: seq<ClassId>)
    requires Known(classes, ids)
    requires forall x :: x in ids ==> classes[x].blIdname.Has()
    decreases |ids|
    ensures LabelAfter(classes, carried, ids) == carried
  {
    if ids != [] {
      assert classes[ids[0]].blIdname.Has();
      LabelAfterKept(classes, carried, ids[1..]);
    }
  }

  /** `label` is the label of the last class whose `bl_idname` is generated. */
  lemma {:induction false} LabelAfterLast(classes: map<ClassId, PyClass>, carried: Option<string>, ids: seq<ClassId>, j: nat)
    requires Known(classes, ids)
    requires j < |ids| && !classes[ids[j]].blIdname.Has()
    requires forall x :: x in ids[j + 1..] ==> classes[x].blIdname.Has()
    decreases |ids|
    ensures LabelAfter(classes, carried, ids) == Some(Label(IdEnd(classes[ids[j]].name)))
  {
    var next := AutoIdname(classes[ids[0]], carried).1;
    if j == 0 {
      assert ids[1..] == ids[j + 1..];
      LabelAfterKept(classes, next, ids[1..]);
    } else {
      assert ids[1..][j - 1] == ids[j] && ids[1..][j..] == ids[j + 1..];
      LabelAfterLast(classes, next, ids[1..], j - 1);
    }
  }

  /** `LabelAfter` reads only the records of the classes in `ids`. */
  lemma {:induction false} LabelAfterFrame(c1: map<ClassId, PyClass>, c2: map<ClassId, PyClass>, carried: Option<string>, ids: seq<ClassId>)
    requires Known(c1, ids) && Known(c2, ids)
    requires forall x :: x in ids ==> c1[x] == c2[x]
    decreases |ids|
    ensures LabelAfter(c1, carried, ids) == LabelAfter(c2, carried, ids)
  {
    if ids != [] {
      LabelAfterFrame(c1, c2, AutoIdname(c1[ids[0]], carried).1, ids[1..]);
    }
  }

  /** The `bl_options` part writes its class from `c` alone. */
  lemma AutoOptionsLocal(s: HostState, t: HostState, id: ClassId, c: PyClass, carried: Option<string>)
    ensures var a := AutoOptionsStep(s, id, c, carried);
      var b := AutoOptionsStep(t, id, c, carried);
      id in a.state.classes && id in b.state.classes && a.state.classes[id] == b.state.classes[id]
      && a.error == b.error && a.carried == carried
  {
  }

  /** A step hands on the `label` its `bl_idname` part leaves, and its effect
      on its class depends only on that class's record. */
  lemma AutoStepLocal(s: HostState, t: HostState, carried: Option<string>, x: ClassId)
    requires x in s.classes && x in t.classes && s.classes[x] == t.classes[x]
    ensures var a := AutoStep(s, carried, x);
      var b := AutoStep(t, carried, x);
      a.carried == AutoIdname(s.classes[x], carried).1
      && x in a.state.classes && x in b.state.classes && a.state.classes[x] == b.state.classes[x]
      && a.error == b.error
  {
    var p := AutoIdname(s.classes[x], carried);
    if !(!p.0.blLabel.Has() && p.1.None?) {
      var c2 := if !p.0.blLabel.Has() then p.0.(blLabel := Val(p.1.value)) else p.0;
      assert AutoStep(s, carried, x) == AutoOptionsStep(s, x, c2, p.1);
      assert AutoStep(t, carried, x) == AutoOptionsStep(t, x, c2, p.1);
      AutoOptionsLocal(s, t, x, c2, p.1);
    }
  }

  /** After the first step, a later class's step from the `label` its
      predecessors leave writes the same record as from the original state. */
  lemma ShiftedStep(s: HostState, carried: Option<string>, ids: seq<ClassId>, i: nat)
    requires Known(s.classes, ids) && 0 < i < |ids| && ids[0] !in ids[1..]
    ensures var st := AutoStep(s, carried, ids[0]);
      Known(st.state.classes, ids[1..][..i - 1])
      && AutoStep(st.state, LabelAfter(st.state.classes, st.carried, ids[1..][..i - 1]), ids[i]).state.classes[ids[i]]
         == AutoStep(s, LabelAfter(s.classes, carried, ids[..i]), ids[i]).state.classes[ids[i]]
  {
    var y, pre := ids[0], ids[1..][..i - 1];
    var st := AutoStep(s, carried, y);
    AutoStepSpec(s, carried, y);
    AutoStepLocal(s, s, carried, y);
    assert forall x :: x in pre ==> x in ids[1..] && st.state.classes[x] == s.classes[x];
    LabelAfterFrame(st.state.classes, s.classes, st.carried, pre);
    assert ids[..i] == [y] + pre;
    assert ids[..i][1..] == pre;
    var lb := LabelAfter(s.classes, st.carried, pre);
    assert LabelAfter(s.classes, carried, ids[..i]) == lb;
    assert ids[i] in ids[1..];
    AutoStepLocal(st.state, s, lb, ids[i]);
  }

  /** When no exception stops the loop over distinct classes, `label` ends as
      `LabelAfter` says, and each class ends as its own step makes it from its
      record before the loop and the `label` the classes before it left. */
  lemma {:induction false} AutoGeneratePerClass(s: HostState, carried: Option<string>, ids: seq<ClassId>)
    requires Known(s.classes, ids)
    decreases |ids|
    ensures var g := AutoGenerateSeq(s, carried, ids);
      Distinct(ids) && g.error.None? ==>
        g.carried == LabelAfter(s.classes, carried, ids)
        && forall i :: 0 <= i < |ids| ==>
             ids[i] in g.state.classes
             && g.state.classes[ids[i]] == AutoStep(s, LabelAfter(s.classes, carried, ids[..i]), ids[i]).state.classes[ids[i]]
  {
    if ids != [] {
      var y, rest := ids[0], ids[1..];
      AutoGenerateSeqCons(s, carried, ids);
      var st := AutoStep(s, carried, y);
      var g := AutoGenerateSeq(s, carried, ids);
      if Distinct(ids) && g.error.None? {
        assert ids == [y] + rest;
        DistinctCons(y, rest);
        assert st.error.None?;
        assert g == AutoGenerateSeq(st.state, st.carried, rest);
        AutoGeneratePerClass(st.state, st.carried, rest);
        AutoGenerateSeqSpec(st.state, st.carried, rest);
        AutoStepSpec(s, carried, y);
        AutoStepLocal(s, s, carried, y);
        assert forall x :: x in rest ==> st.state.classes[x] == s.classes[x];
        LabelAfterFrame(st.state.classes, s.classes, st.carried, rest);
        forall i | 0 <= i < |ids|
          ensures ids[i] in g.state.classes
            && g.state.classes[ids[i]] == AutoStep(s, LabelAfter(s.classes, carried, ids[..i]), ids[i]).state.classes[ids[i]]
        {
          if i == 0 {
            assert ids[..0] == [];
          } else {
            assert ids[i] == rest[i - 1];
            ShiftedStep(s, carried, ids, i);
          }
        }
      }
    }
  }

  /** One unfolding of the `generate_attributes` loop. */
  lemma AutoGenerateSeqCons(s: HostState, carried: Option<string>, ids: seq<ClassId>)
    requires ids != [] && Known(s.classes, ids)
    ensures var r := AutoStep(s, carried, ids[0]);
      Known(r.state.classes, ids[1..])
      && AutoGenerateSeq(s, carried, ids) == if r.error.Some? then r else AutoGenerateSeq(r.state, r.carried, ids[1..])
  {
    AutoStepSpec(s, carried, ids[0]);
  }

  /** The label of a class with a preset `bl_idname` but no `bl_label` is
      carried over from the class before it that had its `bl_idname` generated. */
  lemma LabelCarriesOver(s: HostState, a: ClassId, b: ClassId)
    requires a in s.classes && b in s.classes && a != b && Known(s.classes, [a, b])
    requires !s.classes[a].blIdname.Has()
    requires s.classes[b].blIdname.Has() && !s.classes[b].blLabel.Has()
    requires AutoStep(s, None, a).error.None?
    ensures var r := AutoGenerateSeq(s, None, [a, b]);
      b in r.state.classes && r.state.classes[b].blLabel == Val(Label(IdEnd(s.classes[a].name)))
  {
    var st := AutoStep(s, None, a);
    FirstStepCarries(s, a, b);
    GenerateOneClass(st.state, st.carried, b);
    PresetIdnameTakesLabel(st.state, b, st.carried.value);
  }

  /** The step for `a` assigns `label`, leaves `b` alone and hands over to the loop over `[b]`. */
  lemma FirstStepCarries(s: HostState, a: ClassId, b: ClassId)
    requires a in s.classes && b in s.classes && a != b && Known(s.classes, [a, b])
    requires !s.classes[a].blIdname.Has()
    requires AutoStep(s, None, a).error.None?
    ensures var st := AutoStep(s, None, a);
      st.carried == Some(Label(IdEnd(s.classes[a].name)))
      && b in st.state.classes && st.state.classes[b] == s.classes[b]
      && AutoGenerateSeq(s, None, [a, b]) == AutoGenerateSeq(st.state, st.carried, [b])
  {
    StepCarriesLabel(s, a);
    AutoStepSpec(s, None, a);
    AutoGenerateSeqCons(s, None, [a, b]);
    assert [a, b][0] == a && [a, b][1..] == [b];
  }

  /** A generated `bl_idname` sets `label` from the id ending, and the rest of the step keeps it. */
  lemma StepCarriesLabel(s: HostState, a: ClassId)
    requires a in s.classes && !s.classes[a].blIdname.Has()
    ensures AutoStep(s, None, a).carried == Some(Label(IdEnd(s.classes[a].name)))
  {
    var p := AutoIdname(s.classes[a], None);
    assert p.1 == Some(Label(IdEnd(s.classes[a].name)));
    var c2 := if !p.0.blLabel.Has() then p.0.(blLabel := Val(p.1.value)) else p.0;
    AutoOptionsStepSpec(s, a, c2, p.1);
  }

  /** The loop over a single class is that class's step. */
  lemma GenerateOneClass(s: HostState, carried: Option<string>, b: ClassId)
    requires b in s.classes
    ensures AutoGenerateSeq(s, carried, [b]).state == AutoStep(s, carried, b).state
  {
    assert [b][0] == b && [b][1..] == [];
  }

  /** A class with `bl_idname` but no `bl_label` takes the carried label. */
  lemma PresetIdnameTakesLabel(s: HostState, b: ClassId, text: string)
    requires b in s.classes
    requires s.classes[b].blIdname.Has() && !s.classes[b].blLabel.Has()
    ensures var r := AutoStep(s, Some(text), b).state;
      b in r.classes && r.classes[b].blLabel == Val(text)
  {
    var c := s.classes[b].(blLabel := Val(text));
    assert AutoStep(s, Some(text), b) == AutoOptionsStep(s, b, c, Some(text));
    AutoOptionsKeepsLabel(s, b, c, Some(text));
  }

  /** The `bl_options` part leaves `bl_label` as it finds it. */
  lemma AutoOptionsKeepsLabel(s: HostState, id: ClassId, c: PyClass, carried: Option<string>)
    ensures var r := AutoOptionsStep(s, id, c, carried).state;
      id in r.classes && r.classes[id].blLabel == c.blLabel
  {
  }

  lemma UnboundLabel(s: HostState, b: ClassId)
    requires b in s.classes
    requires s.classes[b].blIdname.Has() && !s.classes[b].blLabel.Has()
    ensures AutoGenerateSeq(s, None, [b]).error == Some(UnboundLocalError(b, "label"))
  {
  }

  /** The `bl_options` table of this generation (on the class as the label
      step left it): nothing when the class opted out or has `bl_options`; the
      defaults without a payload; a set payload copied when allowed and warned
      about otherwise; `AttributeError` for a `None` or dict payload. */
  lemma AutoOptionsTable(s: HostState, id: ClassId, c: PyClass, carried: Option<string>)
    ensures var r := AutoOptionsStep(s, id, c, carried);
      (!GenerateFlag(c) || c.blOptions.Has() ==> r == GenRun(s.(classes := s.classes[id := c]), carried, None))
      && (GenerateFlag(c) && !c.blOptions.Has() ==>
            (c.blOptionsOptions.Missing? ==> r.error.None? && r.state.classes[id].blOptions == Val(DefaultFlagItems))
            && (c.blOptionsOptions.Val? && c.blOptionsOptions.v.SetOpts? ==>
                  r.error.None?
                  && (c.blOptionsOptions.v.items <= OperatorFlagItems <==> r.state.classes[id].blOptions == Val(c.blOptionsOptions.v.items))
                  && (!(c.blOptionsOptions.v.items <= OperatorFlagItems) <==> r.state.log == s.log + [Warned(InvalidOptions(id))]))
            && (c.blOptionsOptions.PyNone? || (c.blOptionsOptions.Val? && c.blOptionsOptions.v.DictOpts?) ==>
                  r.error == Some(AttributeError(id, "issubset"))))
  {
    SameFlagsAsCurrent();
  }

  /** `not_generate_bl_options(options)` applied to one class record. */
  function NotGenerate(c: PyClass, options: Option<Options>): PyClass
  {
    if options == None || options == Some(SetOpts(NoFlags)) then c.(generateBlOptions := Val(false))
    else c.(generateBlOptions := Val(true), blOptionsOptions := Val(options.value))
  }

  /** Decorating with no argument or `set()` switches `bl_options` generation
      off; any other argument switches it on and stores the argument. Nothing
      else changes. */
  lemma NotGenerateSpec(c: PyClass, options: Option<Options>)
    ensures var r := NotGenerate(c, options);
      r == c.(generateBlOptions := r.generateBlOptions, blOptionsOptions := r.blOptionsOptions)
      && (!GenerateFlag(r) <==> options == None || options == Some(SetOpts(NoFlags)))
      && (GenerateFlag(r) ==> r.blOptionsOptions == Val(options.value))
      && (!GenerateFlag(r) ==> r.blOptionsOptions == c.blOptionsOptions)
  {
  }

  /** A class decorated with no argument or `set()` keeps its `bl_options`
      through generation; one decorated with an empty dict and no `bl_options`
      makes generation raise `AttributeError`. */
  lemma NotGenerateEffects(s: HostState, id: ClassId, c: PyClass, carried: Option<string>, options: Option<Options>)
    ensures options == None || options == Some(SetOpts(NoFlags)) ==>
              AutoOptionsStep(s, id, NotGenerate(c, options), carried).state.classes[id].blOptions == c.blOptions
    ensures options == Some(DictOpts(NoFlags)) && !c.blOptions.Has() ==>
              AutoOptionsStep(s, id, NotGenerate(c, options), carried).error == Some(AttributeError(id, "issubset"))
  {
  }

  /** Warnings and generation happen for every class before the first
      registration, which then follows list order. */
  lemma AutoRegisterOrder(s: HostState, operators: seq<ClassId>)
    requires Known(s.classes, operators)
    ensures var w := AutoWarnSeq(s, operators);
      Known(w.classes, operators)
      && var g := AutoGenerateSeq(w, None, operators);
      var r := AutoRegisterSpec(s, operators);
      var k := RegisteredCount(g.state, operators);
      && |s.log| <= |g.state.log| && g.state.log[..|s.log|] == s.log && AllWarned(g.state.log[|s.log|..])
      && g.state.registered == s.registered
      && (g.error.Some? ==> r == Run(g.state, g.error))
      && (g.error.None? ==> r.state.classes == g.state.classes && r.state.log == g.state.log + RegEvents(operators[..k])
                            && (r.error.None? <==> k == |operators|))
  {
    AutoWarnSeqOnlyWarns(s, operators);
    var w := AutoWarnSeq(s, operators);
    AutoGenerateSeqSpec(w, None, operators);
    var g := AutoGenerateSeq(w, None, operators);
    assert g.state.log[..|s.log|] == w.log[..|s.log|];
    forall i | |s.log| <= i < |g.state.log| ensures g.state.log[i].Warned? {
      if i < |w.log| {
        assert g.state.log[i] == w.log[i] == w.log[|s.log|..][i - |s.log|];
      } else {
        assert g.state.log[i] == g.state.log[|w.log|..][i - |w.log|];
      }
    }
    if g.error.None? {
      RegisterSeqTrace(g.state, operators);
    }
  }

  /** After a completed `auto_register`, `auto_unregister` completes, logs the
      registration order exactly reversed, and leaves the registry as it was. */
  lemma AutoRoundTrip(s: HostState, operators: seq<ClassId>)
    requires Known(s.classes, operators)
    requires AutoRegisterSpec(s, operators).error.None?
    ensures var r := AutoRegisterSpec(s, operators).state;
      var u := AutoUnregisterSpec(r, operators);
      u.error.None? && u.state.registered == s.registered
      && u.state.log == r.log + UnregEvents(Reverse(operators))
  {
    AutoWarnSeqOnlyWarns(s, operators);
    var w := AutoWarnSeq(s, operators);
    AutoGenerateSeqSpec(w, None, operators);
    var g := AutoGenerateSeq(w, None, operators);
    ReversePermutes(operators);
    RegisterUnregisterRoundTrip(g.state, operators, Reverse(operators));
    RegisterSeqTrace(g.state, operators);
    var k := RegisteredCount(g.state, operators);
    assert operators[..k] == operators;
  }

  /** `not_generate_bl_options(options)(cls)`: updates the class in place and
      returns the same class. */
  method NotGenerateBlOptions(w: World, id: ClassId, options: Option<Options>) returns (r: ClassId)
    requires id in w.classes
    modifies w
    ensures r == id
    ensures w.State() == old(w.State()).(classes := old(w.classes)[id := NotGenerate(old(w.classes)[id], options)])
  {
    var c := w.classes[id];
    if options == Some(SetOpts(NoFlags)) || options == None {
      w.SetClass(id, c.(generateBlOptions := Val(false)));
    } else {
      w.SetClass(id, c.(generateBlOptions := Val(true)));
      w.SetClass(id, w.classes[id].(blOptionsOptions := Val(options.value)));
    }
    r := id;
  }

  /** One iteration of the `generate_attributes` loop, with the local `label`
      passed in and out. */
  method GenerateBody(w: World, id: ClassId, carried: Option<string>) returns (carriedOut: Option<string>, err: Option<Error>)
    requires id in w.classes
    modifies w
    ensures GenRun(w.State(), carriedOut, err) == AutoStep(old(w.State()), carried, id)
  {
    carriedOut := IdnameBody(w, id, carried);
    var c := w.classes[id];
    if !c.blLabel.Has() {
      if carriedOut.None? {
        err := Some(UnboundLocalError(id, "label"));
        return;
      }
      w.SetClass(id, c.(blLabel := Val(carriedOut.value)));
    }
    ghost var s2 := w.State();
    assert s2 == old(w.State()).(classes := old(w.classes)[id := w.classes[id]]);
    AutoOptionsStepFrame(old(w.State()), id, w.classes[id], w.classes[id], carriedOut);
    err := OptionsBody(w, id);
  }

  /** The `bl_idname` part of the loop body. */
  method IdnameBody(w: World, id: ClassId, carried: Option<string>) returns (carriedOut: Option<string>)
    requires id in w.classes
    modifies w
    ensures var p := AutoIdname(old(w.classes)[id], carried);
      w.State() == old(w.State()).(classes := old(w.classes)[id := p.0]) && carriedOut == p.1
  {
    carriedOut := carried;
    var c := w.classes[id];
    assert w.classes[id := c] == w.classes;
    if !c.blIdname.Has() {
      var noOt := NoOt(c.name);
      var idEndIndex := Find(noOt, '_');
      var idAttr := Lower(Slice(noOt, 0, idEndIndex));
      var idEnd := Slice(noOt, idEndIndex + 1, |noOt|);
      assert idAttr == IdAttr(c.name) && idEnd == IdEnd(c.name);
      carriedOut := Some(Label(idEnd));
      var idEndModified := SnakeCase(idEnd);
      var generated := idAttr + "." + idEndModified;
      assert c.(blIdname := Val(generated)) == AutoIdname(c, carried).0;
      w.SetClass(id, c.(blIdname := Val(generated)));
    } else {
      assert c == AutoIdname(c, carried).0;
    }
  }

  /** The `bl_options` part of the loop body. */
  method OptionsBody(w: World, id: ClassId) returns (err: Option<Error>)
    requires id in w.classes
    modifies w
    ensures forall carried :: GenRun(w.State(), carried, err) == AutoOptionsStep(old(w.State()), id, old(w.classes)[id], carried)
  {
    var c := w.classes[id];
    assert w.classes[id := c] == w.classes;
    err := None;
    if GenerateFlag(c) && !c.blOptions.Has() {
      if c.blOptionsOptions.Has() {
        match c.blOptionsOptions
        case Val(SetOpts(blo)) =>
          if blo <= AutoFlagItems {
            w.SetClass(id, c.(blOptions := Val(blo)));
          } else {
            w.Warn(InvalidOptions(id));
          }
        case _ =>
          err := Some(AttributeError(id, "issubset"));
      } else {
        w.SetClass(id, c.(blOptions := Val(AutoDefaultFlags)));
      }
    }
  }

  class AutoRegisterOperators {
    const operators: seq<ClassId>

    constructor(operators: seq<ClassId>)
      ensures this.operators == operators
    {
      this.operators := operators;
    }

    /** `AutoRegisterOperators(module_name)`: raises `KeyError` for a module
        that is not loaded. */
    static method Create(w: World, moduleName: string) returns (r: Result<AutoRegisterOperators>)
      ensures var d := SubclassesIn(w.sysModules, w.classes, moduleName, w.operatorType);
        (r.Ok? <==> d.Ok?)
        && (r.Err? ==> r.error == d.error)
        && (r.Ok? ==> fresh(r.value) && r.value.operators == d.value && Known(w.classes, d.value))
    {
      var d := SubclassesIn(w.sysModules, w.classes, moduleName, w.operatorType);
      if d.Err? {
        r := Err(d.error);
      } else {
        DiscoverMembers(w.classes, w.sysModules[moduleName], w.operatorType, Subclass);
        var a := new AutoRegisterOperators(d.value);
        r := Ok(a);
      }
    }

    /** `warnings()` */
    method Warnings(w: World)
      requires Known(w.classes, operators)
      modifies w
      ensures w.State() == AutoWarnSeq(old(w.State()), operators)
    {
      var i := 0;
      while i < |operators|
        invariant 0 <= i <= |operators|
        invariant w.classes == old(w.classes)
        invariant AutoWarnSeq(old(w.State()), operators) == AutoWarnSeq(w.State(), operators[i..])
      {
        var id := operators[i];
        var c := w.classes[id];
        ghost var before := w.State();
        if !c.blDescription.Has() && !c.description.Has() {
          w.Warn(MissingDescription(id));
        }
        if !StartsWith(c.name, "OT") {
          w.Warn(MissingPrefix(id));
        }
        assert w.log == before.log + AutoWarnings(id, c);
        assert operators[i..][1..] == operators[i + 1..];
        i := i + 1;
      }
    }

    /** `generate_attributes()` */
    method GenerateAttributes(w: World) returns (err: Option<Error>)
      requires Known(w.classes, operators)
      modifies w
      ensures var g := AutoGenerateSeq(old(w.State()), None, operators);
        w.State() == g.state && err == g.error
    {
      var carried: Option<string> := None;
      err := None;
      var i := 0;
      assert operators[0..] == operators;
      while i < |operators|
        invariant 0 <= i <= |operators|
        invariant Known(w.classes, operators[i..])
        invariant err.None?
        invariant AutoGenerateSeq(old(w.State()), None, operators) == AutoGenerateSeq(w.State(), carried, operators[i..])
      {
        assert operators[i..][0] == operators[i] && operators[i..][1..] == operators[i + 1..];
        AutoGenerateSeqCons(w.State(), carried, operators[i..]);
        carried, err := GenerateBody(w, operators[i], carried);
        if err.Some? {
          return;
        }
        i := i + 1;
      }
    }

    /** `auto_register()` */
    method AutoRegister(w: World) returns (err: Option<Error>)
      requires Known(w.classes, operators)
      modifies w
      ensures Run(w.State(), err) == AutoRegisterSpec(old(w.State()), operators)
    {
      AutoWarnSeqOnlyWarns(w.State(), operators);
      Warnings(w);
      AutoGenerateSeqSpec(w.State(), None, operators);
      err := GenerateAttributes(w);
      if err.Some? {
        return;
      }
      ghost var g := w.State();
      var i := 0;
      while i < |operators|
        invariant 0 <= i <= |operators|
        invariant err.None?
        invariant RegisterSeq(g, operators) == RegisterSeq(w.State(), operators[i..])
      {
        assert operators[i..][1..] == operators[i + 1..];
        err := w.RegisterClass(operators[i]);
        if err.Some? {
          return;
        }
        i := i + 1;
      }
    }

    /** `auto_unregister()`: the list in reverse. */
    method AutoUnregister(w: World) returns (err: Option<Error>)
      modifies w
      ensures Run(w.State(), err) == AutoUnregisterSpec(old(w.State()), operators)
    {
      err := None;
      var i := |operators|;
      assert operators[..i] == operators;
      while i > 0
        invariant 0 <= i <= |operators|
        invariant err.None?
        invariant AutoUnregisterSpec(old(w.State()), operators) == UnregisterSeq(w.State(), Reverse(operators[..i]))
      {
        assert operators[..i][..i - 1] == operators[..i - 1];
        err := w.UnregisterClass(operators[i - 1]);
        if err.Some? {
          return;
        }
        i := i - 1;
      }
    }
  }
}

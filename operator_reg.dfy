/** `core/class_register/operator_reg.py`: `RegisterOperators` discovers the
    operator classes of a list of modules, warns about missing descriptions and
    prefixes, writes the generated `bl_idname`, `bl_label` and `bl_options`
    onto the classes, and registers and unregisters them with the host. */
module OperatorReg {
  import opened PyObjects
  import opened PyStr
  import opened Naming
  import opened CoreUtils
  import opened Host

  // ---------------------------------------------------------------------
  // The helpers, as functions of one class record

  /** `Helpers.bl_idname_helper`: the class with its `bl_idname` filled in when
      it was falsy, and the id ending the label is built from. */
  function GenIdname(c: PyClass): (PyClass, string)
  {
    if !StrTruthy(c.blIdname) then (c.(blIdname := Val(GeneratedIdname(c.name))), IdEnd(c.name))
    else (c, Capitalize(LastSegment(c.blIdname.v, '.')))
  }

  /** `Helpers.bl_label_helper` */
  function GenLabel(c: PyClass, idEnd: string): PyClass
  {
    if !StrTruthy(c.blLabel) then c.(blLabel := Val(Label(idEnd))) else c
  }

  /** What `Helpers.bl_options_helpers` does to a class: nothing, set
      `bl_options`, or warn and set nothing. */
  datatype OptionsChoice = Keep | Assign(flags: set<string>) | Reject

  function ChooseOptions(c: PyClass): OptionsChoice
  {
    if SetTruthy(c.blOptions) then Keep
    else if OptionsTruthy(c.blOptionsOptions) then
      (if c.blOptionsOptions.v.Keys() <= OperatorFlagItems then Assign(c.blOptionsOptions.v.Keys()) else Reject)
    else
      match c.blOptionsOptions
      case Val(DictOpts(_)) => Keep
      case _ => Assign(DefaultFlagItems)
  }

  function ApplyOptions(c: PyClass, d: OptionsChoice): PyClass
  {
    if d.Assign? then c.(blOptions := Val(d.flags)) else c
  }

  /** The three helpers in the order `generate_attributes` calls them: the new
      class record, and whether the invalid-options warning is logged. */
  function GenerateOne(c: PyClass): (PyClass, bool)
  {
    var g := GenIdname(c);
    var l := GenLabel(g.0, g.1);
    var d := ChooseOptions(l);
    (ApplyOptions(l, d), d.Reject?)
  }

  /** A truthy `bl_idname` is never overwritten, and the returned ending is
      the capitalised text after its last `.`; a falsy one is replaced by the
      generated id, which (for a class name without `.`) has no upper-case
      letter and exactly one `.`, and the returned ending is the raw body
      after the namespace. Nothing else changes. */
  lemma GenIdnameSpec(c: PyClass)
    ensures var r := GenIdname(c);
      r.0 == c.(blIdname := r.0.blIdname) && StrTruthy(r.0.blIdname)
      && (StrTruthy(c.blIdname) ==>
            r.0 == c
            && r.1 == Capitalize(LastSegment(c.blIdname.v, '.'))
            && '.' !in LastSegment(c.blIdname.v, '.'))
      && (!StrTruthy(c.blIdname) ==>
            r.0.blIdname == Val(IdAttr(c.name) + "." + SnakeCase(IdEnd(c.name)))
            && r.1 == IdEnd(c.name))
      && (!StrTruthy(c.blIdname) && '.' !in c.name ==>
            NoUpper(r.0.blIdname.v)
            && forall i :: 0 <= i < |r.0.blIdname.v| ==> (r.0.blIdname.v[i] == '.' <==> i == |IdAttr(c.name)|))
  {
    if !StrTruthy(c.blIdname) && '.' !in c.name {
      GeneratedIdnameShape(c.name);
    }
  }

  /** A truthy `bl_label` is kept; otherwise the label is tidy (single inner
      spaces only) and spells the ending's non-whitespace characters. */
  lemma GenLabelSpec(c: PyClass, idEnd: string)
    ensures var r := GenLabel(c, idEnd);
      r == c.(blLabel := r.blLabel)
      && (StrTruthy(c.blLabel) ==> r == c)
      && (!StrTruthy(c.blLabel) ==>
            r.blLabel.Val? && Tidy(r.blLabel.v) && RemoveChar(r.blLabel.v, ' ') == StripSpaces(idEnd))
  {
    LabelSpec(idEnd);
  }

  /** The `bl_options` decision table: with `bl_options` falsy, a missing,
      `None` or empty-set payload gives the defaults, an empty dict gives
      nothing, a non-empty payload is copied when its flags are allowed and
      rejected with a warning otherwise. Whatever is assigned is a non-empty
      set of allowed flags. */
  lemma ChooseOptionsTable(c: PyClass)
    ensures SetTruthy(c.blOptions) ==> ChooseOptions(c) == Keep
    ensures !SetTruthy(c.blOptions) ==>
              (c.blOptionsOptions.Missing? || c.blOptionsOptions.PyNone? || c.blOptionsOptions == Val(SetOpts(NoFlags)))
              ==> ChooseOptions(c) == Assign(DefaultFlagItems)
    ensures !SetTruthy(c.blOptions) && c.blOptionsOptions == Val(DictOpts(NoFlags)) ==> ChooseOptions(c) == Keep
    ensures !SetTruthy(c.blOptions) && OptionsTruthy(c.blOptionsOptions) ==>
              (ChooseOptions(c) == Assign(c.blOptionsOptions.v.Keys()) <==> c.blOptionsOptions.v.Keys() <= OperatorFlagItems)
              && (ChooseOptions(c) == Reject <==> !(c.blOptionsOptions.v.Keys() <= OperatorFlagItems))
    ensures ChooseOptions(c).Assign? ==> ChooseOptions(c).flags <= OperatorFlagItems && ChooseOptions(c).flags != NoFlags
  {
    FlagConstants();
  }

  /** One class through all three helpers: only the three generated
      attributes change, each only when it was falsy, the class ends up with a
      truthy `bl_idname`, and any `bl_options` written is a non-empty set of
      allowed flags. */
  lemma GenerateOneSpec(c: PyClass)
    ensures var r := GenerateOne(c);
      r.0 == c.(blIdname := r.0.blIdname, blLabel := r.0.blLabel, blOptions := r.0.blOptions)
      && StrTruthy(r.0.blIdname)
      && (StrTruthy(c.blIdname) ==> r.0.blIdname == c.blIdname)
      && (StrTruthy(c.blLabel) ==> r.0.blLabel == c.blLabel)
      && (SetTruthy(c.blOptions) ==> r.0.blOptions == c.blOptions && !r.1)
      && (r.0.blOptions != c.blOptions ==> SetTruthy(r.0.blOptions) && r.0.blOptions.v <= OperatorFlagItems)
      && (r.1 ==> r.0.blOptions == c.blOptions)
  {
    var g := GenIdname(c);
    GenIdnameSpec(c);
    GenLabelSpec(g.0, g.1);
    ChooseOptionsTable(GenLabel(g.0, g.1));
  }

  // ---------------------------------------------------------------------
  // The loops, as functions of the host state

  /** The warnings `warnings` logs for one class: a missing description when
      both `bl_description` and `description` are falsy, a missing prefix when
      the name does not start with `OT`. */
  function OpWarnings(id: ClassId, c: PyClass): seq<Event>
  {
    (if !StrTruthy(c.blDescription) && !StrTruthy(c.description) then [Warned(MissingDescription(id))] else [])
    + (if !StartsWith(c.name, "OT") then [Warned(MissingPrefix(id))] else [])
  }

  /** A missing-description warning exactly when both `bl_description` and
      `description` are falsy, a missing-prefix warning exactly when the name
      does not start with `OT` (an `_` after it is not required), and nothing
      else. */
  lemma OpWarningsSpec(id: ClassId, c: PyClass)
    ensures var r := OpWarnings(id, c);
      (Warned(MissingDescription(id)) in r <==> !StrTruthy(c.blDescription) && !StrTruthy(c.description))
      && (Warned(MissingPrefix(id)) in r <==> !StartsWith(c.name, "OT"))
      && |r| <= 2 && forall e :: e in r ==> e == Warned(MissingDescription(id)) || e == Warned(MissingPrefix(id))
  {
  }

  /** The `warnings` loop over `ids`. */
  function WarnSeq(s: HostState, ids: seq<ClassId>): HostState
    requires Known(s.classes, ids)
    decreases |ids|
  {
    if ids == [] then s
    else WarnSeq(s.(log := s.log + OpWarnings(ids[0], s.classes[ids[0]])), ids[1..])
  }

  /** The body of the `generate_attributes` loop for one class. */
  function GenStep(s: HostState, id: ClassId): HostState
    requires id in s.classes
  {
    var g := GenerateOne(s.classes[id]);
    s.(classes := s.classes[id := g.0], log := s.log + (if g.1 then [Warned(InvalidOptions(id))] else []))
  }

  /** The `generate_attributes` loop over `ids`. */
  function GenerateSeq(s: HostState, ids: seq<ClassId>): HostState
    requires Known(s.classes, ids)
    decreases |ids|
  {
    if ids == [] then s
    else GenerateSeq(GenStep(s, ids[0]), ids[1..])
  }

  /** Running the three helpers one after the other is one `GenStep`. */
  lemma GenStepByHelpers(s0: HostState, id: ClassId, idEnd: string, s1: HostState, s2: HostState, s3: HostState)
    requires id in s0.classes
    requires idEnd == GenIdname(s0.classes[id]).1
    requires s1 == s0.(classes := s0.classes[id := GenIdname(s0.classes[id]).0])
    requires s2 == s1.(classes := s1.classes[id := GenLabel(s1.classes[id], idEnd)])
    requires s3 == s2.(classes := s2.classes[id := ApplyOptions(s2.classes[id], ChooseOptions(s2.classes[id]))],
                       log := s2.log + if ChooseOptions(s2.classes[id]).Reject? then [Warned(InvalidOptions(id))] else [])
    ensures s3 == GenStep(s0, id)
  {
    var g := GenerateOne(s0.classes[id]);
    assert s2.classes[id] == GenLabel(GenIdname(s0.classes[id]).0, idEnd);
    assert s3.classes == s0.classes[id := g.0];
  }

  /** `warnings` adds warnings to the log and changes nothing else. */
  lemma {:induction false} WarnSeqOnlyWarns(s: HostState, ids: seq<ClassId>)
    requires Known(s.classes, ids)
    decreases |ids|
    ensures var r := WarnSeq(s, ids);
      r == s.(log := r.log) && |s.log| <= |r.log| && r.log[..|s.log|] == s.log && AllWarned(r.log[|s.log|..])
  {
    if ids != [] {
      var sNext := s.(log := s.log + OpWarnings(ids[0], s.classes[ids[0]]));
      WarnSeqOnlyWarns(sNext, ids[1..]);
      var r := WarnSeq(s, ids);
      assert r.log[..|sNext.log|] == sNext.log;
      assert r.log[..|s.log|] == sNext.log[..|s.log|];
      assert forall i :: |s.log| <= i < |r.log| ==> r.log[i].Warned? by {
        forall i | |s.log| <= i < |r.log| ensures r.log[i].Warned? {
          if i < |sNext.log| {
            assert r.log[i] == sNext.log[i] == OpWarnings(ids[0], s.classes[ids[0]])[i - |s.log|];
          } else {
            assert r.log[i] == r.log[|sNext.log|..][i - |sNext.log|];
          }
        }
      }
    }
  }

  /** `generate_attributes` changes only the classes in `ids`, leaves each of
      them with a truthy `bl_idname`, keeps the registry and the pointer
      properties, and logs only warnings. */
  lemma {:induction false} GenerateSeqSpec(s: HostState, ids: seq<ClassId>)
    requires Known(s.classes, ids)
    decreases |ids|
    ensures var r := GenerateSeq(s, ids);
      r == s.(classes := r.classes, log := r.log)
      && r.classes.Keys == s.classes.Keys
      && (forall x :: x in s.classes && x !in ids ==> r.classes[x] == s.classes[x])
      && (forall x :: x in ids ==> StrTruthy(r.classes[x].blIdname))
      && |s.log| <= |r.log| && r.log[..|s.log|] == s.log && AllWarned(r.log[|s.log|..])
  {
    if ids != [] {
      var sNext := GenStep(s, ids[0]);
      GenerateOneSpec(s.classes[ids[0]]);
      assert Known(sNext.classes, ids[1..]);
      GenerateSeqSpec(sNext, ids[1..]);
      var r := GenerateSeq(s, ids);
      assert r.log[..|sNext.log|] == sNext.log;
      assert r.log[..|s.log|] == sNext.log[..|s.log|];
      forall x | x in ids ensures StrTruthy(r.classes[x].blIdname) {
        if x !in ids[1..] {
          assert x == ids[0];
          GenerateOneSpec(s.classes[x]);
        }
      }
      forall i | |s.log| <= i < |r.log| ensures r.log[i].Warned? {
        if i < |sNext.log| {
          assert r.log[i] == sNext.log[i];
        } else {
          assert r.log[i] == r.log[|sNext.log|..][i - |sNext.log|];
        }
      }
    }
  }

  /** Each class the loop visits once ends up exactly as `GenerateOne` makes
      it from the record it had before the loop, so the generated `bl_idname`,
      `bl_label` and `bl_options` are the ones `GenerateOneSpec` and
      `ChooseOptionsTable` describe. */
  lemma {:induction false} GenerateSeqPerClass(s: HostState, ids: seq<ClassId>)
    requires Known(s.classes, ids)
    decreases |ids|
    ensures var r := GenerateSeq(s, ids);
      forall x :: x in ids && multiset(ids)[x] == 1 ==> x in r.classes && r.classes[x] == GenerateOne(s.classes[x]).0
  {
    if ids != [] {
      var y, rest := ids[0], ids[1..];
      var sNext := GenStep(s, y);
      assert Known(sNext.classes, rest);
      GenerateSeqPerClass(sNext, rest);
      GenerateSeqSpec(sNext, rest);
      assert ids == [y] + rest;
      var r := GenerateSeq(s, ids);
      assert r == GenerateSeq(sNext, rest);
      forall x | x in ids && multiset(ids)[x] == 1
        ensures x in r.classes && r.classes[x] == GenerateOne(s.classes[x]).0
      {
        assert multiset(ids)[x] == (if x == y then 1 else 0) + multiset(rest)[x];
        if x == y {
          assert x !in multiset(rest);
        } else {
          assert x in multiset(rest);
        }
      }
    }
  }

  /** The state `register` has reached when the first `register_class` call is
      made: every class warned about and generated. */
  function Prepared(s: HostState, operators: seq<seq<ClassId>>): HostState
    requires Known(s.classes, Flatten(operators))
  {
    var all := Flatten(operators);
    WarnSeqOnlyWarns(s, all);
    GenerateSeq(WarnSeq(s, all), all)
  }

  /** When `register` reaches its first `register_class`, every class
      discovered once carries the attributes `GenerateOne` gives its original
      record (the warnings do not touch the classes). */
  lemma PreparedPerClass(s: HostState, operators: seq<seq<ClassId>>)
    requires Known(s.classes, Flatten(operators))
    ensures var all := Flatten(operators);
      var p := Prepared(s, operators);
      forall x :: x in all && multiset(all)[x] == 1 ==> x in p.classes && p.classes[x] == GenerateOne(s.classes[x]).0
  {
    var all := Flatten(operators);
    WarnSeqOnlyWarns(s, all);
    GenerateSeqPerClass(WarnSeq(s, all), all);
  }

  /** `register`: warnings, then generation, then one `register_class` per
      class, modules in list order and classes in discovery order. */
  function RegisterSpec(s: HostState, operators: seq<seq<ClassId>>): Run
    requires Known(s.classes, Flatten(operators))
  {
    RegisterSeq(Prepared(s, operators), Flatten(operators))
  }

  /** `unregister`: modules in list order, each module's classes in reverse. */
  function UnregisterSpec(s: HostState, operators: seq<seq<ClassId>>): Run
  {
    UnregisterSeq(s, FlattenReversed(operators))
  }

  /** Every warning and every generated attribute is in place before the first
      class is registered: the log of `register` is the warnings followed by
      the registration messages of a prefix of the classes in module-then-class
      order, and the classes end as generation left them. */
  /** Preparation keeps the registry and the pointers and only appends warnings to the log. */
  lemma PreparedLog(s: HostState, operators: seq<seq<ClassId>>)
    requires Known(s.classes, Flatten(operators))
    ensures var p := Prepared(s, operators);
      p.registered == s.registered && p.pointers == s.pointers && p.refused == s.refused
      && |s.log| <= |p.log| && p.log[..|s.log|] == s.log && AllWarned(p.log[|s.log|..])
  {
    var all := Flatten(operators);
    WarnSeqOnlyWarns(s, all);
    var w := WarnSeq(s, all);
    GenerateSeqSpec(w, all);
    WarnedExtend(s.log, w.log, Prepared(s, operators).log);
  }

  lemma RegisterOrder(s: HostState, operators: seq<seq<ClassId>>)
    requires Known(s.classes, Flatten(operators))
    ensures var all := Flatten(operators);
      var p := Prepared(s, operators);
      var r := RegisterSpec(s, operators);
      var k := RegisteredCount(p, all);
      && p.registered == s.registered && p.pointers == s.pointers
      && |s.log| <= |p.log| && p.log[..|s.log|] == s.log && AllWarned(p.log[|s.log|..])
      && r.state.classes == p.classes
      && r.state.log == p.log + RegEvents(all[..k])
      && (r.error.None? <==> k == |all|)
  {
    PreparedLog(s, operators);
    RegisterSeqTrace(Prepared(s, operators), Flatten(operators));
  }

  /** `register` completes exactly when no operator class is discovered twice
      and none is already registered or refused by the host. */
  lemma RegisterCompletes(s: HostState, operators: seq<seq<ClassId>>)
    requires Known(s.classes, Flatten(operators))
    ensures RegisterSpec(s, operators).error.None? <==>
              Distinct(Flatten(operators))
              && forall x :: x in Flatten(operators) ==> x !in s.registered && x !in s.refused
  {
    var all := Flatten(operators);
    WarnSeqOnlyWarns(s, all);
    GenerateSeqSpec(WarnSeq(s, all), all);
    RegisterSeqCompletes(Prepared(s, operators), all);
  }

  /** After a completed `register`, `unregister` completes too and leaves the
      registry as it was before `register`. */
  lemma RegisterThenUnregister(s: HostState, operators: seq<seq<ClassId>>)
    requires Known(s.classes, Flatten(operators))
    requires RegisterSpec(s, operators).error.None?
    ensures var r := RegisterSpec(s, operators).state;
      var u := UnregisterSpec(r, operators);
      u.error.None? && u.state.registered == s.registered
      && u.state.log == r.log + UnregEvents(FlattenReversed(operators))
  {
    var all := Flatten(operators);
    WarnSeqOnlyWarns(s, all);
    GenerateSeqSpec(WarnSeq(s, all), all);
    var p := Prepared(s, operators);
    assert p.registered == s.registered;
    var back := FlattenReversed(operators);
    FlattenReversedPermutes(operators);
    RegisterUnregisterRoundTrip(p, all, back);
    RegisterSeqTrace(p, all);
    var k := RegisteredCount(p, all);
    assert all[..k] == all;
    var r := RegisterSeq(p, all).state;
    assert r.log == p.log + RegEvents(all);
    var u := UnregisterSeq(r, back);
    assert u.state.log == p.log + RegEvents(all) + UnregEvents(back);
  }

  /** The classes `Create` discovers have class records. */
  lemma DiscoveredKnown(w: HostState, sysModules: map<string, seq<Value>>, modules: seq<string>, t: ClassId)
    requires DiscoverAll(sysModules, w.classes, modules, t, DirectBase).Ok?
    ensures Known(w.classes, Flatten(DiscoverAll(sysModules, w.classes, modules, t, DirectBase).value))
  {
    var ops := DiscoverAll(sysModules, w.classes, modules, t, DirectBase).value;
    forall x | x in Flatten(ops) ensures x in w.classes {
      FlattenMember(ops, x);
      var m :| 0 <= m < |ops| && x in ops[m];
      DiscoverMembers(w.classes, sysModules[modules[m]], t, DirectBase);
    }
  }

  // ---------------------------------------------------------------------
  // The helpers and the registrar as they run

  /** `Helpers.bl_idname_helper(class_obj)` */
  method BlIdnameHelper(w: World, id: ClassId) returns (idEnd: string)
    requires id in w.classes
    modifies w
    ensures w.State() == old(w.State()).(classes := old(w.classes)[id := GenIdname(old(w.classes)[id]).0])
    ensures idEnd == GenIdname(old(w.classes)[id]).1
  {
    var c := w.classes[id];
    if !StrTruthy(c.blIdname) {
      var noOt := NoOt(c.name);
      var idEndIndex := Find(noOt, '_');
      var idAttr := Lower(Slice(noOt, 0, idEndIndex));
      idEnd := Slice(noOt, idEndIndex + 1, |noOt|);
      var idEndModified := SnakeCase(idEnd);
      assert idAttr == IdAttr(c.name) && idEnd == IdEnd(c.name);
      var generated := idAttr + "." + idEndModified;
      assert c.(blIdname := Val(generated)) == GenIdname(c).0;
      w.SetClass(id, c.(blIdname := Val(generated)));
    } else {
      idEnd := Capitalize(LastSegment(c.blIdname.v, '.'));
      assert c == GenIdname(c).0;
    }
  }

  /** `Helpers.bl_label_helper(class_obj, id_end)` */
  method BlLabelHelper(w: World, id: ClassId, idEnd: string)
    requires id in w.classes
    modifies w
    ensures w.State() == old(w.State()).(classes := old(w.classes)[id := GenLabel(old(w.classes)[id], idEnd)])
  {
    var c := w.classes[id];
    if !StrTruthy(c.blLabel) {
      w.SetClass(id, c.(blLabel := Val(Label(idEnd))));
    }
  }

  /** `Helpers.bl_options_helpers(class_obj, logger, constants)` */
  method BlOptionsHelper(w: World, id: ClassId)
    requires id in w.classes
    modifies w
    ensures var c := old(w.classes)[id]; var d := ChooseOptions(c);
      w.State() == old(w.State()).(classes := old(w.classes)[id := ApplyOptions(c, d)],
                                   log := old(w.log) + if d.Reject? then [Warned(InvalidOptions(id))] else [])
  {
    var c := w.classes[id];
    if !SetTruthy(c.blOptions) {
      if OptionsTruthy(c.blOptionsOptions) {
        // the `is not None` test that follows always holds here
        var blo := c.blOptionsOptions.v.Keys();
        if blo <= OperatorFlagItems {
          w.SetClass(id, c.(blOptions := Val(blo)));
        } else {
          w.Warn(InvalidOptions(id));
        }
      } else {
        match c.blOptionsOptions
        case Missing =>
          // reading the attribute raises AttributeError, which is caught
          w.SetClass(id, c.(blOptions := Val(DefaultFlagItems)));
        case PyNone =>
          w.SetClass(id, c.(blOptions := Val(DefaultFlagItems)));
        case Val(o) =>
          if !o.DictOpts? {
            w.SetClass(id, c.(blOptions := Val(DefaultFlagItems)));
          }
      }
    }
  }

  class RegisterOperators {
    /** One list of operator classes per module, as `get_classes` found them. */
    const operators: seq<seq<ClassId>>

    constructor(operators: seq<seq<ClassId>>)
      ensures this.operators == operators
    {
      this.operators := operators;
    }

    /** `RegisterOperators(modules)`: `get_classes(mod, bpy.types.Operator)` for
        every module, which raises `KeyError` for a module that is not loaded. */
    static method Create(w: World, modules: seq<string>) returns (r: Result<RegisterOperators>)
      ensures var d := DiscoverAll(w.sysModules, w.classes, modules, w.operatorType, DirectBase);
        (r.Ok? <==> d.Ok?)
        && (r.Err? ==> r.error == d.error)
        && (r.Ok? ==> fresh(r.value) && r.value.operators == d.value && Known(w.classes, Flatten(d.value)))
    {
      var d := DiscoverAll(w.sysModules, w.classes, modules, w.operatorType, DirectBase);
      if d.Err? {
        r := Err(d.error);
      } else {
        DiscoveredKnown(w.State(), w.sysModules, modules, w.operatorType);
        var ro := new RegisterOperators(d.value);
        r := Ok(ro);
      }
    }

    /** One iteration of the `warnings` loop. */
    static method WarnOne(w: World, id: ClassId)
      requires id in w.classes
      modifies w
      ensures w.State() == old(w.State()).(log := old(w.log) + OpWarnings(id, old(w.classes)[id]))
    {
      var c := w.classes[id];
      if !StrTruthy(c.blDescription) && !StrTruthy(c.description) {
        w.Warn(MissingDescription(id));
      }
      if !StartsWith(c.name, "OT") {
        w.Warn(MissingPrefix(id));
      }
    }

    /** `warnings()` */
    method Warnings(w: World)
      requires Known(w.classes, Flatten(operators))
      modifies w
      ensures w.State() == WarnSeq(old(w.State()), Flatten(operators))
    {
      var i := 0;
      while i < |operators|
        invariant 0 <= i <= |operators|
        invariant w.classes == old(w.classes)
        invariant Known(w.classes, Flatten(operators[i..]))
        invariant WarnSeq(old(w.State()), Flatten(operators)) == WarnSeq(w.State(), Flatten(operators[i..]))
      {
        RestStart(operators, i);
        var j := 0;
        while j < |operators[i]|
          invariant 0 <= j <= |operators[i]|
          invariant w.classes == old(w.classes)
          invariant Known(w.classes, operators[i][j..] + Flatten(operators[i + 1..]))
          invariant WarnSeq(old(w.State()), Flatten(operators))
                    == WarnSeq(w.State(), operators[i][j..] + Flatten(operators[i + 1..]))
        {
          RestStep(operators, i, j);
          WarnOne(w, operators[i][j]);
          j := j + 1;
        }
        assert operators[i][j..] + Flatten(operators[i + 1..]) == Flatten(operators[i + 1..]);
        i := i + 1;
      }
    }

    /** `generate_attributes()` */
    method GenerateAttributes(w: World)
      requires Known(w.classes, Flatten(operators))
      modifies w
      ensures w.State() == GenerateSeq(old(w.State()), Flatten(operators))
    {
      var i := 0;
      while i < |operators|
        invariant 0 <= i <= |operators|
        invariant w.classes.Keys == old(w.classes).Keys
        invariant Known(w.classes, Flatten(operators[i..]))
        invariant GenerateSeq(old(w.State()), Flatten(operators)) == GenerateSeq(w.State(), Flatten(operators[i..]))
      {
        RestStart(operators, i);
        var j := 0;
        while j < |operators[i]|
          invariant 0 <= j <= |operators[i]|
          invariant w.classes.Keys == old(w.classes).Keys
          invariant Known(w.classes, operators[i][j..] + Flatten(operators[i + 1..]))
          invariant GenerateSeq(old(w.State()), Flatten(operators))
                    == GenerateSeq(w.State(), operators[i][j..] + Flatten(operators[i + 1..]))
        {
          RestStep(operators, i, j);
          var id := operators[i][j];
          ghost var s0 := w.State();
          var idEnd := BlIdnameHelper(w, id);
          ghost var s1 := w.State();
          BlLabelHelper(w, id, idEnd);
          ghost var s2 := w.State();
          BlOptionsHelper(w, id);
          GenStepByHelpers(s0, id, idEnd, s1, s2, w.State());
          j := j + 1;
        }
        assert operators[i][j..] + Flatten(operators[i + 1..]) == Flatten(operators[i + 1..]);
        i := i + 1;
      }
    }

    /** `register()`: warnings, attribute generation, then `register_class`
        for every class, stopping at the first one the host rejects. */
    method Register(w: World) returns (err: Option<Error>)
      requires Known(w.classes, Flatten(operators))
      modifies w
      ensures Run(w.State(), err) == RegisterSpec(old(w.State()), operators)
    {
      var all := Flatten(operators);
      WarnSeqOnlyWarns(w.State(), all);
      Warnings(w);
      GenerateAttributes(w);
      ghost var p := w.State();
      assert p == Prepared(old(w.State()), operators);
      err := None;
      var i := 0;
      while i < |operators|
        invariant 0 <= i <= |operators|
        invariant err.None?
        invariant RegisterSeq(p, all) == RegisterSeq(w.State(), Flatten(operators[i..]))
      {
        RestStart(operators, i);
        var j := 0;
        while j < |operators[i]|
          invariant 0 <= j <= |operators[i]|
          invariant err.None?
          invariant RegisterSeq(p, all) == RegisterSeq(w.State(), operators[i][j..] + Flatten(operators[i + 1..]))
        {
          RestStep(operators, i, j);
          err := w.RegisterClass(operators[i][j]);
          if err.Some? {
            return;
          }
          j := j + 1;
        }
        assert operators[i][j..] + Flatten(operators[i + 1..]) == Flatten(operators[i + 1..]);
        i := i + 1;
      }
      assert operators[i..] == [];
    }

    /** `unregister()`: `unregister_class` for every class, modules forward
        and each module's classes in reverse, stopping at the first failure. */
    method Unregister(w: World) returns (err: Option<Error>)
      modifies w
      ensures Run(w.State(), err) == UnregisterSpec(old(w.State()), operators)
    {
      err := None;
      var i := 0;
      while i < |operators|
        invariant 0 <= i <= |operators|
        invariant err.None?
        invariant UnregisterSpec(old(w.State()), operators) == UnregisterSeq(w.State(), FlattenReversed(operators[i..]))
      {
        RevRestStart(operators, i);
        var j := |operators[i]|;
        while j > 0
          invariant 0 <= j <= |operators[i]|
          invariant err.None?
          invariant UnregisterSpec(old(w.State()), operators)
                    == UnregisterSeq(w.State(), Reverse(operators[i][..j]) + FlattenReversed(operators[i + 1..]))
        {
          RevRestStep(operators, i, j);
          err := w.UnregisterClass(operators[i][j - 1]);
          if err.Some? {
            return;
          }
          j := j - 1;
        }
        assert Reverse(operators[i][..j]) + FlattenReversed(operators[i + 1..]) == FlattenReversed(operators[i + 1..]);
        i := i + 1;
      }
      assert operators[i..] == [];
    }
  }
}

/** `core/class_register/decorators.py`: the two class decorators. Each
    writes attributes onto the class object in place and hands back the same
    class; the registrars read those attributes later. */
module Decorators {
  import opened PyObjects
  import opened CoreUtils
  import opened Host
  import opened OperatorReg
  import opened PropReg
  import opened OpAutoReg

  /** The class record after `register_property_group(bpy_struct, attribute)`. */
  function WithPropertyGroup(c: PyClass, bpyStruct: ClassId, attribute: string): PyClass
  {
    c.(propertyGroupType := Val(bpyStruct), propertyGroupAttribute := Val(attribute))
  }

  /** The argument of `bl_options(options)` as the attribute it becomes:
      the default `None` is stored as `None`. */
  function OptionsArgument(options: Option<Options>): (r: Attr<Options>)
    ensures r.Has()
    ensures r.Val? <==> options.Some?
    ensures options.Some? ==> r.v == options.value
  {
    if options.None? then PyNone else Val(options.value)
  }

  /** The class record after `bl_options(options)`. */
  function WithBlOptions(c: PyClass, options: Option<Options>): PyClass
  {
    c.(blOptionsOptions := OptionsArgument(options))
  }

  /** `register_property_group(bpy_struct, attribute)(cls)`: returns the same
      class, now carrying the host type and attribute name. */
  method RegisterPropertyGroup(w: World, cls: ClassId, bpyStruct: ClassId, attribute: string) returns (r: ClassId)
    requires cls in w.classes
    modifies w
    ensures r == cls
    ensures w.State() == old(w.State()).(classes := old(w.classes)[cls := WithPropertyGroup(old(w.classes)[cls], bpyStruct, attribute)])
  {
    var c := w.classes[cls];
    w.SetClass(cls, c.(propertyGroupType := Val(bpyStruct), propertyGroupAttribute := Val(attribute)));
    r := cls;
  }

  /** `bl_options(options)(cls)`: returns the same class, now carrying the
      argument unchanged in `bl_options_options`. */
  method BlOptions(w: World, cls: ClassId, options: Option<Options>) returns (r: ClassId)
    requires cls in w.classes
    modifies w
    ensures r == cls
    ensures w.State() == old(w.State()).(classes := old(w.classes)[cls := WithBlOptions(old(w.classes)[cls], options)])
  {
    var c := w.classes[cls];
    var stored := if options.None? then PyNone else Val(options.value);
    w.SetClass(cls, c.(blOptionsOptions := stored));
    r := cls;
  }

  /** `register_property_group` changes only the two group attributes, and the
      group counts as decorated for the registrar exactly when the attribute
      name is not empty. */
  lemma PropertyGroupDecoratedIff(c: PyClass, bpyStruct: ClassId, attribute: string)
    ensures var r := WithPropertyGroup(c, bpyStruct, attribute);
      r == c.(propertyGroupType := r.propertyGroupType, propertyGroupAttribute := r.propertyGroupAttribute)
      && (Decorated(r) <==> attribute != "")
      && (Decorated(r) ==> PointerKey(r) == (bpyStruct, attribute))
  {
  }

  /** A decorated group gets its pointer from `assign_attributes`, except when
      the attribute name is empty: then no pointer is assigned for it. */
  lemma DecoratedGroupPointer(s: HostState, id: ClassId, bpyStruct: ClassId, attribute: string)
    requires id in s.classes
    ensures var d := s.(classes := s.classes[id := WithPropertyGroup(s.classes[id], bpyStruct, attribute)]);
      var r := AssignSeq(d, [id]);
      (attribute == "" ==> r == d)
      && (attribute != "" ==> r == d.(pointers := s.pointers[(bpyStruct, attribute) := id]))
  {
    var d := s.(classes := s.classes[id := WithPropertyGroup(s.classes[id], bpyStruct, attribute)]);
    assert [id][1..] == [];
    PropertyGroupDecoratedIff(s.classes[id], bpyStruct, attribute);
  }

  /** `bl_options` changes only `bl_options_options`, which afterwards holds
      the argument as given (`None` included). */
  lemma BlOptionsStores(c: PyClass, options: Option<Options>)
    ensures var r := WithBlOptions(c, options);
      r == c.(blOptionsOptions := r.blOptionsOptions)
      && r.blOptionsOptions.Has()
      && (options.None? <==> r.blOptionsOptions.PyNone?)
      && (options.Some? ==> r.blOptionsOptions == Val(options.value))
  {
  }

  /** Contrary to the decorator's doc comment, an empty set does not switch
      `bl_options` generation off in the current helper: it yields the default
      flags, as no argument does; only an empty dict leaves `bl_options`
      unset. */
  lemma EmptySetGivesDefaults(c: PyClass)
    requires !SetTruthy(c.blOptions)
    ensures ChooseOptions(WithBlOptions(c, Some(SetOpts(NoFlags)))) == Assign(DefaultFlagItems)
    ensures ChooseOptions(WithBlOptions(c, None)) == Assign(DefaultFlagItems)
    ensures ChooseOptions(WithBlOptions(c, Some(DictOpts(NoFlags)))) == Keep
  {
    ChooseOptionsTable(WithBlOptions(c, Some(SetOpts(NoFlags))));
    ChooseOptionsTable(WithBlOptions(c, None));
    ChooseOptionsTable(WithBlOptions(c, Some(DictOpts(NoFlags))));
  }

  /** The two generations disagree on an empty set: the older
      `not_generate_bl_options(set())` does switch generation off, so a class
      without `bl_options` keeps none, where the current decorator and helper
      give it the defaults. */
  lemma GenerationsDisagreeOnEmptySet(s: HostState, id: ClassId, c: PyClass, carried: Option<string>)
    requires !c.blOptions.Has()
    ensures AutoOptionsStep(s, id, NotGenerate(c, Some(SetOpts(NoFlags))), carried).state.classes[id].blOptions == Missing
    ensures ApplyOptions(WithBlOptions(c, Some(SetOpts(NoFlags))), ChooseOptions(WithBlOptions(c, Some(SetOpts(NoFlags))))).blOptions
            == Val(DefaultFlagItems)
  {
    NotGenerateEffects(s, id, c, carried, Some(SetOpts(NoFlags)));
    EmptySetGivesDefaults(c);
  }
}

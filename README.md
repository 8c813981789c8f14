# Convention-based class registration for a Blender add-on

This project models the part of the BiomeNodes add-on that registers its
Blender classes by naming convention. The add-on has two operator
registrars:

- `RegisterOperators`, the current one, in `core/class_register/operator_reg.py`;
- `AutoRegisterOperators`, an older one, in `core/register/op_auto_reg.py`.

There is also the property-group registrar (`RegisterPropertyGroups`), the
two class decorators, the reflection helpers and constants of
`util/core_utils.py`, and the entry points `reg`/`unreg` of
`core/register.py`.

The model has four parts, each with its proofs:

- **Name and label derivation.** A `bl_idname` such as `ab.my_op` and a
  `bl_label` such as `My Op` are derived from a class name such as
  `OT_Ab_MyOp`. The model covers Python's `replace`, `find`, negative
  slicing, `lower`, `capitalize`, `split()`/`join` and the two regular
  expression substitutions, all on ASCII text (modules `PyStr`, `Naming`
  and `NamingExamples`).
- **`bl_options` defaulting.** Both generations' decision tables are
  modelled: the truthiness-based helper and the older `hasattr`-plus-flag
  version (`OperatorReg`, `OpAutoReg`, `Decorators`).
- **Class discovery** over a module namespace (`CoreUtils`). The current
  test is a direct `__bases__` test; the older one is an `issubclass` test.
- **Registration order.** This is modelled as a state machine over the
  host registry and an event log (`Host`, `OperatorReg`, `OpAutoReg`,
  `PropReg`, `Register`).

How the model represents the program:

- A Python class object is a `PyClass` record of optional attributes.
  `Attr<T>` is `Missing`, `PyNone` or `Val(v)`, so `hasattr` and
  truthiness can be told apart.
- Classes live in a store `map<ClassId, PyClass>` inside the host object
  `Host.World`, which the decorators and registrars update in place.
- `register_class` fails on a class that is already registered or that
  the host refuses. `unregister_class` fails on a class that is not
  registered. A failure ends the run with nothing undone, as an uncaught
  exception does.
- Each registrar is a class whose methods are the source's loops. Every
  method is proved equal to a specification function over the host state.
- The ordering, completeness, round-trip and frame properties are proved
  about those functions as lemmas.

Where a doc comment and the code disagree, the model follows the code:

- The `bl_options` decorator's doc comment (`core/class_register/decorators.py:36-37`)
  says an empty set switches generation off. Under the current helper an
  empty set gives the default flags, and only an empty dict leaves
  `bl_options` unset (`Decorators.EmptySetGivesDefaults`).
- The older decorator really does switch generation off for an empty set
  (`Decorators.GenerationsDisagreeOnEmptySet`).
- `core/register.py:6` imports `RegisterOperators` from
  `.class_register.op_auto_reg`, a module that does not exist. `Register`
  uses the `RegisterOperators` of `operator_reg.py`, the only class of
  that name.

## Model

| member | source | states |
|---|---|---|
| PyObjects.Reverse | core/class_register/operator_reg.py:184 | `reversed`: same length, and element `i` is element `n-1-i` of the input |
| PyObjects.ReversePermutes | core/register/op_auto_reg.py:135 | reversing a list keeps its multiset of elements |
| PyObjects.FlattenReversedPermutes | core/class_register/operator_reg.py:183-184 | the teardown order (modules forward, classes reversed) is a permutation of the registration order |
| PyObjects.FlattenAppend | core/register.py:23-24 | flattening two module lists one after the other is flattening each and concatenating |
| PyObjects.FlattenMember | core/class_register/operator_reg.py:127-128 | every class the nested loops visit belongs to one of the module lists |
| PyStr.Lower | core/class_register/operator_reg.py:46 | `lower()`: same length, each character ASCII-lower-cased |
| PyStr.Capitalize | core/class_register/operator_reg.py:55 | `capitalize()`: first character upper-cased, the rest lower-cased |
| PyStr.Find | core/class_register/operator_reg.py:45 | `find`: -1 exactly when the character is absent, otherwise the index of its first occurrence |
| PyStr.Slice | core/class_register/operator_reg.py:46-48 | Python slicing: the plain slice for in-range bounds, and `[0:-1]` drops the last character |
| PyStr.LastSegment | core/class_register/operator_reg.py:55 | `split('.')[-1]`: a suffix of the input with no `.`, preceded by a `.` unless it is the whole input |
| PyStr.RemoveAllChars | core/class_register/operator_reg.py:42 | `replace('OT_', '')` introduces no character that was not in the name |
| PyStr.WordsSpec | core/class_register/operator_reg.py:73 | `split()` yields non-empty whitespace-free words that together hold exactly the non-whitespace characters of the input, in order |
| PyStr.JoinWords | core/class_register/operator_reg.py:70 | `' '.join` of such words has single inner spaces only and reads back as the words once the spaces are removed |
| PyStr.TidyStrip | core/class_register/operator_reg.py:70-73 | in text whose only whitespace is the space, deleting spaces deletes all whitespace |
| PyStr.LowerAbsent | core/class_register/operator_reg.py:46 | lower-casing creates no character that is not a lower-case letter |
| Naming.Underscored | core/class_register/operator_reg.py:51 | the substitution adds one `_` per upper-case letter and nothing else: the length grows by the number of upper-case letters and deleting the `_`s gives back the input without its `_`s |
| Naming.UnderscoredPlaces | core/class_register/operator_reg.py:51 | every character moves right by the number of upper-case letters up to and including it, and each upper-case letter has its `_` immediately before it; with the length this fixes every position |
| Naming.SnakeCaseSpec | core/class_register/operator_reg.py:51 | snake-casing leaves no upper-case letter, adds exactly one `_` per upper-case letter after the first character, and otherwise only lower-cases |
| Naming.SnakeCasePlaces | core/class_register/operator_reg.py:51 | the first character stays first (never preceded by `_`), and each later character appears lower-cased with an `_` immediately before it exactly where it was upper-case, shifted by the upper-case letters before it |
| Naming.SnakeCaseAbsent | core/class_register/operator_reg.py:51 | snake-casing introduces no character other than `_` and lower-case letters |
| Naming.SpaceUpperRunsStrip | core/class_register/operator_reg.py:72 | the upper-case-run substitution only inserts spaces |
| Naming.SpaceCapitalWordsStrip | core/class_register/operator_reg.py:71-72 | the capitalised-word substitution only inserts spaces |
| Naming.LabelSpec | core/class_register/operator_reg.py:68-75 | a generated label has no leading, trailing or doubled spaces and no other whitespace, and deleting its spaces gives back the ending's non-whitespace characters (the whole ending when it has none) |
| Naming.IdnameSplitsAtFirstUnderscore | core/class_register/operator_reg.py:42-48 | with an `_` in the stripped name, the namespace is the lower-cased text before the first `_` and the body is everything after it |
| Naming.IdnameWithoutUnderscore | core/class_register/operator_reg.py:45-48 | with no `_` left, `find` gives -1: the namespace is all but the last character, lower-cased, and the body is the whole stripped name |
| Naming.IdnamePartsClean | core/class_register/operator_reg.py:42-53 | for a name without `.`, neither part of the generated id has a `.` or an upper-case letter |
| Naming.GeneratedIdnameShape | core/class_register/operator_reg.py:53 | for a name without `.`, the generated id has no upper-case letter and exactly one `.`, just after the namespace |
| Naming.DotJoin | core/class_register/operator_reg.py:53 | joining two clean parts with `.` puts the only `.` between them |
| NamingExamples.LabelExample | core/class_register/operator_reg.py:68-75 | the ending `MyOp` gets the label `My Op` |
| NamingExamples.SpaceUpperRunsExample | core/class_register/operator_reg.py:72 | the first substitution turns `MyOp` into ` My Op` |
| NamingExamples.SpaceCapitalWordsExample | core/class_register/operator_reg.py:72 | the second substitution turns ` My Op` into `  My  Op` |
| NamingExamples.WordsExample | core/class_register/operator_reg.py:73 | `split()` of `  My  Op` is `My`, `Op` |
| NamingExamples.JoinExample | core/class_register/operator_reg.py:70 | `' '.join` of `My`, `Op` is `My Op` |
| NamingExamples.SnakeCaseExample | core/class_register/operator_reg.py:51 | `MyOp` snake-cases to `my_op` |
| NamingExamples.UnderscoredExample | core/class_register/operator_reg.py:51 | the lookahead substitution turns `yOp` into `y_Op` |
| NamingExamples.NoOtExample | core/class_register/operator_reg.py:42 | `OT_Ab_MyOp` loses its `OT_` |
| NamingExamples.NoOtRemovesInside | core/class_register/operator_reg.py:42 | an `OT_` inside the name is deleted too: `ROOT_x` becomes `ROx` |
| NamingExamples.NoOtCanLeaveOt | core/class_register/operator_reg.py:42 | one left-to-right pass can leave an `OT_` behind: `OOT_T_` becomes `OT_` |
| NamingExamples.RemoveOtWithoutT | core/class_register/operator_reg.py:42 | a name without `T` is unchanged by the stripping |
| NamingExamples.IdnameOfSplit | core/class_register/operator_reg.py:45-48 | a stripped name `a_b`, with no `_` in `a`, has namespace `a` lower-cased and body `b` |
| NamingExamples.IdnameExample | core/class_register/operator_reg.py:42-54 | `OT_Ab_MyOp` gets the id `ab.my_op`, namespace `ab` and body `MyOp` |
| NamingExamples.IdnameWithoutUnderscoreExample | core/class_register/operator_reg.py:45-48 | `OT_Op` gets the id `o.op` (namespace `o`, from `[:-1]`) and body `Op` |
| CoreUtils.FlagConstants | util/core_utils.py:99-125 | the default flags are allowed flags, and the allow-list has exactly 11 flags |
| CoreUtils.GetClasses | util/core_utils.py:24-27 | `KeyError` exactly when the module is not loaded, otherwise the direct-base discovery over its namespace |
| CoreUtils.DiscoverAll | core/class_register/operator_reg.py:119 | one discovery list per module, each the discovery of that module, or else the `KeyError` of the first module in the list that is not loaded, exactly when one is not loaded |
| CoreUtils.DiscoverMembers | util/core_utils.py:25-27 | a class is discovered exactly when it is bound in the namespace and passes the test |
| CoreUtils.DiscoverCount | util/core_utils.py:26 | a passing class is discovered as often as it is bound (twice under two names), a failing one never |
| CoreUtils.DiscoverOrder | util/core_utils.py:25-27 | discovery is a subsequence of the namespace values, in namespace order |
| CoreUtils.GetClassesSpec | util/core_utils.py:24-27 | `get_classes` keeps exactly the classes with `class_type` among their direct bases, imported ones included and indirect subclasses excluded, with multiplicity |
| CoreUtils.DirectWithinSubclass | util/core_utils.py:26 | the direct-base discovery is a subsequence of the `issubclass` discovery |
| CoreUtils.BaseItselfExample | core/register/op_auto_reg.py:25-27 | the base class bound in a namespace is found by `issubclass` but not by the direct-base test |
| CoreUtils.GetClassAttrsSpec | util/core_utils.py:46-49 | `get_class_attrs` keeps exactly the members that pass the predicate and hold an instance of the type, in member order |
| Host.RegisterSeqTrace | core/class_register/operator_reg.py:171-179 | a registration loop registers and logs a prefix of its list in order; it completes exactly when the prefix is everything, else it fails at the first class already registered or refused |
| Host.RegisterSeqCompletes | core/class_register/operator_reg.py:171-173 | a registration loop completes exactly when no class occurs twice and none is registered or refused |
| Host.UnregisterSeqTrace | core/class_register/operator_reg.py:183-191 | an unregistration loop unregisters and logs a prefix of its list in order, failing at the first class not registered |
| Host.UnregisterSeqCompletes | core/class_register/operator_reg.py:183-185 | an unregistration loop completes exactly when no class occurs twice and all are registered |
| Host.RegisterUnregisterRoundTrip | core/register/op_auto_reg.py:127-136 | unregistering any permutation of a completed registration's list completes and restores the registry; only the log grows |
| Host.RegistryOnly | core/class_register/operator_reg.py:173 | registering and unregistering change only the registry and the log |
| Host.World.RegisterClass | core/class_register/operator_reg.py:173-179 | `register_class` and its info message, as a step of the registry |
| Host.World.UnregisterClass | core/class_register/operator_reg.py:185-191 | `unregister_class` and its info message, as a step of the registry |
| Host.World.Warn | core/class_register/operator_reg.py:135-140 | a warning is appended to the log and nothing else changes |
| Host.World.SetClass | core/class_register/operator_reg.py:53 | an attribute write changes that one class record and nothing else |
| Host.World.SetPointer | core/class_register/prop_reg.py:62-66 | attaching a pointer property sets one (host type, attribute) entry and nothing else |
| OperatorReg.GenIdnameSpec | core/class_register/operator_reg.py:41-55 | a truthy `bl_idname` is kept and the ending is its capitalised last `.`-segment; a falsy one becomes namespace `.` snake-cased body, which has one `.` and no upper-case letter, and the raw body is returned |
| OperatorReg.GenLabelSpec | core/class_register/operator_reg.py:68-75 | a truthy `bl_label` is kept; otherwise the new label is tidy and spells the ending's non-whitespace characters |
| OperatorReg.ChooseOptionsTable | core/class_register/operator_reg.py:90-107 | the decision table: a truthy `bl_options` is kept; a missing, `None` or empty-set payload gives the defaults; an empty dict gives nothing; a non-empty payload is copied exactly when its flags are allowed and rejected otherwise; anything assigned is a non-empty set of allowed flags |
| OperatorReg.GenerateOneSpec | core/class_register/operator_reg.py:157-164 | one class through the three helpers: only the three attributes change, each only when falsy; `bl_idname` ends truthy; a written `bl_options` is a non-empty set of allowed flags |
| OperatorReg.OpWarningsSpec | core/class_register/operator_reg.py:129-149 | a missing-description warning exactly when both descriptions are falsy, a missing-prefix warning exactly when the name does not start with `OT`, nothing else |
| OperatorReg.GenStepByHelpers | core/class_register/operator_reg.py:157-164 | running the three helpers one after the other is one generation step |
| OperatorReg.WarnSeqOnlyWarns | core/class_register/operator_reg.py:122-149 | `warnings` only appends warnings to the log |
| OperatorReg.GenerateSeqSpec | core/class_register/operator_reg.py:151-164 | `generate_attributes` changes only the listed classes, leaves every one with a truthy `bl_idname`, and logs only warnings |
| OperatorReg.GenerateSeqPerClass | core/class_register/operator_reg.py:155-164 | each class the loop visits once ends as `GenerateOne` makes it from its record before the loop, so its `bl_idname`, `bl_label` and `bl_options` are the ones `GenerateOneSpec` and `ChooseOptionsTable` state |
| OperatorReg.PreparedPerClass | core/class_register/operator_reg.py:166-169 | at the first `register_class`, every class discovered once carries the attributes `GenerateOne` gives its original record |
| OperatorReg.RegisterOrder | core/class_register/operator_reg.py:166-179 | all warnings and generated attributes are in place before the first `register_class`; then a prefix of the classes is registered in module-then-class order, all of them exactly when it completes |
| OperatorReg.RegisterCompletes | core/class_register/operator_reg.py:171-173 | `register` completes exactly when no operator is discovered twice and none is registered or refused |
| OperatorReg.RegisterThenUnregister | core/class_register/operator_reg.py:181-191 | after a completed `register`, `unregister` completes, restores the registry and logs modules forward, classes reversed |
| OperatorReg.DiscoveredKnown | core/class_register/operator_reg.py:119 | every discovered operator has a class record |
| OperatorReg.BlIdnameHelper | core/class_register/operator_reg.py:41-55 | the helper writes the specified `bl_idname` into that one class and returns the specified ending |
| OperatorReg.BlLabelHelper | core/class_register/operator_reg.py:68-75 | the helper writes the specified `bl_label` into that one class |
| OperatorReg.BlOptionsHelper | core/class_register/operator_reg.py:90-107 | the helper applies the decision table to that one class and logs the invalid-options warning exactly on rejection |
| OperatorReg.RegisterOperators.Create | core/class_register/operator_reg.py:119 | construction discovers direct subclasses of `Operator` module by module, or fails with the `KeyError` of a module that is not loaded |
| OperatorReg.RegisterOperators.WarnOne | core/class_register/operator_reg.py:129-149 | one loop iteration appends that class's warnings |
| OperatorReg.RegisterOperators.Warnings | core/class_register/operator_reg.py:122-149 | the nested loop logs the warnings of every class, in module-then-class order |
| OperatorReg.RegisterOperators.GenerateAttributes | core/class_register/operator_reg.py:151-164 | the nested loop applies the generation step to every class, in module-then-class order |
| OperatorReg.RegisterOperators.Register | core/class_register/operator_reg.py:166-179 | `register` reaches exactly the state and error of its specification: warnings, generation, then registration |
| OperatorReg.RegisterOperators.Unregister | core/class_register/operator_reg.py:181-191 | `unregister` reaches exactly the state and error of the reversed-within-module unregistration loop |
| OpAutoReg.SameFlagsAsCurrent | core/register/op_auto_reg.py:93-99 | the older registrar's literal allow-list and defaults equal the current constants |
| OpAutoReg.SubclassesIn | core/register/op_auto_reg.py:25-27 | `KeyError` exactly when the module is not loaded, otherwise the `issubclass` discovery |
| OpAutoReg.SubclassesInSpec | core/register/op_auto_reg.py:25-27 | the lambda keeps exactly the classes with the type in their MRO (any depth, the base itself included), as often as bound, in namespace order |
| OpAutoReg.AutoWarningsSpec | core/register/op_auto_reg.py:45-53 | a missing-description warning exactly when neither attribute exists (an empty one counts as present), a missing-prefix warning exactly when the name does not start with `OT` |
| OpAutoReg.AutoWarnSeqOnlyWarns | core/register/op_auto_reg.py:39-53 | `warnings` only appends warnings to the log |
| OpAutoReg.AutoStepSpec | core/register/op_auto_reg.py:60-99 | one iteration changes only its class, logs at most the invalid-options warning, and raises only `UnboundLocalError` or `AttributeError` |
| OpAutoReg.AutoOptionsStepSpec | core/register/op_auto_reg.py:89-99 | the `bl_options` part changes only its class, keeps `label`, logs at most one warning and raises only `AttributeError` |
| OpAutoReg.AutoGenerateSeqSpec | core/register/op_auto_reg.py:55-99 | `generate_attributes` changes only the listed classes and logs only warnings |
| OpAutoReg.AutoGeneratePerClass | core/register/op_auto_reg.py:60-99 | when no exception stops the loop over distinct classes, `label` ends as `LabelAfter` gives it and each class ends as its own iteration makes it from its original record and the `label` its predecessors left |
| OpAutoReg.LabelAfterKept | core/register/op_auto_reg.py:62-85 | `label` is never assigned while every class already has a `bl_idname` |
| OpAutoReg.LabelAfterLast | core/register/op_auto_reg.py:62-85 | `label` holds the label computed for the last class whose `bl_idname` was generated |
| OpAutoReg.StepCarriesLabel | core/register/op_auto_reg.py:62-75 | generating a `bl_idname` assigns `label` from the same id ending |
| OpAutoReg.PresetIdnameTakesLabel | core/register/op_auto_reg.py:84-85 | a class with `bl_idname` but no `bl_label` takes whatever `label` holds |
| OpAutoReg.LabelCarriesOver | core/register/op_auto_reg.py:74-85 | a class with a preset `bl_idname` and no `bl_label` gets the label of the earlier class whose `bl_idname` was generated |
| OpAutoReg.UnboundLabel | core/register/op_auto_reg.py:84-85 | if no `bl_idname` was generated before it, such a class raises `UnboundLocalError` |
| OpAutoReg.AutoOptionsTable | core/register/op_auto_reg.py:89-99 | the older table: nothing when opted out or `bl_options` exists; defaults with no payload; a set payload copied exactly when allowed and warned about exactly otherwise; `AttributeError` for a `None` or dict payload |
| OpAutoReg.NotGenerateSpec | core/register/op_auto_reg.py:109-115 | no argument or `set()` switches generation off; any other argument switches it on and stores the argument; nothing else changes |
| OpAutoReg.NotGenerateEffects | core/register/op_auto_reg.py:89-114 | a class decorated with no argument or `set()` keeps its `bl_options` through generation; an empty dict with no `bl_options` raises `AttributeError` |
| OpAutoReg.AutoRegisterOrder | core/register/op_auto_reg.py:118-129 | warnings and generation happen for every class before the first registration, which then follows list order, all of it exactly when it completes |
| OpAutoReg.AutoRoundTrip | core/register/op_auto_reg.py:131-137 | after a completed `auto_register`, `auto_unregister` completes, logs the exact reverse of the list and restores the registry |
| OpAutoReg.NotGenerateBlOptions | core/register/op_auto_reg.py:101-116 | the decorator updates that one class in place and returns it |
| OpAutoReg.GenerateBody | core/register/op_auto_reg.py:60-99 | one loop iteration reaches exactly the specified state, `label` and error |
| OpAutoReg.IdnameBody | core/register/op_auto_reg.py:62-81 | the `bl_idname` branch writes the generated id and assigns `label` only when `bl_idname` is absent |
| OpAutoReg.OptionsBody | core/register/op_auto_reg.py:87-99 | the `bl_options` part reaches exactly the specified state and error |
| OpAutoReg.AutoRegisterOperators.Create | core/register/op_auto_reg.py:22-29 | construction is the `issubclass` discovery over one module, or its `KeyError` |
| OpAutoReg.AutoRegisterOperators.Warnings | core/register/op_auto_reg.py:39-53 | the loop logs the warnings of every class in list order |
| OpAutoReg.AutoRegisterOperators.GenerateAttributes | core/register/op_auto_reg.py:55-99 | the loop, with `label` carried between iterations, reaches exactly the specified state and first error |
| OpAutoReg.AutoRegisterOperators.AutoRegister | core/register/op_auto_reg.py:118-129 | `auto_register` reaches exactly the state and error of its specification |
| OpAutoReg.AutoRegisterOperators.AutoUnregister | core/register/op_auto_reg.py:131-137 | `auto_unregister` is the unregistration loop over the reversed list |
| PropReg.GroupWarnSeqSpec | core/class_register/prop_reg.py:36-49 | `warnings` changes only the log and appends exactly the skip warnings of the undecorated groups, one per occurrence in list order, none for a decorated group |
| PropReg.SkipWarningsCount | core/class_register/prop_reg.py:38-49 | the skip warnings are only skip warnings, and the one for a group occurs as often as the group occurs in the list when it is undecorated, never otherwise |
| PropReg.GroupWarnSeqLog | core/class_register/prop_reg.py:38-49 | the warnings loop appends exactly the in-order skip warnings to the log and changes nothing else |
| PropReg.AssignSeqSpec | core/class_register/prop_reg.py:51-66 | `assign_attributes` changes only pointers: every pointer a decorated group asks for is attached to a group asking for it, and every other pointer is untouched |
| PropReg.PropRegisterOrder | core/class_register/prop_reg.py:68-82 | pointers are attached only after every group, decorated or not, is registered, and not at all when a registration fails |
| PropReg.PropRegisterCompletes | core/class_register/prop_reg.py:72-74 | `register` completes exactly when no group is discovered twice and none is registered or refused |
| PropReg.PropUnregisterKeepsPointers | core/class_register/prop_reg.py:84-94 | `unregister` removes no pointer property and changes no class |
| PropReg.PropRoundTrip | core/class_register/prop_reg.py:84-94 | after a completed `register`, `unregister` completes, restores the registry, keeps the pointers and logs modules forward, groups reversed |
| PropReg.DiscoveredKnown | core/class_register/prop_reg.py:33 | every discovered group has a class record |
| PropReg.RegisterPropertyGroups.Create | core/class_register/prop_reg.py:33 | construction discovers direct subclasses of `PropertyGroup` module by module, or fails with a `KeyError` |
| PropReg.RegisterPropertyGroups.Warnings | core/class_register/prop_reg.py:36-49 | the nested loop logs the skip warnings in module-then-group order |
| PropReg.RegisterPropertyGroups.AssignAttributes | core/class_register/prop_reg.py:51-66 | the nested loop attaches the pointers of the decorated groups in module-then-group order |
| PropReg.RegisterPropertyGroups.Register | core/class_register/prop_reg.py:68-82 | `register` reaches exactly the state and error of its specification |
| PropReg.RegisterPropertyGroups.Unregister | core/class_register/prop_reg.py:84-94 | `unregister` is the modules-forward, groups-reversed unregistration loop |
| Decorators.OptionsArgument | core/class_register/decorators.py:31-32 | the argument as stored: `None` when no argument is given, the payload otherwise |
| Decorators.RegisterPropertyGroup | core/class_register/decorators.py:23-26 | returns the same class, which now carries the host type and attribute name; nothing else changes |
| Decorators.BlOptions | core/class_register/decorators.py:46-48 | returns the same class, which now carries the argument in `bl_options_options`; nothing else changes |
| Decorators.PropertyGroupDecoratedIff | core/class_register/decorators.py:23-26 | only the two group attributes change, and the group counts as decorated exactly when the attribute name is not empty |
| Decorators.DecoratedGroupPointer | core/class_register/prop_reg.py:61-66 | a group decorated with an empty attribute name gets no pointer; any other gets the pointer it names |
| Decorators.BlOptionsStores | core/class_register/decorators.py:46-48 | only `bl_options_options` changes, and it holds the argument as given, `None` included |
| Decorators.EmptySetGivesDefaults | core/class_register/decorators.py:36-37 | contrary to the doc comment, an empty set gives the default flags, as no argument does; only an empty dict leaves `bl_options` unset |
| Decorators.GenerationsDisagreeOnEmptySet | core/register/op_auto_reg.py:110-111 | the older decorator with `set()` leaves a class without `bl_options`, where the current one gives it the defaults |
| Register.RegOrder | core/register.py:15-24 | `reg` registers every operator before any group, operators in module-then-class order; no group is registered when an operator fails; when it completes, the operators then the groups are registered |
| Register.UnregOrder | core/register.py:27-36 | `unreg` unregisters every group before any operator; no operator is unregistered when a group fails; no pointer and no class changes |
| Register.RoundTripState | core/register.py:15-36 | after a completed `reg`, `unreg` completes, restores the registry, keeps the pointers, and logs the groups' teardown and then the operators' |
| Register.RegUnregRoundTrip | core/register.py:15-36 | after a completed `reg`, `unreg` unregisters exactly the multiset of classes `reg` registered |
| Register.RegisteredAll | core/register.py:23-24 | a completed `reg` registers the operators and then the groups, each in module-then-class order: one walk over the operator module lists followed by the group module lists |
| Register.Registration.Create | core/register.py:8-12 | both registrars are built once from the same module list; both discoveries succeed exactly when every module is loaded |
| Register.Registration.Reg | core/register.py:15-24 | `reg` reaches exactly the state and error of the operator registration followed by the group registration |
| Register.Registration.Unreg | core/register.py:27-36 | `unreg` reaches exactly the state and error of the group teardown followed by the operator teardown |

## Left out

- The `bpy` host is abstract. `register_class`, `unregister_class` and
  `bpy.props.PointerProperty` are modelled by `Host.World`:
  - a registry with a set of refused classes;
  - pointer entries keyed by (host type, attribute name);
  - a log of events.

  Host validation of class definitions is not modelled.
- Logging and `print` become log events. The message text and the ANSI
  colour codes of `BColors` (`util/core_utils.py:127-137`) are not
  modelled.
- `list_all_modules_helper` and `import_all_modules` (`util/core_utils.py:52-91`)
  are not modelled, because they walk the file system and import packages.
  The module list is a parameter, and `sys.modules` is a map from module
  names to their namespace values.
- Reflection is given as data:
  - `inspect.isclass`, `__bases__`, `__mro__` and `issubclass` are fields
    of class records;
  - `inspect.getmembers` is a list of (name, value) pairs, with its
    predicate applied in the same pass.
- Namespaces are assumed closed over the class records: a class object
  whose id has no record in the class store is not discovered
  (`CoreUtils.Matches`), where `inspect.isclass` would accept it.
- Attributes are per class record. Inheritance of an attribute from a base
  class through the MRO is not modelled.
- `core/class_register/icon_reg.py` and `__init__.py` are not part of this
  model. The first is unfinished and only prints; the second is load-time
  wiring.
- Strings are ASCII. Python's Unicode `lower`/`capitalize`/`isspace` are
  not modelled beyond ASCII.
- The `bl_options_options` payload is a set or a dict of flag names.
  Other payload types are not modelled.
- A `description` written as a method is modelled as a non-empty text,
  because only its truthiness or presence is read.
- `core/register.py:6` imports from a module that does not exist. Python
  would also import the `core/register/` package before the file of the
  same name. `Register` keeps only the ordering, using the
  `RegisterOperators` of `operator_reg.py`.
- The `is not None` test at `core/class_register/operator_reg.py:92` can
  never fail after the truthiness test before it. It has no separate
  branch in the model.
- Register.Registration.Create: the group registrar is built from the
  same discovery as `RegisterPropertyGroups.Create`, written out rather
  than by calling it.
- PropReg.AssignSeqSpec: when two decorated groups name the same host type
  and attribute, the last one in loop order wins. The contract only states
  that the pointer goes to one of the groups naming it.
- Naming.LabelSpec: states where spaces may not be, but not where they go.
  The positions are pinned down only by the worked examples
  (`NamingExamples.LabelExample`).
- NamingExamples.RemoveOtWithoutT and the other `replace('OT_', '')`
  lemmas: `PyStr.RemoveAll` is specified only by these lemmas and
  examples, not by a closed-form characterisation of Python's `replace`.

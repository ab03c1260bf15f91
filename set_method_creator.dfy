/** Synthesis of the setter that a property assignment `o.name = v` links to
    when its call site has no cached setter or the cached one's guard failed.
    The decision is a pure function of the receiver's state, the lookup result
    and the call site (`Link`); `SetMethodCreator` carries it out on the
    objects and is proved to agree with it. */
module SetMethodCreation {
  import opened Outcomes
  import opened Properties
  import opened Objects

  /** Which setter was chosen and the arguments bound into it. The four
      new-property variants carry the call site, the map the object must still
      have when the setter runs, the map it then moves to and the slot. */
  datatype MethodHandle =
    | Unbound(setter: Setter)
    | BoundTo(setter: Setter, target: ScriptObject)
    | SetEmbed(desc: CallSiteDescriptor, oldMap: PropertyMap, newMap: PropertyMap, setter: Setter, slot: nat)
    | SetSpillWithNew(desc: CallSiteDescriptor, oldMap: PropertyMap, newMap: PropertyMap, slot: nat)
    | SetSpill(desc: CallSiteDescriptor, oldMap: PropertyMap, newMap: PropertyMap, slot: nat)
    | SetSpillWithGrow(desc: CallSiteDescriptor, oldMap: PropertyMap, newMap: PropertyMap, slot: nat, newLength: nat)
  {
    /** The handle adds a property to the receiver when it runs. */
    predicate AddsProperty()
    {
      SetEmbed? || SetSpillWithNew? || SetSpill? || SetSpillWithGrow?
    }

    /** The handle writes a new spill slot. */
    predicate IsSpillVariant()
    {
      SetSpillWithNew? || SetSpill? || SetSpillWithGrow?
    }
  }

  /** A chosen setter and the property it writes; the property is absent for a
      variable created on the global object. */
  datatype SetMethod = SetMethod(handle: MethodHandle, property: Option<Property>)

  /** A guard that holds while the receiver's map is `propertyMap`. */
  datatype Guard = MapGuard(propertyMap: PropertyMap)

  datatype GuardedInvocation = GuardedInvocation(invocation: MethodHandle, guard: Option<Guard>)

  // ---------------------------------------------------------------------------
  // Guard decision

  predicate IsPropertyTypeStable(property: Option<Property>)
  {
    property.None? || !property.value.canChangeType
  }

  predicate NeedsNoGuard(desc: CallSiteDescriptor, cfg: Config, property: Option<Property>)
  {
    desc.isFastScope && (cfg.objectFieldsOnly || IsPropertyTypeStable(property))
  }

  /** The guard for a setter linked while the receiver had map `propertyMap`. */
  function GetGuard(desc: CallSiteDescriptor, cfg: Config, propertyMap: PropertyMap, property: Option<Property>): (g: Option<Guard>)
    ensures g.None? <==>
      desc.isFastScope && (cfg.objectFieldsOnly || property.None? || !property.value.canChangeType)
    ensures g.Some? ==> g.value.propertyMap == propertyMap
  {
    if NeedsNoGuard(desc, cfg, property) then None else Some(MapGuard(propertyMap))
  }

  /** The guarded invocation composed from a chosen setter. */
  function GuardedInvocationOf(sm: SetMethod, desc: CallSiteDescriptor, cfg: Config, propertyMap: PropertyMap): (gi: GuardedInvocation)
    ensures gi.invocation == sm.handle
    ensures gi.guard.None? <==>
      desc.isFastScope && (cfg.objectFieldsOnly || sm.property.None? || !sm.property.value.canChangeType)
    ensures gi.guard.Some? ==> gi.guard == Some(MapGuard(propertyMap))
  {
    GuardedInvocation(sm.handle, GetGuard(desc, cfg, propertyMap, sm.property))
  }

  // ---------------------------------------------------------------------------
  // The paths of the decision

  /** Strict code may not create a variable by assigning to it: at a call site
      that is both scope and strict this is the error to raise. */
  function CheckStrictCreateNewVariable(desc: CallSiteDescriptor): (e: Option<ScriptError>)
    ensures e.Some? <==> desc.isScope && desc.isStrict
    ensures e.Some? ==> e.value.messageKey == "not.defined" && e.value.name == desc.name
  {
    if desc.isScope && desc.isStrict then Some(ReferenceError("not.defined", desc.name)) else None
  }

  /** The setter of a property the lookup found. A data property found on
      another object is written on that object, so its setter is bound to the
      owner; a property with a setter function, or one found on the receiver,
      keeps the setter unbound. */
  function ExistingPropertySetter(find: FindProperty, desc: CallSiteDescriptor): (sm: SetMethod)
    ensures sm.property == Some(find.property)
    ensures sm.handle.Unbound? || sm.handle.BoundTo?
    ensures sm.handle.setter == FoundSetter(find, desc.valueType, desc.isStrict)
    ensures sm.handle.BoundTo? <==> !find.property.hasSetterFunction && find.isInherited
    ensures sm.handle.BoundTo? ==> sm.handle.target == find.owner
  {
    var setter := FoundSetter(find, desc.valueType, desc.isStrict);
    if !find.property.hasSetterFunction && find.isInherited then
      SetMethod(BoundTo(setter, find.owner), Some(find.property))
    else
      SetMethod(Unbound(setter), Some(find.property))
  }

  /** The setter of a variable created by assignment at a scope object: a new
      spill property of the global object, written on the global object. */
  function GlobalPropertySetter(global: ScriptObject, globalMap: PropertyMap, desc: CallSiteDescriptor, cfg: Config): (sm: SetMethod)
    ensures sm.property.None?
    ensures sm.handle.BoundTo? && sm.handle.target == global
    ensures sm.handle.setter.SlotSetter?
    ensures sm.handle.setter.property.key == desc.name
    ensures sm.handle.setter.property.slot == Spill(globalMap.spillLength)
  {
    SetMethod(BoundTo(SlotSetter(SpillProperty(desc.name, globalMap.spillLength, cfg)), global), None)
  }

  /** The spill array length to grow to when slot `nextSpill` does not fit:
      the next multiple of `spillRate` above `nextSpill`. */
  function GrownSpillLength(nextSpill: nat, spillRate: nat): (n: nat)
    requires spillRate > 0
    ensures n % spillRate == 0
    ensures nextSpill < n <= nextSpill + spillRate
  {
    var q := (nextSpill + spillRate) / spillRate;
    assert nextSpill + spillRate == q * spillRate + (nextSpill + spillRate) % spillRate;
    ExactDivision(q, spillRate);
    q * spillRate
  }

  /** Dividing a multiple of `d` by `d` is exact. */
  lemma ExactDivision(q: nat, d: nat)
    requires d > 0
    ensures (q * d) / d == q && (q * d) % d == 0
  {
    var x := q * d;
    var k, r := x / d, x % d;
    assert x == k * d + r;
    var t: int := q - k;
    assert t * d == r by {
      assert t * d == q * d - k * d;
    }
  }

  /** The setter for new spill slot `nextSpill`, chosen by the state of the
      receiver's spill array: create it, write into it, or grow it. */
  function SpillMethodHandle(desc: CallSiteDescriptor, oldMap: PropertyMap, newMap: PropertyMap,
                             nextSpill: nat, spill: Option<nat>, spillRate: nat): (h: MethodHandle)
    requires spillRate > 0
    ensures h.IsSpillVariant()
    ensures h.desc == desc && h.oldMap == oldMap && h.newMap == newMap && h.slot == nextSpill
    ensures h.SetSpillWithNew? <==> spill.None?
    ensures h.SetSpill? <==> spill.Some? && nextSpill < spill.value
    ensures h.SetSpillWithGrow? <==> spill.Some? && spill.value <= nextSpill
    ensures h.SetSpillWithGrow? ==>
      h.newLength % spillRate == 0 && nextSpill < h.newLength <= nextSpill + spillRate
  {
    if spill.None? then
      SetSpillWithNew(desc, oldMap, newMap, nextSpill)
    else if nextSpill < spill.value then
      SetSpill(desc, oldMap, newMap, nextSpill)
    else
      SetSpillWithGrow(desc, oldMap, newMap, nextSpill, GrownSpillLength(nextSpill, spillRate))
  }

  /** The property a new assignment to `key` creates on an ordinary object:
      the lowest free embedded field while one is left, otherwise the next
      spill slot of the map. */
  function NewPropertyFor(key: string, propertyMap: PropertyMap, embedUsed: set<nat>, cfg: Config): (p: Property)
    ensures p.key == key && !p.hasSetterFunction
    ensures p.slot.Embedded? <==> FirstFreeEmbed(embedUsed, cfg.embedSize) < cfg.embedSize
    ensures p.slot.Embedded? ==>
      && p.slot.index < cfg.embedSize
      && p.slot.index !in embedUsed
      && (forall j :: 0 <= j < p.slot.index ==> j in embedUsed)
    ensures p.slot.Spill? ==> p.slot.index == propertyMap.spillLength
  {
    var nextEmbed := FirstFreeEmbed(embedUsed, cfg.embedSize);
    if nextEmbed >= cfg.embedSize then SpillProperty(key, propertyMap.spillLength, cfg)
    else EmbedProperty(key, nextEmbed, cfg)
  }

  /** The setter for a new property in spill slot `propertyMap.spillLength`. */
  function NewSpillSetMethod(desc: CallSiteDescriptor, propertyMap: PropertyMap, spill: Option<nat>, cfg: Config): (sm: SetMethod)
    requires cfg.spillRate > 0
    ensures sm.property.Some? && sm.property.value == SpillProperty(desc.name, propertyMap.spillLength, cfg)
    ensures sm.handle.IsSpillVariant() && sm.handle.slot == propertyMap.spillLength && sm.handle.desc == desc
    ensures sm.handle.oldMap == propertyMap && sm.handle.newMap == propertyMap.AddProperty(sm.property.value)
    ensures sm.handle == SpillMethodHandle(desc, propertyMap, propertyMap.AddProperty(sm.property.value),
                                           propertyMap.spillLength, spill, cfg.spillRate)
  {
    var nextSpill := propertyMap.spillLength;
    var property := SpillProperty(desc.name, nextSpill, cfg);
    SetMethod(SpillMethodHandle(desc, propertyMap, propertyMap.AddProperty(property), nextSpill, spill, cfg.spillRate), Some(property))
  }

  /** The setter for a new property in embedded field `nextEmbed`. */
  function NewEmbedSetMethod(desc: CallSiteDescriptor, propertyMap: PropertyMap, nextEmbed: nat, cfg: Config): (sm: SetMethod)
    ensures sm.property.Some? && sm.property.value == EmbedProperty(desc.name, nextEmbed, cfg)
    ensures sm.handle.SetEmbed? && sm.handle.slot == nextEmbed
    ensures sm.handle.desc == desc && sm.handle.setter == SlotSetter(sm.property.value)
    ensures sm.handle.oldMap == propertyMap && sm.handle.newMap == propertyMap.AddProperty(sm.property.value)
  {
    var property := EmbedProperty(desc.name, nextEmbed, cfg);
    SetMethod(SetEmbed(desc, propertyMap, propertyMap.AddProperty(property), SlotSetter(property), nextEmbed), Some(property))
  }

  /** The setter for a new property on an ordinary object. */
  function NewPropertySetMethod(desc: CallSiteDescriptor, propertyMap: PropertyMap, embedUsed: set<nat>,
                                spill: Option<nat>, cfg: Config): (sm: SetMethod)
    requires cfg.spillRate > 0
    ensures sm.property == Some(NewPropertyFor(desc.name, propertyMap, embedUsed, cfg))
    ensures sm.handle.AddsProperty()
    ensures sm.handle.SetEmbed? <==> sm.property.value.slot.Embedded?
    ensures sm.handle.slot == sm.property.value.slot.index && sm.handle.desc == desc
    ensures sm.handle.oldMap == propertyMap && sm.handle.newMap == propertyMap.AddProperty(sm.property.value)
    ensures sm.property.value.slot.Embedded? ==> sm == NewEmbedSetMethod(desc, propertyMap, sm.property.value.slot.index, cfg)
    ensures sm.property.value.slot.Spill? ==> sm == NewSpillSetMethod(desc, propertyMap, spill, cfg)
  {
    var nextEmbed := FirstFreeEmbed(embedUsed, cfg.embedSize);
    if nextEmbed >= cfg.embedSize then NewSpillSetMethod(desc, propertyMap, spill, cfg)
    else NewEmbedSetMethod(desc, propertyMap, nextEmbed, cfg)
  }

  // ---------------------------------------------------------------------------
  // The whole decision

  /** What the synthesis reads of the receiver: the map it had when synthesis
      began, its embedded fields in use, its spill array and whether it is a
      scope object. */
  datatype ObjectView = ObjectView(propertyMap: PropertyMap, embedUsed: set<nat>, spill: Option<nat>, isScope: bool)

  /** A chosen setter with the changes its synthesis makes: the embedded field
      marked used on the receiver, the spill property added to the global
      object, and the property announced as added on the receiver. */
  datatype Linkage = Linkage(
    setMethod: SetMethod,
    usedEmbed: Option<nat>,
    globalSpill: Option<Property>,
    notified: Option<Property>)

  /** The outcome of synthesising a setter for `desc` on an object in state
      `v`, given the lookup result `find` and the global object with its map. */
  function Link(cfg: Config, v: ObjectView, find: Option<FindProperty>, desc: CallSiteDescriptor,
                global: ScriptObject, globalMap: PropertyMap): (r: Result<Linkage, ScriptError>)
    requires cfg.spillRate > 0
    // Rejection happens exactly for a strict scope assignment to a missing name.
    ensures r.Err? <==> find.None? && desc.isScope && desc.isStrict
    ensures r.Err? ==> r.error == ReferenceError("not.defined", desc.name)
    // A found property is used as it is; nothing is created or announced.
    ensures find.Some? ==>
      && r.Ok?
      && r.value.setMethod == ExistingPropertySetter(find.value, desc)
      && r.value.usedEmbed.None? && r.value.globalSpill.None? && r.value.notified.None?
    // A scope object creates the variable as a spill property of the global object.
    ensures r.Ok? && find.None? && v.isScope ==>
      && r.value.setMethod.property.None?
      && r.value.setMethod.handle.BoundTo? && r.value.setMethod.handle.target == global
      && r.value.globalSpill == Some(SpillProperty(desc.name, globalMap.spillLength, cfg))
      && r.value.setMethod.handle.setter == SlotSetter(r.value.globalSpill.value)
      && r.value.usedEmbed.None? && r.value.notified.None?
    // An ordinary object gets a new property named by the call site, announced once.
    ensures r.Ok? && find.None? && !v.isScope ==>
      var sm := r.value.setMethod;
      && sm == NewPropertySetMethod(desc, v.propertyMap, v.embedUsed, v.spill, cfg)
      && sm.property.Some? && sm.property.value.key == desc.name
      && r.value.notified == sm.property && r.value.globalSpill.None?
      && sm.handle.AddsProperty()
      && sm.handle.oldMap == v.propertyMap && sm.handle.newMap == v.propertyMap.AddProperty(sm.property.value)
      && (r.value.usedEmbed.Some? <==> FirstFreeEmbed(v.embedUsed, cfg.embedSize) < cfg.embedSize)
      && (r.value.usedEmbed.Some? ==>
            && r.value.usedEmbed.value == FirstFreeEmbed(v.embedUsed, cfg.embedSize)
            && r.value.usedEmbed.value !in v.embedUsed
            && sm.handle.SetEmbed? && sm.handle.slot == r.value.usedEmbed.value
            && sm.property.value.slot == Embedded(r.value.usedEmbed.value))
      && (r.value.usedEmbed.None? ==>
            && sm.handle.IsSpillVariant()
            && sm.handle.slot == v.propertyMap.spillLength
            && sm.property.value.slot == Spill(v.propertyMap.spillLength)
            && (sm.handle.SetSpillWithNew? <==> v.spill.None?)
            && (sm.handle.SetSpill? <==> v.spill.Some? && v.propertyMap.spillLength < v.spill.value)
            && (sm.handle.SetSpillWithGrow? ==>
                  && sm.handle.newLength % cfg.spillRate == 0
                  && v.propertyMap.spillLength < sm.handle.newLength <= v.propertyMap.spillLength + cfg.spillRate))
  {
    if find.Some? then
      Ok(Linkage(ExistingPropertySetter(find.value, desc), None, None, None))
    else if CheckStrictCreateNewVariable(desc).Some? then
      Err(CheckStrictCreateNewVariable(desc).value)
    else if v.isScope then
      var sm := GlobalPropertySetter(global, globalMap, desc, cfg);
      Ok(Linkage(sm, None, Some(sm.handle.setter.property), None))
    else
      var sm := NewPropertySetMethod(desc, v.propertyMap, v.embedUsed, v.spill, cfg);
      var used := if sm.handle.SetEmbed? then Some(sm.handle.slot) else None;
      Ok(Linkage(sm, used, None, sm.property))
  }

  /** The state of an object after a synthesis with outcome `l`, where
      `isReceiver` and `isGlobal` say which role the object played. */
  function Apply(s: ObjectState, l: Linkage, isReceiver: bool, isGlobal: bool): ObjectState
  {
    ObjectState(
      if isGlobal && l.globalSpill.Some? then s.propertyMap.AddProperty(l.globalSpill.value) else s.propertyMap,
      if isReceiver && l.usedEmbed.Some? then s.embedUsed + {l.usedEmbed.value} else s.embedUsed,
      s.spill,
      if isReceiver && l.notified.Some? then s.addedLog + [l.notified.value] else s.addedLog)
  }

  /** The receiver went from `s0` to `s1` and the global object from `g0` to
      `g1` as outcome `lk` prescribes; a rejected synthesis changes nothing. */
  predicate Transitioned(lk: Result<Linkage, ScriptError>, sameObject: bool,
                         s0: ObjectState, g0: ObjectState, s1: ObjectState, g1: ObjectState)
  {
    match lk
    case Err(_) => s1 == s0 && g1 == g0
    case Ok(l) => s1 == Apply(s0, l, true, sameObject) && g1 == Apply(g0, l, sameObject, true)
  }

  // ---------------------------------------------------------------------------
  // The creator

  /** Synthesises the setter for one assignment on `sobj`. The map is taken
      from `sobj` when the creator is made; `global` is the trusted global
      object of the running context. */
  class SetMethodCreator {
    const sobj: ScriptObject
    const propertyMap: PropertyMap
    const find: Option<FindProperty>
    const desc: CallSiteDescriptor
    const global: ScriptObject
    const cfg: Config

    constructor (sobj: ScriptObject, find: Option<FindProperty>, desc: CallSiteDescriptor,
                 global: ScriptObject, cfg: Config)
      ensures this.sobj == sobj && this.propertyMap == sobj.propertyMap && this.find == find
      ensures this.desc == desc && this.global == global && this.cfg == cfg
    {
      this.sobj := sobj;
      this.propertyMap := sobj.propertyMap;
      this.find := find;
      this.desc := desc;
      this.global := global;
      this.cfg := cfg;
    }

    /** The decision for this creator, from the receiver's embedded fields and
        spill array and the global object's map. */
    function Decision(embedUsed: set<nat>, spill: Option<nat>, globalMap: PropertyMap): Result<Linkage, ScriptError>
      requires cfg.spillRate > 0
    {
      Link(cfg, ObjectView(propertyMap, embedUsed, spill, sobj.isScope), find, desc, global, globalMap)
    }

    method CreateGuardedInvocation() returns (r: Result<GuardedInvocation, ScriptError>)
      requires cfg.spillRate > 0
      modifies sobj, global
      ensures var lk := Decision(old(sobj.embedUsed), old(sobj.spill), old(global.propertyMap));
        && (lk.Err? ==> r == Err(lk.error))
        && (lk.Ok? ==> r == Ok(GuardedInvocationOf(lk.value.setMethod, desc, cfg, propertyMap)))
        && Transitioned(lk, sobj == global, old(sobj.State()), old(global.State()), sobj.State(), global.State())
    {
      var sm := CreateSetMethod();
      match sm
      case Err(e) => r := Err(e);
      case Ok(m) => r := Ok(GuardedInvocationOf(m, desc, cfg, propertyMap));
    }

    method CreateSetMethod() returns (r: Result<SetMethod, ScriptError>)
      requires cfg.spillRate > 0
      modifies sobj, global
      ensures var lk := Decision(old(sobj.embedUsed), old(sobj.spill), old(global.propertyMap));
        && (lk.Err? ==> r == Err(lk.error))
        && (lk.Ok? ==> r == Ok(lk.value.setMethod))
        && Transitioned(lk, sobj == global, old(sobj.State()), old(global.State()), sobj.State(), global.State())
    {
      if find.Some? {
        return Ok(ExistingPropertySetter(find.value, desc));
      }
      var error := CheckStrictCreateNewVariable(desc);
      if error.Some? {
        return Err(error.value);
      }
      var sm;
      if sobj.isScope {
        sm := CreateGlobalPropertySetter();
      } else {
        sm := CreateNewPropertySetter();
      }
      r := Ok(sm);
    }

    method CreateGlobalPropertySetter() returns (sm: SetMethod)
      modifies global
      ensures sm == GlobalPropertySetter(global, old(global.propertyMap), desc, cfg)
      ensures global.State() == old(global.State()).(propertyMap := old(global.propertyMap).AddProperty(sm.handle.setter.property))
    {
      var setter := global.AddSpill(desc.name, cfg);
      sm := SetMethod(BoundTo(setter, global), None);
    }

    method CreateNewPropertySetter() returns (sm: SetMethod)
      requires cfg.spillRate > 0
      modifies sobj
      ensures sm == NewPropertySetMethod(desc, propertyMap, old(sobj.embedUsed), old(sobj.spill), cfg)
      ensures sobj.State() == old(sobj.State()).(
        embedUsed := if sm.handle.SetEmbed? then old(sobj.embedUsed) + {sm.handle.slot} else old(sobj.embedUsed),
        addedLog := old(sobj.addedLog) + [sm.property.value])
    {
      var nextEmbed := sobj.FindEmbed(cfg.embedSize);
      if nextEmbed >= cfg.embedSize {
        sm := NewSpillSetMethod(desc, propertyMap, sobj.spill, cfg);
      } else {
        sm := CreateNewEmbedPropertySetter(nextEmbed);
      }
      sobj.NotifyPropertyAdded(sm.property.value);
    }

    method CreateNewEmbedPropertySetter(nextEmbed: nat) returns (sm: SetMethod)
      modifies sobj
      ensures sm == NewEmbedSetMethod(desc, propertyMap, nextEmbed, cfg)
      ensures sobj.State() == old(sobj.State()).(embedUsed := old(sobj.embedUsed) + {nextEmbed})
    {
      sobj.UseEmbed(nextEmbed);
      sm := NewEmbedSetMethod(desc, propertyMap, nextEmbed, cfg);
    }
  }
}

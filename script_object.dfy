/** The part of a script object that the setter synthesis reads and changes:
    its current property map, which embedded fields are taken, its spill array
    (absent or of some length) and the properties it has announced as added. */
module Objects {
  import opened Outcomes
  import opened Properties

  /** The least embedded field index at or above `from` that `used` does not
      hold, or `size` when every index from `from` up to `size` is taken. */
  function FreeEmbedFrom(used: set<nat>, size: nat, from: nat): (r: nat)
    requires from <= size
    ensures from <= r <= size
    ensures r < size ==> r !in used
    ensures forall j :: from <= j < r ==> j in used
    decreases size - from
  {
    if from == size then size
    else if from !in used then from
    else FreeEmbedFrom(used, size, from + 1)
  }

  /** The next free embedded field: the least index below `size` that `used`
      does not hold, or `size` when all embedded fields are taken. */
  function FirstFreeEmbed(used: set<nat>, size: nat): (r: nat)
    ensures r <= size
    ensures r < size ==> r !in used
    ensures forall j :: 0 <= j < r ==> j in used
  {
    FreeEmbedFrom(used, size, 0)
  }

  /** The mutable fields of a script object, as one value. */
  datatype ObjectState = ObjectState(
    propertyMap: PropertyMap,
    embedUsed: set<nat>,
    spill: Option<nat>,
    addedLog: seq<Property>)

  class ScriptObject {
    var propertyMap: PropertyMap
    var embedUsed: set<nat>
    /** The length of the spill array, or None while the object has none. */
    var spill: Option<nat>
    /** Every property announced through NotifyPropertyAdded, oldest first. */
    var addedLog: seq<Property>
    const isScope: bool

    constructor (isScope: bool)
      ensures State() == ObjectState(PropertyMap([], 0), {}, None, [])
      ensures this.isScope == isScope
    {
      propertyMap := PropertyMap([], 0);
      embedUsed := {};
      spill := None;
      addedLog := [];
      this.isScope := isScope;
    }

    function State(): ObjectState
      reads this
    {
      ObjectState(propertyMap, embedUsed, spill, addedLog)
    }

    /** The next embedded field a new property would take. */
    function FindEmbed(embedSize: nat): (r: nat)
      reads this
      ensures r <= embedSize
      ensures r < embedSize ==> r !in embedUsed
      ensures forall j :: 0 <= j < r ==> j in embedUsed
    {
      FirstFreeEmbed(embedUsed, embedSize)
    }

    /** Marks embedded field `index` as taken. */
    method UseEmbed(index: nat)
      modifies this
      ensures State() == old(State()).(embedUsed := old(embedUsed) + {index})
    {
      embedUsed := embedUsed + {index};
    }

    /** Adds a spill property named `key` at the next spill index of this
        object's map and returns the setter of that property. */
    method AddSpill(key: string, cfg: Config) returns (setter: Setter)
      modifies this
      ensures setter == SlotSetter(SpillProperty(key, old(propertyMap).spillLength, cfg))
      ensures State() == old(State()).(propertyMap := old(propertyMap).AddProperty(setter.property))
    {
      var p := SpillProperty(key, propertyMap.spillLength, cfg);
      propertyMap := propertyMap.AddProperty(p);
      setter := SlotSetter(p);
    }

    /** Announces that `p` was added to this object. */
    method NotifyPropertyAdded(p: Property)
      modifies this
      ensures State() == old(State()).(addedLog := old(addedLog) + [p])
    {
      addedLog := addedLog + [p];
    }
  }

  /** The result of looking a property up: the property, the object on the
      receiver's prototype or scope chain that owns it, and whether that owner
      is some object other than the receiver. */
  datatype FindProperty = FindProperty(property: Property, owner: ScriptObject, isInherited: bool)

  /** An unbound setter: either the one a lookup result hands out for a value
      type and strictness, or the plain setter of a property's own slot. */
  datatype Setter =
    | FoundSetter(find: FindProperty, valueType: ValueType, strict: bool)
    | SlotSetter(property: Property)
}

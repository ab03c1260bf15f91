/** The plain data the setter synthesis reads: property descriptors, immutable
    property maps, call-site descriptors and the runtime's layout constants. */
module Properties {

  /** Where a property's value lives: an embedded field of the object, or an
      element of its spill array. */
  datatype Slot = Embedded(index: nat) | Spill(index: nat)

  /** A property descriptor. `hasSetterFunction` holds for accessor properties
      that carry a script setter function; `canChangeType` is the descriptor's
      ability to widen the type of the value it stores. */
  datatype Property = Property(key: string, slot: Slot, hasSetterFunction: bool, canChangeType: bool)

  /** An immutable property map: the properties in the order they were added, and
      the number of spill slots they occupy. Maps are compared by value. */
  datatype PropertyMap = PropertyMap(properties: seq<Property>, spillLength: nat)
  {
    /** The map with `p` added after every existing property. When `p` lives in
        the spill array, the spill length grows to cover its index. */
    function AddProperty(p: Property): PropertyMap
    {
      var spill := if p.slot.Spill? && p.slot.index >= spillLength then p.slot.index + 1 else spillLength;
      PropertyMap(properties + [p], spill)
    }
  }

  /** The Java type of the value an assignment stores, as the call site declares
      it; only ever compared and passed on. */
  datatype ValueType = ValueType(className: string)

  /** A call-site descriptor for a property assignment `o.name = v`. */
  datatype CallSiteDescriptor = CallSiteDescriptor(
    name: string,
    valueType: ValueType,
    isScope: bool,
    isStrict: bool,
    isFastScope: bool)

  /** The runtime's layout constants: the number of embedded fields
      (`EMBED_SIZE`), the spill array growth block (`SPILL_RATE`), whether
      every field is stored as an object (`OBJECT_FIELDS_ONLY`), and whether a
      freshly created embed or spill property may widen its type. */
  datatype Config = Config(
    embedSize: nat,
    spillRate: nat,
    objectFieldsOnly: bool,
    newPropertyCanChangeType: bool)

  /** A script-visible error: the message key and the name it reports. */
  datatype ScriptError = ReferenceError(messageKey: string, name: string)

  /** A new property held in embedded field `index`. */
  function EmbedProperty(key: string, index: nat, cfg: Config): Property
  {
    Property(key, Embedded(index), false, cfg.newPropertyCanChangeType)
  }

  /** A new property held in spill slot `index`. */
  function SpillProperty(key: string, index: nat, cfg: Config): Property
  {
    Property(key, Spill(index), false, cfg.newPropertyCanChangeType)
  }
}

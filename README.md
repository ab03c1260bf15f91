# Property-setter synthesis of the Nashorn script runtime, in Dafny

This project models `SetMethodCreator`, the part of the Nashorn runtime that
runs when a script assignment `o.x = v` reaches a call site that has no cached
setter, or whose cached setter's guard failed. From the receiver's property
map, the lookup result (a property found on the receiver or up its chain, or
nothing) and the call-site flags (scope, strict, fast scope), it does one of
three things:

- it binds to the setter of the property that was found, bound to the owning
  object when the property is an inherited data property;
- it creates a new property: a spill slot on the global object when the
  receiver is a scope object; otherwise the next free embedded field, or
  else the next spill slot, with one of three spill setters (create the spill
  array, write into it, or grow it to a multiple of `SPILL_RATE`);
- it rejects the assignment with the ReferenceError `not.defined`. This is
  the strict-mode ban on creating a variable by assignment (ECMA-262 5.1,
  Annex C item 4 and section 8.7.2, PutValue).

It also decides whether the resulting invocation needs a guard on the map.

Layout of the model:

- `outcomes.dfy` (`Outcomes`): `Option` and `Result`.
- `properties.dfy` (`Properties`): property descriptors, immutable property
  maps, call-site descriptors, the layout constants as a `Config`.
- `script_object.dfy` (`Objects`): the `ScriptObject` class, with the fields
  the synthesis reads and changes, and the lookup result `FindProperty`.
- `set_method_creator.dfy` (`SetMethodCreation`): the chosen setters as
  tagged data (`MethodHandle`, `SetMethod`, `GuardedInvocation`), the pure
  decision `Link` built from one function per path, and the class
  `SetMethodCreator`. Its methods carry out the decision on the objects and
  are proved to agree with `Link`.
- `layout.dfy` (`Layout`): properties of successive assignments. These are
  the layout a fresh object reaches and the block-wise growth of the spill
  array.

The layout constants `EMBED_SIZE`, `SPILL_RATE` and `OBJECT_FIELDS_ONLY` are
fields of `Config`. Every function that divides by `SPILL_RATE` requires it
to be positive. The trusted global object is passed to the creator's
constructor instead of being fetched from the running context.

A missing property counts as type-stable (`isPropertyTypeStable`,
nashorn/src/jdk/nashorn/internal/runtime/SetMethodCreator.java:121), so a
fast-scope assignment that creates a global variable gets no guard.

## Model

| member | source | states |
|---|---|---|
| `SetMethodCreation.Link` | nashorn/src/jdk/nashorn/internal/runtime/SetMethodCreator.java:125-137 | The assignment is rejected exactly when nothing was found and the site is scope and strict, with `ReferenceError("not.defined", name)`. A found property always takes the existing-property path, which marks no embedded field, adds nothing to the global object and announces nothing. A missing name on a scope object becomes a spill property of the global object, with a setter bound to the global object and no property in the result. A missing name on an ordinary object gets a property with the call site's name, announced exactly once. That property is in the first free embedded field iff one is below `EMBED_SIZE` (the field was not in use before), otherwise in spill slot `spillLength`. Its handle captures the old map and the old map plus the new property. The setter is exactly `NewPropertySetMethod`'s. On the spill path it is set-with-new iff there is no spill array, plain set iff slot `spillLength` is below the array's length, and otherwise it grows the array to a multiple of `SPILL_RATE` within one block past the slot. |
| `SetMethodCreation.SetMethodCreator.CreateSetMethod` | nashorn/src/jdk/nashorn/internal/runtime/SetMethodCreator.java:125-137 | Returns what `Link` decides for the state at entry. The receiver and the global object end in the states that decision prescribes, even when they are the same object. A rejected assignment changes neither object. |
| `SetMethodCreation.SetMethodCreator.CreateGuardedInvocation` | nashorn/src/jdk/nashorn/internal/runtime/SetMethodCreator.java:79-81 | The guarded invocation is the decided setter with the guard that `GuardedInvocationOf` gives it for the map captured at construction. It makes the same state changes as `CreateSetMethod`. |
| `SetMethodCreation.SetMethodCreator.constructor` | nashorn/src/jdk/nashorn/internal/runtime/SetMethodCreator.java:60-65 | The creator keeps the receiver, lookup result and call site. It takes a snapshot of the receiver's map at construction. |
| `SetMethodCreation.CheckStrictCreateNewVariable` | nashorn/src/jdk/nashorn/internal/runtime/SetMethodCreator.java:139-145 | There is an error iff the call site is scope and strict. The error has key `not.defined` and carries the call site's name. |
| `SetMethodCreation.ExistingPropertySetter` | nashorn/src/jdk/nashorn/internal/runtime/SetMethodCreator.java:147-162 | The setter is the one the lookup result gives for the site's value type and strictness, and the property is the one found. It is bound, to the owner, iff the property has no setter function and was inherited. Otherwise it is unbound. |
| `SetMethodCreation.GlobalPropertySetter` | nashorn/src/jdk/nashorn/internal/runtime/SetMethodCreator.java:164-167 | The result carries no property. Its setter writes a spill property named by the call site at the global map's next spill index, and is bound to the global object. |
| `SetMethodCreation.SetMethodCreator.CreateGlobalPropertySetter` | nashorn/src/jdk/nashorn/internal/runtime/SetMethodCreator.java:164-167 | Returns `GlobalPropertySetter` for the global map at entry. The only change to the global object is that its map gains that spill property. |
| `SetMethodCreation.SetMethodCreator.CreateNewPropertySetter` | nashorn/src/jdk/nashorn/internal/runtime/SetMethodCreator.java:169-180 | Returns `NewPropertySetMethod` for the state at entry. The receiver marks the embedded field used when the setter is an embed setter, and announces the new property once. Nothing else changes. |
| `SetMethodCreation.NewPropertyFor` | nashorn/src/jdk/nashorn/internal/runtime/SetMethodCreator.java:170-176 | The new property has the call site's name. It is embedded iff a free embedded field lies below `EMBED_SIZE`. In that case it takes the lowest free field, which was not in use. Otherwise it takes spill slot `spillLength` of the map. |
| `SetMethodCreation.NewPropertySetMethod` | nashorn/src/jdk/nashorn/internal/runtime/SetMethodCreator.java:169-176 | The setter writes the property `NewPropertyFor` chooses, in that property's slot. It is an embed setter iff that slot is embedded, and it is then exactly `NewEmbedSetMethod` for that field; otherwise it is exactly `NewSpillSetMethod` for the receiver's spill array. It captures the call site, the old map and the old map plus the property. |
| `SetMethodCreation.NewSpillSetMethod` | nashorn/src/jdk/nashorn/internal/runtime/SetMethodCreator.java:182-194 | The new spill property is named by the call site, at index `spillLength`. The setter is the one `SpillMethodHandle` chooses for that slot and the receiver's spill array, capturing the call site, the old map and the old map plus the property. |
| `SetMethodCreation.NewEmbedSetMethod` | nashorn/src/jdk/nashorn/internal/runtime/SetMethodCreator.java:211-221 | The new embedded property is named by the call site, in field `nextEmbed`. The embed setter writes that field through the property's own setter and captures the old map and the old map plus the property. |
| `SetMethodCreation.SetMethodCreator.CreateNewEmbedPropertySetter` | nashorn/src/jdk/nashorn/internal/runtime/SetMethodCreator.java:211-217 | Marks field `nextEmbed` used on the receiver, changes nothing else, and returns `NewEmbedSetMethod`. |
| `SetMethodCreation.SpillMethodHandle` | nashorn/src/jdk/nashorn/internal/runtime/SetMethodCreator.java:196-209 | The setter is set-with-new iff there is no spill array. It is plain set iff the slot is below the array's length, and grow iff the array is no longer than the slot. It always captures the call site, both maps and the slot. When it grows, the new length is a multiple of `SPILL_RATE`, above the slot, and at most `SPILL_RATE` past it. |
| `SetMethodCreation.GrownSpillLength` | nashorn/src/jdk/nashorn/internal/runtime/SetMethodCreator.java:206 | `(nextSpill + SPILL_RATE) / SPILL_RATE * SPILL_RATE` is a multiple of `SPILL_RATE`. It is strictly above `nextSpill` and at most `nextSpill + SPILL_RATE`. |
| `SetMethodCreation.GetGuard` | nashorn/src/jdk/nashorn/internal/runtime/SetMethodCreator.java:111-122 | There is no guard iff the site is fast scope and either all fields are objects, or there is no property, or the property cannot change type. Otherwise the guard is the map guard on the given map. |
| `SetMethodCreation.GuardedInvocationOf` | nashorn/src/jdk/nashorn/internal/runtime/SetMethodCreator.java:107-109 | The invocation is the chosen setter. Its guard is absent under exactly the conditions of `GetGuard`, and is otherwise the guard on the captured map. |
| `Objects.FirstFreeEmbed` | nashorn/src/jdk/nashorn/internal/runtime/SetMethodCreator.java:170 | The result is at most `EMBED_SIZE`. Every field below it is in use, and the result itself is free when it is below `EMBED_SIZE`. |
| `Objects.ScriptObject.FindEmbed` | nashorn/src/jdk/nashorn/internal/runtime/SetMethodCreator.java:170 | Gives the same bounds for the object's own used fields. |
| `Objects.ScriptObject.UseEmbed` | nashorn/src/jdk/nashorn/internal/runtime/SetMethodCreator.java:212 | The field joins the used set. Nothing else changes. |
| `Objects.ScriptObject.AddSpill` | nashorn/src/jdk/nashorn/internal/runtime/SetMethodCreator.java:166 | The map gains a spill property with the given name at its next spill index. The returned setter is that property's. Nothing else changes. |
| `Objects.ScriptObject.NotifyPropertyAdded` | nashorn/src/jdk/nashorn/internal/runtime/SetMethodCreator.java:178 | The property is appended to the object's record of announced properties. Nothing else changes. |
| `Layout.LinkIsOneAddAllStep` | nashorn/src/jdk/nashorn/internal/runtime/SetMethodCreator.java:169-180 | A non-strict assignment to a missing name on an ordinary object is accepted. The map its setter installs and the embedded fields in use after synthesis are exactly one step of the successive-assignment function used by the layout lemmas. |
| `Layout.AddAllKeepsLayout` | nashorn/src/jdk/nashorn/internal/runtime/SetMethodCreator.java:169-176 | Assigning new properties one after another keeps the fresh-object layout: property `k` is in embedded field `k` below `EMBED_SIZE` and in spill slot `k - EMBED_SIZE` after that. The used fields are exactly the occupied ones and the spill length counts the spilled properties. Earlier properties are kept, and one property per name is appended, in order. |
| `Layout.FreshObjectLayout` | nashorn/src/jdk/nashorn/internal/runtime/SetMethodCreator.java:169-176 | On a fresh object, property `k` has the `k`-th name and that slot, and no two properties share a slot. |
| `Layout.NineAssignmentsScenario` | nashorn/src/jdk/nashorn/internal/runtime/SetMethodCreator.java:170-176 | With eight embedded fields, `a`..`h` take fields 0..7 and `i` takes spill slot 0. The map after the ninth assignment differs from the map after the eighth. |
| `Layout.GrowByOneBlock` | nashorn/src/jdk/nashorn/internal/runtime/SetMethodCreator.java:203-207 | If the spill array's length is a multiple of `SPILL_RATE` and the array is full, growing adds exactly one block of `SPILL_RATE` slots. |
| `Layout.GrownArrayTakesNextSlots` | nashorn/src/jdk/nashorn/internal/runtime/SetMethodCreator.java:203-207 | After the array grows for one slot, every later slot below the new length uses the plain spill setter, with no further growth. |

## Left out

- nashorn/src/jdk/nashorn/api/scripting/NashornScriptEngine.java is not part of this model. It is the host scripting-engine facade: compilation entry points, privileged blocks, resource loading, object wrapping and exception translation, over a compiler the model does not include.
- Method handles are not built. Each chosen setter is a tagged value naming the setter and the arguments bound into it.
- What the setters do when they run is not modelled: `ScriptObject.SETEMBED`, `SETSPILL`, `SETSPILLWITHNEW` and `SETSPILLWITHGROW` are not part of this model. The `Layout` lemmas assume each new-property setter runs while the object still has the captured old map and moves it to the captured new map.
- The property getters and setters built for new properties are not modelled (lines 190-191 and 213, the `GET_EMBED`/`SET_EMBED` tables). A new property is its name, its slot kind and its index.
- `PropertyMap.addProperty` is not part of this model. Its stand-in appends the property and extends the spill length to cover a spill index. Maps are compared by value, whereas the runtime compares them by identity and shares them through a transition cache.
- `ScriptObject.findEmbed`, `useEmbed`, `addSpill` and `notifyPropertyAdded` are not part of this model. Their stand-ins are: the least unused field index, capped at `EMBED_SIZE`; adding the index to a used set; adding a spill property to the map; and appending to a record of announced properties. `addSpill` does not allocate or grow the global object's spill array in the model.
- `FindProperty.getSetter` and `Property.canChangeType` are not part of this model. A found setter is named by the lookup result, value type and strictness. Whether a freshly created property can change type is the `Config` field `newPropertyCanChangeType`.
- The value type, taken from parameter 1 of the call site's method type (line 149), is an opaque tag.
- `SetMethodCreation.GrownSpillLength` uses unbounded integers. Java's 32-bit `int` overflow in `nextSpill + SPILL_RATE`, for spill indices near 2^31, is not modelled.
- Threads are not modelled. Synthesis is taken to run in a single thread, as the runtime assumes.

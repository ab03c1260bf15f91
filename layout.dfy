/** Properties of successive assignments: the layout an object reaches when new
    properties are added to it one after another, and the block-wise growth of
    its spill array. */
module Layout {
  import opened Outcomes
  import opened Properties
  import opened Objects
  import opened SetMethodCreation

  /** The slot of the `k`-th property added to a fresh object: the embedded
      fields first, then the spill array from index 0. */
  function ExpectedSlot(k: nat, embedSize: nat): Slot
  {
    if k < embedSize then Embedded(k) else Spill(k - embedSize)
  }

  /** The map and embedded-field set reached by assigning to `keys`, one new
      property per key, starting from map `m` and fields `used`. Each
      assignment takes the property that synthesis creates (marking an
      embedded field used when it takes one), and its setter then moves the
      object from the captured old map to the captured new map. */
  function AddAll(cfg: Config, m: PropertyMap, used: set<nat>, keys: seq<string>): (PropertyMap, set<nat>)
    decreases |keys|
  {
    if keys == [] then (m, used)
    else
      var p := NewPropertyFor(keys[0], m, used, cfg);
      AddAll(cfg, m.AddProperty(p), if p.slot.Embedded? then used + {p.slot.index} else used, keys[1..])
  }

  /** One non-strict assignment to a missing name on an ordinary object is one
      step of AddAll: the map its setter moves the object to, and the embedded
      fields in use after synthesis, are those AddAll reaches for that name. */
  lemma LinkIsOneAddAllStep(cfg: Config, v: ObjectView, desc: CallSiteDescriptor,
                            global: ScriptObject, globalMap: PropertyMap)
    requires cfg.spillRate > 0 && !v.isScope && !(desc.isScope && desc.isStrict)
    ensures var r := Link(cfg, v, None, desc, global, globalMap);
      && r.Ok?
      && (r.value.setMethod.handle.newMap, if r.value.usedEmbed.Some? then v.embedUsed + {r.value.usedEmbed.value} else v.embedUsed)
         == AddAll(cfg, v.propertyMap, v.embedUsed, [desc.name])
  {
    var p := NewPropertyFor(desc.name, v.propertyMap, v.embedUsed, cfg);
    assert AddAll(cfg, v.propertyMap, v.embedUsed, [desc.name])
        == AddAll(cfg, v.propertyMap.AddProperty(p), if p.slot.Embedded? then v.embedUsed + {p.slot.index} else v.embedUsed, []);
  }

  /** The layout of an object to which properties were only ever added:
      property `k` sits in its expected slot, the used embedded fields are
      exactly those holding a property, and the spill length counts the
      properties past the embedded fields. */
  ghost predicate FreshLayout(m: PropertyMap, used: set<nat>, embedSize: nat)
  {
    && (forall k :: 0 <= k < |m.properties| ==> m.properties[k].slot == ExpectedSlot(k, embedSize))
    && (forall j: nat :: j in used <==> j < |m.properties| && j < embedSize)
    && m.spillLength == (if |m.properties| <= embedSize then 0 else |m.properties| - embedSize)
  }

  /** On such an object, the next free embedded field is the one after the
      last property, until all are taken. */
  lemma FirstFreeEmbedOfFreshLayout(m: PropertyMap, used: set<nat>, embedSize: nat)
    requires FreshLayout(m, used, embedSize)
    ensures FirstFreeEmbed(used, embedSize) == if |m.properties| < embedSize then |m.properties| else embedSize
  {
    var c := |m.properties|;
    var r := FirstFreeEmbed(used, embedSize);
    assert r < c && r < embedSize ==> r in used;
    assert c < embedSize ==> c !in used;
  }

  /** Adding one new property keeps the layout. */
  lemma AddOneKeepsLayout(cfg: Config, m: PropertyMap, used: set<nat>, key: string)
    requires FreshLayout(m, used, cfg.embedSize)
    ensures var p := NewPropertyFor(key, m, used, cfg);
      && p.slot == ExpectedSlot(|m.properties|, cfg.embedSize)
      && FreshLayout(m.AddProperty(p), if p.slot.Embedded? then used + {p.slot.index} else used, cfg.embedSize)
  {
    FirstFreeEmbedOfFreshLayout(m, used, cfg.embedSize);
    var p := NewPropertyFor(key, m, used, cfg);
    var m' := m.AddProperty(p);
    var used' := if p.slot.Embedded? then used + {p.slot.index} else used;
    assert m'.properties == m.properties + [p];
    forall k | 0 <= k < |m'.properties|
      ensures m'.properties[k].slot == ExpectedSlot(k, cfg.embedSize)
    {
      if k < |m.properties| {
        assert m'.properties[k] == m.properties[k];
      }
    }
  }

  /** Adding properties for `keys` keeps the layout, keeps the earlier
      properties and appends one property per key, in order. */
  lemma {:induction false} AddAllKeepsLayout(cfg: Config, m: PropertyMap, used: set<nat>, keys: seq<string>)
    requires FreshLayout(m, used, cfg.embedSize)
    ensures var (m', used') := AddAll(cfg, m, used, keys);
      && FreshLayout(m', used', cfg.embedSize)
      && |m'.properties| == |m.properties| + |keys|
      && m'.properties[..|m.properties|] == m.properties
      && forall i :: 0 <= i < |keys| ==> m'.properties[|m.properties| + i].key == keys[i]
    decreases |keys|
  {
    if keys != [] {
      var p := NewPropertyFor(keys[0], m, used, cfg);
      var m1 := m.AddProperty(p);
      var used1 := if p.slot.Embedded? then used + {p.slot.index} else used;
      AddOneKeepsLayout(cfg, m, used, keys[0]);
      AddAllKeepsLayout(cfg, m1, used1, keys[1..]);
      var (m', used') := AddAll(cfg, m, used, keys);
      assert (m', used') == AddAll(cfg, m1, used1, keys[1..]);
      assert m'.properties[..|m1.properties|] == m1.properties;
      assert m'.properties[..|m.properties|] == m1.properties[..|m.properties|];
      forall i | 0 <= i < |keys|
        ensures m'.properties[|m.properties| + i].key == keys[i]
      {
        if i == 0 {
          assert m'.properties[|m.properties|] == m1.properties[|m.properties|];
        } else {
          assert m'.properties[|m1.properties| + (i - 1)].key == keys[1..][i - 1];
        }
      }
    }
  }

  /** Assigning to `keys` on a fresh object lays out one property per key, in
      assignment order: the first `EMBED_SIZE` in embedded fields 0, 1, ...,
      the rest in spill slots 0, 1, ...; no two properties share a slot. */
  lemma FreshObjectLayout(cfg: Config, keys: seq<string>)
    ensures var (m, _) := AddAll(cfg, PropertyMap([], 0), {}, keys);
      && |m.properties| == |keys|
      && (forall k :: 0 <= k < |keys| ==>
            m.properties[k].key == keys[k] && m.properties[k].slot == ExpectedSlot(k, cfg.embedSize))
      && (forall i, j :: 0 <= i < j < |keys| ==> m.properties[i].slot != m.properties[j].slot)
  {
    assert FreshLayout(PropertyMap([], 0), {}, cfg.embedSize);
    AddAllKeepsLayout(cfg, PropertyMap([], 0), {}, keys);
  }

  /** With eight embedded fields, assigning `a` through `i` to a fresh object
      puts `a`..`h` in embedded fields 0..7 and `i` in spill slot 0, and the
      ninth assignment leaves the object with a different map than the eighth. */
  lemma NineAssignmentsScenario(cfg: Config)
    requires cfg.embedSize == 8
    ensures var keys := ["a", "b", "c", "d", "e", "f", "g", "h", "i"];
      var (m8, _) := AddAll(cfg, PropertyMap([], 0), {}, keys[..8]);
      var (m9, _) := AddAll(cfg, PropertyMap([], 0), {}, keys);
      && |m9.properties| == 9
      && (forall k :: 0 <= k < 8 ==> m9.properties[k].slot == Embedded(k))
      && m9.properties[8].key == "i" && m9.properties[8].slot == Spill(0)
      && m8 != m9
  {
    var keys := ["a", "b", "c", "d", "e", "f", "g", "h", "i"];
    FreshObjectLayout(cfg, keys[..8]);
    FreshObjectLayout(cfg, keys);
  }

  /** When the spill array's length is a multiple of `SPILL_RATE` and the next
      spill slot is just past its end, it grows by exactly one block. */
  lemma GrowByOneBlock(length: nat, spillRate: nat)
    requires spillRate > 0 && length % spillRate == 0
    ensures GrownSpillLength(length, spillRate) == length + spillRate
  {
    var k := length / spillRate;
    assert length == k * spillRate;
    assert length + spillRate == (k + 1) * spillRate;
    ExactDivision(k + 1, spillRate);
  }

  /** Once the spill array has grown for slot `nextSpill`, the following
      spill slots up to the new length are written without growing again. */
  lemma GrownArrayTakesNextSlots(desc: CallSiteDescriptor, oldMap: PropertyMap, newMap: PropertyMap,
                                 nextSpill: nat, later: nat, spillRate: nat)
    requires spillRate > 0
    requires nextSpill < later < GrownSpillLength(nextSpill, spillRate)
    ensures SpillMethodHandle(desc, oldMap, newMap, later, Some(GrownSpillLength(nextSpill, spillRate)), spillRate).SetSpill?
  {
  }
}

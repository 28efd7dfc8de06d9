/**
 * The map layers: a static layer holding one plot component, and a
 * varying layer holding one component per key with an active key that
 * selects the one rendered. Components, maps and rendering contexts are
 * opaque values; the calls a layer makes on them (a component's onAdd,
 * render and the map's triggerRepaint) are returned as results.
 */
module PlotLayers {
  import opened Wrappers

  // ----- the keyed record of fields and the active key -----

  /** The `fields` record of a varying layer and its active key (`field_key`). */
  datatype Keyed<K, F> = Keyed(fields: map<K, F>, active: Option<K>)

  /** addField(field, key): the record gets the field under the key, and the key becomes active if none was. */
  function WithField<K, F>(s: Keyed<K, F>, key: K, f: F): Keyed<K, F>
  {
    Keyed(s.fields[key := f], if s.active.None? then Some(key) else s.active)
  }

  /** A run of addField calls, in order. */
  function WithFields<K, F>(s: Keyed<K, F>, adds: seq<(K, F)>): Keyed<K, F>
    decreases |adds|
  {
    if |adds| == 0 then s else WithFields(WithField(s, adds[0].0, adds[0].1), adds[1..])
  }

  /** The component render would delegate to: the active key's field, when the layer is on a map and it exists. */
  function Rendered<K, F>(onMap: bool, s: Keyed<K, F>): (r: Option<F>)
    ensures r.Some? <==> onMap && s.active.Some? && s.active.value in s.fields
    ensures r.Some? ==> r.value == s.fields[s.active.value]
  {
    if onMap && s.active.Some? && s.active.value in s.fields then Some(s.fields[s.active.value]) else None
  }

  /** Once a key is active, adding fields never changes it. */
  lemma {:induction false} AddsKeepActive<K, F>(s: Keyed<K, F>, adds: seq<(K, F)>)
    requires s.active.Some?
    ensures WithFields(s, adds).active == s.active
    decreases |adds|
  {
    if |adds| > 0 {
      AddsKeepActive(WithField(s, adds[0].0, adds[0].1), adds[1..]);
    }
  }

  /** Starting from an empty layer, the first key added is the active one. */
  lemma FirstAddedIsActive<K, F>(adds: seq<(K, F)>)
    ensures WithFields(Keyed(map[], None), adds).active == if |adds| == 0 then None else Some(adds[0].0)
  {
    if |adds| > 0 {
      AddsKeepActive(WithField(Keyed(map[], None), adds[0].0, adds[0].1), adds[1..]);
    }
  }

  /**
   * After a run of adds the record holds exactly the old keys and the added
   * ones, and a key added more than once holds the field added last.
   */
  lemma {:induction false} AddedFields<K, F>(s: Keyed<K, F>, adds: seq<(K, F)>, key: K)
    ensures key in WithFields(s, adds).fields <==> key in s.fields || exists k :: 0 <= k < |adds| && adds[k].0 == key
    ensures forall k :: 0 <= k < |adds| && adds[k].0 == key && (forall j :: k < j < |adds| ==> adds[j].0 != key)
                     ==> WithFields(s, adds).fields[key] == adds[k].1
    ensures (forall k :: 0 <= k < |adds| ==> adds[k].0 != key) && key in s.fields ==> WithFields(s, adds).fields[key] == s.fields[key]
    decreases |adds|
  {
    if |adds| > 0 {
      var s1 := WithField(s, adds[0].0, adds[0].1);
      AddedFields(s1, adds[1..], key);
      assert forall j :: 0 <= j < |adds| - 1 ==> adds[1..][j] == adds[j + 1];
      if exists k :: 0 <= k < |adds| && adds[k].0 == key {
        var k :| 0 <= k < |adds| && adds[k].0 == key;
        if k > 0 {
          assert adds[1..][k - 1] == adds[k];
        }
      }
    }
  }

  /** A record with fields always has an active key: addField and setting a key both keep this. */
  ghost predicate ActiveWhenFilled<K, F>(s: Keyed<K, F>)
  {
    s.fields != map[] ==> s.active.Some?
  }

  lemma AddKeepsActiveWhenFilled<K, F>(s: Keyed<K, F>, key: K, f: F)
    ensures ActiveWhenFilled(WithField(s, key, f)) && WithField(s, key, f).active.Some?
  {
  }

  // ----- the layers -----

  /** The type every layer reports: a custom layer of the map library. */
  const CUSTOM: string := "custom"

  /** A static layer: one component, rendered whenever the map renders the layer. */
  class PlotLayer<F, M> {
    const layerType: string
    const id: string
    const field: F
    var onMap: Option<M>

    constructor(id: string, field: F)
      ensures layerType == CUSTOM && this.id == id && this.field == field && onMap == None
    {
      layerType := CUSTOM;
      this.id := id;
      this.field := field;
      onMap := None;
    }

    /** onAdd(map, gl): remembers the map and adds the component to it. */
    method OnAdd(m: M) returns (added: F)
      modifies this
      ensures onMap == Some(m) && added == field
    {
      onMap := Some(m);
      added := field;
    }

    /** render: always delegates to the component. */
    method Render() returns (rendered: F)
      ensures rendered == field
    {
      rendered := field;
    }
  }

  /** A varying layer: one component per key, the active key's one rendered. */
  class MultiPlotLayer<F, M, G> {
    const layerType: string
    const id: string
    var onMap: Option<M>
    var gl: Option<G>
    var fields: map<string, F>
    /** The keys of `fields` in the order they were first added. */
    var keys: seq<string>
    var fieldKey: Option<string>

    ghost predicate Valid()
      reads this
    {
      && (forall i, j :: 0 <= i < j < |keys| ==> keys[i] != keys[j])
      && (forall k :: k in fields <==> k in keys)
      && ActiveWhenFilled(Keyed(fields, fieldKey))
    }

    constructor(id: string)
      ensures layerType == CUSTOM && this.id == id
      ensures onMap == None && gl == None && fields == map[] && keys == [] && fieldKey == None
      ensures Valid()
    {
      layerType := CUSTOM;
      this.id := id;
      onMap := None;
      gl := None;
      fields := map[];
      keys := [];
      fieldKey := None;
    }

    /** onAdd(map, gl): remembers both, adds every component to the map in key order, and repaints. */
    method OnAdd(m: M, g: G) returns (added: seq<F>, repainted: bool)
      requires Valid()
      modifies this
      ensures Valid()
      ensures onMap == Some(m) && gl == Some(g)
      ensures fields == old(fields) && keys == old(keys) && fieldKey == old(fieldKey)
      ensures |added| == |keys| && forall i :: 0 <= i < |keys| ==> added[i] == fields[keys[i]]
      ensures repainted
    {
      onMap, gl := Some(m), Some(g);
      added := [];
      var i := 0;
      while i < |keys|
        invariant i <= |keys| && |added| == i
        invariant forall j :: 0 <= j < i ==> added[j] == fields[keys[j]]
      {
        added := added + [fields[keys[i]]];
        i := i + 1;
      }
      repainted := onMap.Some?;
    }

    /** render: delegates to the active key's component when the layer is on a map and there is one. */
    method Render() returns (rendered: Option<F>)
      ensures rendered == Rendered(onMap.Some? && gl.Some?, Keyed(fields, fieldKey))
    {
      if onMap.Some? && gl.Some? && fieldKey.Some? && fieldKey.value in fields {
        rendered := Some(fields[fieldKey.value]);
      } else {
        rendered := None;
      }
    }

    /** setActiveKey(key): the key becomes active whether or not a field has it; repaints when on a map. */
    method SetActiveKey(key: string) returns (repainted: bool)
      requires Valid()
      modifies this
      ensures Valid()
      ensures fieldKey == Some(key) && repainted == onMap.Some?
      ensures fields == old(fields) && keys == old(keys) && onMap == old(onMap) && gl == old(gl)
    {
      fieldKey := Some(key);
      repainted := onMap.Some?;
    }

    /** getKeys(): every added key exactly once. */
    method GetKeys() returns (ks: seq<string>)
      requires Valid()
      ensures ks == keys
      ensures forall k :: k in ks <==> k in fields
      ensures forall i, j :: 0 <= i < j < |ks| ==> ks[i] != ks[j]
    {
      ks := keys;
    }

    /**
     * addField(field, key): when on a map the component is added to it
     * first; the record gets the field; the first key added becomes active.
     */
    method AddField(f: F, key: string) returns (added: bool)
      requires Valid()
      modifies this
      ensures Valid()
      ensures Keyed(fields, fieldKey) == WithField(old(Keyed(fields, fieldKey)), key, f)
      ensures keys == if key in old(keys) then old(keys) else old(keys) + [key]
      ensures added == (onMap.Some? && gl.Some?)
      ensures onMap == old(onMap) && gl == old(gl)
    {
      added := onMap.Some? && gl.Some?;
      if key !in fields {
        keys := keys + [key];
      }
      fields := fields[key := f];
      if fieldKey.None? {
        fieldKey := Some(key);
      }
    }
  }
}

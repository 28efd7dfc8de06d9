/**
 * The time-varying field layer: one field per hour, keyed by the
 * 'yyyyMMddHH' text of a date and time, and an active key set from a
 * date and time. A date and time is its count of milliseconds since the
 * epoch together with the offset of its zone from UTC; its key is the
 * hour of its local wall-clock time, which is what the key text keeps of
 * it. Keys are parsed back in UTC.
 */
module AutumnFieldLayers {
  import opened Wrappers
  import opened PlotLayers

  const MS_PER_HOUR: int := 3600000

  /** An instant in milliseconds since the epoch, in a zone `offset` milliseconds ahead of UTC. */
  datatype DateTime = DateTime(millis: int, offset: int)

  /** The instant's local wall-clock time, counted in milliseconds from the local epoch. */
  function Local(dt: DateTime): int
  {
    dt.millis + dt.offset
  }

  /**
   * `dt.toFormat('yyyyMMddHH')`: the hour the local wall-clock time falls
   * in, minutes and below dropped; toFormat formats in the DateTime's own zone.
   */
  function HourKey(dt: DateTime): (h: int)
    ensures h * MS_PER_HOUR <= Local(dt) < (h + 1) * MS_PER_HOUR
  {
    Local(dt) / MS_PER_HOUR
  }

  /** `DateTime.fromFormat(key, 'yyyyMMddHH', {zone: 'utc'})`: the start of the key's hour, in UTC. */
  function FromHourKey(h: int): (dt: DateTime)
    ensures HourKey(dt) == h
    ensures dt.millis == h * MS_PER_HOUR && dt.offset == 0
  {
    DateTime(h * MS_PER_HOUR, 0)
  }

  /** A later wall-clock time never has an earlier key; in one zone, a later instant never has one. */
  lemma HourKeyMonotone(a: DateTime, b: DateTime)
    requires Local(a) <= Local(b)
    ensures HourKey(a) <= HourKey(b)
  {
  }

  /**
   * Parsing a key and formatting it again gives the key. Formatting a time
   * and parsing the key gives the start of the hour of its wall-clock time
   * read as UTC: for a time taken in UTC that is the start of the hour it
   * falls in, and in another zone the result is shifted by the zone's offset.
   */
  lemma KeyRoundTrip(dt: DateTime, h: int)
    ensures HourKey(FromHourKey(h)) == h
    ensures FromHourKey(HourKey(dt)).millis <= dt.millis + dt.offset < FromHourKey(HourKey(dt)).millis + MS_PER_HOUR
    ensures dt.offset == 0 ==> FromHourKey(HourKey(dt)).millis <= dt.millis < FromHourKey(HourKey(dt)).millis + MS_PER_HOUR
  {
  }

  /**
   * A time at 12:00 in a zone five hours behind UTC (17:00Z) gets the key of
   * hour 12, which parses back as 12:00Z: five hours before the time itself.
   */
  lemma KeyShiftedByZone()
    ensures var dt := DateTime(17 * MS_PER_HOUR, -5 * MS_PER_HOUR);
            FromHourKey(HourKey(dt)).millis == dt.millis - 5 * MS_PER_HOUR
  {
    assert HourKey(DateTime(17 * MS_PER_HOUR, -5 * MS_PER_HOUR)) == 12;
  }

  predicate Increasing(s: seq<int>)
  {
    forall i, j :: 0 <= i < j < |s| ==> s[i] < s[j]
  }

  predicate Distinct(s: seq<int>)
  {
    forall i, j :: 0 <= i < j < |s| ==> s[i] != s[j]
  }

  /** x put in its place in an increasing list that does not hold it. */
  function Insert(x: int, s: seq<int>): (r: seq<int>)
    requires Increasing(s) && x !in s
    ensures Increasing(r) && |r| == |s| + 1
    ensures forall y :: y in r <==> y == x || y in s
  {
    if |s| == 0 then [x]
    else if x < s[0] then [x] + s
    else
      var t := Insert(x, s[1..]);
      assert forall k :: 0 <= k < |t| ==> s[0] < t[k] by {
        assert forall k :: 1 <= k < |s| ==> s[0] < s[k];
        assert forall k :: 0 <= k < |t| ==> t[k] in t;
      }
      [s[0]] + t
  }

  /** The keys of a list of distinct keys in ascending order: `dts.sort` by time. */
  function SortKeys(s: seq<int>): (r: seq<int>)
    requires Distinct(s)
    ensures Increasing(r) && |r| == |s|
    ensures forall y :: y in r <==> y in s
  {
    if |s| == 0 then []
    else
      assert s[0] !in s[1..] by {
        assert forall k :: 0 <= k < |s| - 1 ==> s[1..][k] == s[k + 1];
      }
      Insert(s[0], SortKeys(s[1..]))
  }

  /** The time-varying layer. */
  class AutumnTimeFieldLayer<F, M, G> {
    const layerType: string
    const id: string
    var fields: map<int, F>
    /** The keys of `fields`, in the order they were first added. */
    var keys: seq<int>
    var fieldKey: Option<int>
    var onMap: Option<M>
    var gl: Option<G>

    ghost predicate Valid()
      reads this
    {
      && Distinct(keys)
      && (forall k :: k in fields <==> k in keys)
      && ActiveWhenFilled(Keyed(fields, fieldKey))
    }

    constructor(id: string)
      ensures layerType == CUSTOM && this.id == id
      ensures fields == map[] && keys == [] && fieldKey == None && onMap == None && gl == None
      ensures Valid()
    {
      layerType := CUSTOM;
      this.id := id;
      fields := map[];
      keys := [];
      fieldKey := None;
      onMap := None;
      gl := None;
    }

    /**
     * onAdd(map, gl): remembers both and adds every field to the map, in
     * ascending key order (the order of the record's integer-like keys);
     * it repaints iff a key is active, since the key it compares with is null.
     */
    method OnAdd(m: M, g: G) returns (added: seq<F>, repainted: bool)
      requires Valid()
      modifies this
      ensures Valid()
      ensures onMap == Some(m) && gl == Some(g) && fields == old(fields) && keys == old(keys) && fieldKey == old(fieldKey)
      ensures var ks := SortKeys(keys);
              |added| == |ks| && forall i :: 0 <= i < |ks| ==> ks[i] in fields && added[i] == fields[ks[i]]
      ensures repainted <==> fieldKey.Some?
    {
      onMap, gl := Some(m), Some(g);
      var ks := SortKeys(keys);
      added := [];
      var i := 0;
      while i < |ks|
        invariant i <= |ks| && |added| == i
        invariant forall j :: 0 <= j < i ==> ks[j] in fields && added[j] == fields[ks[j]]
      {
        assert ks[i] in ks;
        added := added + [fields[ks[i]]];
        i := i + 1;
      }
      repainted := onMap.Some? && fieldKey != None;
    }

    /** render: delegates to the active key's field when the layer is on a map and there is one. */
    method Render() returns (rendered: Option<F>)
      ensures rendered == Rendered(onMap.Some? && gl.Some?, Keyed(fields, fieldKey))
    {
      if onMap.Some? && gl.Some? && fieldKey.Some? && fieldKey.value in fields {
        rendered := Some(fields[fieldKey.value]);
      } else {
        rendered := None;
      }
    }

    /** setDatetime(dt): the time's key becomes active; the map repaints iff it is set and the key changed. */
    method SetDatetime(dt: DateTime) returns (repainted: bool)
      requires Valid()
      modifies this
      ensures Valid()
      ensures fieldKey == Some(HourKey(dt))
      ensures repainted <==> onMap.Some? && old(fieldKey) != Some(HourKey(dt))
      ensures fields == old(fields) && keys == old(keys) && onMap == old(onMap) && gl == old(gl)
    {
      var oldKey := fieldKey;
      fieldKey := Some(HourKey(dt));
      repainted := onMap.Some? && oldKey != fieldKey;
    }

    /** getDatetimes(): the start of every key's hour, in ascending time order. */
    method GetDatetimes() returns (dts: seq<DateTime>)
      requires Valid()
      ensures |dts| == |keys|
      ensures forall i, j :: 0 <= i < j < |dts| ==> dts[i].millis < dts[j].millis
      ensures forall i :: 0 <= i < |dts| ==> HourKey(dts[i]) in fields && dts[i] == FromHourKey(HourKey(dts[i]))
      ensures forall h :: h in fields ==> FromHourKey(h) in dts
    {
      var ks := SortKeys(keys);
      dts := [];
      var i := 0;
      while i < |ks|
        invariant i <= |ks| && |dts| == i
        invariant forall j :: 0 <= j < i ==> dts[j] == FromHourKey(ks[j])
      {
        dts := dts + [FromHourKey(ks[i])];
        i := i + 1;
      }
      forall h | h in fields
        ensures FromHourKey(h) in dts
      {
        var j :| 0 <= j < |ks| && ks[j] == h;
        assert dts[j] == FromHourKey(h);
      }
    }

    /** addField(field, dt): when on a map the field is added to it; the record gets it under the time's key, which becomes active if none was. */
    method AddField(f: F, dt: DateTime) returns (added: bool)
      requires Valid()
      modifies this
      ensures Valid()
      ensures Keyed(fields, fieldKey) == WithField(old(Keyed(fields, fieldKey)), HourKey(dt), f)
      ensures keys == if HourKey(dt) in old(keys) then old(keys) else old(keys) + [HourKey(dt)]
      ensures added == (onMap.Some? && gl.Some?)
      ensures onMap == old(onMap) && gl == old(gl)
    {
      added := onMap.Some? && gl.Some?;
      var key := HourKey(dt);
      if key !in fields {
        keys := keys + [key];
      }
      fields := fields[key := f];
      if fieldKey.None? {
        fieldKey := Some(key);
      }
    }
  }
}

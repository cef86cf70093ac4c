/** The ThingSpeak side of `/farmer/data`: the outbound request, the shape of
    its answer, and the mapping of a channel's declared field names onto the
    values of its latest feed entry.

    A channel has eight numbered slots `field1` .. `field8`. The channel
    descriptor gives each slot an optional human-readable name; a feed entry
    gives each slot an optional value. */
module Telemetry {
  import opened Wrappers
  import opened JsValues

  const SLOT_COUNT: nat := 8

  /** `GET /channels/<channel>/feeds.json?api_key=<apiKey>&results=<results>` */
  datatype FetchRequest = FetchRequest(channel: string, apiKey: string, results: nat)

  /** `tsResponse.data`: `feeds` is `None` when absent or `null`, `channel`
      is `None` when absent or `null`. */
  datatype Payload = Payload(feeds: Option<seq<JsObject>>, channel: Option<JsObject>)

  /** `` `field${i}` `` */
  function FieldKey(i: nat): string {
    "field" + NatToDecimal(i)
  }

  /** `channelFields[fieldKey]`, turned into the key it is stored under. */
  function NameAt(channel: JsObject, i: nat): string {
    ToKey(Get(channel, FieldKey(i)))
  }

  /** `feeds[fieldKey]` */
  function ValueAt(feed: JsObject, i: nat): JsValue {
    Get(feed, FieldKey(i))
  }

  /** The one key a plain object `{}` does not store as its own property:
      assigning a primitive to `obj["__proto__"]` goes to the inherited
      prototype setter, which ignores it. */
  const PROTO_KEY: string := "__proto__"

  /** Slot `i` ends up in the mapping (unless a higher slot overwrites it)
      exactly when the channel gives it a truthy name other than
      `"__proto__"` and the feed's value is neither `undefined` nor `null`. */
  predicate Eligible(channel: JsObject, feed: JsObject, i: nat) {
    Truthy(Get(channel, FieldKey(i))) && NameAt(channel, i) != PROTO_KEY && !Nullish(ValueAt(feed, i))
  }

  /** The highest eligible slot among `1 .. hi` named `n`; 0 when none is. */
  function LatestSlot(channel: JsObject, feed: JsObject, n: string, hi: nat): (k: nat)
    ensures k <= hi
    ensures k != 0 ==> Eligible(channel, feed, k) && NameAt(channel, k) == n
    ensures forall j :: k < j <= hi ==> !(Eligible(channel, feed, j) && NameAt(channel, j) == n)
    decreases hi
  {
    if hi == 0 then 0
    else if Eligible(channel, feed, hi) && NameAt(channel, hi) == n then hi
    else LatestSlot(channel, feed, n, hi - 1)
  }

  /** The mapping built from slots `1 .. hi`, one slot after the other: an
      eligible slot binds its value under its name, overwriting whatever a
      lower slot bound there. */
  function Readings(channel: JsObject, feed: JsObject, hi: nat): (r: map<string, JsValue>)
    ensures forall n :: n in r ==> n != "" && n != PROTO_KEY && !Nullish(r[n])
    decreases hi
  {
    if hi == 0 then map[]
    else
      var lower := Readings(channel, feed, hi - 1);
      if Eligible(channel, feed, hi) then lower[NameAt(channel, hi) := ValueAt(feed, hi)] else lower
  }

  /** The mapping over slots `1 .. hi` described slot by slot: its keys are
      exactly the names of the eligible slots, and each key holds the value
      of the highest eligible slot that declares it. */
  lemma {:induction false} ReadingsEntries(channel: JsObject, feed: JsObject, hi: nat, n: string)
    ensures n in Readings(channel, feed, hi) <==>
              exists i :: 1 <= i <= hi && Eligible(channel, feed, i) && NameAt(channel, i) == n
    ensures n in Readings(channel, feed, hi) ==>
              LatestSlot(channel, feed, n, hi) != 0
              && Readings(channel, feed, hi)[n] == ValueAt(feed, LatestSlot(channel, feed, n, hi))
    decreases hi
  {
    if hi > 0 {
      ReadingsEntries(channel, feed, hi - 1, n);
      if n in Readings(channel, feed, hi) && !(Eligible(channel, feed, hi) && NameAt(channel, hi) == n) {
        var i :| 1 <= i <= hi && Eligible(channel, feed, i) && NameAt(channel, i) == n;
        assert i != hi;
      }
      if exists i :: 1 <= i <= hi && Eligible(channel, feed, i) && NameAt(channel, i) == n {
        var i :| 1 <= i <= hi && Eligible(channel, feed, i) && NameAt(channel, i) == n;
        if i < hi {
          assert n in Readings(channel, feed, hi - 1);
        }
      }
    }
  }

  /** The `sensorData` the handler returns for a channel and its latest
      entry. Only slots 1 .. 8 are read, so it has at most eight entries. */
  function SensorMap(channel: JsObject, feed: JsObject): (r: map<string, JsValue>)
    ensures |r| <= SLOT_COUNT
  {
    ReadingsSize(channel, feed, SLOT_COUNT);
    Readings(channel, feed, SLOT_COUNT)
  }

  /** Every entry of the mapping comes from one of the slots 1 .. 8: its key
      is that slot's declared name and its value that slot's value, and no
      higher slot declares the same name with a usable value. Conversely every
      eligible slot's name is a key. No other key or value ever appears. */
  lemma SensorMapEntries(channel: JsObject, feed: JsObject, n: string)
    ensures n in SensorMap(channel, feed) <==>
              exists i :: 1 <= i <= SLOT_COUNT && Eligible(channel, feed, i) && NameAt(channel, i) == n
    ensures n in SensorMap(channel, feed) ==>
              exists i :: 1 <= i <= SLOT_COUNT && Eligible(channel, feed, i) && NameAt(channel, i) == n
                && SensorMap(channel, feed)[n] == ValueAt(feed, i)
                && forall j :: i < j <= SLOT_COUNT ==> !(Eligible(channel, feed, j) && NameAt(channel, j) == n)
  {
    ReadingsEntries(channel, feed, SLOT_COUNT, n);
  }

  /** A slot with a truthy name and a value other than `undefined` or `null`
      (so also `0`, `false` or `""`) lands in the mapping under its name,
      unless a higher slot declares the same name, which then wins. */
  lemma EligibleSlotKept(channel: JsObject, feed: JsObject, i: nat)
    requires 1 <= i <= SLOT_COUNT && Eligible(channel, feed, i)
    requires forall j :: i < j <= SLOT_COUNT ==> !(Eligible(channel, feed, j) && NameAt(channel, j) == NameAt(channel, i))
    ensures NameAt(channel, i) in SensorMap(channel, feed)
    ensures SensorMap(channel, feed)[NameAt(channel, i)] == ValueAt(feed, i)
  {
    var n := NameAt(channel, i);
    ReadingsEntries(channel, feed, SLOT_COUNT, n);
    assert LatestSlot(channel, feed, n, SLOT_COUNT) == i;
  }

  /** Slots 1 .. hi bind at most hi names. */
  lemma {:induction false} ReadingsSize(channel: JsObject, feed: JsObject, hi: nat)
    ensures |Readings(channel, feed, hi)| <= hi
    decreases hi
  {
    if hi > 0 {
      ReadingsSize(channel, feed, hi - 1);
      var lower := Readings(channel, feed, hi - 1);
      var name := NameAt(channel, hi);
      if name in lower {
        assert lower[name := ValueAt(feed, hi)].Keys == lower.Keys;
      } else {
        assert lower[name := ValueAt(feed, hi)].Keys == lower.Keys + {name};
      }
    }
  }

  /** Slots 1 .. hi read only `field1` .. `field<hi>` of the channel and of
      the feed entry. */
  lemma {:induction false} ReadingsReadOnlySlots(channel: JsObject, feed: JsObject, channel': JsObject, feed': JsObject, hi: nat)
    requires forall i :: 1 <= i <= hi ==>
               Get(channel, FieldKey(i)) == Get(channel', FieldKey(i)) && Get(feed, FieldKey(i)) == Get(feed', FieldKey(i))
    ensures Readings(channel, feed, hi) == Readings(channel', feed', hi)
    decreases hi
  {
    if hi > 0 {
      ReadingsReadOnlySlots(channel, feed, channel', feed', hi - 1);
      assert Get(channel, FieldKey(hi)) == Get(channel', FieldKey(hi));
      assert Get(feed, FieldKey(hi)) == Get(feed', FieldKey(hi));
    }
  }

  /** Two channels and entries that agree on `field1` .. `field8` give the
      same mapping: every other property (`field9`, `created_at`, ...) is
      ignored. */
  lemma SensorMapReadsOnlySlots(channel: JsObject, feed: JsObject, channel': JsObject, feed': JsObject)
    requires forall i :: 1 <= i <= SLOT_COUNT ==>
               Get(channel, FieldKey(i)) == Get(channel', FieldKey(i)) && Get(feed, FieldKey(i)) == Get(feed', FieldKey(i))
    ensures SensorMap(channel, feed) == SensorMap(channel', feed')
  {
    ReadingsReadOnlySlots(channel, feed, channel', feed', SLOT_COUNT);
  }

  /** A worked example: a channel naming `field1`
      "temperature" and `field3` "humidity", with a latest entry of
      `field1 = "23.5"`, `field2 = "10"` and `field3 = null`, maps to exactly
      `{ temperature: "23.5" }`: `field2` has no name and `field3` no value. */
  lemma TemperatureExample()
    ensures SensorMap(map["field1" := Str("temperature"), "field3" := Str("humidity")],
                      map["field1" := Str("23.5"), "field2" := Str("10"), "field3" := Null])
            == map["temperature" := Str("23.5")]
  {
    var channel := map["field1" := Str("temperature"), "field3" := Str("humidity")];
    var feed := map["field1" := Str("23.5"), "field2" := Str("10"), "field3" := Null];
    var keys := ["field1", "field2", "field3", "field4", "field5", "field6", "field7", "field8"];
    forall i | 1 <= i <= SLOT_COUNT ensures FieldKey(i) == keys[i - 1] {
      assert NatToDecimal(i) == [Digit(i)];
    }
    assert Eligible(channel, feed, 1) && NameAt(channel, 1) == "temperature";
    forall i | 2 <= i <= SLOT_COUNT ensures !Eligible(channel, feed, i) {
      assert FieldKey(i) == keys[i - 1];
    }
    assert Readings(channel, feed, 1) == map["temperature" := Str("23.5")];
    assert Readings(channel, feed, 8) == Readings(channel, feed, 1);
  }

  /** A slot named `"__proto__"` never shows up: channel `{field1:
      "__proto__"}` with entry `{field1: "5"}` maps to nothing. */
  lemma ProtoSlotDropped()
    ensures SensorMap(map["field1" := Str(PROTO_KEY)], map["field1" := Str("5")]) == map[]
  {
    var channel := map["field1" := Str(PROTO_KEY)];
    var feed := map["field1" := Str("5")];
    var keys := ["field1", "field2", "field3", "field4", "field5", "field6", "field7", "field8"];
    forall i | 1 <= i <= SLOT_COUNT ensures !Eligible(channel, feed, i) {
      assert NatToDecimal(i) == [Digit(i)];
      assert FieldKey(i) == keys[i - 1];
    }
    assert Readings(channel, feed, 8) == Readings(channel, feed, 0);
  }

  /** The field-mapping loop: for `i` from 1 to 8, copy `feeds[field_i]`
      under the name `channelFields[field_i]` when the name is truthy and the
      value is neither `undefined` nor `null`. The inner test is not a branch
      of the loop's own: it is what the assignment `sensorData[name] = value`
      does on a plain object when `name` is `"__proto__"` (nothing). */
  method MapFields(channel: JsObject, feed: JsObject) returns (sensorData: map<string, JsValue>)
    ensures sensorData == SensorMap(channel, feed)
  {
    sensorData := map[];
    var i := 1;
    while i <= SLOT_COUNT
      invariant 1 <= i <= SLOT_COUNT + 1
      invariant sensorData == Readings(channel, feed, i - 1)
    {
      var fieldKey := FieldKey(i);
      var fieldName := Get(channel, fieldKey);
      if Truthy(fieldName) && Get(feed, fieldKey) != Undefined && Get(feed, fieldKey) != Null {
        var name := ToKey(fieldName);
        if name != PROTO_KEY {
          sensorData := sensorData[name := Get(feed, fieldKey)];
        }
      }
      i := i + 1;
    }
  }
}

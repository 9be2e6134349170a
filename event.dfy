/** Building the event record and the wire payload that carries it. */
module Event {
  import opened Wrappers

  /** A value in the event record. Built-in fields are text; a caller may
      supply any other scalar, which the model only tells apart by a tag. */
  datatype Value = Text(text: string) | Opaque(tag: int)

  /** A string-keyed event record. */
  type EventRecord = map<string, Value>

  /** The serialized bytes of a payload. */
  type Bytes = seq<bv8>

  /** `{"events": [ ... ]}` */
  datatype Payload = Payload(events: seq<EventRecord>)

  /** What the platform reports about the clock, the locale and the device.
      A missing region or language code is `None`. */
  datatype DeviceContext = DeviceContext(
    clientTimestamp: string,
    localClientTime: string,
    timeZone: string,
    regionCode: Option<string>,
    languageCode: Option<string>,
    systemName: string,
    systemVersion: string,
    model: string,
    isPad: bool)

  const Unknown: string := "Unknown"
  const Manufacturer: string := "Apple"
  const Tablet: string := "Tablet"
  const Mobile: string := "Mobile"

  const BuiltInKeys: set<string> := {
    "eventName", "userId", "clientTimestamp", "timeZone", "localClientTime",
    "country", "language", "os", "osVersion", "device", "manufacturer", "deviceType"}

  /** The record before the caller's properties are merged in. */
  function BuiltInFields(eventName: string, userId: string, device: DeviceContext): (e: EventRecord)
    ensures e.Keys == BuiltInKeys
    ensures e["eventName"] == Text(eventName) && e["userId"] == Text(userId)
    ensures e["clientTimestamp"] == Text(device.clientTimestamp)
    ensures e["timeZone"] == Text(device.timeZone)
    ensures e["localClientTime"] == Text(device.localClientTime)
    ensures e["os"] == Text(device.systemName)
    ensures e["osVersion"] == Text(device.systemVersion)
    ensures e["device"] == Text(device.model)
    ensures device.regionCode.Some? ==> e["country"] == Text(device.regionCode.value)
    ensures device.regionCode.None? ==> e["country"] == Text(Unknown)
    ensures device.languageCode.Some? ==> e["language"] == Text(device.languageCode.value)
    ensures device.languageCode.None? ==> e["language"] == Text(Unknown)
    ensures e["manufacturer"] == Text(Manufacturer)
    ensures e["deviceType"] == Text(if device.isPad then Tablet else Mobile)
  {
    map[
      "eventName" := Text(eventName),
      "userId" := Text(userId),
      "clientTimestamp" := Text(device.clientTimestamp),
      "timeZone" := Text(device.timeZone),
      "localClientTime" := Text(device.localClientTime),
      "country" := Text(device.regionCode.GetOr(Unknown)),
      "language" := Text(device.languageCode.GetOr(Unknown)),
      "os" := Text(device.systemName),
      "osVersion" := Text(device.systemVersion),
      "device" := Text(device.model),
      "manufacturer" := Text(Manufacturer),
      "deviceType" := Text(if device.isPad then Tablet else Mobile)]
  }

  /** The event that is sent: the built-in fields with the caller's properties
      written over them. A caller key wins over a built-in one of the same
      name, `eventName` and `userId` included; every other built-in stays. */
  function EventFor(eventName: string, userId: string, device: DeviceContext, additional: EventRecord): (e: EventRecord)
    ensures e.Keys == BuiltInKeys + additional.Keys
    ensures forall k :: k in additional ==> e[k] == additional[k]
    ensures forall k :: k in BuiltInKeys && k !in additional ==> e[k] == BuiltInFields(eventName, userId, device)[k]
  {
    BuiltInFields(eventName, userId, device) + additional
  }

  /** The payload wraps exactly one event. */
  function Wrap(e: EventRecord): (p: Payload)
    ensures |p.events| == 1 && p.events[0] == e
  {
    Payload([e])
  }

  /** Writes each caller property into the record, one key at a time,
      replacing whatever the record held under that key. */
  method MergeProperties(event: EventRecord, additional: EventRecord) returns (merged: EventRecord)
    ensures merged.Keys == event.Keys + additional.Keys
    ensures forall k :: k in additional ==> merged[k] == additional[k]
    ensures forall k :: k in event && k !in additional ==> merged[k] == event[k]
  {
    merged := event;
    var pending := additional.Keys;
    while pending != {}
      invariant pending <= additional.Keys
      invariant merged.Keys == event.Keys + (additional.Keys - pending)
      invariant forall k :: k in additional && k !in pending ==> merged[k] == additional[k]
      invariant forall k :: k in event && (k !in additional || k in pending) ==> merged[k] == event[k]
      decreases pending
    {
      var k :| k in pending;
      merged := merged[k := additional[k]];
      pending := pending - {k};
    }
  }

  /** `encodeEvent`: builds the record, merges the caller's properties, wraps
      it and hands the payload to the serializer, whose failure is returned. */
  method EncodeEvent(
    eventName: string,
    userId: string,
    device: DeviceContext,
    additional: EventRecord,
    serialize: Payload -> Result<Bytes, string>) returns (r: Result<Bytes, string>)
    ensures r == serialize(Wrap(EventFor(eventName, userId, device, additional)))
  {
    var event := BuiltInFields(eventName, userId, device);
    event := MergeProperties(event, additional);
    assert event == EventFor(eventName, userId, device, additional);
    var payload := Payload([event]);
    r := serialize(payload);
  }

  /** The sent event carries the caller's `userId` property when there is
      one and the session's id otherwise; likewise for `eventName`. */
  lemma OverridesIdentity(eventName: string, userId: string, device: DeviceContext, additional: EventRecord)
    ensures EventFor(eventName, userId, device, additional)["userId"] ==
      if "userId" in additional then additional["userId"] else Text(userId)
    ensures EventFor(eventName, userId, device, additional)["eventName"] ==
      if "eventName" in additional then additional["eventName"] else Text(eventName)
  {
  }
}

/**
 * Building the record that `LogSender.Log` enqueues (main.go:123-141): the body
 * is the message as a string value, severity is copied, and a non-nil attribute
 * map becomes one key/value entry per key, in Go's unspecified map order.
 */
module LogEntry {
  import opened Otlp

  /** The keys an attribute list carries. */
  function KeysOf(kvs: seq<KeyValue>): set<string> {
    set kv | kv in kvs :: kv.key
  }

  /** No key occurs twice in the list. */
  predicate DistinctKeys(kvs: seq<KeyValue>) {
    forall i, j :: 0 <= i < j < |kvs| ==> kvs[i].key != kvs[j].key
  }

  /** `kvs` carries exactly the entries of `attrs`, each converted, each key once. */
  ghost predicate Encodes(kvs: seq<KeyValue>, attrs: map<string, HostValue>, render: OtherValue -> string) {
    && KeysOf(kvs) == attrs.Keys
    && DistinctKeys(kvs)
    && forall i :: 0 <= i < |kvs| ==>
         kvs[i].key in attrs && kvs[i].value == ToAttributeValue(attrs[kvs[i].key], render)
  }

  /** What `Log` promises of the record it builds from its arguments. */
  ghost predicate IsEntryFor(entry: LogRecord, now: uint64, severityText: string, severityNumber: goInt,
                             message: string, attrs: Option<map<string, HostValue>>,
                             render: OtherValue -> string)
  {
    && entry.timeUnixNano == now
    && entry.severityText == severityText
    && entry.severityNumber == severityNumber
    && ExactlyOne(entry.body) && entry.body.stringValue == Some(message)
    && (attrs.None? ==> entry.attributes == [])
    && (attrs.Some? ==> Encodes(entry.attributes, attrs.value, render))
  }

  /**
   * The record-building part of `Log`. `now` stands for `time.Now()`; `attrs`
   * is `None` for a nil map. The attribute list is grown one key at a time,
   * picking keys in an arbitrary order as Go's map iteration does.
   */
  method MakeEntry(now: uint64, severityText: string, severityNumber: goInt, message: string,
                   attrs: Option<map<string, HostValue>>, render: OtherValue -> string)
    returns (entry: LogRecord)
    ensures IsEntryFor(entry, now, severityText, severityNumber, message, attrs, render)
  {
    entry := LogRecord(now, severityText, severityNumber, StringAttribute(message), []);
    if attrs.Some? {
      var m := attrs.value;
      var attributes: seq<KeyValue> := [];
      var remaining := m.Keys;
      while remaining != {}
        invariant remaining <= m.Keys
        invariant KeysOf(attributes) == m.Keys - remaining
        invariant DistinctKeys(attributes)
        invariant forall i :: 0 <= i < |attributes| ==>
                    attributes[i].key in m && attributes[i].value == ToAttributeValue(m[attributes[i].key], render)
        decreases remaining
      {
        var k :| k in remaining;
        assert forall i :: 0 <= i < |attributes| ==> attributes[i].key in KeysOf(attributes);
        var kv := KeyValue(k, ToAttributeValue(m[k], render));
        assert KeysOf(attributes + [kv]) == KeysOf(attributes) + {k};
        attributes := attributes + [kv];
        remaining := remaining - {k};
      }
      entry := entry.(attributes := attributes);
    }
  }

  /** A list with distinct keys has as many entries as keys. */
  lemma {:induction false} DistinctKeysCount(kvs: seq<KeyValue>)
    requires DistinctKeys(kvs)
    ensures |KeysOf(kvs)| == |kvs|
  {
    if kvs != [] {
      var init, last := kvs[..|kvs| - 1], kvs[|kvs| - 1];
      assert kvs == init + [last];
      assert DistinctKeys(init);
      DistinctKeysCount(init);
      assert KeysOf(kvs) == KeysOf(init) + {last.key};
      assert last.key !in KeysOf(init) by {
        forall kv | kv in init ensures kv.key != last.key {
          var i :| 0 <= i < |init| && init[i] == kv;
          assert kvs[i] == kv;
        }
      }
    }
  }

  /** A non-nil map yields exactly one entry per key. */
  lemma EncodingSize(kvs: seq<KeyValue>, attrs: map<string, HostValue>, render: OtherValue -> string)
    requires Encodes(kvs, attrs, render)
    ensures |kvs| == |attrs|
  {
    DistinctKeysCount(kvs);
  }

  /** The entries of an encoding are the map's entries, converted. */
  lemma EncodingContents(kvs: seq<KeyValue>, attrs: map<string, HostValue>, render: OtherValue -> string)
    requires Encodes(kvs, attrs, render)
    ensures (set kv | kv in kvs) == (set k | k in attrs :: KeyValue(k, ToAttributeValue(attrs[k], render)))
  {
  }

  /** A sequence with no repeated element holds each of its elements once. */
  lemma {:induction false} DistinctMultiset(kvs: seq<KeyValue>)
    requires DistinctKeys(kvs)
    ensures multiset(kvs) == multiset(set kv | kv in kvs)
  {
    if kvs != [] {
      var init, last := kvs[..|kvs| - 1], kvs[|kvs| - 1];
      assert kvs == init + [last];
      assert DistinctKeys(init);
      DistinctMultiset(init);
      forall i | 0 <= i < |init| ensures init[i] != last {
        assert kvs[i].key != kvs[|kvs| - 1].key;
      }
      assert (set kv | kv in kvs) == (set kv | kv in init) + {last};
    }
  }

  /**
   * Map iteration order is unspecified, so two runs of `Log` on the same map may
   * list the attributes differently; they always list the same entries, each
   * once: any two encodings of one map are permutations of each other.
   */
  lemma EncodingsArePermutations(a: seq<KeyValue>, b: seq<KeyValue>,
                                 attrs: map<string, HostValue>, render: OtherValue -> string)
    requires Encodes(a, attrs, render) && Encodes(b, attrs, render)
    ensures multiset(a) == multiset(b)
  {
    EncodingContents(a, attrs, render);
    EncodingContents(b, attrs, render);
    DistinctMultiset(a);
    DistinctMultiset(b);
  }

  /**
   * The producer call `Log("WARN", 13, "Retry attempt", {"retry.count": 3,
   * "timeout": 30.5, "enabled": true, "user": "john_doe"})` yields four entries
   * whose values are an integer, a double, a bool and a string.
   */
  lemma RetryAttemptAttributes(kvs: seq<KeyValue>, timeout: Float64, render: OtherValue -> string)
    requires Encodes(kvs, map["retry.count" := GoInt(3), "timeout" := GoFloat64(timeout),
                               "enabled" := GoBool(true), "user" := GoString("john_doe")], render)
    ensures |kvs| == 4
    ensures KeysOf(kvs) == {"retry.count", "timeout", "enabled", "user"}
    ensures forall i :: 0 <= i < |kvs| ==> ExactlyOne(kvs[i].value)
    ensures forall i :: 0 <= i < |kvs| && kvs[i].key == "retry.count" ==> kvs[i].value.intValue == Some(3)
    ensures forall i :: 0 <= i < |kvs| && kvs[i].key == "timeout" ==> kvs[i].value.doubleValue == Some(timeout)
    ensures forall i :: 0 <= i < |kvs| && kvs[i].key == "enabled" ==> kvs[i].value.boolValue == Some(true)
    ensures forall i :: 0 <= i < |kvs| && kvs[i].key == "user" ==> kvs[i].value.stringValue == Some("john_doe")
  {
    var attrs := map["retry.count" := GoInt(3), "timeout" := GoFloat64(timeout),
                     "enabled" := GoBool(true), "user" := GoString("john_doe")];
    assert attrs.Keys == {"retry.count", "timeout", "enabled", "user"};
    EncodingSize(kvs, attrs, render);
  }
}

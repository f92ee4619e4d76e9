/** How Go2RTCActor reads go2rtc's answers: whether a stream has a producer, and which streams are configured. */
module Producers {
  import opened Messages

  // ---------- the producer test ----------

  /** A decoded JSON value. Object keys are unique and have no order, as in a Go map. */
  datatype Json =
    | Null
    | Bool(b: bool)
    | Number(n: real)
    | Text(s: string)
    | Array(items: seq<Json>)
    | Object(fields: map<string, Json>)

  /** The three readings of a `producers` field: a list counts by its length, null as none, anything else as some. */
  predicate SomeProducers(producers: Json)
  {
    match producers
    case Array(items) => |items| > 0
    case Null => false
    case _ => true
  }

  /** The verdict of `payloadHasProducer`, with "some nested value has one" for each loop. */
  ghost predicate HasProducer(payload: Json)
  {
    match payload
    case Object(fields) =>
      if "producers" in fields then SomeProducers(fields["producers"])
      else exists k :: k in fields && HasProducer(fields[k])
    case Array(items) => exists i :: 0 <= i < |items| && HasProducer(items[i])
    case _ => false
  }

  /** The function itself: it returns at the first nested success, and a map's keys come in any order. */
  method PayloadHasProducer(payload: Json) returns (found: bool)
    ensures found == HasProducer(payload)
    ensures payload.Object? && "producers" in payload.fields ==>
              (found <==> payload.fields["producers"] != Null && payload.fields["producers"] != Array([]))
    decreases payload
  {
    match payload
    case Object(fields) =>
      if "producers" in fields {
        return SomeProducers(fields["producers"]);
      }
      var left := fields.Keys;
      while left != {}
        invariant left <= fields.Keys
        invariant forall k :: k in fields && k !in left ==> !HasProducer(fields[k])
      {
        var k :| k in left;
        var nested := PayloadHasProducer(fields[k]);
        if nested {
          return true;
        }
        left := left - {k};
      }
      return false;
    case Array(items) =>
      for i := 0 to |items|
        invariant forall j :: 0 <= j < i ==> !HasProducer(items[j])
      {
        var nested := PayloadHasProducer(items[i]);
        if nested {
          return true;
        }
      }
      return false;
    case _ =>
      return false;
  }

  /** One step into a value: to an object's field or an array's item. */
  datatype Hop = Field(name: string) | Item(index: nat)

  /**
   * Following `path` from `payload` leads to an object whose `producers` are neither null nor the empty list,
   * without passing through another object that has a `producers` field.
   */
  predicate LeadsToProducers(payload: Json, path: seq<Hop>)
    decreases path
  {
    if path == [] then
      && payload.Object? && "producers" in payload.fields
      && payload.fields["producers"] != Null && payload.fields["producers"] != Array([])
    else
      match (payload, path[0])
      case (Object(fields), Field(k)) =>
        "producers" !in fields && k in fields && LeadsToProducers(fields[k], path[1..])
      case (Array(items), Item(i)) => i < |items| && LeadsToProducers(items[i], path[1..])
      case _ => false
  }

  lemma {:induction false} ProducerHasPath(payload: Json) returns (path: seq<Hop>)
    requires HasProducer(payload)
    ensures LeadsToProducers(payload, path)
    decreases payload
  {
    match payload
    case Object(fields) =>
      if "producers" in fields {
        path := [];
      } else {
        var k :| k in fields && HasProducer(fields[k]);
        var rest := ProducerHasPath(fields[k]);
        path := [Field(k)] + rest;
        assert path[1..] == rest;
      }
    case Array(items) =>
      var i :| 0 <= i < |items| && HasProducer(items[i]);
      var rest := ProducerHasPath(items[i]);
      path := [Item(i)] + rest;
      assert path[1..] == rest;
  }

  lemma {:induction false} PathShowsProducer(payload: Json, path: seq<Hop>)
    requires LeadsToProducers(payload, path)
    ensures HasProducer(payload)
    decreases path
  {
    if path != [] {
      match (payload, path[0])
      case (Object(fields), Field(k)) => PathShowsProducer(fields[k], path[1..]);
      case (Array(items), Item(i)) => PathShowsProducer(items[i], path[1..]);
    }
  }

  /** A payload has a producer exactly when some path leads to one. */
  lemma HasProducerMeans(payload: Json)
    ensures HasProducer(payload) <==> exists path :: LeadsToProducers(payload, path)
  {
    if HasProducer(payload) {
      var path := ProducerHasPath(payload);
      assert exists p :: LeadsToProducers(payload, p);
    } else {
      forall path: seq<Hop> ensures !LeadsToProducers(payload, path) {
        if LeadsToProducers(payload, path) { PathShowsProducer(payload, path); }
      }
    }
  }

  // ---------- one stream's verdict ----------

  /** `lookupStreamPayload`: the stream's own entry, keyed by its name or below `streams`. */
  function Lookup(payload: Json, name: string): Option<Json>
  {
    if !payload.Object? then None
    else if name in payload.fields then Some(payload.fields[name])
    else if "streams" in payload.fields && payload.fields["streams"].Object?
            && name in payload.fields["streams"].fields then Some(payload.fields["streams"].fields[name])
    else None
  }

  ghost predicate StreamHasProducer(payload: Json, name: string)
  {
    match Lookup(payload, name)
    case Some(info) => HasProducer(info)
    case None => HasProducer(payload)
  }

  /** An API call's outcome: no response, or a status with a body that may fail to decode. */
  datatype Response = NoResponse(text: ErrorText) | Response(status: int, body: Result<Json>)

  const UNEXPECTED_STATUS: ErrorText := "unexpected status"

  /** `hasProducer`: an unknown stream is a dead one, any other failure is an error. */
  method StreamVerdict(name: string, response: Response) returns (verdict: Result<bool>)
    ensures response.NoResponse? ==> verdict == Err(response.text)
    ensures response.Response? && response.status == 404 ==> verdict == Ok(false)
    ensures response.Response? && 200 <= response.status < 300 ==>
              match response.body
              case Ok(payload) => verdict == Ok(StreamHasProducer(payload, name))
              case Err(text) => verdict == Err(text)
    ensures response.Response? && response.status != 404 && !(200 <= response.status < 300) ==>
              verdict == Err(UNEXPECTED_STATUS)
  {
    if response.NoResponse? {
      return Err(response.text);
    }
    if response.status == 404 {
      return Ok(false);
    }
    if response.status < 200 || response.status >= 300 {
      return Err(UNEXPECTED_STATUS);
    }
    match response.body
    case Err(text) =>
      return Err(text);
    case Ok(payload) =>
      var info := Lookup(payload, name);
      var found := PayloadHasProducer(if info.Some? then info.value else payload);
      return Ok(found);
  }

  /** Below `streams` there is an info for the stream. */
  predicate IsListed(payload: Json, name: string)
  {
    && payload.Object? && "streams" in payload.fields && payload.fields["streams"].Object?
    && name in payload.fields["streams"].fields
  }

  /**
   * A stream's info keyed by its name, or else below `streams`, gives its own verdict, whatever stands beside it;
   * without either the payload is its info. An info with an empty list of producers is dead.
   */
  lemma KeyedInfoIsRead(payload: Json, name: string)
    ensures payload.Object? && name in payload.fields ==>
              StreamHasProducer(payload, name) == HasProducer(payload.fields[name])
    ensures payload.Object? && name !in payload.fields && IsListed(payload, name) ==>
              StreamHasProducer(payload, name) == HasProducer(payload.fields["streams"].fields[name])
    ensures !(payload.Object? && name in payload.fields) && !IsListed(payload, name) ==>
              StreamHasProducer(payload, name) == HasProducer(payload)
    ensures !StreamHasProducer(Object(map[name := Object(map["producers" := Array([])])]), name)
  {}

  /**
   * Keys of a bare info under which it cannot be taken for something else: neither the stream's name nor
   * `streams` is one of them, or the name is the only one and reading the one field is reading all.
   */
  predicate Safe(keys: set<string>, name: string)
  {
    (name !in keys && "streams" !in keys) || (keys == {name} && name != "producers")
  }

  /** The verdict on a bare info is that of the info itself. */
  ghost predicate ReadRight(fields: map<string, Json>, name: string)
  {
    StreamHasProducer(Object(fields), name) == HasProducer(Object(fields))
  }

  const SOME_PRODUCERS := Array([Null])

  /** An info with these keys and producers, whose field that is taken for the stream shows none. */
  function Misleading(keys: set<string>, name: string): map<string, Json>
  {
    if name in keys then
      map k | k in keys :: if k == "producers" then SOME_PRODUCERS else if k == name then Null
                           else Object(map["producers" := SOME_PRODUCERS])
    else
      map k | k in keys :: if k == "producers" then SOME_PRODUCERS else if k != "streams" then Null
                           else Object(map[name := Null]["producers" := SOME_PRODUCERS])
  }

  lemma ProducersShow(fields: map<string, Json>, k: string)
    requires k in fields && fields[k].Object? && "producers" in fields[k].fields
    requires fields[k].fields["producers"] == SOME_PRODUCERS && "producers" !in fields
    ensures HasProducer(Object(fields))
  {
    assert HasProducer(fields[k]);
  }

  lemma SafeIsRight(fields: map<string, Json>, name: string)
    requires Safe(fields.Keys, name)
    ensures ReadRight(fields, name)
  {
    if name in fields {
      assert forall k :: k in fields ==> k in fields.Keys && k == name;
    }
  }

  lemma UnsafeMisleads(keys: set<string>, name: string)
    requires !Safe(keys, name)
    ensures var fields := Misleading(keys, name);
            fields.Keys == keys && HasProducer(Object(fields)) && !StreamHasProducer(Object(fields), name)
  {
    var fields := Misleading(keys, name);
    assert fields.Keys == keys;
    if "producers" !in keys {
      if name in keys {
        var k :| k in keys && k != name;
        ProducersShow(fields, k);
      } else {
        ProducersShow(fields, "streams");
      }
    }
  }

  /** Which keys make a bare info safe to read: exactly under these the verdict is right for all infos with them. */
  lemma BareInfoIsReadRight(keys: set<string>, name: string)
    ensures (forall fields: map<string, Json> :: fields.Keys == keys ==> ReadRight(fields, name)) <==> Safe(keys, name)
  {
    if Safe(keys, name) {
      forall fields: map<string, Json> | fields.Keys == keys ensures ReadRight(fields, name) {
        SafeIsRight(fields, name);
      }
    } else {
      UnsafeMisleads(keys, name);
      assert !ReadRight(Misleading(keys, name), name);
    }
  }

  /** An ordinary bare info of a stream that is called `producers` is misread. */
  lemma BareInfoOfProducers(url: string)
    ensures var fields := map["producers" := Array([Object(map["url" := Text(url)])]), "consumers" := Null];
            HasProducer(Object(fields)) && !StreamHasProducer(Object(fields), "producers")
  {
    var producer := Object(map["url" := Text(url)]);
    var fields := map["producers" := Array([producer]), "consumers" := Null];
    assert !HasProducer(producer);
    assert Lookup(Object(fields), "producers") == Some(Array([producer]));
  }

  // ---------- the configured streams ----------

  datatype Kind = Document | Mapping | Sequence | Scalar | Alias

  /** A YAML node; a mapping's content alternates keys and values. */
  datatype Node = Node(kind: Kind, value: string, content: seq<Node>)

  /** A node as the decoder makes it: a mapping has a value for each key. */
  predicate Paired(node: Node) { node.kind == Mapping ==> |node.content| % 2 == 0 }

  /** The value at `i` belongs to the first key named `streams`. */
  predicate IsStreamsKey(content: seq<Node>, i: nat)
  {
    i < |content| && i % 2 == 0 && content[i].value == "streams"
    && forall j :: 0 <= j < i && j % 2 == 0 ==> content[j].value != "streams"
  }

  const NOT_A_MAPPING: ErrorText := "go2rtc config root must be a mapping"
  const STREAMS_NOT_A_MAPPING: ErrorText := "go2rtc streams section must be a mapping"
  const NO_STREAMS: ErrorText := "streams section not found in go2rtc config"

  /** What the search of one node for its streams gives: the first `streams` counts. */
  ghost predicate Searched(document: Node, r: Result<Node>)
  {
    if document.kind != Mapping then r == Err(NOT_A_MAPPING)
    else match r
      case Ok(node) =>
        && node.kind == Mapping
        && exists i: nat :: IsStreamsKey(document.content, i) && i + 1 < |document.content|
                            && document.content[i + 1] == node
      case Err(text) =>
        || (text == STREAMS_NOT_A_MAPPING
            && exists i: nat :: IsStreamsKey(document.content, i) && i + 1 < |document.content|
                                && document.content[i + 1].kind != Mapping)
        || (text == NO_STREAMS && forall i: nat :: !IsStreamsKey(document.content, i))
  }

  /** A document node stands for the first node in it; any other node is searched itself. */
  method FindStreamsNode(root: Node) returns (r: Result<Node>)
    requires Paired(root) && (root.kind == Document && root.content != [] ==> Paired(root.content[0]))
    ensures root.kind == Document && root.content != [] ==> Searched(root.content[0], r)
    ensures root.kind != Document || root.content == [] ==> Searched(root, r)
  {
    var document := root;
    if document.kind == Document && |document.content| > 0 {
      document := document.content[0];
    }
    if document.kind != Mapping {
      return Err(NOT_A_MAPPING);
    }
    var i := 0;
    while i < |document.content|
      invariant 0 <= i <= |document.content| && i % 2 == 0
      invariant forall j :: 0 <= j < i && j % 2 == 0 ==> document.content[j].value != "streams"
    {
      var key, value := document.content[i], document.content[i + 1];
      if key.value == "streams" {
        assert IsStreamsKey(document.content, i);
        if value.kind != Mapping {
          return Err(STREAMS_NOT_A_MAPPING);
        }
        return Ok(value);
      }
      i := i + 2;
    }
    return Err(NO_STREAMS);
  }

  /** `names` are the keys of a mapping's content, in order and with repeats. */
  predicate KeysOf(content: seq<Node>, names: seq<string>)
  {
    |names| == (|content| + 1) / 2 && forall k :: 0 <= k < |names| ==> names[k] == content[2 * k].value
  }

  const EMPTY_CONFIG: ErrorText := "go2rtc config is empty"

  /** What the list of one node's streams comes to. */
  ghost predicate Listed(document: Node, r: Result<seq<string>>)
  {
    if document.kind != Mapping then r == Err(NOT_A_MAPPING)
    else match r
      case Ok(names) =>
        exists i: nat :: IsStreamsKey(document.content, i) && i + 1 < |document.content|
                         && document.content[i + 1].kind == Mapping && KeysOf(document.content[i + 1].content, names)
      case Err(text) =>
        || (text == STREAMS_NOT_A_MAPPING
            && exists i: nat :: IsStreamsKey(document.content, i) && i + 1 < |document.content|
                                && document.content[i + 1].kind != Mapping)
        || (text == NO_STREAMS && forall i: nat :: !IsStreamsKey(document.content, i))
  }

  /**
   * `listStreamNames`, given what reading and decoding the configuration file gave: the key of every entry, in file
   * order; a repeated key is listed again.
   */
  method ListStreamNames(loaded: Result<Node>) returns (r: Result<seq<string>>)
    requires loaded.Ok? ==> Paired(loaded.value)
    requires loaded.Ok? && loaded.value.kind == Document && loaded.value.content != [] ==>
               Paired(loaded.value.content[0])
    ensures loaded.Err? ==> r == Err(loaded.text)
    ensures loaded.Ok? && loaded.value.content == [] ==> r == Err(EMPTY_CONFIG)
    ensures loaded.Ok? && loaded.value.content != [] && loaded.value.kind == Document ==>
              Listed(loaded.value.content[0], r)
    ensures loaded.Ok? && loaded.value.content != [] && loaded.value.kind != Document ==> Listed(loaded.value, r)
  {
    if loaded.Err? {
      return Err(loaded.text);
    }
    if |loaded.value.content| == 0 {
      return Err(EMPTY_CONFIG);
    }
    var found := FindStreamsNode(loaded.value);
    if found.Err? {
      return Err(found.text);
    }
    var entries := found.value.content;
    var streams: seq<string> := [];
    var i := 0;
    while i < |entries|
      invariant i == 2 * |streams| <= |entries| + 1
      invariant forall k :: 0 <= k < |streams| ==> streams[k] == entries[2 * k].value
    {
      streams := streams + [entries[i].value];
      i := i + 2;
    }
    return Ok(streams);
  }

  // ---------- configuration files ----------

  /** An entry of a mapping: a section of the configuration, or a stream of its `streams` section. */
  datatype Entry = Entry(key: string, value: Node)

  /** The content of a mapping with these entries. */
  function Pairs(entries: seq<Entry>): seq<Node>
  {
    seq(2 * |entries|, i requires 0 <= i < 2 * |entries| =>
      if i % 2 == 0 then Node(Scalar, entries[i / 2].key, []) else entries[i / 2].value)
  }

  /** The configuration file with these sections, as it is decoded. */
  function ConfigFile(sections: seq<Entry>): Node { Node(Document, "", [Node(Mapping, "", Pairs(sections))]) }

  function Keys(entries: seq<Entry>): seq<string> { seq(|entries|, k requires 0 <= k < |entries| => entries[k].key) }

  lemma StreamsKeyOf(sections: seq<Entry>, at: nat, i: nat)
    requires at <= |sections| && (forall k :: 0 <= k < at ==> sections[k].key != "streams")
    requires at < |sections| ==> sections[at].key == "streams"
    ensures IsStreamsKey(Pairs(sections), i) ==> i == 2 * at && at < |sections|
  {
    var content := Pairs(sections);
    assert at < |sections| ==> content[2 * at].value == "streams";
    if IsStreamsKey(content, i) {
      assert i == 2 * (i / 2) && content[i].value == sections[i / 2].key;
    }
  }

  lemma FirstStreamsKey(sections: seq<Entry>, at: nat)
    requires at < |sections| && (forall k :: 0 <= k < at ==> sections[k].key != "streams")
    requires sections[at].key == "streams"
    ensures IsStreamsKey(Pairs(sections), 2 * at) && Pairs(sections)[2 * at + 1] == sections[at].value
  {
    var content := Pairs(sections);
    forall j | 0 <= j < 2 * at && j % 2 == 0 ensures content[j].value != "streams" {
      assert content[j].value == sections[j / 2].key;
    }
  }

  lemma KeysOfPairs(entries: seq<Entry>, names: seq<string>)
    requires KeysOf(Pairs(entries), names)
    ensures names == Keys(entries)
  {
    forall k | 0 <= k < |names| ensures names[k] == entries[k].key {
      assert names[k] == Pairs(entries)[2 * k].value;
    }
  }

  /** Of any configuration file the list is that of its first `streams` section. */
  lemma ConfigIsListed(sections: seq<Entry>, at: nat, streams: seq<Entry>, r: Result<seq<string>>)
    requires at <= |sections| && (forall k :: 0 <= k < at ==> sections[k].key != "streams")
    requires at < |sections| ==> sections[at].key == "streams"
    requires Listed(ConfigFile(sections).content[0], r)
    ensures at == |sections| ==> r == Err("streams section not found in go2rtc config")
    ensures at < |sections| && sections[at].value.kind != Mapping ==>
              r == Err("go2rtc streams section must be a mapping")
    ensures at < |sections| && sections[at].value == Node(Mapping, "", Pairs(streams)) ==> r == Ok(Keys(streams))
  {
    forall i: nat ensures IsStreamsKey(Pairs(sections), i) ==> i == 2 * at && at < |sections| {
      StreamsKeyOf(sections, at, i);
    }
    if at < |sections| {
      FirstStreamsKey(sections, at);
      if r.Ok? && sections[at].value == Node(Mapping, "", Pairs(streams)) {
        KeysOfPairs(streams, r.value);
      }
    }
  }
}

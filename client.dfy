/**
 * The client side of the containers query (src/api/client.rs): the query text
 * it posts, and how it reads the GraphQL reply into a response body or an error.
 * Sending the request and the blocking bridge are not part of this model.
 */
module Client {
  import opened Wrappers
  import opened Entities
  import opened ApiModel
  import opened ContainersApi
  import opened AppErrors
  import opened Json

  predicate OccursAt(s: string, t: string, i: int) {
    0 <= i <= |s| - |t| && s[i..i + |t|] == t
  }

  predicate Contains(s: string, t: string) {
    exists i | 0 <= i <= |s| :: OccursAt(s, t, i)
  }

  /** `get_graphql_str_list_containers`: the request body, a fixed GraphQL query. */
  function GetGraphqlStrListContainers(): (q: string)
    ensures Contains(q, "containers { containers { name }, containersCount }")
  {
    var selection := "containers { containers { name }, containersCount }";
    var q := "{ \"query\": \"{ " + selection + " }\" }";
    assert OccursAt(q, selection, 14);
    q
  }

  /**
   * The same query asking for every field that `Container` needs to be
   * deserialized; with it, a reply decodes (see FullReplyRoundTrip).
   */
  function GetGraphqlStrListContainersAllFields(): (q: string)
    ensures Contains(q, "containers { id name image createdAt updatedAt }")
    ensures Contains(q, "containersCount")
  {
    var list := "containers { id name image createdAt updatedAt }";
    var count := "containersCount";
    var q := "{ \"query\": \"{ containers { " + list + ", " + count + " } }\" }";
    assert OccursAt(q, list, 27);
    assert OccursAt(q, count, 27 + |list| + 2);
    q
  }

  // Deserializing the reply (`serde_json::from_value`, with the derived
  // `Deserialize` of the response body and of `Container`). A struct is read
  // from an object, whose unknown keys are ignored and whose missing fields
  // fail, or from an array holding exactly its fields in order. `parseTime`
  // stands for chrono's parsing of a timestamp string.

  function DecodeString(v: Value): Option<string> {
    if v.String? then Some(v.s) else None
  }

  function DecodeTime(v: Value, parseTime: string -> Option<Timestamp>): Option<Timestamp> {
    if v.String? then parseTime(v.s) else None
  }

  function DecodeI32(v: Value): Option<i32> {
    if v.Number? && -0x8000_0000 <= v.n < 0x8000_0000 then Some(v.n as i32) else None
  }

  function DecodeContainerFields(id: Option<Value>, name: Option<Value>, image: Option<Value>,
                                 createdAt: Option<Value>, updatedAt: Option<Value>,
                                 parseTime: string -> Option<Timestamp>): Option<Container>
  {
    if id.None? || name.None? || image.None? || createdAt.None? || updatedAt.None? then None
    else
      var i, n, m := DecodeString(id.value), DecodeString(name.value), DecodeString(image.value);
      var c, u := DecodeTime(createdAt.value, parseTime), DecodeTime(updatedAt.value, parseTime);
      if i.None? || n.None? || m.None? || c.None? || u.None? then None
      else Some(Container(i.value, n.value, m.value, c.value, u.value))
  }

  function DecodeContainer(v: Value, parseTime: string -> Option<Timestamp>): Option<Container> {
    if v.Object? then
      DecodeContainerFields(Get(v, "id"), Get(v, "name"), Get(v, "image"),
                            Get(v, "createdAt"), Get(v, "updatedAt"), parseTime)
    else if v.Array? && |v.items| == 5 then
      DecodeContainerFields(Some(v.items[0]), Some(v.items[1]), Some(v.items[2]),
                            Some(v.items[3]), Some(v.items[4]), parseTime)
    else None
  }

  /** `Vec<Container>`: every element must decode. */
  function DecodeContainerList(items: seq<Value>, parseTime: string -> Option<Timestamp>): (r: Option<seq<Container>>)
    ensures r.Some? ==> |r.value| == |items|
    ensures r.Some? <==> forall i :: 0 <= i < |items| ==> DecodeContainer(items[i], parseTime).Some?
    ensures r.Some? ==> forall i :: 0 <= i < |items| ==> r.value[i] == DecodeContainer(items[i], parseTime).value
  {
    if items == [] then Some([])
    else
      var head := DecodeContainer(items[0], parseTime);
      var tail := DecodeContainerList(items[1..], parseTime);
      if head.None? || tail.None? then
        assert head.Some? ==> exists i :: 0 <= i < |items| && DecodeContainer(items[i], parseTime).None? by {
          if head.Some? {
            var k :| 0 <= k < |items[1..]| && DecodeContainer(items[1..][k], parseTime).None?;
            assert DecodeContainer(items[k + 1], parseTime).None?;
          }
        }
        None
      else Some([head.value] + tail.value)
  }

  function DecodeBodyFields(containers: Option<Value>, count: Option<Value>,
                            parseTime: string -> Option<Timestamp>): Option<MultiContainersResponseBody>
  {
    if containers.None? || count.None? || !containers.value.Array? then None
    else
      var cs := DecodeContainerList(containers.value.items, parseTime);
      var n := DecodeI32(count.value);
      if cs.None? || n.None? then None else Some(MultiContainersResponseBody(cs.value, n.value))
  }

  /** `MultiContainersResponseBody`, fields `containers` and `containersCount`. */
  function DecodeBody(v: Value, parseTime: string -> Option<Timestamp>): Option<MultiContainersResponseBody> {
    if v.Object? then DecodeBodyFields(Get(v, "containers"), Get(v, "containersCount"), parseTime)
    else if v.Array? && |v.items| == 2 then DecodeBodyFields(Some(v.items[0]), Some(v.items[1]), parseTime)
    else None
  }

  /**
   * What the reply must look like for the `expect`s not to panic: when `data` is
   * null and there is an `errors` key, it holds a non-empty array whose first
   * element has `extensions.internal_error`.
   */
  predicate ErrorsReadable(json: Value) {
    Index(json, "data").Null? && Get(json, "errors").Some? ==>
      var errors := Get(json, "errors").value;
      && errors.Array?
      && |errors.items| > 0
      && Get(errors.items[0], "extensions").Some?
      && Get(Get(errors.items[0], "extensions").value, "internal_error").Some?
  }

  /** The first error's `extensions.internal_error`; only that error is read. */
  function InternalError(json: Value): Value
    requires ErrorsReadable(json)
    requires Index(json, "data").Null? && Get(json, "errors").Some?
  {
    Get(Get(Get(json, "errors").value.items[0], "extensions").value, "internal_error").value
  }

  const ErrorPrefix: string := "Error while requesting containers: "
  const NullNoErrors: string := "Data is null, and there are no errors."
  const NoContainers: string := "Data is not null, and there are no containers."
  const CannotDeserialize: string := "Could not deserialize containers"

  /** The closure in `list_containers` that reads the reply JSON. */
  function DecodeReply(json: Value, parseTime: string -> Option<Timestamp>): (r: Result<MultiContainersResponseBody, Error>)
    requires ErrorsReadable(json)
    ensures Index(json, "data").Null? && Get(json, "errors").Some? ==>
              r == Failure(MiscError(ErrorPrefix + Render(InternalError(json))))
    ensures Index(json, "data").Null? && Get(json, "errors").None? ==> r == Failure(MiscError(NullNoErrors))
    ensures !Index(json, "data").Null? && Get(Index(json, "data"), "containers").None? ==>
              r == Failure(MiscError(NoContainers))
    ensures r.Success? <==> !Index(json, "data").Null? && Get(Index(json, "data"), "containers").Some?
                            && DecodeBody(Get(Index(json, "data"), "containers").value, parseTime).Some?
    ensures r.Success? ==> r.value == DecodeBody(Get(Index(json, "data"), "containers").value, parseTime).value
    ensures !Index(json, "data").Null? && Get(Index(json, "data"), "containers").Some?
            && DecodeBody(Get(Index(json, "data"), "containers").value, parseTime).None? ==>
              r == Failure(JSONError(CannotDeserialize))
    ensures r.Failure? && r.error.JSONError? ==> r.error.msg == CannotDeserialize
  {
    var data := Index(json, "data");
    if data.Null? then
      match Get(json, "errors")
      case Some(_) => Failure(MiscError(ErrorPrefix + Render(InternalError(json))))
      case None => Failure(MiscError(NullNoErrors))
    else
      match Get(data, "containers")
      case Some(containers) =>
        (match DecodeBody(containers, parseTime)
         case Some(body) => Success(body)
         case None => Failure(JSONError(CannotDeserialize)))
      case None => Failure(MiscError(NoContainers))
  }

  // Replies as a GraphQL server writes them.

  function Obj1(key: string, v: Value): Value {
    Object([Member(key, v)])
  }

  /** `{"data": {"containers": body}}`. */
  function DataReply(body: Value): Value {
    Obj1("data", Obj1("containers", body))
  }

  /** `{"data": null, "errors": [{"extensions": {"internal_error": msg}, "message": ...}]}`. */
  function ErrorReply(internalError: string, message: string): Value {
    Object([
      Member("data", Null),
      Member("errors", Array([Object([
        Member("extensions", Obj1("internal_error", String(internalError))),
        Member("message", String(message))])]))])
  }

  /** An error reply is reported with its first internal error, which arrives wrapped in quotes. */
  lemma ErrorReplyMessage(internalError: string, message: string, parseTime: string -> Option<Timestamp>)
    ensures ErrorsReadable(ErrorReply(internalError, message))
    ensures DecodeReply(ErrorReply(internalError, message), parseTime)
            == Failure(MiscError(ErrorPrefix + "\"" + Escape(internalError) + "\""))
  {
    var json := ErrorReply(internalError, message);
    LookupAt(json.members, "data", 0);
    LookupAt(json.members, "errors", 1);
    var first := json.members[1].value.items[0];
    LookupAt(first.members, "extensions", 0);
    LookupAt(first.members[0].value.members, "internal_error", 0);
    assert Index(json, "data").Null? && Get(json, "errors").Some?;
    assert InternalError(json) == String(internalError);
    assert Render(String(internalError)) == "\"" + Escape(internalError) + "\"";
    assert ErrorPrefix + Render(String(internalError)) == ErrorPrefix + "\"" + Escape(internalError) + "\"";
  }

  /** An internal error without quotes, backslashes or control characters appears verbatim between quotes. */
  lemma ErrorReplyMessagePlain(internalError: string, message: string, parseTime: string -> Option<Timestamp>)
    requires forall i :: 0 <= i < |internalError| ==> Plain(internalError[i])
    ensures ErrorsReadable(ErrorReply(internalError, message))
    ensures DecodeReply(ErrorReply(internalError, message), parseTime)
            == Failure(MiscError(ErrorPrefix + "\"" + internalError + "\""))
  {
    ErrorReplyMessage(internalError, message, parseTime);
    EscapePlain(internalError);
    assert Escape(internalError) == internalError;
  }

  function ContainerJson(c: Container, renderTime: Timestamp -> string): Value {
    Object([
      Member("createdAt", String(renderTime(c.createdAt))),
      Member("id", String(c.id)),
      Member("image", String(c.image)),
      Member("name", String(c.name)),
      Member("updatedAt", String(renderTime(c.updatedAt)))])
  }

  function BodyJson(b: MultiContainersResponseBody, renderTime: Timestamp -> string): Value {
    var cs := b.containers;
    Object([
      Member("containers", Array(seq(|cs|, i requires 0 <= i < |cs| => ContainerJson(cs[i], renderTime)))),
      Member("containersCount", Number(b.containersCount as int))])
  }

  /** The answer to the all-fields query: each container with its five fields. */
  function FullReply(b: MultiContainersResponseBody, renderTime: Timestamp -> string): Value {
    DataReply(BodyJson(b, renderTime))
  }

  lemma ContainerJsonFields(c: Container, renderTime: Timestamp -> string)
    ensures Get(ContainerJson(c, renderTime), "id") == Some(String(c.id))
    ensures Get(ContainerJson(c, renderTime), "name") == Some(String(c.name))
    ensures Get(ContainerJson(c, renderTime), "image") == Some(String(c.image))
    ensures Get(ContainerJson(c, renderTime), "createdAt") == Some(String(renderTime(c.createdAt)))
    ensures Get(ContainerJson(c, renderTime), "updatedAt") == Some(String(renderTime(c.updatedAt)))
  {
    var v := ContainerJson(c, renderTime);
    assert Get(v, "createdAt") == Some(String(renderTime(c.createdAt))) by { LookupAt(v.members, "createdAt", 0); }
    assert Get(v, "id") == Some(String(c.id)) by { LookupAt(v.members, "id", 1); }
    assert Get(v, "image") == Some(String(c.image)) by {
      assert "id" != "image" by { assert "id"[1] != "image"[1]; }
      LookupAt(v.members, "image", 2);
    }
    assert Get(v, "name") == Some(String(c.name)) by { LookupAt(v.members, "name", 3); }
    assert Get(v, "updatedAt") == Some(String(renderTime(c.updatedAt))) by {
      assert "createdAt" != "updatedAt" by { assert "createdAt"[0] != "updatedAt"[0]; }
      LookupAt(v.members, "updatedAt", 4);
    }
  }

  lemma ContainerJsonDecodes(c: Container, renderTime: Timestamp -> string, parseTime: string -> Option<Timestamp>)
    requires parseTime(renderTime(c.createdAt)) == Some(c.createdAt)
    requires parseTime(renderTime(c.updatedAt)) == Some(c.updatedAt)
    ensures DecodeContainer(ContainerJson(c, renderTime), parseTime) == Some(c)
  {
    ContainerJsonFields(c, renderTime);
  }

  /**
   * A reply carrying every field of every container decodes to exactly the body
   * the server listed, as long as chrono reads back the timestamps it wrote.
   */
  lemma FullReplyRoundTrip(b: MultiContainersResponseBody, renderTime: Timestamp -> string,
                           parseTime: string -> Option<Timestamp>)
    requires forall i :: 0 <= i < |b.containers| ==>
               parseTime(renderTime(b.containers[i].createdAt)) == Some(b.containers[i].createdAt)
               && parseTime(renderTime(b.containers[i].updatedAt)) == Some(b.containers[i].updatedAt)
    ensures ErrorsReadable(FullReply(b, renderTime))
    ensures DecodeReply(FullReply(b, renderTime), parseTime) == Success(b)
  {
    var json := FullReply(b, renderTime);
    var body := BodyJson(b, renderTime);
    assert Index(json, "data") == Obj1("containers", body);
    assert Get(Index(json, "data"), "containers") == Some(body);
    var items := body.members[0].value.items;
    forall i | 0 <= i < |items|
      ensures DecodeContainer(items[i], parseTime) == Some(b.containers[i])
    {
      ContainerJsonDecodes(b.containers[i], renderTime, parseTime);
    }
    var decoded := DecodeContainerList(items, parseTime);
    assert decoded.value == b.containers;
    assert Get(body, "containers") == Some(Array(items));
    assert Get(body, "containersCount") == Some(Number(b.containersCount as int)) by {
      LookupAt(body.members, "containersCount", 1);
    }
  }

  function NameOnlyJson(name: string): Value {
    Obj1("name", String(name))
  }

  /** The answer to the query as written: each container carries its `name` and nothing else. */
  function NameOnlyReply(names: seq<string>, count: i32): Value {
    DataReply(Object([
      Member("containers", Array(seq(|names|, i requires 0 <= i < |names| => NameOnlyJson(names[i])))),
      Member("containersCount", Number(count as int))]))
  }

  /**
   * Any non-empty answer to the query as written fails to deserialize: a
   * container without `id`, `image` and the timestamps is not a `Container`.
   */
  lemma NameOnlyReplyFails(names: seq<string>, count: i32, parseTime: string -> Option<Timestamp>)
    requires |names| > 0
    ensures ErrorsReadable(NameOnlyReply(names, count))
    ensures DecodeReply(NameOnlyReply(names, count), parseTime) == Failure(JSONError(CannotDeserialize))
  {
    var json := NameOnlyReply(names, count);
    var body := Index(json, "data").members[0].value;
    assert Get(Index(json, "data"), "containers") == Some(body);
    var items := body.members[0].value.items;
    assert items[0] == NameOnlyJson(names[0]);
    assert Lookup(items[0].members[1..], "id") == None by { assert items[0].members[1..] == []; }
    assert Get(items[0], "id") == None;
    assert DecodeContainer(items[0], parseTime).None?;
    assert Get(body, "containers") == Some(Array(items));
  }
}

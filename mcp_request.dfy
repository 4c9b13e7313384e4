/** The request payload of the MCP test client (`sendMCPRequest` in
    npxtest/test-mcp_v1.js): a JSON-RPC 2.0 request object whose members are written in
    the order `jsonrpc`, `method`, `params`, `id`, leaving `params` out when it has no key
    and `id` out when it is null. A request without `id` is a notification (section 4.1 of
    the JSON-RPC 2.0 Specification). */
module McpRequest {
  import opened Wrappers
  import opened Json

  /** A top-level JSON object as `JSON.stringify` writes it: its members in insertion order. */
  type Members = seq<(string, Json)>

  predicate HasKey(members: Members, key: string)
  {
    exists i :: 0 <= i < |members| && members[i].0 == key
  }

  /** The value of the first member called `key`. */
  function Lookup(members: Members, key: string): (r: Option<Json>)
    ensures r.Some? <==> HasKey(members, key)
  {
    if members == [] then None
    else if members[0].0 == key then Some(members[0].1)
    else
      var rest := Lookup(members[1..], key);
      assert HasKey(members[1..], key) ==> HasKey(members, key) by {
        if HasKey(members[1..], key) {
          var i :| 0 <= i < |members[1..]| && members[1..][i].0 == key;
          assert members[i + 1].0 == key;
        }
      }
      rest
  }

  /** The payload of `sendMCPRequest(name, params, id)`. */
  function Payload(name: string, params: map<string, Json>, id: Json): (members: Members)
    ensures |members| == 2 + (if |params| > 0 then 1 else 0) + (if id != Null then 1 else 0)
    ensures members[0] == ("jsonrpc", Str("2.0")) && members[1] == ("method", Str(name))
    ensures |params| > 0 ==> members[2] == ("params", Object(params))
    ensures id != Null ==> members[|members| - 1] == ("id", id)
    ensures HasKey(members, "params") <==> |params| > 0
    ensures IsNotification(members) <==> id == Null
    ensures forall i, j :: 0 <= i < j < |members| ==> members[i].0 != members[j].0
  {
    var members := [("jsonrpc", Str("2.0")), ("method", Str(name))]
      + (if |params| > 0 then [("params", Object(params))] else [])
      + (if id != Null then [("id", id)] else []);
    assert |params| > 0 ==> members[2].0 == "params";
    assert id != Null ==> members[|members| - 1].0 == "id";
    members
  }

  /** A payload without `id` is a notification: the server sends no response to it. */
  predicate IsNotification(members: Members)
  {
    !HasKey(members, "id")
  }

  /** Reads a payload back: its name, its params (none when absent) and its id (null
      when absent). */
  function ReadRequest(members: Members): Option<(string, map<string, Json>, Json)>
  {
    match Lookup(members, "method")
    case Some(Str(name)) =>
      var params := Lookup(members, "params");
      var id := Lookup(members, "id");
      if params.Some? && !params.value.Object? then None
      else Some((name, if params.Some? then params.value.fields else map[], if id.Some? then id.value else Null))
    case _ => None
  }

  /** Leaving out an empty `params` and a null `id` loses nothing: the payload determines
      the call's arguments. */
  lemma PayloadRoundTrip(name: string, params: map<string, Json>, id: Json)
    ensures ReadRequest(Payload(name, params, id)) == Some((name, params, id))
  {
    var members := Payload(name, params, id);
    assert Lookup(members, "method") == Some(Str(name));
    if |params| > 0 {
      assert members[1..][1..] == members[2..] && members[2] == ("params", Object(params));
      assert Lookup(members[2..], "params") == Some(Object(params));
      assert Lookup(members, "params") == Some(Object(params));
    } else {
      assert params == map[];
    }
    if id != Null {
      assert Lookup(members, "id") == Some(id) by {
        assert members[|members| - 1] == ("id", id);
        LookupLast(members, "id");
      }
    }
  }

  /** The last member is found when its key occurs nowhere before it. */
  lemma {:induction false} LookupLast(members: Members, key: string)
    requires |members| > 0 && members[|members| - 1].0 == key
    requires forall i :: 0 <= i < |members| - 1 ==> members[i].0 != key
    ensures Lookup(members, key) == Some(members[|members| - 1].1)
  {
    if |members| > 1 {
      LookupLast(members[1..], key);
    }
  }

  const InvalidResponsePrefix := "Invalid JSON response: "

  /** The response handler: the parsed body, or a rejection that quotes the body. */
  function ParseResponse(data: string, parse: string -> Result<Json, string>): (r: Result<Json, string>)
    ensures r.Success? <==> parse(data).Success?
    ensures r.Success? ==> r.value == parse(data).value
    ensures r.Failure? ==>
      (|r.error| >= |InvalidResponsePrefix| && r.error[..|InvalidResponsePrefix|] == InvalidResponsePrefix
       && r.error[|InvalidResponsePrefix|..] == data)
  {
    match parse(data)
    case Success(v) => Success(v)
    case Failure(_) => Failure(InvalidResponsePrefix + data)
  }
}

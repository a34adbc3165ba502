/** References to background operations: how they are built, and what leads back from them. */
module References {
  import opened Wrappers
  import opened Errors
  import opened LxdClient
  import Paths

  /** `operation_id_from_url`: the part after the last slash, trailing slashes aside. */
  function OperationId(url: Option<string>): Option<string> {
    if url.None? || url.value == "" then None
    else var parts := Paths.Split(Paths.TrimSlashes(url.value));
         Some(parts[|parts| - 1])
  }

  datatype AsyncRef = AsyncRef(operationId: string, operationUrl: string, pollUrl: string, waitUrl: string)

  function OperationUrl(id: string): string {
    "/1.0/operations/" + id
  }

  /** `str(metadata)` of a value that is not a dictionary. */
  function PyText(j: Json): string
    requires !j.Dict?
  {
    match j
    case Null => "None"
    case Text(text) => text
    case Other(repr, _) => repr
  }

  function RefTo(id: string, url: string): AsyncRef {
    AsyncRef(id, url, "/api/v1/operations/" + id, "/api/v1/operations/" + id + "/wait")
  }

  /** `to_async_ref`; it fails when a field of the reference would not be a string. */
  function ToAsyncRef(metadata: Json): Result<AsyncRef, ()> {
    if metadata.Dict? then
      var id := if "id" in metadata.fields then metadata.fields["id"] else Text("");
      if !id.Text? then Failure(())
      else if "operation" in metadata.fields && Truthy(metadata.fields["operation"]) then
        var url := metadata.fields["operation"];
        if url.Text? then Success(RefTo(id.text, url.text)) else Failure(())
      else Success(RefTo(id.text, OperationUrl(id.text)))
    else
      var id := PyText(metadata);
      Success(RefTo(id, OperationUrl(id)))
  }

  lemma {:induction false} TrimKeeps(s: string)
    requires s != "" && s[|s| - 1] != '/'
    ensures Paths.TrimSlashes(s) == s
  {
  }

  lemma {:induction false} TrimResult(s: string)
    ensures var t := Paths.TrimSlashes(s);
            && (t != "" ==> t[|t| - 1] != '/')
            && (t == "" <==> forall i :: 0 <= i < |s| ==> s[i] == '/')
  {
    if s != "" && s[|s| - 1] == '/' {
      TrimResult(s[..|s| - 1]);
      assert forall i :: 0 <= i < |s| - 1 ==> s[..|s| - 1][i] == s[i];
    }
  }

  /** The last part of a string that does not end in a slash is not empty. */
  lemma {:induction false} LastPart(s: string)
    ensures var parts := Paths.Split(s);
            var last := parts[|parts| - 1];
            Paths.NoSlash(last) && (s != "" && s[|s| - 1] != '/' ==> last != "")
  {
    if s != "" {
      LastPart(s[1..]);
    }
  }

  lemma {:induction false} LastOfPrefixed(prefix: string, id: string)
    requires Paths.NoSlash(id)
    ensures var parts := Paths.Split(prefix + "/" + id);
            |parts| > 1 && parts[|parts| - 1] == id
  {
    if prefix == "" {
      assert prefix + "/" + id == "" + "/" + id;
      Paths.SplitHead("", id);
      Paths.SplitHead(id, "");
    } else {
      LastOfPrefixed(prefix[1..], id);
      assert (prefix + "/" + id)[1..] == prefix[1..] + "/" + id;
    }
  }

  /** The extracted identifier is free of slashes, and empty only for a string of slashes alone. */
  lemma ExtractedId(url: string)
    requires url != ""
    ensures var id := OperationId(Some(url));
            && id.Some? && Paths.NoSlash(id.value)
            && (id.value == "" <==> forall i :: 0 <= i < |url| ==> url[i] == '/')
  {
    TrimResult(url);
    LastPart(Paths.TrimSlashes(url));
    assert Paths.Split("") == [""];
  }

  lemma BareId(id: string)
    requires id != "" && Paths.NoSlash(id)
    ensures OperationId(Some(id)) == Some(id)
  {
    assert id[|id| - 1] in id;
    TrimKeeps(id);
    Paths.SplitHead(id, "");
  }

  /**
   * Extracting an identifier twice is the same as once, except on a non-empty string made of
   * slashes only: there the first extraction gives the empty string and the second nothing.
   */
  lemma ExtractionIsIdempotent(url: string)
    ensures OperationId(OperationId(Some(url))) == OperationId(Some(url))
            <==> url == "" || exists i :: 0 <= i < |url| && url[i] != '/'
  {
    if url != "" {
      ExtractedId(url);
      var id := OperationId(Some(url)).value;
      if id != "" {
        BareId(id);
      }
    }
  }

  /**
   * Stripping and splitting a reference's operation URL gives back the identifier exactly when the
   * identifier is a non-empty single path part.
   */
  lemma ReferenceRoundTrip(id: string)
    ensures OperationId(Some(OperationUrl(id))) == Some(id) <==> id != "" && Paths.NoSlash(id)
  {
    var url := OperationUrl(id);
    ExtractedId(url);
    assert url[1] == '1';
    if id != "" && Paths.NoSlash(id) {
      assert url[|url| - 1] == id[|id| - 1] && id[|id| - 1] in id;
      TrimKeeps(url);
      assert url == "/1.0/operations" + "/" + id;
      LastOfPrefixed("/1.0/operations", id);
    }
  }

  /** A reference names its operation canonically when LXD sent no URL of its own, or this one. */
  predicate CanonicalMetadata(metadata: Json, id: string) {
    && metadata.Dict? && "id" in metadata.fields && metadata.fields["id"] == Text(id)
    && ("operation" in metadata.fields && Truthy(metadata.fields["operation"]) ==>
          metadata.fields["operation"] == Text(OperationUrl(id)))
  }

  /**
   * A reference read field by field. It carries LXD's own operation URL whenever that is a non-empty
   * text, canonical or not, and else the canonical one; our two URLs always name the identifier. None
   * can be built when the identifier, or a truthy operation URL, is not a text.
   */
  lemma ReferenceFields(fields: map<string, Json>)
    ensures var made := ToAsyncRef(Dict(fields));
            var stated := "operation" in fields && fields["operation"] != Null && fields["operation"] != Text("")
                          && !(fields["operation"].Other? && !fields["operation"].truthy)
                          && fields["operation"] != Dict(map[]);
            && (made.Success? <==> ("id" in fields ==> fields["id"].Text?) && (stated ==> fields["operation"].Text?))
            && (made.Success? ==>
                  var ref, id := made.value, if "id" in fields then fields["id"].text else "";
                  && ref.operationId == id
                  && ref.operationUrl == (if stated then fields["operation"].text else "/1.0/operations/" + id)
                  && ref.pollUrl == "/api/v1/operations/" + id
                  && ref.waitUrl == "/api/v1/operations/" + id + "/wait")
  {
  }

  /** Anything but a dictionary is taken for an identifier, by its text; nothing at all is called `None`. */
  lemma ReferenceByText(metadata: Json)
    requires !metadata.Dict?
    ensures var id := if metadata == Null then "None" else if metadata.Text? then metadata.text else metadata.repr;
            ToAsyncRef(metadata) == Success(AsyncRef(id, "/1.0/operations/" + id, "/api/v1/operations/" + id,
                                                     "/api/v1/operations/" + id + "/wait"))
  {
  }

  /** The operation a path of our own API names: one path part after the collection, or before `/wait`. */
  function PolledId(url: string): Option<string> {
    var parts := Paths.Split(url);
    if |parts| == 5 && parts[..4] == ["", "api", "v1", "operations"] && parts[4] != "" then Some(parts[4]) else None
  }

  function WaitedId(url: string): Option<string> {
    var parts := Paths.Split(url);
    if |parts| == 6 && parts[..4] == ["", "api", "v1", "operations"] && parts[4] != "" && parts[5] == "wait"
    then Some(parts[4]) else None
  }

  lemma OurCollection()
    ensures Paths.Join(["", "api", "v1", "operations"]) == "/api/v1/operations"
  {
    assert ["", "api", "v1", "operations"][1..] == ["api", "v1", "operations"];
    assert ["api", "v1", "operations"][1..] == ["v1", "operations"];
    assert ["v1", "operations"][1..] == ["operations"];
  }

  lemma OurJoin(parts: seq<string>)
    requires |parts| > 0
    ensures Paths.Join(["", "api", "v1", "operations"] + parts) == "/api/v1/operations/" + Paths.Join(parts)
  {
    OurCollection();
    Paths.JoinConcat(["", "api", "v1", "operations"], parts);
    assert "/api/v1/operations" + "/" == "/api/v1/operations/";
  }

  lemma OurPath(id: string)
    requires Paths.NoSlash(id)
    ensures Paths.Split("/api/v1/operations/" + id) == ["", "api", "v1", "operations"] + [id]
    ensures Paths.Split("/api/v1/operations/" + id + "/wait") == ["", "api", "v1", "operations"] + [id, "wait"]
  {
    OurJoin([id]);
    OurJoin([id, "wait"]);
    assert [id, "wait"][1..] == ["wait"];
    assert "/api/v1/operations/" + (id + "/" + "wait") == "/api/v1/operations/" + id + "/wait";
    Paths.SplitJoin(["", "api", "v1", "operations"] + [id]);
    Paths.SplitJoin(["", "api", "v1", "operations"] + [id, "wait"]);
  }

  /** Following a reference's poll URL or wait URL names the operation it was built from. */
  lemma ReferenceUrlsLeadBack(metadata: Json, id: string)
    requires CanonicalMetadata(metadata, id) && id != "" && Paths.NoSlash(id)
    ensures ToAsyncRef(metadata).Success?
    ensures var ref := ToAsyncRef(metadata).value;
            && ref.operationId == id && OperationId(Some(ref.operationUrl)) == Some(id)
            && PolledId(ref.pollUrl) == Some(id) && WaitedId(ref.waitUrl) == Some(id)
  {
    ReferenceRoundTrip(id);
    OurPath(id);
  }

  /** `get_operation` behind the poll URL: the client requests exactly the operation's own URL. */
  method GetOperation(client: Client, operationId: string, wire: Wire) returns (r: Result<Json, int>)
    requires client.Valid()
    modifies client
    ensures client.Valid() && client.requested == old(client.requested) + [OperationUrl(operationId)]
    ensures r == match Normalise(wire) case Success(j) => Success(j) case Failure(e) => Failure(HttpStatus(e))
  {
    var result := client.Request("operations/" + operationId, wire);
    assert Paths.Url("operations/" + operationId) == OperationUrl(operationId);
    if result.Failure? {
      return Failure(HttpStatus(result.error));
    }
    return Success(result.value);
  }
}

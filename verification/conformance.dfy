/**
 * Reading a SMART-on-FHIR server's conformance statement (OmniAuth::Smart::Conformance):
 * locating the OAuth-URIs security extension in one of two document shapes and extracting
 * the authorize and token endpoints from it.
 */
module Conformance {
  import opened Wrappers
  import opened Values

  /** The identifier of the SMART OAuth-URIs security extension. */
  const OAuthUrisExtension := "http://fhir-registry.smarthealthit.org/StructureDefinition/oauth-uris"

  /**
   * A parsed conformance statement. The source keeps whatever `valueUri` held, so the
   * endpoints are values; a successful parse guarantees that both are truthy.
   */
  datatype Info = Info(authorizeUrl: Value, tokenUrl: Value)

  /** Where the conformance statement of a server lives; `nil + "/metadata"` raises. */
  function MetadataUri(serverUri: Option<string>): (r: Result<string, Error>)
    ensures serverUri.None? ==> r == Failure(NoMethodError)
    ensures serverUri.Some? ==>
      && r.Success?
      && |r.value| == |serverUri.value| + |"/metadata"|
      && r.value[..|serverUri.value|] == serverUri.value
      && r.value[|serverUri.value|..] == "/metadata"
  {
    match serverUri
    case None => Failure(NoMethodError)
    case Some(s) => Success(s + "/metadata")
  }

  /**
   * The block the security extension is read from: `Conformance.rest.security.extension`
   * when the document has a `"Conformance"` key (whatever its value), and otherwise
   * `rest[0].security.extension[0]`.
   */
  function SecurityExtension(doc: map<string, Value>): Result<Value, Error> {
    if "Conformance" in doc then
      var rest :- Index(doc["Conformance"], "rest");
      var security :- Index(rest, "security");
      Index(security, "extension")
    else
      var rests :- Index(Hash(doc), "rest");
      var rest :- At0(rests);
      var security :- Index(rest, "security");
      var extensions :- Index(security, "extension");
      At0(extensions)
  }

  /** The extension is the OAuth-URIs one; asking a non-indexable value for its url raises. */
  function IsKnownSecurityExtension(extension: Value): (r: Result<bool, Error>)
    ensures r.Success? <==> Indexable(extension)
    ensures extension.Hash? ==> (r.value <==> Get(extension.entries, "url") == Str(OAuthUrisExtension))
    ensures extension.Str? ==> r == Success(false)
  {
    var url :- Index(extension, "url");
    Success(url == Str(OAuthUrisExtension))
  }

  /** The entry carries the given `"url"` tag. Only a Hash entry can carry one. */
  predicate Tagged(entry: Value, tag: string) {
    entry.Hash? && Get(entry.entries, "url") == Str(tag)
  }

  /**
   * Reference definition: the `valueUri` of the LAST entry tagged `tag`, or `default`
   * when no entry is.
   */
  function LastTaggedOr(entries: seq<Value>, tag: string, default: Value): Value
    decreases |entries|
  {
    if |entries| == 0 then default
    else if Tagged(entries[|entries| - 1], tag) then Get(entries[|entries| - 1].entries, "valueUri")
    else LastTaggedOr(entries[..|entries| - 1], tag, default)
  }

  /** The endpoints gathered so far while walking the extension's entries. */
  datatype Found = Found(authorizeUrl: Value, tokenUrl: Value)

  /**
   * The `each` loop over the entries, left to right: an entry tagged `"authorize"` or
   * `"token"` overwrites that endpoint; every other entry is skipped, but asking an entry
   * that is neither a Hash nor a String for its tag raises.
   */
  function Scan(entries: seq<Value>, found: Found): Result<Found, Error>
    decreases |entries|
  {
    if |entries| == 0 then Success(found)
    else
      var entry := entries[0];
      var tag :- Index(entry, "url");
      // A String answers its tag lookup with "url" or nil, so a tagged entry is a Hash.
      if tag == Str("authorize") then
        Scan(entries[1..], found.(authorizeUrl := Get(entry.entries, "valueUri")))
      else if tag == Str("token") then
        Scan(entries[1..], found.(tokenUrl := Get(entry.entries, "valueUri")))
      else
        Scan(entries[1..], found)
  }

  /** The entries `each` walks: an Array's elements; an empty Hash yields none. */
  function Entries(v: Value): (r: Result<seq<Value>, Error>)
    ensures v.Arr? ==> r == Success(v.items)
    ensures v.Hash? && |v.entries| == 0 ==> r == Success([])
  {
    match v
    case Arr(items) => Success(items)
    // Hash#each yields [key, value] arrays, and `["k", v]["url"]` raises.
    case Hash(m) => if |m| == 0 then Success([]) else Failure(TypeError)
    // nil, booleans, Integers and Strings have no `each`.
    case _ => Failure(NoMethodError)
  }

  /**
   * `parse` once the security extension has been selected: it must be the OAuth-URIs
   * extension, its entries are walked, and the authorize endpoint is checked before the
   * token endpoint. The unknown-extension branch raises NameError, because its error
   * message interpolates an undefined variable.
   */
  function ParseExtension(extension: Value): (r: Result<Info, Error>)
    ensures extension.Hash? && Get(extension.entries, "url") != Str(OAuthUrisExtension)
      ==> r == Failure(NameError)
    ensures extension.Str? ==> r == Failure(NameError)
    ensures r.Success? ==> Truthy(r.value.authorizeUrl) && Truthy(r.value.tokenUrl)
  {
    var known :- IsKnownSecurityExtension(extension);
    if !known then Failure(NameError)
    else
      // Only a Hash can be the known extension.
      var entries :- Entries(Get(extension.entries, "extension"));
      var found :- Scan(entries, Found(Nil, Nil));
      if !Truthy(found.authorizeUrl) then Failure(ConformanceError("No authorization uri"))
      else if !Truthy(found.tokenUrl) then Failure(ConformanceError("No token uri"))
      else Success(Info(found.authorizeUrl, found.tokenUrl))
  }

  /** `Conformance.new(json)`: anything but a Hash is refused before any parsing. */
  function Parse(doc: Value): (r: Result<Info, Error>)
    ensures !doc.Hash? ==> r == Failure(ConformanceError("Expecting json hash, instead go " + ClassName(doc)))
    ensures r.Success? ==> Truthy(r.value.authorizeUrl) && Truthy(r.value.tokenUrl)
    ensures doc.Hash? && SecurityExtension(doc.entries).Failure? ==> r == Failure(SecurityExtension(doc.entries).error)
    ensures doc.Hash? && SecurityExtension(doc.entries).Success? ==> r == ParseExtension(SecurityExtension(doc.entries).value)
  {
    if !doc.Hash? then Failure(ConformanceError("Expecting json hash, instead go " + ClassName(doc)))
    else
      var extension :- SecurityExtension(doc.entries);
      ParseExtension(extension)
  }

  /**
   * What reading `<server>/metadata` answers: None when the request raised, `Some(None)`
   * when the body is not JSON (`MultiJson.load` raised), and otherwise the decoded body.
   */
  type Fetch = string -> Option<Option<Value>>

  /** `get_conformance_from_server`: the statement is fetched from the metadata location and parsed. */
  function FromServer(serverUri: Option<string>, fetch: Fetch): (r: Result<Info, Error>)
    ensures serverUri.None? ==> r == Failure(NoMethodError)
    ensures serverUri.Some? && fetch(serverUri.value + "/metadata").None? ==> r == Failure(TransportError)
    ensures serverUri.Some? && fetch(serverUri.value + "/metadata") == Some(None) ==> r == Failure(ParseError)
    ensures serverUri.Some? && fetch(serverUri.value + "/metadata").Some? && fetch(serverUri.value + "/metadata").value.Some?
      ==> r == Parse(fetch(serverUri.value + "/metadata").value.value)
  {
    var uri :- MetadataUri(serverUri);
    match fetch(uri)
    case None => Failure(TransportError)
    case Some(None) => Failure(ParseError)
    case Some(Some(doc)) => Parse(doc)
  }

  // ---------------------------------------------------------------------------------------
  // Properties

  /** Prepending an entry to the list only matters when every later entry leaves the tag unset. */
  lemma {:induction false} LastTaggedOrCons(entry: Value, rest: seq<Value>, tag: string, default: Value)
    ensures LastTaggedOr([entry] + rest, tag, default)
         == LastTaggedOr(rest, tag, if Tagged(entry, tag) then Get(entry.entries, "valueUri") else default)
    decreases |rest|
  {
    var all := [entry] + rest;
    if |rest| == 0 {
      assert all == [entry];
      assert all[..0] == [];
    } else {
      assert all[|all| - 1] == rest[|rest| - 1];
      assert all[..|all| - 1] == [entry] + rest[..|rest| - 1];
      LastTaggedOrCons(entry, rest[..|rest| - 1], tag, default);
    }
  }

  /**
   * Walking the entries raises exactly when some entry is neither a Hash nor a String;
   * otherwise each endpoint is the `valueUri` of the last entry carrying its tag, and an
   * entry with any other tag (such as `"manage"`) changes nothing.
   */
  lemma {:induction false} ScanIsLastTagged(entries: seq<Value>, found: Found)
    ensures Scan(entries, found).Success? <==> forall i :: 0 <= i < |entries| ==> Indexable(entries[i])
    ensures Scan(entries, found).Success? ==>
      Scan(entries, found).value
        == Found(LastTaggedOr(entries, "authorize", found.authorizeUrl), LastTaggedOr(entries, "token", found.tokenUrl))
    decreases |entries|
  {
    if |entries| > 0 {
      var entry, rest := entries[0], entries[1..];
      assert entries == [entry] + rest;
      LastTaggedOrCons(entry, rest, "authorize", found.authorizeUrl);
      LastTaggedOrCons(entry, rest, "token", found.tokenUrl);
      if Indexable(entry) {
        var tag := Index(entry, "url").value;
        assert tag == Str("authorize") <==> Tagged(entry, "authorize");
        assert tag == Str("token") <==> Tagged(entry, "token");
        var next :=
          if tag == Str("authorize") then found.(authorizeUrl := Get(entry.entries, "valueUri"))
          else if tag == Str("token") then found.(tokenUrl := Get(entry.entries, "valueUri"))
          else found;
        assert Scan(entries, found) == Scan(rest, next);
        ScanIsLastTagged(rest, next);
        forall i | 0 <= i < |rest| ensures rest[i] == entries[i + 1] { }
        if forall i :: 0 <= i < |rest| ==> Indexable(rest[i]) {
          forall i | 0 <= i < |entries| ensures Indexable(entries[i]) {
            if i > 0 { assert entries[i] == rest[i - 1]; }
          }
        }
      } else {
        assert !Indexable(entries[0]);
      }
    }
  }

  /**
   * What a successful parse of a selected security extension means: it is the OAuth-URIs
   * extension, its entries form an Array none of whose elements makes the walk raise, and
   * the endpoints are the last `"authorize"` and `"token"` entries' values, both truthy.
   */
  predicate Declares(extension: Value, info: Info) {
    && extension.Hash?
    && Get(extension.entries, "url") == Str(OAuthUrisExtension)
    && Get(extension.entries, "extension").Arr?
    && var items := Get(extension.entries, "extension").items;
    && (forall i :: 0 <= i < |items| ==> Indexable(items[i]))
    && info.authorizeUrl == LastTaggedOr(items, "authorize", Nil)
    && info.tokenUrl == LastTaggedOr(items, "token", Nil)
    && Truthy(info.authorizeUrl)
    && Truthy(info.tokenUrl)
  }

  lemma ParseExtensionIsDeclares(extension: Value, info: Info)
    ensures ParseExtension(extension) == Success(info) <==> Declares(extension, info)
  {
    if extension.Hash? && Get(extension.entries, "url") == Str(OAuthUrisExtension) {
      var inner := Get(extension.entries, "extension");
      if inner.Arr? {
        ScanIsLastTagged(inner.items, Found(Nil, Nil));
      } else if inner.Hash? && |inner.entries| == 0 {
        assert Scan([], Found(Nil, Nil)) == Success(Found(Nil, Nil));
      }
    }
  }

  /**
   * The authorize endpoint is checked before the token endpoint: a statement lacking both
   * fails with "No authorization uri", one lacking only the token with "No token uri".
   */
  lemma MissingEndpointErrors(extension: Value)
    requires extension.Hash? && Get(extension.entries, "url") == Str(OAuthUrisExtension)
    requires Get(extension.entries, "extension").Arr?
    requires var items := Get(extension.entries, "extension").items;
      forall i :: 0 <= i < |items| ==> Indexable(items[i])
    ensures var items := Get(extension.entries, "extension").items;
      !Truthy(LastTaggedOr(items, "authorize", Nil))
      ==> ParseExtension(extension) == Failure(ConformanceError("No authorization uri"))
    ensures var items := Get(extension.entries, "extension").items;
      Truthy(LastTaggedOr(items, "authorize", Nil)) && !Truthy(LastTaggedOr(items, "token", Nil))
      ==> ParseExtension(extension) == Failure(ConformanceError("No token uri"))
  {
    ScanIsLastTagged(Get(extension.entries, "extension").items, Found(Nil, Nil));
  }

  /** The nested shape: `{"Conformance": {"rest": {"security": {"extension": E}}}, ...}`. */
  function NestedShape(extension: Value, others: map<string, Value>): Value {
    Hash(others["Conformance" := Hash(map["rest" := Hash(map["security" := Hash(map["extension" := extension])])])])
  }

  /** The array shape: `{"rest": [{"security": {"extension": [E]}}], ...}` with no `"Conformance"` key. */
  function ArrayShape(extension: Value, others: map<string, Value>): Value {
    Hash(others["rest" := Arr([Hash(map["security" := Hash(map["extension" := Arr([extension])])])])])
  }

  /**
   * Without a `"Conformance"` key, the extension read is the first item of
   * `rest[0].security.extension`, whatever else the document, `rest[0]` and `security` hold.
   */
  lemma ArrayShapeSelects(doc: map<string, Value>, rests: seq<Value>, rest: map<string, Value>,
                          security: map<string, Value>, extensions: seq<Value>)
    requires "Conformance" !in doc
    requires Get(doc, "rest") == Arr(rests) && |rests| > 0 && rests[0] == Hash(rest)
    requires Get(rest, "security") == Hash(security)
    requires Get(security, "extension") == Arr(extensions) && |extensions| > 0
    ensures SecurityExtension(doc) == Success(extensions[0])
    ensures Parse(Hash(doc)) == ParseExtension(extensions[0])
  {
    assert Index(Hash(doc), "rest") == Success(Arr(rests));
    assert At0(Arr(rests)) == Success(Hash(rest));
    assert Index(Hash(rest), "security") == Success(Hash(security));
    assert Index(Hash(security), "extension") == Success(Arr(extensions));
  }

  /**
   * With a `"Conformance"` key, the extension read is `Conformance.rest.security.extension`
   * itself, whatever else the document and the intermediate hashes hold.
   */
  lemma NestedShapeSelects(doc: map<string, Value>, conformance: map<string, Value>, rest: map<string, Value>,
                           security: map<string, Value>)
    requires "Conformance" in doc && doc["Conformance"] == Hash(conformance)
    requires Get(conformance, "rest") == Hash(rest)
    requires Get(rest, "security") == Hash(security)
    ensures SecurityExtension(doc) == Success(Get(security, "extension"))
    ensures Parse(Hash(doc)) == ParseExtension(Get(security, "extension"))
  {
    assert Index(Hash(conformance), "rest") == Success(Hash(rest));
    assert Index(Hash(rest), "security") == Success(Hash(security));
  }

  /** The OAuth-URIs extension of a statement, with `token`, `authorize` and `manage` entries. */
  function OAuthUris(authorize: string, token: string, manage: string): Value {
    Hash(map["url" := Str(OAuthUrisExtension),
             "extension" := Arr([Hash(map["url" := Str("token"), "valueUri" := Str(token)]),
                                 Hash(map["url" := Str("authorize"), "valueUri" := Str(authorize)]),
                                 Hash(map["url" := Str("manage"), "valueUri" := Str(manage)])])])
  }

  /**
   * A statement of the array shape whose `security` also lists a `service` entry next to
   * the extension, as servers publish it.
   */
  function ServerStatement(service: Value, extension: Value): map<string, Value> {
    map["resourceType" := Str("Conformance"),
        "rest" := Arr([Hash(map["security" := Hash(map["service" := service, "extension" := Arr([extension])])])])]
  }

  /** The last-tagged reference over three entries, read from the back. */
  lemma LastTaggedOfThree(a: Value, b: Value, c: Value, tag: string)
    ensures LastTaggedOr([a, b, c], tag, Nil)
         == if Tagged(c, tag) then Get(c.entries, "valueUri")
            else if Tagged(b, tag) then Get(b.entries, "valueUri")
            else if Tagged(a, tag) then Get(a.entries, "valueUri")
            else Nil
  {
    assert [a, b, c][..2] == [a, b];
    assert [a, b][..1] == [a];
    assert [a][..0] == [];
    assert LastTaggedOr([a], tag, Nil) == if Tagged(a, tag) then Get(a.entries, "valueUri") else Nil;
    assert LastTaggedOr([a, b], tag, Nil)
        == if Tagged(b, tag) then Get(b.entries, "valueUri") else LastTaggedOr([a], tag, Nil);
  }

  /** The OAuth-URIs extension declares its authorize and token entries. */
  lemma OAuthUrisDeclares(authorize: string, token: string, manage: string)
    requires authorize != "" && token != ""
    ensures Declares(OAuthUris(authorize, token, manage), Info(Str(authorize), Str(token)))
  {
    var e0 := Hash(map["url" := Str("token"), "valueUri" := Str(token)]);
    var e1 := Hash(map["url" := Str("authorize"), "valueUri" := Str(authorize)]);
    var e2 := Hash(map["url" := Str("manage"), "valueUri" := Str(manage)]);
    assert Get(OAuthUris(authorize, token, manage).entries, "extension").items == [e0, e1, e2];
    LastTaggedOfThree(e0, e1, e2, "authorize");
    LastTaggedOfThree(e0, e1, e2, "token");
  }

  /**
   * Such a statement yields the authorize and token endpoints of its extension, listed
   * token first and followed by a `manage` entry that is ignored.
   */
  lemma ServerStatementParses(service: Value, authorize: string, token: string, manage: string)
    requires authorize != "" && token != ""
    ensures Parse(Hash(ServerStatement(service, OAuthUris(authorize, token, manage))))
         == Success(Info(Str(authorize), Str(token)))
  {
    var extension := OAuthUris(authorize, token, manage);
    var doc := ServerStatement(service, extension);
    var security := map["service" := service, "extension" := Arr([extension])];
    var rest := map["security" := Hash(security)];
    ArrayShapeSelects(doc, [Hash(rest)], rest, security, [extension]);
    OAuthUrisDeclares(authorize, token, manage);
    ParseExtensionIsDeclares(extension, Info(Str(authorize), Str(token)));
  }

  /** Both document shapes carrying the same extension parse to the same result. */
  lemma ShapesAgree(extension: Value, others: map<string, Value>)
    requires "Conformance" !in others
    ensures Parse(NestedShape(extension, others)) == ParseExtension(extension)
    ensures Parse(ArrayShape(extension, others)) == ParseExtension(extension)
  {
    var security := map["extension" := extension];
    var rest := map["security" := Hash(security)];
    NestedShapeSelects(NestedShape(extension, others).entries, map["rest" := Hash(rest)], rest, security);
    var arraySecurity := map["extension" := Arr([extension])];
    var arrayRest := map["security" := Hash(arraySecurity)];
    ArrayShapeSelects(ArrayShape(extension, others).entries, [Hash(arrayRest)], arrayRest, arraySecurity, [extension]);
  }

  /**
   * The shape is chosen by the presence of the `"Conformance"` key alone: once it is
   * present, the `"rest"` entry is never read, and a `nil` under that key raises even when
   * `"rest"` holds a valid statement.
   */
  lemma ConformanceKeyDecidesShape(doc: map<string, Value>, rest: Value)
    requires "Conformance" in doc
    ensures Parse(Hash(doc["rest" := rest])) == Parse(Hash(doc))
    ensures doc["Conformance"] == Nil ==> Parse(Hash(doc)) == Failure(NoMethodError)
  {
    assert doc["rest" := rest]["Conformance"] == doc["Conformance"];
  }
}

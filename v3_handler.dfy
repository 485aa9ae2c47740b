// The v3 handler (v3/sockjs/handler.go): the session-ID parser
// `^/([^/.]+)/([^/.]+)`, the session registry, the mapping table built from
// the allowed transports, and ServeHTTP under the handler's prefix.

module V3Handler {
  import opened Text
  import opened V3Session
  import Dispatch

  // ---------------------------------------------------------------- session IDs

  datatype ParseError = ErrSessionParse

  /** What the error prints as. */
  const ErrSessionParseText := "sockjs: unable to parse URL for session"

  /** parseSessionID: the second path segment, when the path starts `/<server>/<session>`. */
  function ParseSessionID(path: string): (r: Parsed)
  {
    if |path| == 0 || path[0] != '/' then Err(ErrSessionParse)
    else
      var a := SegmentRun(path, 1);
      if a == 0 || 1 + a >= |path| || path[1 + a] != '/' then Err(ErrSessionParse)
      else
        var b := SegmentRun(path, 2 + a);
        if b == 0 then Err(ErrSessionParse) else ID(path[2 + a..2 + a + b])
  }

  datatype Parsed = ID(id: string) | Err(error: ParseError)

  /** The paths the pattern accepts: `/` server `/` session, then anything not continuing the session segment. */
  function Shape(server: string, id: string, rest: string): string
  {
    "/" + server + "/" + id + rest
  }

  predicate Ends(rest: string)
  {
    |rest| == 0 || !SegmentChar(rest[0])
  }

  /** Every path of that shape parses to its session segment. */
  lemma ParseShape(server: string, id: string, rest: string)
    requires Segment(server) && Segment(id) && Ends(rest)
    ensures ParseSessionID(Shape(server, id, rest)) == ID(id)
  {
    var p := Shape(server, id, rest);
    var a := |server|;
    assert p[1..1 + a] == server;
    assert p[1 + a] == '/';
    RunOfSegment(p, 1, server);
    assert p[2 + a..2 + a + |id|] == id;
    RunOfSegment(p, 2 + a, id);
  }

  /** Every path that parses has that shape, with the parsed ID as its session segment. */
  lemma ParseSound(path: string)
    requires ParseSessionID(path).ID?
    ensures var a := SegmentRun(path, 1); var id := ParseSessionID(path).id;
      Segment(path[1..1 + a]) && Segment(id) && Ends(path[2 + a + |id|..])
      && path == Shape(path[1..1 + a], id, path[2 + a + |id|..])
  {
  }

  lemma ExampleParse()
    ensures ParseSessionID("/server/session/whatever") == ID("session")
  {
    var server, id, rest := "server", "session", "/whatever";
    ExampleParts();
    ExampleShape();
    ParseShape(server, id, rest);
  }

  lemma ExampleParts()
    ensures Segment("server") && Segment("session") && Ends("/whatever")
  {
  }

  lemma ExampleShape()
    ensures Shape("server", "session", "/whatever") == "/server/session/whatever"
  {
  }

  // ---------------------------------------------------------------- mappings

  datatype ReceiverType =
    | ReceiverTypeNone | ReceiverTypeXHR | ReceiverTypeXHRStreaming | ReceiverTypeEventSource
    | ReceiverTypeHtmlFile | ReceiverTypeJSONP | ReceiverTypeWebsocket | ReceiverTypeRawWebsocket

  /**
   * The first loop of fillMappingsWithAllowedMethods: the distinct indexable
   * types, or `none` at the first ReceiverTypeNone.
   */
  method IndexAllowed(allowed: seq<ReceiverType>) returns (idx: set<ReceiverType>, none: bool)
    ensures none <==> ReceiverTypeNone in allowed
    ensures !none ==> idx == Kept(allowed)
  {
    idx := {};
    var i := 0;
    while i < |allowed|
      invariant 0 <= i <= |allowed|
      invariant forall j :: 0 <= j < i ==> allowed[j] != ReceiverTypeNone
      invariant idx == Kept(allowed[..i])
    {
      var rtype := allowed[i];
      if rtype == ReceiverTypeNone {
        return idx, true;
      }
      assert allowed[..i + 1][..i] == allowed[..i];
      if rtype != ReceiverTypeRawWebsocket && rtype != ReceiverTypeWebsocket {
        idx := idx + {rtype};
      }
      i := i + 1;
    }
    assert allowed[..i] == allowed;
    none := false;
  }

  /** The handler at the end of a mapping's chain. */
  datatype Endpoint =
    | Welcome | InfoOptions | Info | Iframe
    | XhrPoll | XhrOptions | XhrStreaming | EventSource | HtmlFile | Jsonp | JsonpSend | XhrSend
    | SockjsWebsocket | RawWebsocket

  datatype Mapping = Mapping(verb: string, pattern: string, endpoint: Endpoint)

  const SessionPrefix := "^/([^/.]+)/([^/.]+)"

  function Defaults(): (m: seq<Mapping>)
    ensures |m| == 4
  {
    [ Mapping("GET", "^[/]?$", Welcome),
      Mapping("OPTIONS", "^/info$", InfoOptions),
      Mapping("GET", "^/info$", Info),
      Mapping("GET", "^/iframe[0-9-.a-z_]*.html$", Iframe) ]
  }

  function XhrSendMappings(): seq<Mapping>
  {
    [ Mapping("POST", SessionPrefix + "/xhr_send$", XhrSend),
      Mapping("OPTIONS", SessionPrefix + "/xhr_send$", XhrOptions) ]
  }

  /** methodsByReceiverType */
  function MappingsOf(t: ReceiverType): (m: seq<Mapping>)
    ensures forall i :: 0 <= i < |m| ==> m[i].endpoint != XhrSend
  {
    match t
    case ReceiverTypeXHR =>
      [ Mapping("POST", SessionPrefix + "/xhr$", XhrPoll),
        Mapping("OPTIONS", SessionPrefix + "/xhr$", XhrOptions) ]
    case ReceiverTypeXHRStreaming =>
      [ Mapping("POST", SessionPrefix + "/xhr_streaming$", XhrStreaming),
        Mapping("OPTIONS", SessionPrefix + "/xhr_streaming$", XhrOptions) ]
    case ReceiverTypeEventSource => [ Mapping("GET", SessionPrefix + "/eventsource$", EventSource) ]
    case ReceiverTypeHtmlFile => [ Mapping("GET", SessionPrefix + "/htmlfile$", HtmlFile) ]
    case ReceiverTypeJSONP =>
      [ Mapping("GET", SessionPrefix + "/jsonp$", Jsonp),
        Mapping("OPTIONS", SessionPrefix + "/jsonp$", XhrOptions),
        Mapping("POST", SessionPrefix + "/jsonp_send$", JsonpSend) ]
    case _ => []
  }

  function AllTransports(): set<ReceiverType>
  {
    {ReceiverTypeXHR, ReceiverTypeXHRStreaming, ReceiverTypeEventSource, ReceiverTypeHtmlFile, ReceiverTypeJSONP}
  }

  /** The websocket transports have flags of their own and are not indexed. */
  predicate Indexable(t: ReceiverType)
  {
    t != ReceiverTypeWebsocket && t != ReceiverTypeRawWebsocket
  }

  /** The distinct indexable types of a list. */
  function Kept(allowed: seq<ReceiverType>): (r: set<ReceiverType>)
    ensures forall t :: t in r ==> Indexable(t)
  {
    if |allowed| == 0 then {}
    else
      var last := allowed[|allowed| - 1];
      Kept(allowed[..|allowed| - 1]) + (if Indexable(last) then {last} else {})
  }

  lemma {:induction false} KeptMembers(allowed: seq<ReceiverType>, t: ReceiverType)
    ensures t in Kept(allowed) <==> t in allowed && Indexable(t)
  {
    if |allowed| > 0 {
      KeptMembers(allowed[..|allowed| - 1], t);
      assert allowed == allowed[..|allowed| - 1] + [allowed[|allowed| - 1]];
    }
  }

  /** indexedAllowedMethods, when the list holds no ReceiverTypeNone: all five for an empty list. */
  function Indexed(allowed: seq<ReceiverType>): set<ReceiverType>
  {
    if |allowed| == 0 then AllTransports() else Kept(allowed)
  }

  predicate NeedsXhrSend(idx: set<ReceiverType>)
  {
    ReceiverTypeXHR in idx || ReceiverTypeXHRStreaming in idx
  }

  /** The transport mappings appended in the order the index happened to be walked. */
  function Groups(order: seq<ReceiverType>): (m: seq<Mapping>)
    ensures forall i :: 0 <= i < |m| ==> m[i].endpoint != XhrSend
  {
    if |order| == 0 then [] else Groups(order[..|order| - 1]) + MappingsOf(order[|order| - 1])
  }

  lemma GroupsSnoc(base: seq<Mapping>, order: seq<ReceiverType>, t: ReceiverType)
    ensures base + Groups(order) + MappingsOf(t) == base + Groups(order + [t])
  {
    assert (order + [t])[..|order|] == order;
  }

  predicate NoDuplicates<T(==)>(s: seq<T>)
  {
    forall i, j :: 0 <= i < j < |s| ==> s[i] != s[j]
  }

  function CountEndpoint(m: seq<Mapping>, e: Endpoint): nat
  {
    if |m| == 0 then 0 else CountEndpoint(m[..|m| - 1], e) + (if m[|m| - 1].endpoint == e then 1 else 0)
  }

  lemma {:induction false} CountConcat(a: seq<Mapping>, b: seq<Mapping>, e: Endpoint)
    ensures CountEndpoint(a + b, e) == CountEndpoint(a, e) + CountEndpoint(b, e)
    decreases |b|
  {
    if |b| == 0 {
      assert a + b == a;
    } else {
      assert (a + b)[..|a + b| - 1] == a + b[..|b| - 1];
      CountConcat(a, b[..|b| - 1], e);
    }
  }

  lemma {:induction false} CountAbsent(m: seq<Mapping>, e: Endpoint)
    requires forall i :: 0 <= i < |m| ==> m[i].endpoint != e
    ensures CountEndpoint(m, e) == 0
  {
    if |m| > 0 {
      CountAbsent(m[..|m| - 1], e);
    }
  }

  /** The table holds the xhr_send POST mapping exactly once when an xhr transport is allowed, else not at all. */
  lemma XhrSendOnce(order: seq<ReceiverType>, idx: set<ReceiverType>)
    ensures var m := Defaults() + (if NeedsXhrSend(idx) then XhrSendMappings() else []) + Groups(order);
      CountEndpoint(m, XhrSend) == if NeedsXhrSend(idx) then 1 else 0
  {
    var x := if NeedsXhrSend(idx) then XhrSendMappings() else [];
    CountConcat(Defaults() + x, Groups(order), XhrSend);
    CountConcat(Defaults(), x, XhrSend);
    CountAbsent(Groups(order), XhrSend);
    CountAbsent(Defaults(), XhrSend);
    if NeedsXhrSend(idx) {
      assert CountEndpoint(XhrSendMappings(), XhrSend) == 1 by {
        assert XhrSendMappings()[..1] == [XhrSendMappings()[0]];
        assert XhrSendMappings()[..1][..0] == [];
      }
    }
  }

  /** A transport's own mappings are in the table exactly when it is allowed. */
  lemma {:induction false} GroupsHold(order: seq<ReceiverType>, t: ReceiverType, x: Mapping)
    requires x in MappingsOf(t)
    ensures t in order ==> x in Groups(order)
    ensures x in Groups(order) ==> t in order
  {
    if |order| > 0 {
      var init := order[..|order| - 1];
      GroupsHold(init, t, x);
      assert order == init + [order[|order| - 1]];
      if x in Groups(order) && x !in Groups(init) {
        assert x in MappingsOf(order[|order| - 1]);
        MappingsDisjoint(t, order[|order| - 1], x);
      }
    }
  }

  lemma MappingsDisjoint(t: ReceiverType, u: ReceiverType, x: Mapping)
    requires x in MappingsOf(t) && x in MappingsOf(u)
    ensures t == u
  {
  }

  // ---------------------------------------------------------------- the handler

  class Handler {
    const prefix: string
    const allowedMethods: seq<ReceiverType>
    const websocket: bool
    const rawWebsocket: bool
    const heartbeatDelay: int
    const responseLimit: u32
    var mappings: seq<Mapping>
    var sessions: map<string, Session>

    /** The registry is keyed by session ID. */
    ghost predicate Valid()
      reads this
    {
      forall id :: id in sessions ==> sessions[id].id == id
    }

    /** Every registered session keeps its own invariant and uses SockJS framing. */
    ghost predicate SessionsValid()
      reads this, sessions.Values
    {
      forall id :: id in sessions ==> sessions[id].Valid() && !sessions[id].raw
    }

    /** NewHandler. */
    constructor (prefix: string, allowedMethods: seq<ReceiverType>, websocket: bool, rawWebsocket: bool,
                 heartbeatDelay: int, responseLimit: u32)
      ensures Valid() && SessionsValid() && sessions == map[] && this.responseLimit == responseLimit
      ensures this.prefix == prefix && this.allowedMethods == allowedMethods && this.heartbeatDelay == heartbeatDelay
      ensures this.websocket == websocket && this.rawWebsocket == rawWebsocket
      ensures exists order: seq<ReceiverType> ::
        && mappings == Table(allowedMethods, order)
          + (if websocket then [Mapping("GET", SessionPrefix + "/websocket$", SockjsWebsocket)] else [])
          + (if rawWebsocket then [Mapping("GET", "^/websocket$", RawWebsocket)] else [])
        && (ReceiverTypeNone in allowedMethods ==> order == [])
        && (ReceiverTypeNone !in allowedMethods ==>
              NoDuplicates(order) && forall t :: t in order <==> t in Indexed(allowedMethods))
    {
      this.prefix := prefix;
      this.allowedMethods := allowedMethods;
      this.websocket := websocket;
      this.rawWebsocket := rawWebsocket;
      this.heartbeatDelay := heartbeatDelay;
      this.responseLimit := responseLimit;
      sessions := map[];
      new;
      var order := FillMappingsWithAllowedMethods();
      if websocket {
        mappings := mappings + [Mapping("GET", SessionPrefix + "/websocket$", SockjsWebsocket)];
      }
      if rawWebsocket {
        mappings := mappings + [Mapping("GET", "^/websocket$", RawWebsocket)];
      }
    }

    /**
     * fillMappingsWithAllowedMethods.  The transports are appended in the
     * order Go's map iteration yields them, which is returned as `order`.
     */
    method FillMappingsWithAllowedMethods() returns (order: seq<ReceiverType>)
      modifies this`mappings
      ensures mappings == Table(allowedMethods, order)
      ensures ReceiverTypeNone in allowedMethods ==> order == []
      ensures ReceiverTypeNone !in allowedMethods ==>
        NoDuplicates(order) && forall t :: t in order <==> t in Indexed(allowedMethods)
    {
      mappings := Defaults();
      order := [];
      var idx: set<ReceiverType>;
      if |allowedMethods| > 0 {
        var none;
        idx, none := IndexAllowed(allowedMethods);
        if none {
          return;
        }
      } else {
        idx := AllTransports();
      }
      assert idx == Indexed(allowedMethods) && ReceiverTypeNone !in allowedMethods;
      ghost var head := Defaults() + (if NeedsXhrSend(idx) then XhrSendMappings() else []);
      if NeedsXhrSend(idx) {
        mappings := mappings + XhrSendMappings();
      }
      assert mappings == head;
      order := AppendGroups(idx);
      assert mappings == head + Groups(order);
    }

    /** The last loop of fillMappingsWithAllowedMethods: each indexed transport's mappings, once. */
    method AppendGroups(idx: set<ReceiverType>) returns (order: seq<ReceiverType>)
      modifies this`mappings
      ensures mappings == old(mappings) + Groups(order)
      ensures NoDuplicates(order) && forall t :: t in order <==> t in idx
    {
      order := [];
      ghost var base := mappings;
      assert base + Groups([]) == base;
      var left := idx;
      while left != {}
        invariant left <= idx
        invariant forall t :: t in order <==> t in idx && t !in left
        invariant NoDuplicates(order)
        invariant mappings == base + Groups(order)
        decreases |left|
      {
        var rtype :| rtype in left;
        mappings := mappings + MappingsOf(rtype);
        GroupsSnoc(base, order, rtype);
        order := order + [rtype];
        left := left - {rtype};
      }
    }

    /** sessionByRequest: the session named by the path, made and registered on first use. */
    method SessionByRequest(path: string) returns (r: Lookup)
      requires Valid() && SessionsValid()
      modifies this`sessions
      ensures Valid() && SessionsValid()
      ensures ParseSessionID(path).Err? ==> r == ParseFailed && sessions == old(sessions)
      ensures ParseSessionID(path).ID? && ParseSessionID(path).id in old(sessions) ==>
        r == Found(old(sessions)[ParseSessionID(path).id]) && sessions == old(sessions)
      ensures ParseSessionID(path).ID? && ParseSessionID(path).id !in old(sessions) ==>
        r.Found? && fresh(r.session) && r.session.Valid() && r.session.state == SessionOpening
        && r.session.id == ParseSessionID(path).id && r.session.recv == null && r.session.sendBuffer == []
        && r.session.heartbeatInterval == heartbeatDelay && !r.session.raw
        && sessions == old(sessions)[ParseSessionID(path).id := r.session]
    {
      var parsed := ParseSessionID(path);
      if parsed.Err? {
        return ParseFailed;
      }
      var id := parsed.id;
      if id in sessions {
        return Found(sessions[id]);
      }
      var sess := new Session(id, heartbeatDelay, false);
      sessions := sessions[id := sess];
      r := Found(sess);
    }

    /** The goroutine started by sessionByRequest: once the session's closeCh is closed, it leaves the registry. */
    method SessionEnded(id: string)
      requires Valid() && SessionsValid() && id in sessions && sessions[id].closeChClosed
      modifies this`sessions
      ensures Valid() && SessionsValid() && sessions == old(sessions) - {id}
    {
      sessions := sessions - {id};
    }

    /**
     * ServeHTTP: http.StripPrefix, then the routing loop over the table.
     * `verdicts` gives, for the path left after the prefix, each mapping's
     * verdict in table order.
     */
    method ServeHTTP(path: string, verdicts: string -> seq<Dispatch.Match>) returns (out: Dispatch.Routing)
      requires forall p :: Dispatch.Agrees(verdicts(p), Verbs(mappings))
      ensures prefix != "" && !StartsWith(path, prefix) ==> out == Dispatch.NotFound
      ensures prefix == "" || StartsWith(path, prefix) ==>
        var results := verdicts(if prefix == "" then path else path[|prefix|..]);
        && (out.RunChain? ==>
              out.index < |results| == |mappings| && results[out.index].FullMatch?
              && forall j :: 0 <= j < out.index ==> !results[j].FullMatch?)
        && (!out.RunChain? ==> forall j :: 0 <= j < |results| ==> !results[j].FullMatch?)
        && (out.MethodNotAllowed? ==>
              out.allow == Join(Dispatch.PathMethods(results), ", ")
              && forall v :: v in Dispatch.PathMethods(results) ==> v in Verbs(mappings))
        && (out.NotFound? ==> forall j :: 0 <= j < |results| ==> results[j].NoMatch?)
    {
      if prefix != "" && !StartsWith(path, prefix) {
        return Dispatch.NotFound;
      }
      var rest := if prefix == "" then path else path[|prefix|..];
      out := Dispatch.Serve(verdicts(rest));
      Dispatch.PathMethodsFromTable(verdicts(rest), Verbs(mappings));
    }
  }

  /** The methods of a table's mappings, in table order. */
  function Verbs(m: seq<Mapping>): (r: seq<string>)
    ensures |r| == |m| && forall j :: 0 <= j < |m| ==> r[j] == m[j].verb
  {
    seq(|m|, j requires 0 <= j < |m| => m[j].verb)
  }

  datatype Lookup = ParseFailed | Found(session: Session)

  /** The mapping table for an allowed-transport list, given the order the index was walked in. */
  function Table(allowed: seq<ReceiverType>, order: seq<ReceiverType>): seq<Mapping>
  {
    if ReceiverTypeNone in allowed then Defaults()
    else Defaults() + (if NeedsXhrSend(Indexed(allowed)) then XhrSendMappings() else []) + Groups(order)
  }
}

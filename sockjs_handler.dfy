// The handler of sockjs/handler.go and its session registry
// (sessionByRequest in sockjs/transport_xhr.go).  The session-ID parser here
// is the unanchored pattern `<prefix>/([^/.]+)/([^/.]+)/.*`: the leftmost
// place in the path where the prefix is followed by two segments and a `/`.
// The prefix is taken as literal text.

module SockjsHandler {
  import opened Text
  import Json
  import opened SockjsSession
  import Dispatch

  // ---------------------------------------------------------------- session IDs

  datatype Parsed = ID(id: string) | Err

  /** What the error prints as. */
  const ErrSessionParseText := "unable to parse URL for session"

  /**
   * The pattern tried at position p: the prefix, `/`, a server segment, `/`,
   * a session segment, `/`.  The segments are maximal runs, since neither
   * may hold the `/` that must follow it.
   */
  function MatchAt(path: string, prefix: string, p: nat): Json.Option<string>
    requires p <= |path|
  {
    var q := p + |prefix|;
    if !StartsWith(path[p..], prefix) || q >= |path| || path[q] != '/' then Json.None
    else
      var m := q + 1 + SegmentRun(path, q + 1);
      if m == q + 1 || m >= |path| || path[m] != '/' then Json.None
      else
        var e := m + 1 + SegmentRun(path, m + 1);
        if e == m + 1 || e >= |path| || path[e] != '/' then Json.None
        else Json.Some(path[m + 1..e])
  }

  /** The leftmost match at or after p. */
  function FirstMatch(path: string, prefix: string, p: nat): Json.Option<string>
    requires p <= |path|
    decreases |path| - p
  {
    match MatchAt(path, prefix, p)
    case Some(id) => Json.Some(id)
    case None => if p == |path| then Json.None else FirstMatch(path, prefix, p + 1)
  }

  /** parseSessionID: the session segment of the leftmost match. */
  function ParseSessionID(prefix: string, path: string): Parsed
  {
    match FirstMatch(path, prefix, 0)
    case Some(id) => ID(id)
    case None => Err
  }

  /** The three `/` a match needs, at distinct places after the prefix, with the segments between them. */
  lemma MatchAtSlashes(path: string, prefix: string, p: nat) returns (q: nat, m: nat, e: nat)
    requires p <= |path| && MatchAt(path, prefix, p).Some?
    ensures p <= q < m < e < |path| && path[q] == '/' && path[m] == '/' && path[e] == '/'
    ensures q == p + |prefix| && path[p..q] == prefix
    ensures Segment(path[q + 1..m]) && Segment(path[m + 1..e]) && MatchAt(path, prefix, p) == Json.Some(path[m + 1..e])
  {
    q := p + |prefix|;
    m := q + 1 + SegmentRun(path, q + 1);
    e := m + 1 + SegmentRun(path, m + 1);
    assert path[p..][..|prefix|] == path[p..q];
  }

  /** What a match at p looks like: prefix, server segment, session segment, each followed by `/`. */
  lemma MatchAtShape(path: string, prefix: string, p: nat) returns (server: string, id: string, rest: string)
    requires p <= |path| && MatchAt(path, prefix, p).Some?
    ensures MatchAt(path, prefix, p) == Json.Some(id) && Segment(server) && Segment(id)
    ensures path[p..] == prefix + "/" + server + "/" + id + "/" + rest
  {
    var q, m, e := MatchAtSlashes(path, prefix, p);
    server, id, rest := path[q + 1..m], path[m + 1..e], path[e + 1..];
    SlashSplit(path, prefix, p, q, m, e);
  }

  /** A string cut at three `/`, after a prefix. */
  lemma SlashSplit(path: string, prefix: string, p: nat, q: nat, m: nat, e: nat)
    requires p <= q < m < e < |path| && path[p..q] == prefix
    requires path[q] == '/' && path[m] == '/' && path[e] == '/'
    ensures path[p..] == prefix + "/" + path[q + 1..m] + "/" + path[m + 1..e] + "/" + path[e + 1..]
  {
    calc {
      path[p..];
      path[p..q] + path[q..q + 1] + path[q + 1..m] + path[m..m + 1] + path[m + 1..e] + path[e..e + 1] + path[e + 1..];
      prefix + "/" + path[q + 1..m] + "/" + path[m + 1..e] + "/" + path[e + 1..];
    }
  }

  lemma {:induction false} FirstMatchSound(path: string, prefix: string, p: nat) returns (at: nat)
    requires p <= |path| && FirstMatch(path, prefix, p).Some?
    ensures p <= at <= |path| && MatchAt(path, prefix, at) == FirstMatch(path, prefix, p)
    ensures forall k :: p <= k < at ==> MatchAt(path, prefix, k).None?
    decreases |path| - p
  {
    if MatchAt(path, prefix, p).Some? {
      at := p;
    } else {
      at := FirstMatchSound(path, prefix, p + 1);
    }
  }

  /**
   * A parsed ID is the session segment of the leftmost place where the
   * prefix is followed by a server segment, the session segment and a `/`.
   */
  lemma ParseSound(prefix: string, path: string) returns (at: nat)
    requires ParseSessionID(prefix, path).ID?
    ensures at <= |path| && MatchAt(path, prefix, at) == Json.Some(ParseSessionID(prefix, path).id)
    ensures forall k :: 0 <= k < at ==> MatchAt(path, prefix, k).None?
    ensures exists server: string, rest: string ::
      (Segment(server) && Segment(ParseSessionID(prefix, path).id)
       && path[at..] == prefix + "/" + server + "/" + ParseSessionID(prefix, path).id + "/" + rest)
  {
    at := FirstMatchSound(path, prefix, 0);
    var server, id, rest := MatchAtShape(path, prefix, at);
  }

  /** A path that starts with the prefix, two segments and a `/` parses to its session segment. */
  lemma ParseShape(prefix: string, server: string, id: string, rest: string)
    requires Segment(server) && Segment(id)
    ensures ParseSessionID(prefix, prefix + "/" + server + "/" + id + "/" + rest) == ID(id)
  {
    var path := prefix + "/" + server + "/" + id + "/" + rest;
    ShapePieces(path, prefix, server, id, rest);
    PiecesParse(path, prefix, server, id);
  }

  /** The prefix at the start, then two segments each followed by `/`, parse to the second segment. */
  lemma PiecesParse(path: string, prefix: string, server: string, id: string)
    requires Segment(server) && Segment(id)
    requires var q := |prefix|; var m := q + 1 + |server|; var e := m + 1 + |id|;
      e < |path| && StartsWith(path[0..], prefix)
      && path[q] == '/' && path[q + 1..m] == server
      && path[m] == '/' && path[m + 1..e] == id && path[e] == '/'
    ensures ParseSessionID(prefix, path) == ID(id)
  {
    var q := |prefix|;
    var m := q + 1 + |server|;
    var e := m + 1 + |id|;
    RunOfSegment(path, q + 1, server);
    RunOfSegment(path, m + 1, id);
    MatchAtSlashesBack(path, prefix, 0, m, e);
  }

  /** Each piece of `prefix/server/id/rest` at its place. */
  lemma ShapePieces(path: string, prefix: string, server: string, id: string, rest: string)
    requires path == prefix + "/" + server + "/" + id + "/" + rest
    ensures var q := |prefix|; var m := q + 1 + |server|; var e := m + 1 + |id|;
      e < |path| && StartsWith(path[0..], prefix)
      && path[q] == '/' && path[q + 1..m] == server
      && path[m] == '/' && path[m + 1..e] == id && path[e] == '/'
  {
    var q := |prefix|;
    var m := q + 1 + |server|;
    var t3 := "/" + rest;
    var t2 := "/" + id + t3;
    var t1 := "/" + server + t2;
    assert path == prefix + t1;
    assert path[..q] == prefix && path[q..] == t1;
    SlashAfter(path, q, server, t2);
    SlashAfter(path, m, id, t3);
    assert path[0..] == path;
  }

  /** The converse of MatchAtSlashes: the prefix and three `/` around two maximal segments make a match. */
  lemma MatchAtSlashesBack(path: string, prefix: string, p: nat, m: nat, e: nat)
    requires p <= |path| && StartsWith(path[p..], prefix)
    requires p + |prefix| + 1 < m && m + 1 < e < |path| && path[p + |prefix|] == '/' && path[m] == '/' && path[e] == '/'
    requires SegmentRun(path, p + |prefix| + 1) == m - (p + |prefix| + 1)
    requires SegmentRun(path, m + 1) == e - (m + 1)
    ensures MatchAt(path, prefix, p) == Json.Some(path[m + 1..e])
  {
  }

  /** Where the rest of a string is `/`, a piece and a tail, each sits at its place. */
  lemma SlashAfter(path: string, k: nat, piece: string, tail: string)
    requires k <= |path| && path[k..] == "/" + piece + tail
    ensures k + 1 + |piece| <= |path| && path[k] == '/'
    ensures path[k + 1..k + 1 + |piece|] == piece && path[k + 1 + |piece|..] == tail
  {
    var r := path[k..];
    assert path[k] == r[0];
    assert path[k + 1..k + 1 + |piece|] == r[1..1 + |piece|];
    assert path[k + 1 + |piece|..] == r[1 + |piece|..];
  }

  /** A path in which the prefix never occurs has no session. */
  lemma {:induction false} NoPrefixNoSession(prefix: string, path: string, p: nat)
    requires p <= |path|
    requires forall k :: p <= k <= |path| ==> !StartsWith(path[k..], prefix)
    ensures FirstMatch(path, prefix, p).None?
    ensures p == 0 ==> ParseSessionID(prefix, path).Err?
    decreases |path| - p
  {
    if p < |path| {
      NoPrefixNoSession(prefix, path, p + 1);
    }
  }

  lemma {:induction false} NoMatchFrom(path: string, prefix: string, p: nat)
    requires p <= |path|
    requires forall k :: p <= k <= |path| ==> MatchAt(path, prefix, k).None?
    ensures FirstMatch(path, prefix, p).None?
    decreases |path| - p
  {
    if p < |path| {
      NoMatchFrom(path, prefix, p + 1);
    }
  }

  /**
   * Without a prefix, `/<server>/<session>` with nothing after the session
   * segment is an error: it has only two `/` and a match needs three.
   */
  lemma SessionWithoutTail(server: string, id: string)
    requires Segment(server) && Segment(id)
    ensures ParseSessionID("", "/" + server + "/" + id).Err?
  {
    var path := "/" + server + "/" + id;
    assert forall i :: 0 < i < 1 + |server| ==> path[i] == server[i - 1];
    assert forall i :: 1 + |server| < i < |path| ==> path[i] == id[i - 2 - |server|];
    forall k | 0 <= k <= |path|
      ensures MatchAt(path, "", k).None?
    {
      if MatchAt(path, "", k).Some? {
        var q, m, e := MatchAtSlashes(path, "", k);
      }
    }
    NoMatchFrom(path, "", 0);
  }

  // ---------------------------------------------------------------- the handler

  /** The handler at the end of a mapping's chain. */
  datatype Endpoint = Welcome | InfoOptions | Info | XhrSend | XhrPoll

  datatype Mapping = Mapping(verb: string, pattern: string, endpoint: Endpoint)

  /** The table NewHandler builds: the welcome and info routes, then the two xhr routes under the session prefix. */
  function Table(prefix: string): (m: seq<Mapping>)
    ensures |m| == 5
  {
    var sessionPrefix := prefix + "/[^/.]+/[^/.]+";
    [ Mapping("GET", prefix + "[/]?$", Welcome),
      Mapping("OPTIONS", prefix + "/info?$", InfoOptions),
      Mapping("GET", prefix + "/info?$", Info),
      Mapping("POST", sessionPrefix + "/xhr_send$", XhrSend),
      Mapping("POST", sessionPrefix + "/xhr$", XhrPoll) ]
  }

  datatype Lookup = ParseFailed | Found(session: Session)

  class Handler {
    const prefix: string
    /** Whether a HandlerFunc was given. */
    const hasHandlerFunc: bool
    const responseLimit: u32
    var mappings: seq<Mapping>
    var sessions: map<string, Session>
    /** The sessions handlerFunc was started on, in order. */
    ghost var served: seq<Session>

    ghost predicate SessionsValid()
      reads this, sessions.Values
    {
      forall id :: id in sessions ==> sessions[id].Valid()
    }

    /** NewHandler. */
    constructor (prefix: string, hasHandlerFunc: bool, responseLimit: u32)
      ensures this.prefix == prefix && this.hasHandlerFunc == hasHandlerFunc && this.responseLimit == responseLimit
      ensures mappings == Table(prefix) && sessions == map[] && served == [] && SessionsValid()
    {
      this.prefix := prefix;
      this.hasHandlerFunc := hasHandlerFunc;
      this.responseLimit := responseLimit;
      mappings := Table(prefix);
      sessions := map[];
      served := [];
    }

    /**
     * sessionByRequest: the session the path names, made and registered on
     * first use and then handed to handlerFunc if there is one.
     */
    method SessionByRequest(path: string) returns (r: Lookup)
      requires SessionsValid()
      modifies this`sessions, this`served
      ensures SessionsValid()
      ensures ParseSessionID(prefix, path).Err? ==> r == ParseFailed && sessions == old(sessions) && served == old(served)
      ensures ParseSessionID(prefix, path).ID? && ParseSessionID(prefix, path).id in old(sessions) ==>
        r == Found(old(sessions)[ParseSessionID(prefix, path).id]) && sessions == old(sessions) && served == old(served)
      ensures ParseSessionID(prefix, path).ID? && ParseSessionID(prefix, path).id !in old(sessions) ==>
        r.Found? && fresh(r.session) && r.session.Valid() && r.session.state == SessionOpening
        && r.session.recv == null && r.session.sendBuffer == [] && r.session.timer == DisconnectTimer
        && sessions == old(sessions)[ParseSessionID(prefix, path).id := r.session]
        && served == old(served) + (if hasHandlerFunc then [r.session] else [])
    {
      var parsed := ParseSessionID(prefix, path);
      if parsed.Err? {
        return ParseFailed;
      }
      if parsed.id in sessions {
        return Found(sessions[parsed.id]);
      }
      var sess := new Session();
      sessions := sessions[parsed.id := sess];
      if hasHandlerFunc {
        served := served + [sess];
      }
      r := Found(sess);
    }

    /** The goroutine sessionByRequest starts: once the session's closeCh is closed, its ID leaves the registry. */
    method SessionEnded(id: string)
      requires SessionsValid() && id in sessions && sessions[id].closeChCloses == 1
      modifies this`sessions
      ensures SessionsValid() && sessions == old(sessions) - {id}
    {
      sessions := sessions - {id};
    }

    /** ServeHTTP: the routing loop over the table, given each mapping's verdict on the request in table order. */
    method ServeHTTP(results: seq<Dispatch.Match>) returns (out: Dispatch.Routing)
      requires Dispatch.Agrees(results, Verbs(mappings))
      ensures out.RunChain? ==>
        out.index < |mappings| && results[out.index].FullMatch?
        && forall j :: 0 <= j < out.index ==> !results[j].FullMatch?
      ensures !out.RunChain? ==> forall j :: 0 <= j < |results| ==> !results[j].FullMatch?
      ensures out.MethodNotAllowed? ==>
        out.allow == Join(Dispatch.PathMethods(results), ", ")
        && forall v :: v in Dispatch.PathMethods(results) ==> v in Verbs(mappings)
      ensures out.NotFound? ==> forall j :: 0 <= j < |results| ==> results[j].NoMatch?
    {
      out := Dispatch.Serve(results);
      Dispatch.PathMethodsFromTable(results, Verbs(mappings));
    }
  }

  /** The methods of a table's mappings, in table order. */
  function Verbs(m: seq<Mapping>): (r: seq<string>)
    ensures |r| == |m| && forall j :: 0 <= j < |m| ==> r[j] == m[j].verb
  {
    seq(|m|, j requires 0 <= j < |m| => m[j].verb)
  }

  /** handler_test.go: under "/prefix" the session is "session"; under another first segment there is none. */
  lemma PrefixExamples()
    ensures ParseSessionID("/prefix", "/prefix/server/session/whatever") == ID("session")
    ensures ParseSessionID("/prefix", "/asdasd/server/session/whatever").Err?
  {
    ExampleSegments();
    ExamplePath();
    ParseShape("/prefix", "server", "session", "whatever");
    OtherFirstSegment("/prefix", "/asdasd/server/session/whatever");
  }

  lemma OtherFirstSegment(prefix: string, other: string)
    requires prefix == "/prefix" && other == "/asdasd/server/session/whatever"
    ensures ParseSessionID(prefix, other).Err?
  {
    assert forall k :: 0 <= k < |other| ==> other[k] != prefix[1];
    AbsentCharNoPrefix(other, prefix, 1);
    NoPrefixNoSession(prefix, other, 0);
  }

  /** A prefix holding a character the path lacks occurs nowhere in the path. */
  lemma AbsentCharNoPrefix(path: string, prefix: string, i: nat)
    requires i < |prefix| && forall k :: 0 <= k < |path| ==> path[k] != prefix[i]
    ensures forall k :: 0 <= k <= |path| ==> !StartsWith(path[k..], prefix)
  {
    forall k | 0 <= k <= |path|
      ensures !StartsWith(path[k..], prefix)
    {
      if k + |prefix| <= |path| {
        assert path[k..][..|prefix|][i] == path[k + i];
      }
    }
  }

  lemma ExampleSegments()
    ensures Segment("server") && Segment("session")
  {
  }

  lemma ExamplePath()
    ensures "/prefix" + "/" + "server" + "/" + "session" + "/" + "whatever" == "/prefix/server/session/whatever"
  {
  }
}

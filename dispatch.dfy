// Request routing over a handler's ordered mapping table (ServeHTTP in both
// sockjs/handler.go and v3/sockjs/handler.go): the first mapping that matches
// path and method runs; otherwise the methods of the mappings that matched
// the path alone make a 405 answer; otherwise 404.  How a mapping compares
// itself with a request (mapping.matches) is not part of this model: the
// router is handed each mapping's verdict, in table order.

module Dispatch {
  import opened Text

  datatype Match =
    | NoMatch
    | PathMatch(verb: string)     // the path matches, the method does not; `verb` is the mapping's
    | FullMatch

  datatype Routing =
    | RunChain(index: nat)            // run the chain of this mapping
    | MethodNotAllowed(allow: string) // 405 with this `allow` header
    | NotFound                        // 404

  /** The methods of the mappings that matched the path only, in table order. */
  function PathMethods(results: seq<Match>): (r: seq<string>)
    ensures |r| <= |results|
  {
    if |results| == 0 then []
    else
      var last := results[|results| - 1];
      PathMethods(results[..|results| - 1]) + (if last.PathMatch? then [last.verb] else [])
  }

  lemma {:induction false} NoPathMethods(results: seq<Match>)
    requires |PathMethods(results)| == 0
    ensures forall j :: 0 <= j < |results| ==> !results[j].PathMatch?
  {
    if |results| > 0 {
      NoPathMethods(results[..|results| - 1]);
      assert forall j :: 0 <= j < |results| - 1 ==> results[..|results| - 1][j] == results[j];
    }
  }

  /**
   * The verdicts belong to a table whose mappings have these methods: one
   * verdict per mapping, and a path-only match names its mapping's method.
   */
  predicate Agrees(results: seq<Match>, verbs: seq<string>)
  {
    |results| == |verbs| && forall j :: 0 <= j < |results| && results[j].PathMatch? ==> results[j].verb == verbs[j]
  }

  /** Every method a 405 lists is the method of some mapping of the table. */
  lemma {:induction false} PathMethodsFromTable(results: seq<Match>, verbs: seq<string>)
    requires Agrees(results, verbs)
    ensures forall v :: v in PathMethods(results) ==> v in verbs
  {
    if |results| > 0 {
      var n := |results| - 1;
      assert forall j :: 0 <= j < n ==> results[..n][j] == results[j] && verbs[..n][j] == verbs[j];
      PathMethodsFromTable(results[..n], verbs[..n]);
      assert forall v :: v in verbs[..n] ==> v in verbs;
    }
  }

  method Serve(results: seq<Match>) returns (out: Routing)
    ensures out.RunChain? ==>
      out.index < |results| && results[out.index].FullMatch?
      && forall j :: 0 <= j < out.index ==> !results[j].FullMatch?
    ensures !out.RunChain? ==> forall j :: 0 <= j < |results| ==> !results[j].FullMatch?
    ensures out.MethodNotAllowed? ==>
      |PathMethods(results)| > 0 && out.allow == Join(PathMethods(results), ", ")
    ensures out.NotFound? ==> forall j :: 0 <= j < |results| ==> results[j].NoMatch?
  {
    var allowed: seq<string> := [];
    var i := 0;
    while i < |results|
      invariant 0 <= i <= |results|
      invariant forall j :: 0 <= j < i ==> !results[j].FullMatch?
      invariant allowed == PathMethods(results[..i])
    {
      assert results[..i + 1][..i] == results[..i];
      if results[i].FullMatch? {
        return RunChain(i);
      }
      if results[i].PathMatch? {
        allowed := allowed + [results[i].verb];
      }
      i := i + 1;
    }
    assert results[..i] == results;
    if |allowed| > 0 {
      return MethodNotAllowed(Join(allowed, ", "));
    }
    NoPathMethods(results);
    return NotFound;
  }
}

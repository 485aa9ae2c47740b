// The connection registry of sockjs/sessions.go: a map from session ID to
// connection behind a read-write lock.  The lock makes each call atomic.  The
// factory getOrCreate is given is represented by the connection it would
// make, and by a count of the times it was called.

module SockjsSessions {
  import opened Json

  class Connections<Conn> {
    var connections: map<string, Conn>
    /** How many times getOrCreate called its factory. */
    ghost var factoryCalls: nat

    /** newConnections: an empty registry. */
    constructor ()
      ensures connections == map[] && factoryCalls == 0
    {
      connections := map[];
      factoryCalls := 0;
    }

    /** get: the entry for sessid, present exactly when the key is; a read, so nothing changes. */
    function Get(sessid: string): (r: Option<Conn>)
      reads this
      ensures r.Some? <==> sessid in connections
      ensures r.Some? ==> r.value == connections[sessid]
    {
      if sessid in connections then Some(connections[sessid]) else None
    }

    /**
     * getOrCreate: an existing entry is returned as it is; otherwise the
     * factory is called once and what it made is stored and returned.
     */
    method GetOrCreate(sessid: string, made: Conn) returns (conn: Conn, found: bool)
      modifies this
      ensures sessid in connections && conn == connections[sessid]
      ensures found <==> sessid in old(connections)
      ensures found ==> conn == old(connections[sessid]) && connections == old(connections) && factoryCalls == old(factoryCalls)
      ensures !found ==> conn == made && connections == old(connections)[sessid := made] && factoryCalls == old(factoryCalls) + 1
    {
      found := sessid in connections;
      if found {
        conn := connections[sessid];
      } else {
        factoryCalls := factoryCalls + 1;
        connections := connections[sessid := made];
        conn := connections[sessid];
      }
    }

    /** delete: only sessid goes; an absent key changes nothing. */
    method Delete(sessid: string)
      modifies this`connections
      ensures connections == old(connections) - {sessid}
      ensures sessid !in old(connections) ==> connections == old(connections)
    {
      connections := connections - {sessid};
    }
  }
}

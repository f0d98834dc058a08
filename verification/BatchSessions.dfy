/** The session table of a run on the heap, and the cancel that sweeps it. */
module BatchSessions {
  import opened BatchTypes

  class Session {
    var open: bool

    constructor ()
      ensures open
    {
      open := true;
    }

    method Close()
      modifies this
      ensures !open
    {
      open := false;
    }
  }

  class RunSessions {
    var sessions: map<ServerId, Session>
    var cancelled: bool

    constructor ()
      ensures sessions == map[] && !cancelled
    {
      sessions, cancelled := map[], false;
    }

    method Register(server: ServerId, s: Session)
      modifies this`sessions
      ensures sessions == old(sessions)[server := s]
    {
      sessions := sessions[server := s];
    }

    method Deregister(server: ServerId)
      modifies this`sessions
      ensures sessions == old(sessions) - {server}
    {
      sessions := sessions - {server};
    }

    /** Cancel: signal the context first, then close every session that is registered, and no other. */
    method Cancel()
      modifies this`cancelled, sessions.Values
      ensures cancelled && sessions == old(sessions)
      ensures forall server :: server in sessions ==> !sessions[server].open
    {
      cancelled := true;
      var rest := sessions.Keys;
      while rest != {}
        invariant rest <= sessions.Keys && sessions == old(sessions) && cancelled
        invariant forall server :: server in sessions && server !in rest ==> !sessions[server].open
        decreases rest
      {
        var server :| server in rest;
        assert sessions[server] in sessions.Values;
        sessions[server].Close();
        rest := rest - {server};
      }
    }
  }
}

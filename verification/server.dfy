/** A replica server: its name, the version vector of the writes it has
    applied, and its logical clock. Reads and writes check the session
    guarantees a caller asks for against the session's vectors before
    touching anything. */
module Servers {
  import opened VersionVectors
  import opened Sessions

  /** The four session guarantees, one per way a read or write can fail. */
  datatype Violation =
    | MonotonicReads
    | ReadYourWrites
    | WritesFollowReads
    | MonotonicWrites

  datatype Result<T> = Ok(value: T) | Err(violation: Violation)

  datatype Server = Server(name: ServerId, vector: VersionVector, clock: nat)

  /** The outcome of one call, with the server and session as they stand
      after it. */
  datatype Reply<T> = Reply(outcome: Result<T>, server: Server, session: Session)

  /** A server's clock is its own entry in its vector, and since servers
      never exchange state, that is the only entry it can have. */
  predicate Valid(server: Server) {
    && Get(server.vector, server.name) == server.clock
    && server.vector.Keys <= {server.name}
  }

  function NewServer(name: ServerId): (s: Server)
    ensures s.name == name && s.clock == 0
    ensures forall k :: Get(s.vector, k) == 0
    ensures Valid(s)
  {
    Server(name, Empty(), 0)
  }

  /** Serves a read if the server has seen everything the session read
      (Monotonic Reads) and wrote (Read Your Writes), checked in that order. */
  function Read(server: Server, session: Session, mr: bool, ryw: bool): (r: Reply<VersionVector>)
    ensures r.server == server && r.session == session
    ensures r.outcome.Ok? <==>
              && (mr ==> Dominates(server.vector, session.readVector))
              && (ryw ==> Dominates(server.vector, session.writeVector))
    ensures r.outcome == Err(MonotonicReads) <==> mr && !Dominates(server.vector, session.readVector)
    ensures r.outcome.Err? ==> r.outcome.violation in {MonotonicReads, ReadYourWrites}
    ensures r.outcome.Ok? ==> r.outcome.value == server.vector
  {
    var outcome :=
      if mr && !Dominates(server.vector, session.readVector) then Err(MonotonicReads)
      else if ryw && !Dominates(server.vector, session.writeVector) then Err(ReadYourWrites)
      else Ok(server.vector);
    Reply(outcome, server, session)
  }

  /** Accepts a write if the server has seen everything the session read
      (Writes Follow Reads) and wrote (Monotonic Writes), checked in that
      order; the accepted write ticks the clock and is recorded both in the
      server's vector and in the session's write vector. */
  function Write(server: Server, session: Session, wfr: bool, mw: bool): (r: Reply<()>)
    ensures r.outcome.Ok? <==>
              && (wfr ==> Dominates(server.vector, session.readVector))
              && (mw ==> Dominates(server.vector, session.writeVector))
    ensures r.outcome == Err(WritesFollowReads) <==> wfr && !Dominates(server.vector, session.readVector)
    ensures r.outcome.Err? ==> r.outcome.violation in {WritesFollowReads, MonotonicWrites}
    ensures r.outcome.Err? ==> r.server == server && r.session == session
    ensures r.outcome.Ok? ==>
              && r.server.name == server.name
              && r.server.clock == server.clock + 1
              && Get(r.server.vector, server.name) == r.server.clock
              && Get(r.session.writeVector, server.name) == r.server.clock
              && (forall k :: k != server.name ==> Get(r.server.vector, k) == Get(server.vector, k))
              && (forall k :: k != server.name ==> Get(r.session.writeVector, k) == Get(session.writeVector, k))
              && r.session.readVector == session.readVector
    ensures Valid(server) ==> Valid(r.server)
  {
    if wfr && !Dominates(server.vector, session.readVector) then
      Reply(Err(WritesFollowReads), server, session)
    else if mw && !Dominates(server.vector, session.writeVector) then
      Reply(Err(MonotonicWrites), server, session)
    else
      var clock := server.clock + 1;
      var server' := Server(server.name, Set(server.vector, server.name, clock), clock);
      Reply(Ok(()), server', UpdateWriteVector(session, server.name, clock))
  }

  /** When both guarantees of a call are violated, the first one checked is
      the one reported. */
  lemma FirstViolationWins(server: Server, session: Session)
    requires !Dominates(server.vector, session.readVector)
    requires !Dominates(server.vector, session.writeVector)
    ensures Read(server, session, true, true).outcome == Err(MonotonicReads)
    ensures Write(server, session, true, true).outcome == Err(WritesFollowReads)
  {
  }

  /** After a read that honoured Monotonic Reads is recorded, the session's
      read vector agrees with the server's vector on every server. */
  lemma RecordedMonotonicRead(server: Server, session: Session, ryw: bool)
    requires Read(server, session, true, ryw).outcome.Ok?
    ensures forall k ::
              Get(UpdateReadVector(session, Read(server, session, true, ryw).outcome.value).readVector, k)
              == Get(server.vector, k)
  {
  }
}

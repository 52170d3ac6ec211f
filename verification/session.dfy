/** A client session's bookkeeping: the read vector (what the session has
    observed) and the write vector (what the session has caused). */
module Sessions {
  import opened VersionVectors

  datatype Session = Session(readVector: VersionVector, writeVector: VersionVector)

  /** A new session has read nothing and written nothing. */
  function NewSession(): (s: Session)
    ensures forall k :: Get(s.readVector, k) == 0 && Get(s.writeVector, k) == 0
  {
    Session(Empty(), Empty())
  }

  /** Records a vector returned by a read: the read vector absorbs it. */
  function UpdateReadVector(session: Session, serverVector: VersionVector): (r: Session)
    ensures r.writeVector == session.writeVector
    ensures Dominates(r.readVector, serverVector)
    ensures Dominates(r.readVector, session.readVector)
    ensures forall k :: k !in serverVector ==> Get(r.readVector, k) == Get(session.readVector, k)
    ensures forall k :: Get(r.readVector, k) == Get(session.readVector, k)
                        || Get(r.readVector, k) == Get(serverVector, k)
  {
    Session(Merge(session.readVector, serverVector), session.writeVector)
  }

  /** Records a write accepted by `server` at `clock`. */
  function UpdateWriteVector(session: Session, server: ServerId, clock: nat): (r: Session)
    ensures r.readVector == session.readVector
    ensures Get(r.writeVector, server) == clock
    ensures forall k :: k != server ==> Get(r.writeVector, k) == Get(session.writeVector, k)
  {
    Session(session.readVector, Set(session.writeVector, server, clock))
  }
}

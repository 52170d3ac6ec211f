/** Concrete runs with two servers "A" and "B" and one session: the demo
    driver's script and the small cases around it. */
module Scenarios {
  import opened VersionVectors
  import opened Sessions
  import opened Servers

  /** The demo script: write to A under Monotonic Writes, read A back under
      Monotonic Reads and Read Your Writes and record it, then try to write
      to the still-empty B under Writes Follow Reads and Monotonic Writes. */
  lemma DemoScenario()
    ensures
      var w1 := Write(NewServer("A"), NewSession(), false, true);
      && w1.outcome.Ok?
      && w1.server.vector == map["A" := 1]
      && var r := Read(w1.server, w1.session, true, true);
         && r.outcome == Ok(map["A" := 1])
         && var session := UpdateReadVector(r.session, r.outcome.value);
            && session.readVector == map["A" := 1]
            && var w2 := Write(NewServer("B"), session, true, true);
               && w2.outcome == Err(WritesFollowReads)
               && w2.server == NewServer("B")
               && w2.session == session
  {
  }

  /** A write with no guarantees to a fresh server is recorded at clock 1
      on both sides. */
  lemma FirstWriteSelfTracking(name: ServerId)
    ensures
      var w := Write(NewServer(name), NewSession(), false, false);
      && w.outcome.Ok?
      && Get(w.server.vector, name) == 1
      && Get(w.session.writeVector, name) == 1
  {
  }

  /** After writing to A, a read from the empty B that asks for Read Your
      Writes fails, because B has not seen the session's write. */
  lemma ReadYourWritesScenario()
    ensures
      var w := Write(NewServer("A"), NewSession(), false, false);
      Read(NewServer("B"), w.session, false, true).outcome == Err(ReadYourWrites)
  {
  }

  /** Two writes in a row to A under Monotonic Writes both succeed and leave
      A's clock at 2. */
  lemma MonotonicWritesRepeat()
    ensures
      var w1 := Write(NewServer("A"), NewSession(), false, true);
      var w2 := Write(w1.server, w1.session, false, true);
      && w1.outcome.Ok? && w2.outcome.Ok?
      && w2.server.clock == 2
      && w2.session.writeVector == map["A" := 2]
  {
  }
}

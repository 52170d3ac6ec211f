/** One client session driving a fixed set of servers, each server known by
    its unique name. The driver picks, per call, the target server and the
    guarantees to enforce; after a successful read it may record the
    returned vector in the session (reads are not recorded automatically,
    writes are). */
module Histories {
  import opened VersionVectors
  import opened Sessions
  import opened Servers

  datatype Op =
    | ReadOp(target: ServerId, mr: bool, ryw: bool, record: bool)
    | WriteOp(target: ServerId, wfr: bool, mw: bool)

  datatype World = World(servers: map<ServerId, Server>, session: Session)

  /** The clock of the server called `k`, 0 when there is none. */
  function ClockOf(w: World, k: ServerId): (c: nat) {
    if k in w.servers then w.servers[k].clock else 0
  }

  /** Every server is filed under its own name and keeps its clock in its
      own vector entry; the session has never seen a clock ahead of the
      server it came from. */
  ghost predicate Consistent(w: World) {
    && (forall n :: n in w.servers ==> w.servers[n].name == n && Valid(w.servers[n]))
    && (forall k :: Get(w.session.readVector, k) <= ClockOf(w, k))
    && (forall k :: Get(w.session.writeVector, k) <= ClockOf(w, k))
  }

  predicate Targets(w: World, ops: seq<Op>) {
    forall i :: 0 <= i < |ops| ==> ops[i].target in w.servers
  }

  /** Fresh servers with the given names and a fresh session. */
  function Initial(names: set<ServerId>): (w: World)
    ensures w.servers.Keys == names
    ensures forall n :: n in names ==> w.servers[n].clock == 0
    ensures Consistent(w)
  {
    World(map n | n in names :: NewServer(n), NewSession())
  }

  /** One call made by the driver. */
  function Apply(w: World, op: Op): (w': World)
    requires op.target in w.servers
    ensures w'.servers.Keys == w.servers.Keys
    ensures forall n :: n in w.servers && n != op.target ==> w'.servers[n] == w.servers[n]
  {
    var server := w.servers[op.target];
    match op
    case ReadOp(_, mr, ryw, record) =>
      var reply := Read(server, w.session, mr, ryw);
      if reply.outcome.Ok? && record then
        World(w.servers, UpdateReadVector(w.session, reply.outcome.value))
      else
        w
    case WriteOp(_, wfr, mw) =>
      var reply := Write(server, w.session, wfr, mw);
      World(w.servers[op.target := reply.server], reply.session)
  }

  /** A sequence of calls, in order. */
  function Run(w: World, ops: seq<Op>): (w': World)
    requires Targets(w, ops)
    ensures w'.servers.Keys == w.servers.Keys
    decreases |ops|
  {
    if ops == [] then w else Run(Apply(w, ops[0]), ops[1..])
  }

  lemma ApplyPreservesConsistent(w: World, op: Op)
    requires Consistent(w) && op.target in w.servers
    ensures Consistent(Apply(w, op))
  {
    var w' := Apply(w, op);
    var n := op.target;
    var server := w.servers[n];
    match op
    case ReadOp(_, mr, ryw, record) =>
      var reply := Read(server, w.session, mr, ryw);
      if reply.outcome.Ok? && record {
        forall k ensures Get(w'.session.readVector, k) <= ClockOf(w', k) {
          assert Get(server.vector, k) <= ClockOf(w, k) by {
            if k != n {
              assert k !in server.vector;
            }
          }
        }
      }
    case WriteOp(_, wfr, mw) =>
      var reply := Write(server, w.session, wfr, mw);
      if reply.outcome.Ok? {
        assert ClockOf(w', n) == server.clock + 1;
        forall k ensures Get(w'.session.writeVector, k) <= ClockOf(w', k) {
          if k != n {
            assert ClockOf(w', k) == ClockOf(w, k);
          }
        }
        forall k ensures Get(w'.session.readVector, k) <= ClockOf(w', k) {
          assert ClockOf(w, k) <= ClockOf(w', k);
        }
      }
  }

  /** Every world a driver can reach from fresh servers is consistent. */
  lemma {:induction false} RunPreservesConsistent(w: World, ops: seq<Op>)
    requires Consistent(w) && Targets(w, ops)
    ensures Consistent(Run(w, ops))
    decreases |ops|
  {
    if ops != [] {
      ApplyPreservesConsistent(w, ops[0]);
      RunPreservesConsistent(Apply(w, ops[0]), ops[1..]);
    }
  }

  /** `w'` is at least as far along as `w`: no server clock and no session
      clock has gone back. */
  ghost predicate Grown(w: World, w': World) {
    && w.servers.Keys == w'.servers.Keys
    && (forall n :: n in w.servers ==> w.servers[n].clock <= w'.servers[n].clock)
    && (forall k :: Get(w.session.readVector, k) <= Get(w'.session.readVector, k))
    && (forall k :: Get(w.session.writeVector, k) <= Get(w'.session.writeVector, k))
  }

  /** In a consistent world, no call moves a clock backwards: in particular
      both session vectors only grow. */
  lemma ApplyGrows(w: World, op: Op)
    requires Consistent(w) && op.target in w.servers
    ensures Grown(w, Apply(w, op))
  {
  }

  lemma {:induction false} RunGrows(w: World, ops: seq<Op>)
    requires Consistent(w) && Targets(w, ops)
    ensures Grown(w, Run(w, ops))
    decreases |ops|
  {
    if ops != [] {
      var w1 := Apply(w, ops[0]);
      ApplyGrows(w, ops[0]);
      ApplyPreservesConsistent(w, ops[0]);
      RunGrows(w1, ops[1..]);
    }
  }

  /** A session that has only ever dealt with server `n` can always read
      from and write to `n` under all four guarantees. */
  lemma SoleServerNeverViolates(w: World, n: ServerId, mr: bool, ryw: bool, wfr: bool, mw: bool)
    requires Consistent(w) && n in w.servers
    requires forall k :: k != n ==> Get(w.session.readVector, k) == 0
    requires forall k :: k != n ==> Get(w.session.writeVector, k) == 0
    ensures Read(w.servers[n], w.session, mr, ryw).outcome.Ok?
    ensures Write(w.servers[n], w.session, wfr, mw).outcome.Ok?
  {
  }
}

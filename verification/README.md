# Session guarantees over version vectors

A Dafny model of the session-guarantee demo in
`sessionguarantees/SessionGuaranteesDemo.java`. A client session talks to
independent replica servers. Before each call it checks the four guarantees
of Terry et al. (1994): Monotonic Reads, Read Your Writes, Writes Follow
Reads and Monotonic Writes. The checks compare version vectors.

- `version_vector.dfy`, module `VersionVectors`. A version vector is a
  `map<string, nat>`, and `Get` reads a missing server as clock 0. `Set`
  overwrites one entry. `Merge` is the per-key maximum. `Dominates` is the
  asymmetric order test, which only looks at the argument's keys.
  `MergeByKeys` and `DominatesByKeys` are the source's loops over the other
  vector's key set. Each is proved equal to the functional definition.
- `session.dfy`, module `Sessions`. `SessionManager` becomes the `Session`
  datatype. Its two vectors are the getters.
  `UpdateReadVector` merges into the read vector and `UpdateWriteVector`
  sets one entry of the write vector.
- `server.dfy`, module `Servers`. `Server` is a datatype with a name, a
  vector and a clock. `Read` and `Write` return a `Reply`: the outcome plus
  the server and the session as they stand after the call. This makes the
  Java mutations explicit. The outcome is `Ok`, or `Err` carrying one of the
  four `Violation` kinds in place of the exception.
- `history.dfy`, module `Histories`. A driver holds several servers, each
  filed under its own unique name, and one session, and issues a sequence of
  reads and writes. This module proves two things about every reachable
  state. First, each server's clock is its own vector entry. Second, the
  session has never seen a clock ahead of the server that issued it. From
  this it also proves that no call moves a clock backwards.
- `scenarios.dfy`, module `Scenarios`. The demo driver's script and a few
  concrete runs, as lemmas.

## Model

| member | source | states |
|---|---|---|
| VersionVectors.Get | sessionguarantees/SessionGuaranteesDemo.java:12-15 | a server absent from the vector reads as clock 0, and a present one reads as its recorded clock |
| VersionVectors.Max | sessionguarantees/SessionGuaranteesDemo.java:27 | the result is at least each argument and is one of them |
| VersionVectors.Empty | sessionguarantees/SessionGuaranteesDemo.java:8-15 | a fresh vector has no keys and reads every server as clock 0 |
| VersionVectors.Set | sessionguarantees/SessionGuaranteesDemo.java:17-20 | afterwards the server reads as the given clock, every other server reads as before, and the key set gains exactly that server |
| VersionVectors.Merge | sessionguarantees/SessionGuaranteesDemo.java:22-29 | the result has the union of the keys, dominates both inputs, keeps the receiver's clock on keys absent from the other vector, and every clock comes from one of the two inputs |
| VersionVectors.MergeByKeys | sessionguarantees/SessionGuaranteesDemo.java:23-29 | the loop over the other vector's keys produces exactly the per-key maximum `Merge` |
| VersionVectors.DominatesByKeys | sessionguarantees/SessionGuaranteesDemo.java:32-39 | the early-exit loop over the argument's keys returns true exactly when `Dominates` holds |
| VersionVectors.Dominates | sessionguarantees/SessionGuaranteesDemo.java:32-39 | dominance holds exactly when every server's clock in the receiver is at least its clock in the argument, absent keys reading as 0, so keys only in the receiver are irrelevant |
| VersionVectors.DominatesReflexive | sessionguarantees/SessionGuaranteesDemo.java:32-39 | every vector dominates itself |
| VersionVectors.DominatesTransitive | sessionguarantees/SessionGuaranteesDemo.java:32-39 | dominance is transitive, although it checks only the argument's keys |
| VersionVectors.MergeIdempotent | sessionguarantees/SessionGuaranteesDemo.java:23-29 | merging a vector into itself leaves it unchanged |
| VersionVectors.MergeLeastUpperBound | sessionguarantees/SessionGuaranteesDemo.java:23-29 | any vector dominating both inputs dominates their merge |
| VersionVectors.MergeCommutative | sessionguarantees/SessionGuaranteesDemo.java:23-29 | the merge result does not depend on which vector is the receiver |
| VersionVectors.MergeDominated | sessionguarantees/SessionGuaranteesDemo.java:23-29 | merging in a vector the receiver already dominates changes no clock |
| Sessions.NewSession | sessionguarantees/SessionGuaranteesDemo.java:52-55 | a new session's read and write vectors read every server as 0 |
| Sessions.UpdateReadVector | sessionguarantees/SessionGuaranteesDemo.java:65-67 | the new read vector dominates both the old read vector and the recorded server vector, and every clock in it is taken from one of the two, so each entry is exactly the larger of the two. Servers absent from the recorded vector keep their clock, and the write vector is untouched |
| Sessions.UpdateWriteVector | sessionguarantees/SessionGuaranteesDemo.java:69-71 | the write vector's entry for the server becomes the clock, every other entry and the whole read vector are unchanged |
| Servers.NewServer | sessionguarantees/SessionGuaranteesDemo.java:80-84 | a new server has the given name, clock 0 and an all-zero vector, and satisfies the clock/vector invariant |
| Servers.Read | sessionguarantees/SessionGuaranteesDemo.java:87-98 | server and session are never changed. The read succeeds exactly when each enabled guarantee's vector is dominated. It fails with MonotonicReads exactly when MR is on and violated, and otherwise can only fail with ReadYourWrites. On success it returns the server's vector |
| Servers.Write | sessionguarantees/SessionGuaranteesDemo.java:101-114 | the write succeeds exactly when each enabled guarantee's vector is dominated, and WritesFollowReads is reported exactly when WFR is on and violated. A failure changes nothing. A success raises the clock by exactly 1 and sets the server's own entry in both its vector and the session's write vector to the new clock. Every other entry and the read vector stay as they were, and the clock/vector invariant is preserved |
| Servers.FirstViolationWins | sessionguarantees/SessionGuaranteesDemo.java:87-108 | when both checks of a call fail, reads report MonotonicReads and writes report WritesFollowReads |
| Servers.RecordedMonotonicRead | sessionguarantees/SessionGuaranteesDemo.java:87-98 | after a read that honoured Monotonic Reads is recorded, the session's read vector agrees with the server's vector on every server |
| Histories.Initial | sessionguarantees/SessionGuaranteesDemo.java:80-84 | fresh servers under their own names with a fresh session form a consistent world with all clocks 0 |
| Histories.Apply | sessionguarantees/SessionGuaranteesDemo.java:87-113 | a call touches at most the server it targets; the set of servers never changes |
| Histories.ApplyPreservesConsistent | sessionguarantees/SessionGuaranteesDemo.java:80-113 | every read, recorded read or write keeps the invariants: each server's clock is its own vector entry, that entry is its vector's only key, and no session clock exceeds the clock of the server it names |
| Histories.RunPreservesConsistent | sessionguarantees/SessionGuaranteesDemo.java:80-113 | the invariants hold after any sequence of calls from a consistent world |
| Histories.ApplyGrows | sessionguarantees/SessionGuaranteesDemo.java:65-113 | in a consistent world no call lowers a server clock or any entry of either session vector |
| Histories.RunGrows | sessionguarantees/SessionGuaranteesDemo.java:65-113 | the same holds across any sequence of calls |
| Histories.SoleServerNeverViolates | sessionguarantees/SessionGuaranteesDemo.java:87-108 | a session that has only dealt with one server can always read from and write to it under all four guarantees |
| Scenarios.DemoScenario | sessionguarantees/SessionGuaranteesDemo.java:131-151 | the demo script: A's write gives {A:1}, the MR+RYW read of A returns {A:1}, recording it makes the read vector {A:1}, and B's WFR+MW write fails with WritesFollowReads leaving B and the session unchanged |
| Scenarios.FirstWriteSelfTracking | sessionguarantees/SessionGuaranteesDemo.java:110-113 | a first unguarded write to a fresh server records clock 1 in the server's vector and in the session's write vector |
| Scenarios.ReadYourWritesScenario | sessionguarantees/SessionGuaranteesDemo.java:92-94 | after writing to A, an RYW read from the empty B fails with ReadYourWrites |
| Scenarios.MonotonicWritesRepeat | sessionguarantees/SessionGuaranteesDemo.java:106-113 | two MW writes in a row to A both succeed and leave A's clock and the session's write entry at 2 |

## Left out

- `toString` methods and everything `main` prints. This is presentation only. The script of `main` is kept as `Scenarios.DemoScenario`.
- Exception message strings. They become the four-valued `Violation`. The try/catch in `main` becomes the `Err` branch of the `Result`.
- `int` overflow of `clock++`. Clocks are `nat`, so a server that wraps past 2^31 - 1 is not modelled.
- Reference aliasing. The Java `read` returns the server's live vector even though its comment says "copy". With value semantics `Read` returns a snapshot. The demo never mutates the returned vector, so the difference is not observable there.
- Several `Server` objects sharing one name. Java allows this. `Histories` files servers by name, so it assumes names are unique. With duplicate names, a write could lower the session's write-vector entry for that name.
- VersionVectors.Merge: negative clocks are not modelled, because clocks are `nat`. Java's public `set` (lines 18-20) and `updateWriteVector` (lines 69-71) accept any `int`. For a receiver-only entry such as `{A:-1}`, Java's loop leaves it alone, while the comprehension would read it as 0.
- VersionVectors.Dominates: the pointwise characterization also relies on clocks being non-negative. In Java, `{A:-1}.dominates({})` is true, yet A's clock there is below the 0 that `{}` reads.
- Histories.RunGrows, like Histories.ApplyGrows: the driver never calls `updateWriteVector` (lines 69-71) or `set` directly; session vectors change only through `Write` and a recorded read. A direct call such as `updateWriteVector("A", 0)` after a write to A would lower the session's entry. Monotonicity is a discipline of the callers, not something the session type enforces.
- Concurrency, and replication between servers. Neither exists in the code.

/** The runs that a write can make. */
module Windows {
  // `Cluster` lets every chunk act at any time. Here a partition ships its chunks in order, with at most
  // `write_concurrency` of them in progress, and a restart starts a whole partition over. What holds of every run of
  // the cluster holds of these; what is said to be possible is shown with these.

  import opened Wrappers
  import opened BulkOutcome
  import opened ChunkProtocol
  import opened Documents
  import opened Cluster

  /** A write: its chunks, the partition that each belongs to, and how many of a partition may be in progress. The
      width is one when there is no pool. */
  datatype Write = Write(job: Job, part: seq<nat>, width: nat) {
    predicate Valid() {
      |part| == |job.layout| && width > 0
    }
  }

  datatype Move =
    | Does(c: nat, act: Act)
    | StartOver(k: nat)  // Spark starts partition `k` over

  /** What is left open, or not, in the runs that are looked at. */
  datatype Rules = Rules(
    ordered: bool,   // the server takes up the lines of a call that have the same id, or none, in their order
    once: bool,      // it takes up no line twice within a call
    honest: bool,    // a probe that returns has its flag, which is true exactly when some line was not accepted
    raises: bool,    // calls may raise
    restarts: bool)  // partitions may be started over

  predicate AllAccepted(lines: seq<Line>, flight: map<nat, int>) {
    forall p: nat :: p < |lines| ==> p in flight && Is2xx(flight[p])
  }

  predicate SameId(lines: seq<Line>, q: nat, p: nat) {
    q < |lines| && p < |lines| && IdOf(lines[q]) == IdOf(lines[p])
  }

  predicate Follows(rules: Rules, lines: seq<Line>, proc: Proc, act: Act) {
    match act
    case Apply(p, _) =>
      && (rules.ordered ==> forall q :: q in proc.flight && SameId(lines, q, p) ==> q < p)
      && (rules.once ==> p !in proc.flight)
    case Returned(a) =>
      && (!rules.raises ==> a.Reply?)
      && (rules.honest && proc.m.phase.Probing? && a.Reply? ==> a.errors == Some(!AllAccepted(lines, proc.flight)))
    case Restart => false
  }

  /** The chunks before `c` in its partition that are still in progress, or have not begun. */
  function Ahead(write: Write, w: World, c: nat): set<nat>
    requires c < |write.part|
  {
    set e: nat | e < c && e < |w.procs| && write.part[e] == write.part[c] && w.procs[e].m.Active()
  }

  predicate InWindow(write: Write, w: World, c: nat) {
    c < |write.part| && |Ahead(write, w, c)| < write.width
  }

  /** The first call of the chunk has had no effect yet. */
  predicate NotBegun(cfg: Config, n: nat, proc: Proc) {
    proc.m == Start(cfg, n) && proc.flight == map[]
  }

  predicate Admits(write: Write, rules: Rules, w: World, move: Move) {
    match move
    case Does(c, act) =>
      && Enabled(write.job, w, Event(c, act)) && InWindow(write, w, c)
      && Follows(rules, write.job.layout[c], w.procs[c], act)
    case StartOver(_) => rules.restarts
  }

  predicate InPartition(write: Write, c: nat, k: nat) {
    c < |write.part| && c < |write.job.layout| && write.part[c] == k
  }

  function Moved(write: Write, w: World, move: Move): World {
    match move
    case Does(c, act) => Step(write.job, w, Event(c, act))
    case StartOver(k) =>
      World(w.docs, seq(|w.procs|, c requires 0 <= c < |w.procs| =>
        if InPartition(write, c, k) then Acted(write.job.cfg, |write.job.layout[c]|, w.procs[c], Restart)
        else w.procs[c]))
  }

  function After(write: Write, docs: Docs, moves: seq<Move>): World {
    if moves == [] then Begin(write.job, docs)
    else Moved(write, After(write, docs, moves[..|moves| - 1]), moves[|moves| - 1])
  }

  /** `moves` is a run of the write from `docs` under these rules. */
  predicate Moves(write: Write, rules: Rules, docs: Docs, moves: seq<Move>) {
    moves != [] ==>
      && Moves(write, rules, docs, moves[..|moves| - 1])
      && Admits(write, rules, After(write, docs, moves[..|moves| - 1]), moves[|moves| - 1])
  }

  lemma {:induction false} AfterShape(write: Write, docs: Docs, moves: seq<Move>)
    ensures |After(write, docs, moves).procs| == |write.job.layout|
  {
    hide Effect, Acted, Can;
    if moves != [] {
      AfterShape(write, docs, moves[..|moves| - 1]);
    }
  }

  /* ---- these are runs of the cluster ---- */

  lemma OneEvent(job: Job, docs: Docs, before: seq<Event>, e: Event) returns (events: seq<Event>)
    requires Run(job, docs, before) && Enabled(job, Exec(job, docs, before), e)
    ensures Run(job, docs, events) && Exec(job, docs, events) == Step(job, Exec(job, docs, before), e)
  {
    hide Enabled, Step;
    events := before + [e];
    assert events[..|before|] == before;
  }

  /** The chunks below `n` of partition `k` are started over. */
  function StartedOver(write: Write, w: World, k: nat, n: nat): World {
    World(w.docs, seq(|w.procs|, c requires 0 <= c < |w.procs| =>
      if c < n && InPartition(write, c, k) then Acted(write.job.cfg, |write.job.layout[c]|, w.procs[c], Restart)
      else w.procs[c]))
  }

  lemma StartOneOver(write: Write, w: World, k: nat, n: nat)
    requires n < |w.procs| == |write.job.layout|
    ensures var v := StartedOver(write, w, k, n);
      if InPartition(write, n, k) then
        Enabled(write.job, v, Event(n, Restart)) &&
        Step(write.job, v, Event(n, Restart)) == StartedOver(write, w, k, n + 1)
      else v == StartedOver(write, w, k, n + 1)
  {
    hide Start;
    var v := StartedOver(write, w, k, n);
    if InPartition(write, n, k) {
      assert Step(write.job, v, Event(n, Restart)).procs == StartedOver(write, w, k, n + 1).procs;
    } else {
      assert v.procs == StartedOver(write, w, k, n + 1).procs;
    }
  }

  lemma {:induction false} StartEachOver(write: Write, docs: Docs, before: seq<Event>, k: nat, n: nat)
    returns (events: seq<Event>)
    requires Run(write.job, docs, before) && n <= |Exec(write.job, docs, before).procs| == |write.job.layout|
    ensures Run(write.job, docs, events)
    ensures Exec(write.job, docs, events) == StartedOver(write, Exec(write.job, docs, before), k, n)
  {
    hide Run, Exec, Step, Enabled;
    var w := Exec(write.job, docs, before);
    if n == 0 {
      events := before;
      assert StartedOver(write, w, k, 0).procs == w.procs;
    } else {
      events := StartEachOver(write, docs, before, k, n - 1);
      StartOneOver(write, w, k, n - 1);
      hide StartedOver;
      if InPartition(write, n - 1, k) {
        events := OneEvent(write.job, docs, events, Event(n - 1, Restart));
      }
    }
  }

  /** Every run of the write is a run of the cluster, with the same end. */
  lemma {:induction false} MovesAreRun(write: Write, rules: Rules, docs: Docs, moves: seq<Move>)
    returns (events: seq<Event>)
    requires Moves(write, rules, docs, moves)
    ensures Run(write.job, docs, events) && Exec(write.job, docs, events) == After(write, docs, moves)
  {
    hide Run, Exec, Step, Enabled, Begin, Follows, InWindow;
    if moves == [] {
      events := [];
      NoEvent(write.job, docs);
    } else {
      var front, move := moves[..|moves| - 1], moves[|moves| - 1];
      events := MovesAreRun(write, rules, docs, front);
      var w := After(write, docs, front);
      match move
      case Does(c, act) => events := OneEvent(write.job, docs, events, Event(c, act));
      case StartOver(k) =>
        AfterShape(write, docs, front);
        events := StartEachOver(write, docs, events, k, |w.procs|);
        assert StartedOver(write, w, k, |w.procs|).procs == Moved(write, w, move).procs;
    }
  }

  lemma NoEvent(job: Job, docs: Docs)
    ensures Run(job, docs, []) && Exec(job, docs, []) == Begin(job, docs)
  {
  }
}

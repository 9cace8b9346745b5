/** Runs that show where the guarantees of the write path end. Each is a run the environment permits. */
module Witnesses {
  import opened Wrappers
  import opened BulkOutcome
  import opened ChunkProtocol
  import opened Documents
  import opened Cluster
  import opened Confluence
  import opened Arrangement
  import opened Stream
  import opened Policies
  import Verdict

  /** A run of a job with a single chunk grows by one thing its chunk can do. */
  lemma Extended(job: Job, docs0: Docs, events: seq<Event>, docs: Docs, proc: Proc, act: Act) returns (more: seq<Event>)
    requires |job.layout| == 1 && Run(job, docs0, events) && Exec(job, docs0, events) == World(docs, [proc])
    requires Can(job.layout[0], docs, proc, act)
    ensures Run(job, docs0, more)
    ensures Exec(job, docs0, more) ==
            World(Effect(job.layout[0], docs, act), [Acted(job.cfg, |job.layout[0]|, proc, act)])
  {
    hide Can, Effect, Acted;
    more := events + [Event(0, act)];
    assert more[..|events|] == events;
  }

  lemma Begun(job: Job, docs: Docs)
    requires |job.layout| == 1
    ensures Run(job, docs, []) && Exec(job, docs, []) == World(docs, [Fresh(job.cfg, |job.layout[0]|)])
  {
    hide Fresh;
    assert Begin(job, docs).procs == [Fresh(job.cfg, |job.layout[0]|)];
  }

  function Reply1(op: OpType, status: int): Answer {
    Reply(Some(!Is2xx(status)), Some([Item(op, Some(status))]))
  }

  function Reply2(op: OpType, s0: int, s1: int): Answer {
    Reply(Some(!(Is2xx(s0) && Is2xx(s1))), Some([Item(op, Some(s0)), Item(op, Some(s1))]))
  }

  /** A reply to a probe: `filter_path` keeps only the flag. */
  function Flag(errors: bool): Answer {
    Reply(Some(errors), None)
  }

  /* ---- two lines for one id ---- */

  const RETRYING := Config(false, true, false, {429}, 1, false, 0)
  const TWICE := [Index(Some("x"), "first"), Index(Some("x"), "second")]

  function AfterFirstRound(): Machine {
    Start(RETRYING, 2).(
      phase := Shipping([0], 1, 0), counts := Counts(1, 0, 0, 0), settled := map[1 := Written],
      sends := [Send([0, 1], SendOk)], diag := NO_DIAG.(docsRetried := 1, rejected429 := 1), slept := 2)
  }

  lemma FirstRound()
    ensures Next(RETRYING, 2, Start(RETRYING, 2), Reply2(OpIndex, 429, 200)) == AfterFirstRound()
  {
    var items := [Item(OpIndex, Some(429)), Item(OpIndex, Some(200))];
    assert All(2) == [0, 1];
    var t0 := FirstTally(Start(RETRYING, 2));
    assert TallyItems(RETRYING, [0, 1], 0, items, 1, t0) ==
           t0.(diag := NO_DIAG.(rejected429 := 1), retry := [0]) by {
      assert TallyItems(RETRYING, [0, 1], 0, items, 0, t0) == t0;
    }
    assert Backoff(1) == 2 by {
      assert Pow2(1) == 2;
    }
  }

  lemma SecondRound()
    ensures var m := Next(RETRYING, 2, AfterFirstRound(), Reply1(OpIndex, 200));
      m.phase.Done? && m.counts == Counts(2, 0, 0, 0)
  {
    var m0 := AfterFirstRound();
    var items := [Item(OpIndex, Some(200))];
    assert TallyItems(RETRYING, [0], 1, items, 0, FirstTally(m0)) == FirstTally(m0);
  }

  function ProcA(): Proc { Proc(Start(RETRYING, 2), map[], multiset{}) }

  function ProcB(): Proc { Proc(Start(RETRYING, 2), map[0 := 429], multiset{}) }

  function ProcC(): Proc { Proc(Start(RETRYING, 2), map[0 := 429, 1 := 200], multiset{1}) }

  function ProcD(): Proc { Proc(AfterFirstRound(), map[], multiset{1}) }

  function ProcE(): Proc { Proc(AfterFirstRound(), map[0 := 200], multiset{1} + multiset{0}) }

  lemma TwiceActs()
    ensures Fresh(RETRYING, 2) == ProcA() && Acted(RETRYING, 2, ProcA(), Apply(0, 429)) == ProcB()
    ensures Acted(RETRYING, 2, ProcB(), Apply(1, 200)) == ProcC()
    ensures Acted(RETRYING, 2, ProcC(), Returned(Reply2(OpIndex, 429, 200))) == ProcD()
    ensures Acted(RETRYING, 2, ProcD(), Apply(0, 200)) == ProcE()
  {
    FirstRound();
    hide Start, Next;
    assert multiset{} + multiset{1} == multiset{1};
  }

  lemma TwiceCan()
    ensures Can(TWICE, map[], ProcA(), Apply(0, 429)) && Can(TWICE, map[], ProcB(), Apply(1, 200))
    ensures Can(TWICE, map["x" := "second"], ProcC(), Returned(Reply2(OpIndex, 429, 200)))
    ensures Can(TWICE, map["x" := "second"], ProcD(), Apply(0, 200))
    ensures Can(TWICE, map["x" := "first"], ProcE(), Returned(Reply1(OpIndex, 200)))
  {
    assert All(2) == [0, 1];
  }

  lemma TwiceEffect()
    ensures Effect(TWICE, map[], Apply(1, 200)) == map["x" := "second"]
    ensures Effect(TWICE, map["x" := "second"], Apply(0, 200)) == map["x" := "first"]
  {
  }

  /** Agreement on ids is needed: a line rejected with 429 is sent again after a later line for the same id was
      applied, and wins. Both lines are counted written, but the index is not the serial result. */
  lemma DuplicateIdsDiverge() returns (job: Job, events: seq<Event>)
    ensures job.layout == [TWICE] && Run(job, map[], events)
    ensures var w := Exec(job, map[], events);
      && |w.procs| == 1 && w.procs[0].m.phase.Done? && w.procs[0].m.counts == Counts(2, 0, 0, 0)
      && w.docs == map["x" := "first"] && Fold(map[], TWICE) == map["x" := "second"]
  {
    job, events := Job(RETRYING, [TWICE]), [];
    Begun(job, map[]);
    SecondRound();
    TwiceActs();
    TwiceCan();
    TwiceEffect();
    SerialTwice();
    hide Next, Run, Exec, Fold, Can, ProcA, ProcB, ProcC, ProcD, Fresh, Start, AfterFirstRound, Reply1, Reply2;
    var first, second := map["x" := "first"], map["x" := "second"];
    events := Extended(job, map[], events, map[], ProcA(), Apply(0, 429));
    events := Extended(job, map[], events, map[], ProcB(), Apply(1, 200));
    events := Extended(job, map[], events, second, ProcC(), Returned(Reply2(OpIndex, 429, 200)));
    events := Extended(job, map[], events, second, ProcD(), Apply(0, 200));
    events := Extended(job, map[], events, first, ProcE(), Returned(Reply1(OpIndex, 200)));
  }

  lemma SerialTwice()
    ensures Fold(map[], TWICE) == map["x" := "second"]
  {
    assert TWICE[..1][..0] == [];
    assert Fold(map[], TWICE[..1]) == map["x" := "first"];
  }

  /* ---- a mixed chunk of creates on the default path ---- */

  const DEFAULTS := Config(false, false, false, {429}, 3, false, 0)
  const MIXED := [Create("a", "new"), Create("b", "new")]
  const HELD: Docs := map["a" := "old"]
  const GROWN: Docs := map["a" := "old", "b" := "new"]

  function AfterDirtyProbe(): Machine {
    Start(DEFAULTS, 2).(phase := Shipping(All(2), 0, 0), sends := [Send(All(2), SendOk)])
  }

  function MixedA(): Proc { Proc(Start(DEFAULTS, 2), map[], multiset{}) }

  function MixedB(): Proc { Proc(Start(DEFAULTS, 2), map[0 := 409], multiset{}) }

  function MixedC(): Proc { Proc(Start(DEFAULTS, 2), map[0 := 409, 1 := 201], multiset{1}) }

  function MixedD(): Proc { Proc(AfterDirtyProbe(), map[], multiset{1}) }

  function MixedE(): Proc { Proc(AfterDirtyProbe(), map[0 := 409], multiset{1}) }

  function MixedF(): Proc { Proc(AfterDirtyProbe(), map[0 := 409, 1 := 409], multiset{1}) }

  lemma MixedActs()
    ensures Fresh(DEFAULTS, 2) == MixedA() && Acted(DEFAULTS, 2, MixedA(), Apply(0, 409)) == MixedB()
    ensures Acted(DEFAULTS, 2, MixedB(), Apply(1, 201)) == MixedC()
    ensures Acted(DEFAULTS, 2, MixedC(), Returned(Flag(true))) == MixedD()
    ensures Acted(DEFAULTS, 2, MixedD(), Apply(0, 409)) == MixedE()
    ensures Acted(DEFAULTS, 2, MixedE(), Apply(1, 409)) == MixedF()
  {
    assert Next(DEFAULTS, 2, Start(DEFAULTS, 2), Flag(true)) == AfterDirtyProbe();
    hide Start, Next, AfterDirtyProbe;
    assert multiset{} + multiset{1} == multiset{1};
  }

  lemma MixedCan()
    ensures Can(MIXED, HELD, MixedA(), Apply(0, 409)) && Can(MIXED, HELD, MixedB(), Apply(1, 201))
    ensures Can(MIXED, GROWN, MixedC(), Returned(Flag(true)))
    ensures Can(MIXED, GROWN, MixedD(), Apply(0, 409)) && Can(MIXED, GROWN, MixedE(), Apply(1, 409))
    ensures Can(MIXED, GROWN, MixedF(), Returned(Reply2(OpCreate, 409, 409)))
  {
    assert All(2) == [0, 1];
  }

  lemma MixedEffect()
    ensures Effect(MIXED, HELD, Apply(0, 409)) == HELD && Effect(MIXED, HELD, Apply(1, 201)) == GROWN
    ensures Effect(MIXED, GROWN, Apply(0, 409)) == GROWN && Effect(MIXED, GROWN, Apply(1, 409)) == GROWN
  {
  }

  lemma MixedRound()
    ensures var m := Next(DEFAULTS, 2, AfterDirtyProbe(), Reply2(OpCreate, 409, 409));
      m.phase.Done? && m.counts == Counts(0, 0, 2, 0) && m.diag.docsDeduped == 2
  {
    var m0 := AfterDirtyProbe();
    var items := [Item(OpCreate, Some(409)), Item(OpCreate, Some(409))];
    assert All(2) == [0, 1];
    var t1 := TallyItems(DEFAULTS, [0, 1], 0, items, 1, FirstTally(m0));
    assert TallyItems(DEFAULTS, [0, 1], 0, items, 0, FirstTally(m0)) == FirstTally(m0);
    assert t1.counts == Counts(0, 0, 1, 0) && t1.diag.docsDeduped == 1 && t1.retry == [] && !t1.broken;
  }

  /** The index can grow by more than `written`: the probe stores the new document, the re-ship of the whole chunk
      then finds it there and counts it as a duplicate. */
  lemma ProbedCreatesUndercount() returns (job: Job, events: seq<Event>)
    ensures job == Job(DEFAULTS, [MIXED]) && Run(job, HELD, events)
    ensures var w := Exec(job, HELD, events);
      && |w.procs| == 1 && w.procs[0].m.phase.Done? && w.procs[0].m.counts == Counts(0, 0, 2, 0)
      && |w.docs| == |HELD| + 1
  {
    job, events := Job(DEFAULTS, [MIXED]), [];
    Begun(job, HELD);
    MixedActs();
    MixedCan();
    MixedEffect();
    MixedRound();
    assert |HELD| == 1 && |GROWN| == 2 by {
      assert HELD.Keys == {"a"} && GROWN.Keys == {"a", "b"};
    }
    hide Next, Run, Exec, Can, MixedA, MixedB, MixedC, MixedD, MixedE, Fresh, Start, AfterDirtyProbe, Reply2, Flag;
    events := Extended(job, HELD, events, HELD, MixedA(), Apply(0, 409));
    events := Extended(job, HELD, events, HELD, MixedB(), Apply(1, 201));
    events := Extended(job, HELD, events, GROWN, MixedC(), Returned(Flag(true)));
    events := Extended(job, HELD, events, GROWN, MixedD(), Apply(0, 409));
    events := Extended(job, HELD, events, GROWN, MixedE(), Apply(1, 409));
    events := Extended(job, HELD, events, GROWN, MixedF(), Returned(Reply2(OpCreate, 409, 409)));
  }

  /* ---- the policies that only report ---- */

  const PLAIN := Config(false, true, false, {}, 0, false, 0)
  const SINGLE := [Index(Some("x"), "first")]

  function Refused(): Proc { Proc(Start(PLAIN, 1), map[0 := 400], multiset{}) }

  lemma RefusedActs()
    ensures Acted(PLAIN, 1, Fresh(PLAIN, 1), Apply(0, 400)) == Refused()
    ensures Can(SINGLE, map[], Fresh(PLAIN, 1), Apply(0, 400))
    ensures Can(SINGLE, map[], Refused(), Returned(Reply1(OpIndex, 400)))
  {
    assert All(1) == [0];
  }

  lemma RefusedRound()
    ensures var m := Next(PLAIN, 1, Start(PLAIN, 1), Reply1(OpIndex, 400));
      m.phase.Done? && m.counts == Counts(0, 0, 0, 1)
  {
    assert All(1) == [0];
    var items := [Item(OpIndex, Some(400))];
    assert TallyItems(PLAIN, [0], 0, items, 0, FirstTally(Start(PLAIN, 1))) == FirstTally(Start(PLAIN, 1));
  }

  /** A batch whose only line was rejected for good: the write ends, and nothing was stored. */
  lemma RefusedRun() returns (events: seq<Event>)
    ensures var job := Job(PLAIN, [SINGLE]);
      Run(job, map[], events) && Finished(Exec(job, map[], events)) && Exec(job, map[], events).docs == map[] &&
      |Exec(job, map[], events).procs| == 1
  {
    var job := Job(PLAIN, [SINGLE]);
    events := [];
    Begun(job, map[]);
    RefusedActs();
    RefusedRound();
    hide Next, Run, Exec, Can, Fresh, Start, Reply1;
    events := Extended(job, map[], events, map[], Fresh(PLAIN, 1), Apply(0, 400));
    events := Extended(job, map[], events, map[], Refused(), Returned(Reply1(OpIndex, 400)));
  }

  lemma SingleDealt()
    ensures Deals(SINGLE, [SINGLE]) && "x" in FoldBatches(map[], [SINGLE], 1)
  {
    assert Flatten([SINGLE][..0]) == [];
    assert Flatten([SINGLE]) == SINGLE;
    assert FoldBatches(map[], [SINGLE], 0) == map[];
    assert SINGLE[..0] == [];
  }

  /** Only the raising policy protects the checkpoint: under the others a batch can commit with its row missing. */
  lemma ReportingLosesRows(policy: OnError) returns (ts: seq<Attempt>)
    requires policy != RAISE
    ensures History(PLAIN, policy, [SINGLE], map[], ts)
    ensures After(PLAIN, map[], ts).next == 1
    ensures After(PLAIN, map[], ts).docs != FoldBatches(map[], [SINGLE], 1)
  {
    var events := RefusedRun();
    var job := Job(PLAIN, [SINGLE]);
    var rows, r := OnePartition(job, Exec(job, map[], events));
    SingleDealt();
    hide Run, Exec, Finished, IsSummary, Verdict.IsRollup, Deals, FoldBatches, History, After;
    var t := Attempt([SINGLE], events, [0, 1], rows, r, true);
    ts := MoreHistory(PLAIN, policy, [SINGLE], map[], [], t);
  }
}

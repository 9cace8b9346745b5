/** Whole chunks built on purpose. A script says how the probe of a chunk goes, how its first full send, and how another
    one for the lines that the first refused; a chunk can also be refused to the end. */
module Scripts {
  import opened Wrappers
  import opened BulkOutcome
  import opened ChunkProtocol
  import opened ChunkAccounts
  import opened Documents
  import opened Cluster
  import opened Confluence
  import opened AppendOnly
  import opened Windows
  import opened ChunkRounds
  import opened FirstWords
  import opened Schedules

  /* ---- one chunk ---- */

  /** The chunk has settled nothing: it is to be probed, or at its first full send. */
  ghost predicate Open(n: nat, proc: Proc) {
    && proc.flight == map[] && proc.m.counts.errors == 0
    && (proc.m.phase.Probing? || if n == 0 then proc.m.phase == Done else InRound(proc.m.phase, All(n), 0))
  }

  lemma NotBegunIsOpen(cfg: Config, n: nat, proc: Proc)
    requires NotBegun(cfg, n, proc)
    ensures Open(n, proc)
  {
    hide All;
  }

  lemma StartProbes(cfg: Config, n: nat, proc: Proc)
    requires NotBegun(cfg, n, proc)
    ensures proc.m.phase.Probing? == cfg.Probes()
  {
    hide All;
  }

  /** The index has heard `said` from chunk `c`, which has counted no new error. */
  ghost predicate Told(write: Write, w: World, w': World, c: nat, said: seq<Line>) {
    && c < |w.procs| && OthersSame(w, w', c) && w'.docs == Fold(w.docs, said)
    && w'.procs[c].m.counts.errors == w.procs[c].m.counts.errors && w'.procs[c].flight == map[]
  }

  lemma CalledTold(write: Write, w: World, w': World, c: nat, plan: Plan)
    requires Called(write, w, w', c, plan)
    ensures Told(write, w, w', c, Effective(write.job.layout[c], plan))
  {
    hide Accepted, Effective, Fold;
  }

  lemma ToldJoin(write: Write, w0: World, w1: World, w2: World, c: nat, a: seq<Line>, b: seq<Line>)
    requires Told(write, w0, w1, c, a) && Told(write, w1, w2, c, b)
    ensures Told(write, w0, w2, c, a + b)
  {
    FoldJoin(w0.docs, a, b);
    hide Fold;
  }

  lemma StillReady(write: Write, w: World, w': World, c: nat, said: seq<Line>)
    requires Ready(write, w, c) && Told(write, w, w', c, said)
    ensures Ready(write, w', c)
  {
    WindowSame(write, w, w', c);
    hide InWindow, Fold;
  }

  /** How a chunk goes: its probe, its first full send, and another one for what that refused. */
  datatype Script = Script(probe: Plan, full: Plan, again: Plan)

  ghost predicate Playable(script: Script, cfg: Config, rules: Rules, lines: seq<Line>) {
    && Suits(script.probe, rules, lines) && Covers(script.probe, All(|lines|))
    && Suits(script.full, rules, lines) && Covers(script.full, All(|lines|))
    && SentAgain(cfg, lines, script.full, 0)
    && Suits(script.again, rules, lines) && Covers(script.again, LateOf(All(|lines|), script.full.late))
    && script.again.late == {}
  }

  /** What the index hears from the chunk, when it is probed first and when it is not. */
  ghost predicate Heard(lines: seq<Line>, script: Script, probing: bool, said: seq<Line>) {
    var sent := Effective(lines, script.full) + Effective(lines, script.again);
    if probing then
      || (script.probe.late == {} && said == Effective(lines, script.probe))
      || said == Effective(lines, script.probe) + sent
    else said == sent
  }

  lemma NothingToSend(lines: seq<Line>, plan: Plan)
    requires Covers(plan, [])
    ensures Effective(lines, plan) == []
  {
    assert forall i :: 0 <= i < |plan.order| ==> plan.order[i] in plan.order;
  }

  lemma NoneLate(pending: seq<nat>)
    ensures LateOf(pending, {}) == []
  {
    if LateOf(pending, {}) != [] {
      LateIn(pending, {}, LateOf(pending, {})[0]);
    }
  }

  lemma NothingSentAgain(cfg: Config, lines: seq<Line>, plan: Plan, round: nat)
    requires plan.late == {}
    ensures SentAgain(cfg, lines, plan, round)
  {
  }

  /** The second send of a script. */
  lemma RunAgain(write: Write, rules: Rules, docs: Docs, before: seq<Move>, c: nat, plan: Plan, pending: seq<nat>)
    returns (moves: seq<Move>)
    requires Moves(write, rules, docs, before) && Ready(write, After(write, docs, before), c)
    requires After(write, docs, before).procs[c].m.phase == if pending == [] then Done else Shipping(pending, 1, 0)
    requires Suits(plan, rules, write.job.layout[c]) && Covers(plan, pending) && plan.late == {}
    ensures Moves(write, rules, docs, moves) && before <= moves
    ensures Told(write, After(write, docs, before), After(write, docs, moves), c, Effective(write.job.layout[c], plan))
    ensures After(write, docs, moves).procs[c].m.phase.Done?
  {
    var w0 := After(write, docs, before);
    ReadyHas(write, w0, c);
    if pending == [] {
      moves := before;
      NothingToSend(write.job.layout[c], plan);
    } else {
      NothingSentAgain(write.job.cfg, write.job.layout[c], plan, 1);
      NoneLate(pending);
      hide Moves, After, Ready, Suits, Covers, SentAgain, Called, Told, LateOf;
      moves := RunRound(write, rules, docs, before, c, plan, pending, 1);
      CalledTold(write, w0, After(write, docs, moves), c, plan);
    }
  }

  /** The rounds of a script. */
  lemma RunRounds(write: Write, rules: Rules, docs: Docs, before: seq<Move>, c: nat, script: Script)
    returns (moves: seq<Move>)
    requires Moves(write, rules, docs, before) && Ready(write, After(write, docs, before), c)
    requires Open(|write.job.layout[c]|, After(write, docs, before).procs[c])
    requires !After(write, docs, before).procs[c].m.phase.Probing?
    requires Playable(script, write.job.cfg, rules, write.job.layout[c])
    ensures Moves(write, rules, docs, moves) && before <= moves
    ensures Told(write, After(write, docs, before), After(write, docs, moves), c,
                 Effective(write.job.layout[c], script.full) + Effective(write.job.layout[c], script.again))
    ensures After(write, docs, moves).procs[c].m.phase.Done?
  {
    var lines, w0 := write.job.layout[c], After(write, docs, before);
    if lines == [] {
      moves := before;
      assert All(0) == [];
      NothingToSend(lines, script.full);
      NothingToSend(lines, script.again);
    } else {
      ReadyHas(write, w0, c);
      hide Moves, After, Ready, Suits, Covers, SentAgain, Called, Told, LateOf, All, Effective;
      moves := RunRound(write, rules, docs, before, c, script.full, All(|lines|), 0);
      var w1 := After(write, docs, moves);
      CalledTold(write, w0, w1, c, script.full);
      StillReady(write, w0, w1, c, Effective(lines, script.full));
      moves := RunAgain(write, rules, docs, moves, c, script.again, LateOf(All(|lines|), script.full.late));
      ToldJoin(write, w0, w1, After(write, docs, moves), c, Effective(lines, script.full),
               Effective(lines, script.again));
    }
  }

  /** A whole chunk after a script. */
  lemma RunChunk(write: Write, rules: Rules, docs: Docs, before: seq<Move>, c: nat, script: Script)
    returns (moves: seq<Move>, said: seq<Line>)
    requires Moves(write, rules, docs, before) && Ready(write, After(write, docs, before), c)
    requires Open(|write.job.layout[c]|, After(write, docs, before).procs[c])
    requires Playable(script, write.job.cfg, rules, write.job.layout[c])
    ensures Moves(write, rules, docs, moves) && before <= moves
    ensures Told(write, After(write, docs, before), After(write, docs, moves), c, said)
    ensures Heard(write.job.layout[c], script, After(write, docs, before).procs[c].m.phase.Probing?, said)
    ensures After(write, docs, moves).procs[c].m.phase.Done?
  {
    var lines, w0 := write.job.layout[c], After(write, docs, before);
    ReadyHas(write, w0, c);
    var sent := Effective(lines, script.full) + Effective(lines, script.again);
    hide Moves, After, Ready, Suits, Covers, SentAgain, Called, Told, LateOf, All, Effective;
    if w0.procs[c].m.phase.Probing? {
      moves := RunProbe(write, rules, docs, before, c, script.probe, false);
      var w1 := After(write, docs, moves);
      said := Effective(lines, script.probe);
      CalledTold(write, w0, w1, c, script.probe);
      if w1.procs[c].m.phase != BeginRounds(|lines|) {
        return;
      }
      StillReady(write, w0, w1, c, said);
      OpenAfterProbe(write, w0, w1, c, said);
      moves := RunRounds(write, rules, docs, moves, c, script);
      ToldJoin(write, w0, w1, After(write, docs, moves), c, said, sent);
      said := said + sent;
    } else {
      moves := RunRounds(write, rules, docs, before, c, script);
      said := sent;
    }
  }

  lemma OpenAfterProbe(write: Write, w0: World, w1: World, c: nat, said: seq<Line>)
    requires Told(write, w0, w1, c, said) && c < |write.job.layout| && Open(|write.job.layout[c]|, w0.procs[c])
    requires w1.procs[c].m.phase == BeginRounds(|write.job.layout[c]|)
    ensures Open(|write.job.layout[c]|, w1.procs[c]) && !w1.procs[c].m.phase.Probing?
  {
    hide Fold, All;
  }

  /* ---- scripts ---- */

  const NOTHING := Plan([], {}, 0)

  function InOrder(n: nat, late: set<nat>, status: int): Plan {
    Plan(All(n), late, status)
  }

  /** All lines are taken up in order, and none is refused. */
  function Healthy(n: nat): Script {
    Script(InOrder(n, {}, 0), InOrder(n, {}, 0), NOTHING)
  }

  lemma NothingSuits(rules: Rules, lines: seq<Line>)
    ensures Suits(NOTHING, rules, lines) && Covers(NOTHING, []) && Effective(lines, NOTHING) == []
  {
    hide Confirms;
  }

  lemma InOrderSuits(rules: Rules, lines: seq<Line>, late: set<nat>, status: int)
    requires forall q :: q in late ==> q < |lines| && !Confirms(lines[q], status)
    ensures Suits(InOrder(|lines|, late, status), rules, lines) && Covers(InOrder(|lines|, late, status), All(|lines|))
  {
    AllPositions(|lines|);
    hide Confirms;
  }

  lemma HealthyPlays(cfg: Config, rules: Rules, lines: seq<Line>)
    ensures Playable(Healthy(|lines|), cfg, rules, lines)
  {
    InOrderSuits(rules, lines, {}, 0);
    NothingSuits(rules, lines);
    NothingSentAgain(cfg, lines, InOrder(|lines|, {}, 0), 0);
    NoneLate(All(|lines|));
    hide Suits, Covers, SentAgain, LateOf, All, NOTHING;
  }

  /** With the lines before `p` refused, the index hears the lines from `p` on. */
  lemma {:induction false} EffectiveFrom(lines: seq<Line>, p: nat, status: int, k: nat)
    requires k <= |lines| && p <= |lines|
    ensures Effective(lines, Plan(All(k), Below(p), status)) == if k <= p then [] else lines[p..k]
  {
    BelowIs(p);
    if k > 0 {
      var plan := Plan(All(k), Below(p), status);
      assert Front(plan) == Plan(All(k - 1), Below(p), status) by {
        assert All(k)[..k - 1] == All(k - 1);
      }
      EffectiveFrom(lines, p, status, k - 1);
      assert plan.order[k - 1] == k - 1;
      if k > p {
        assert lines[p..k] == (if k - 1 <= p then [] else lines[p..k - 1]) + [lines[k - 1]];
      }
    }
  }

  lemma EffectiveAll(lines: seq<Line>)
    ensures Effective(lines, InOrder(|lines|, {}, 0)) == lines
  {
    EffectiveFrom(lines, 0, 0, |lines|);
    BelowIs(0);
    assert Below(0) == {};
    assert lines[0..|lines|] == lines;
    hide Effective;
  }

  /** The index hears only lines of the chunk. */
  lemma {:induction false} EffectiveWithin(lines: seq<Line>, plan: Plan)
    ensures forall x :: x in Effective(lines, plan) ==> x in lines
    decreases |plan.order|
  {
    if plan.order != [] {
      EffectiveWithin(lines, Front(plan));
      hide Effective;
      EffectiveCases(lines, plan);
    }
  }

  lemma EffectiveCases(lines: seq<Line>, plan: Plan)
    requires plan.order != []
    ensures var q := plan.order[|plan.order| - 1];
      Effective(lines, plan) ==
      Effective(lines, Front(plan)) + if q in plan.late || q >= |lines| then [] else [lines[q]]
  {
  }

  lemma HeardWithin(lines: seq<Line>, script: Script, probing: bool, said: seq<Line>)
    requires Heard(lines, script, probing, said)
    ensures forall x :: x in said ==> x in lines
  {
    EffectiveWithin(lines, script.probe);
    EffectiveWithin(lines, script.full);
    EffectiveWithin(lines, script.again);
    hide Effective;
  }

  /** Everything is refused, and nothing is heard. */
  lemma {:induction false} NothingEffective(lines: seq<Line>, plan: Plan)
    requires forall q :: q in plan.order ==> q in plan.late
    ensures Effective(lines, plan) == []
    decreases |plan.order|
  {
    if plan.order != [] {
      FrontWithin(plan, plan.order);
      NothingEffective(lines, Front(plan));
    }
  }

  /* ---- a chunk that is refused ---- */

  const REFUSED := 500

  function Refusal(n: nat): Plan {
    InOrder(n, Below(n), REFUSED)
  }

  lemma RefusalSuits(rules: Rules, lines: seq<Line>)
    ensures Suits(Refusal(|lines|), rules, lines) && Covers(Refusal(|lines|), All(|lines|))
    ensures Effective(lines, Refusal(|lines|)) == []
  {
    BelowIs(|lines|);
    InOrderSuits(rules, lines, Below(|lines|), REFUSED);
    EffectiveFrom(lines, |lines|, REFUSED, |lines|);
    hide Suits, Covers, Effective;
  }

  /** A refusal is retried, or not, whatever the line is. */
  predicate RefusalRetried(cfg: Config, round: nat) {
    cfg.Retries(Item(OpIndex, Some(REFUSED)), round)
  }

  lemma AllRetriedAlike(cfg: Config, line: Line, round: nat)
    ensures cfg.Retries(Item(OpOf(line), Some(REFUSED)), round) <==> RefusalRetried(cfg, round)
  {
  }

  lemma {:induction false} AllLate(pending: seq<nat>, late: set<nat>)
    requires forall q :: q in pending ==> q in late
    ensures LateOf(pending, late) == pending
  {
    if pending != [] {
      var k := |pending| - 1;
      assert pending == pending[..k] + [pending[k]];
      AllLate(pending[..k], late);
    }
  }

  lemma TallyRefused(cfg: Config, pending: seq<nat>, round: nat, items: seq<Item>, t0: Tally)
    requires |items| == |pending| && t0.retry == [] && !t0.broken
    requires forall i :: 0 <= i < |items| ==> !cfg.Retries(items[i], round)
    ensures var t := TallyItems(cfg, pending, round, items, |items|, t0); t.retry == [] && !t.broken
  {
    hide TallyItems, Config.Retries;
    TallyBreaks(cfg, pending, round, items, |items|, t0);
    var t := TallyItems(cfg, pending, round, items, |items|, t0);
    if t.retry != [] {
      TallyRetried(cfg, pending, round, items, |items|, t0, t.retry[0]);
    }
  }

  lemma RefusedItems(cfg: Config, lines: seq<Line>, flight: map<nat, int>, round: nat)
    requires !RefusalRetried(cfg, round)
    requires Fits(lines, flight, Refusal(|lines|)) && Covers(Refusal(|lines|), All(|lines|))
    ensures var items := ItemsFor(lines, All(|lines|), flight);
      forall i :: 0 <= i < |items| ==> !cfg.Retries(items[i], round)
  {
    var pending, items := All(|lines|), ItemsFor(lines, All(|lines|), flight);
    BelowIs(|lines|);
    AllPositions(|lines|);
    forall i | 0 <= i < |items| ensures !cfg.Retries(items[i], round) {
      assert pending[i] in pending;
      AllRetriedAlike(cfg, lines[pending[i]], round);
    }
  }

  /** The last refusal leaves nothing to retry. */
  lemma RefusalEnds(cfg: Config, lines: seq<Line>, docs: Docs, proc: Proc, round: nat)
    requires InRound(proc.m.phase, All(|lines|), round) && !RefusalRetried(cfg, round)
    requires Fits(lines, proc.flight, Refusal(|lines|)) && Covers(Refusal(|lines|), All(|lines|))
    ensures var act := Returned(Reply(None, Some(ItemsFor(lines, All(|lines|), proc.flight))));
      && Can(lines, docs, proc, act)
      && Acted(cfg, |lines|, proc, act).m.phase.Done? && Acted(cfg, |lines|, proc, act).flight == map[]
  {
    ItemsTrue(lines, proc, Refusal(|lines|));
    RefusedItems(cfg, lines, proc.flight, round);
    hide Fits, Covers, RefusalRetried, Config.Retries, Truthful, TallyItems, All;
    TallyRefused(cfg, All(|lines|), round, ItemsFor(lines, All(|lines|), proc.flight), FirstTally(proc.m));
  }

  lemma RefusalSentAgain(cfg: Config, lines: seq<Line>, round: nat)
    requires RefusalRetried(cfg, round)
    ensures SentAgain(cfg, lines, Refusal(|lines|), round)
    ensures round < cfg.maxRetriesPerDoc
  {
    BelowIs(|lines|);
    forall q: nat | q < |lines| ensures cfg.Retries(Item(OpOf(lines[q]), Some(REFUSED)), round) {
      AllRetriedAlike(cfg, lines[q], round);
    }
  }

  /** Chunk `c` has come to its end, and the index has heard nothing from it. */
  ghost predicate Refused(write: Write, w: World, w': World, c: nat) {
    c < |w.procs| && OthersSame(w, w', c) && w'.docs == w.docs && w'.procs[c].m.phase.Done?
  }

  lemma HeardNothing(write: Write, w: World, w': World, c: nat, said: seq<Line>)
    requires Told(write, w, w', c, said) && said == []
    ensures OthersSame(w, w', c) && w'.docs == w.docs
  {
  }

  lemma RefusedThen(write: Write, w0: World, w1: World, w2: World, c: nat)
    requires Told(write, w0, w1, c, []) && Refused(write, w1, w2, c)
    ensures Refused(write, w0, w2, c)
  {
  }

  lemma RefuseLastRound(write: Write, rules: Rules, docs: Docs, before: seq<Move>, c: nat, round: nat)
    returns (moves: seq<Move>)
    requires Moves(write, rules, docs, before) && Ready(write, After(write, docs, before), c)
    requires InRound(After(write, docs, before).procs[c].m.phase, All(|write.job.layout[c]|), round)
    requires !RefusalRetried(write.job.cfg, round)
    ensures Moves(write, rules, docs, moves) && before <= moves
    ensures Refused(write, After(write, docs, before), After(write, docs, moves), c)
  {
    var lines, w0 := write.job.layout[c], After(write, docs, before);
    ReadyHas(write, w0, c);
    CarriesPending(|lines|, w0.procs[c].m, All(|lines|), round);
    RefusalSuits(rules, lines);
    CoversWithin(Refusal(|lines|), All(|lines|));
    hide Moves, After, Ready, Suits, Covers, Midway, Effective, All, Refusal, Can, Acted, InRound, Moved, Admits;
    moves := TakeUp(write, rules, docs, before, c, Refusal(|lines|));
    var w := After(write, docs, moves);
    MidwayShape(write, w0, w, c, Refusal(|lines|));
    MidwayFits(write, w0, w, c, Refusal(|lines|));
    RefusalEnds(write.job.cfg, lines, w.docs, w.procs[c], round);
    var reply := Reply(None, Some(ItemsFor(lines, All(|lines|), w.procs[c].flight)));
    ReturnsLater(rules, lines, w.procs[c], reply);
    Ended(write, rules, w0, w, c, Refusal(|lines|), reply);
    moves := MoreMoves(write, rules, docs, moves, Does(c, Returned(reply)));
  }

  lemma {:induction false} RefuseRounds(
    write: Write, rules: Rules, docs: Docs, before: seq<Move>, c: nat, round: nat) returns (moves: seq<Move>)
    requires Moves(write, rules, docs, before) && Ready(write, After(write, docs, before), c)
    requires write.job.layout[c] != []
    requires InRound(After(write, docs, before).procs[c].m.phase, All(|write.job.layout[c]|), round)
    ensures Moves(write, rules, docs, moves) && before <= moves
    ensures Refused(write, After(write, docs, before), After(write, docs, moves), c)
    decreases write.job.cfg.maxRetriesPerDoc - round
  {
    var lines, w0 := write.job.layout[c], After(write, docs, before);
    if !RefusalRetried(write.job.cfg, round) {
      moves := RefuseLastRound(write, rules, docs, before, c, round);
    } else {
      RefusalSentAgain(write.job.cfg, lines, round);
      RefusalSuits(rules, lines);
      RefusalLate(|lines|);
      hide Moves, After, Ready, Suits, Covers, SentAgain, Called, Told, LateOf, All, Effective, Refusal, RefusalRetried;
      moves := RunRound(write, rules, docs, before, c, Refusal(|lines|), All(|lines|), round);
      var w1 := After(write, docs, moves);
      CalledTold(write, w0, w1, c, Refusal(|lines|));
      StillReady(write, w0, w1, c, []);
      moves := RefuseRounds(write, rules, docs, moves, c, round + 1);
      RefusedThen(write, w0, w1, After(write, docs, moves), c);
    }
  }

  lemma RefusalLate(n: nat)
    ensures LateOf(All(n), Refusal(n).late) == All(n) && |All(n)| == n
  {
    BelowIs(n);
    AllPositions(n);
    AllLate(All(n), Below(n));
  }

  /** Every line of the chunk is refused, whenever it is sent. */
  lemma RefuseChunk(write: Write, rules: Rules, docs: Docs, before: seq<Move>, c: nat) returns (moves: seq<Move>)
    requires Moves(write, rules, docs, before) && Ready(write, After(write, docs, before), c)
    requires Open(|write.job.layout[c]|, After(write, docs, before).procs[c])
    ensures Moves(write, rules, docs, moves) && before <= moves
    ensures Refused(write, After(write, docs, before), After(write, docs, moves), c)
  {
    var lines, w0 := write.job.layout[c], After(write, docs, before);
    ReadyHas(write, w0, c);
    RefusalSuits(rules, lines);
    hide Moves, After, Ready, Suits, Covers, Called, Told, All, Effective, Refusal;
    if w0.procs[c].m.phase.Probing? {
      moves := RunProbe(write, rules, docs, before, c, Refusal(|lines|), false);
      var w1 := After(write, docs, moves);
      CalledTold(write, w0, w1, c, Refusal(|lines|));
      HeardNothing(write, w0, w1, c, []);
      if !w1.procs[c].m.phase.Done? {
        StillReady(write, w0, w1, c, []);
        moves := RefuseRounds(write, rules, docs, moves, c, 0);
        RefusedThen(write, w0, w1, After(write, docs, moves), c);
      }
    } else if lines == [] {
      moves := before;
    } else {
      moves := RefuseRounds(write, rules, docs, before, c, 0);
    }
  }
}

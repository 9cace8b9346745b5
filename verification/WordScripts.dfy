/** Scripts that give a line of our choice the last word on its id, or the first. A line is taken up last or first where
    the order is not kept; otherwise others are refused until it has been accepted, or it alone is put off. */
module WordScripts {
  import opened Wrappers
  import opened BulkOutcome
  import opened ChunkProtocol
  import opened ChunkAccounts
  import opened Documents
  import opened Cluster
  import opened Confluence
  import opened AppendOnly
  import opened Windows
  import opened ChunkRounds
  import opened LastWords
  import opened FirstWords
  import opened Schedules
  import opened Scripts

  /* ---- the order of our choice ---- */

  function Others(n: nat, p: nat): seq<nat>
    requires p < n
  {
    All(n)[..p] + All(n)[p + 1..]
  }

  lemma OthersAre(n: nat, p: nat)
    requires p < n
    ensures forall q: nat :: q in Others(n, p) <==> q < n && q != p
    ensures forall i, j :: 0 <= i < j < |Others(n, p)| ==> Others(n, p)[i] != Others(n, p)[j]
  {
    AllPositions(n);
    var others := Others(n, p);
    forall q: nat | q < n && q != p ensures q in others {
      assert others[if q < p then q else q - 1] == q;
    }
  }

  function AtEnd(n: nat, p: nat): Plan
    requires p < n
  {
    Plan(Others(n, p) + [p], {}, 0)
  }

  function AtFront(n: nat, p: nat): Plan
    requires p < n
  {
    Plan([p] + Others(n, p), {}, 0)
  }

  lemma AtEndSuits(rules: Rules, lines: seq<Line>, p: nat)
    requires p < |lines| && !rules.ordered
    ensures Suits(AtEnd(|lines|, p), rules, lines) && Covers(AtEnd(|lines|, p), All(|lines|))
  {
    OthersAre(|lines|, p);
    AllPositions(|lines|);
    hide Others, Confirms, Increasing, All;
    var order := AtEnd(|lines|, p).order;
    forall i | 0 <= i < |order| ensures order[i] < |lines| && (i < |order| - 1 ==> order[i] != p) {
      assert i < |order| - 1 ==> order[i] in Others(|lines|, p);
    }
  }

  lemma AtFrontSuits(rules: Rules, lines: seq<Line>, p: nat)
    requires p < |lines| && !rules.ordered
    ensures Suits(AtFront(|lines|, p), rules, lines) && Covers(AtFront(|lines|, p), All(|lines|))
  {
    OthersAre(|lines|, p);
    AllPositions(|lines|);
    hide Others, Confirms, Increasing, All;
    var order := AtFront(|lines|, p).order;
    forall i | 0 <= i < |order| ensures order[i] < |lines| && (i > 0 ==> order[i] != p) {
      assert i > 0 ==> order[i] in Others(|lines|, p);
    }
  }

  lemma SamePlanPlays(cfg: Config, rules: Rules, lines: seq<Line>, plan: Plan)
    requires Suits(plan, rules, lines) && Covers(plan, All(|lines|)) && plan.late == {}
    ensures Playable(Script(plan, plan, NOTHING), cfg, rules, lines)
  {
    NothingSuits(rules, lines);
    NothingSentAgain(cfg, lines, plan, 0);
    NoneLate(All(|lines|));
    hide Suits, Covers, SentAgain, LateOf, All, NOTHING;
  }

  /* ---- the last word ---- */

  /** What is heard ends with line `p`, or with the whole chunk if no later line of that names its id. */
  ghost predicate EndsWith(lines: seq<Line>, said: seq<Line>, p: nat) {
    && p < |lines|
    && if IsLast(lines, p) && |said| >= |lines| && said[|said| - |lines|..] == lines then true
       else said != [] && said[|said| - 1] == lines[p]
  }

  ghost predicate SpeaksLast(lines: seq<Line>, script: Script, p: nat) {
    forall probing: bool, said: seq<Line> :: Heard(lines, script, probing, said) ==> EndsWith(lines, said, p)
  }

  lemma SaidLast(docs: Docs, lines: seq<Line>, said: seq<Line>, p: nat)
    requires Upserts(lines) && EndsWith(lines, said, p)
    ensures At(Fold(docs, said), IdOf(lines[p]).value) == Said(lines[p])
  {
    if IsLast(lines, p) && |said| >= |lines| && said[|said| - |lines|..] == lines {
      var front := said[..|said| - |lines|];
      assert said == front + lines;
      FoldJoin(docs, front, lines);
      FoldLast(Fold(docs, front), lines, p);
    }
  }

  lemma UnorderedLast(rules: Rules, lines: seq<Line>, p: nat)
    requires p < |lines| && !rules.ordered
    ensures SpeaksLast(lines, Script(AtEnd(|lines|, p), AtEnd(|lines|, p), NOTHING), p)
  {
    NothingSuits(rules, lines);
    EffectiveCases(lines, AtEnd(|lines|, p));
    hide Effective, Others, NOTHING, IsLast;
  }

  lemma OrderedLast(rules: Rules, lines: seq<Line>, p: nat)
    requires p < |lines| && IsLast(lines, p)
    ensures SpeaksLast(lines, Healthy(|lines|), p)
  {
    NothingSuits(rules, lines);
    EffectiveAll(lines);
    hide Effective, NOTHING, IsLast;
  }

  /** The line is put off to the next round. */
  function PutOff(n: nat, p: nat, status: int): Script {
    Script(InOrder(n, {p}, status), InOrder(n, {p}, status), Plan([p], {}, 0))
  }

  lemma PutOffPlays(cfg: Config, rules: Rules, lines: seq<Line>, p: nat, status: int)
    requires p < |lines| && cfg.Retries(Item(OpOf(lines[p]), Some(status)), 0)
    ensures Playable(PutOff(|lines|, p, status), cfg, rules, lines)
  {
    RejectionOutcome(Item(OpOf(lines[p]), Some(status)));
    InOrderSuits(rules, lines, {p}, status);
    AllPositions(|lines|);
    forall q: nat ensures q in LateOf(All(|lines|), {p}) <==> q == p {
      LateIn(All(|lines|), {p}, q);
    }
    hide Config.Retries, LateOf, Increasing, All;
  }

  lemma PutOffLast(lines: seq<Line>, p: nat, status: int)
    requires p < |lines|
    ensures SpeaksLast(lines, PutOff(|lines|, p, status), p)
  {
    EffectiveCases(lines, Plan([p], {}, 0));
    NothingEffective(lines, Front(Plan([p], {}, 0)));
    hide Effective, IsLast;
  }

  lemma LastScript(cfg: Config, rules: Rules, lines: seq<Line>, p: nat) returns (script: Script)
    requires CanBeLast(cfg, rules.ordered, lines, p)
    ensures Playable(script, cfg, rules, lines) && SpeaksLast(lines, script, p)
  {
    hide Playable, SpeaksLast;
    if !rules.ordered {
      script := Script(AtEnd(|lines|, p), AtEnd(|lines|, p), NOTHING);
      AtEndSuits(rules, lines, p);
      SamePlanPlays(cfg, rules, lines, AtEnd(|lines|, p));
      UnorderedLast(rules, lines, p);
    } else if IsLast(lines, p) {
      script := Healthy(|lines|);
      HealthyPlays(cfg, rules, lines);
      OrderedLast(rules, lines, p);
    } else {
      var status: int :| cfg.Retries(Item(OpOf(lines[p]), Some(status)), 0);
      script := PutOff(|lines|, p, status);
      PutOffPlays(cfg, rules, lines, p, status);
      PutOffLast(lines, p, status);
    }
  }

  /** A line that can have the last word of its chunk is given it. */
  lemma RunLast(write: Write, rules: Rules, docs: Docs, before: seq<Move>, c: nat, p: nat)
    returns (moves: seq<Move>, said: seq<Line>)
    requires Moves(write, rules, docs, before) && Ready(write, After(write, docs, before), c)
    requires Open(|write.job.layout[c]|, After(write, docs, before).procs[c])
    requires CanBeLast(write.job.cfg, rules.ordered, write.job.layout[c], p)
    ensures Moves(write, rules, docs, moves) && before <= moves
    ensures Told(write, After(write, docs, before), After(write, docs, moves), c, said)
    ensures EndsWith(write.job.layout[c], said, p) && After(write, docs, moves).procs[c].m.phase.Done?
  {
    ReadyHas(write, After(write, docs, before), c);
    hide Moves, After, Ready, Told, Playable, Open, EndsWith, Heard, CanBeLast;
    var script := LastScript(write.job.cfg, rules, write.job.layout[c], p);
    moves, said := RunChunk(write, rules, docs, before, c, script);
  }

  /* ---- the first word ---- */

  /** What is heard begins with line `p`, or with the whole chunk if no earlier line of that names its id. */
  ghost predicate BeginsWith(lines: seq<Line>, said: seq<Line>, p: nat) {
    && p < |lines|
    && if IsFirst(lines, p) && lines <= said then true else said != [] && said[0] == lines[p]
  }

  ghost predicate SpeaksFirst(lines: seq<Line>, script: Script, probing: bool, p: nat) {
    forall said: seq<Line> :: Heard(lines, script, probing, said) ==> BeginsWith(lines, said, p)
  }

  /** The first line that a plan does not refuse is the first that is heard. */
  lemma {:induction false} EffectiveBegins(lines: seq<Line>, plan: Plan)
    requires plan.order != [] && plan.order[0] < |lines| && plan.order[0] !in plan.late
    ensures Effective(lines, plan) != [] && Effective(lines, plan)[0] == lines[plan.order[0]]
    decreases |plan.order|
  {
    if |plan.order| == 1 {
      NothingEffective(lines, Front(plan));
    } else {
      EffectiveBegins(lines, Front(plan));
    }
  }

  lemma SaidFirst(docs: Docs, lines: seq<Line>, said: seq<Line>, p: nat)
    requires AllCreate(lines) && BeginsWith(lines, said, p) && IdOf(lines[p]).value !in docs
    requires forall x :: x in said ==> x in lines
    ensures At(Fold(docs, said), IdOf(lines[p]).value) == Said(lines[p])
  {
    assert forall i :: 0 <= i < |said| ==> said[i] in said;
    hide Fold;
    if IsFirst(lines, p) && lines <= said {
      FoldFirst(docs, said, p);
    } else {
      FoldFirst(docs, said, 0);
    }
  }

  lemma UnorderedFirst(rules: Rules, lines: seq<Line>, probing: bool, p: nat)
    requires p < |lines| && !rules.ordered
    ensures SpeaksFirst(lines, Script(AtFront(|lines|, p), AtFront(|lines|, p), NOTHING), probing, p)
  {
    EffectiveBegins(lines, AtFront(|lines|, p));
    hide Effective, Others, NOTHING, IsFirst;
  }

  lemma OrderedFirst(lines: seq<Line>, probing: bool, p: nat)
    requires p < |lines| && IsFirst(lines, p)
    ensures SpeaksFirst(lines, Healthy(|lines|), probing, p)
  {
    EffectiveAll(lines);
    hide Effective, NOTHING, IsFirst;
  }

  /** The lines before `p` are refused by the probe only. */
  function ProbeFrom(n: nat, p: nat): Script {
    Script(InOrder(n, Below(p), REFUSED), InOrder(n, {}, 0), NOTHING)
  }

  lemma ProbeFromPlays(cfg: Config, rules: Rules, lines: seq<Line>, p: nat)
    requires p < |lines|
    ensures Playable(ProbeFrom(|lines|, p), cfg, rules, lines)
  {
    BelowIs(p);
    InOrderSuits(rules, lines, Below(p), REFUSED);
    HealthyPlays(cfg, rules, lines);
    hide Suits, Covers, SentAgain, LateOf, InOrder, Below;
  }

  lemma ProbeFromFirst(lines: seq<Line>, p: nat)
    requires 0 < p < |lines|
    ensures SpeaksFirst(lines, ProbeFrom(|lines|, p), true, p)
  {
    BelowIs(p);
    EffectiveFrom(lines, p, REFUSED, |lines|);
    hide Effective, NOTHING, IsFirst, Below;
  }

  /** The lines before `p` are put off to the next round. */
  function SendFrom(n: nat, p: nat, status: int): Script {
    Script(InOrder(n, Below(p), status), InOrder(n, Below(p), status), InOrder(p, {}, 0))
  }

  lemma SendFromPlays(cfg: Config, rules: Rules, lines: seq<Line>, p: nat, status: int)
    requires AllCreate(lines) && p < |lines| && cfg.Retries(Item(OpOf(lines[p]), Some(status)), 0)
    ensures Playable(SendFrom(|lines|, p, status), cfg, rules, lines)
  {
    BelowIs(p);
    AllPositions(p);
    AllPositions(|lines|);
    RejectionOutcome(Item(OpOf(lines[p]), Some(status)));
    hide Config.Retries, LateOf, All, Below, Increasing;
    assert forall q: nat :: q < p ==> OpOf(lines[q]) == OpCreate;
    InOrderSuits(rules, lines, Below(p), status);
    forall q: nat ensures q in LateOf(All(|lines|), Below(p)) <==> q < p {
      LateIn(All(|lines|), Below(p), q);
    }
  }

  lemma SendFromFirst(lines: seq<Line>, p: nat, status: int, probing: bool)
    requires 0 < p < |lines|
    ensures SpeaksFirst(lines, SendFrom(|lines|, p, status), probing, p)
  {
    BelowIs(p);
    EffectiveFrom(lines, p, status, |lines|);
    hide Effective, NOTHING, IsFirst, Below;
  }

  lemma FirstScript(cfg: Config, rules: Rules, lines: seq<Line>, p: nat) returns (script: Script)
    requires AllCreate(lines) && p < |lines|
    requires !rules.ordered || IsFirst(lines, p) || cfg.Probes() || CanRetry(cfg, lines[p])
    ensures Playable(script, cfg, rules, lines) && SpeaksFirst(lines, script, cfg.Probes(), p)
  {
    hide Playable, SpeaksFirst, AllCreate;
    if !rules.ordered {
      script := Script(AtFront(|lines|, p), AtFront(|lines|, p), NOTHING);
      AtFrontSuits(rules, lines, p);
      SamePlanPlays(cfg, rules, lines, AtFront(|lines|, p));
      UnorderedFirst(rules, lines, cfg.Probes(), p);
    } else if IsFirst(lines, p) {
      script := Healthy(|lines|);
      HealthyPlays(cfg, rules, lines);
      OrderedFirst(lines, cfg.Probes(), p);
    } else if cfg.Probes() {
      script := ProbeFrom(|lines|, p);
      ProbeFromPlays(cfg, rules, lines, p);
      ProbeFromFirst(lines, p);
    } else {
      var status: int :| cfg.Retries(Item(OpOf(lines[p]), Some(status)), 0);
      script := SendFrom(|lines|, p, status);
      SendFromPlays(cfg, rules, lines, p, status);
      SendFromFirst(lines, p, status, cfg.Probes());
    }
  }

  lemma StartCarries(cfg: Config, n: nat, proc: Proc, p: nat)
    requires NotBegun(cfg, n, proc) && p < n
    ensures p in Carried(n, proc.m)
  {
    AllPositions(n);
  }

  lemma OneSuits(rules: Rules, lines: seq<Line>, p: nat)
    requires p < |lines|
    ensures Suits(Plan([p], {}, 0), rules, lines) && Effective(lines, Plan([p], {}, 0)) == [lines[p]]
  {
    hide Confirms;
    EffectiveCases(lines, Plan([p], {}, 0));
    NothingEffective(lines, Front(Plan([p], {}, 0)));
  }

  /** A first call that times out is sent again, and the chunk is as before. */
  lemma TimesOut(cfg: Config, rules: Rules, lines: seq<Line>, docs: Docs, proc0: Proc, proc: Proc)
    requires NotBegun(cfg, |lines|, proc0) && proc.m == proc0.m && lines != []
    requires rules.raises && cfg.TimeoutBudget() > 0
    ensures Can(lines, docs, proc, Returned(TimedOut)) && Follows(rules, lines, proc, Returned(TimedOut))
    ensures var proc' := Acted(cfg, |lines|, proc, Returned(TimedOut));
      Open(|lines|, proc') && proc'.m.phase.Probing? == proc0.m.phase.Probing?
  {
    hide All;
  }

  lemma ToldOne(write: Write, w: World, w': World, c: nat, line: Line)
    requires c < |write.job.layout| && c < |w.procs| && OthersSame(w, w', c) && w'.docs == Fold(w.docs, [line])
    requires Open(|write.job.layout[c]|, w.procs[c]) && Open(|write.job.layout[c]|, w'.procs[c])
    ensures Told(write, w, w', c, [line])
  {
    hide Fold, All;
  }

  /** The line is taken up by a call that times out and is sent again. */
  lemma TimeOutAfter(write: Write, rules: Rules, docs: Docs, before: seq<Move>, c: nat, p: nat)
    returns (moves: seq<Move>)
    requires Moves(write, rules, docs, before) && Ready(write, After(write, docs, before), c)
    requires NotBegun(write.job.cfg, |write.job.layout[c]|, After(write, docs, before).procs[c])
    requires p < |write.job.layout[c]| && rules.raises && write.job.cfg.TimeoutBudget() > 0
    ensures Moves(write, rules, docs, moves) && before <= moves
    ensures Told(write, After(write, docs, before), After(write, docs, moves), c, [write.job.layout[c][p]])
    ensures Open(|write.job.layout[c]|, After(write, docs, moves).procs[c])
    ensures After(write, docs, moves).procs[c].m.phase.Probing? ==
            After(write, docs, before).procs[c].m.phase.Probing?
  {
    var lines, w0 := write.job.layout[c], After(write, docs, before);
    var plan := Plan([p], {}, 0);
    ReadyHas(write, w0, c);
    StartCarries(write.job.cfg, |lines|, w0.procs[c], p);
    OneSuits(rules, lines, p);
    NotBegunIsOpen(write.job.cfg, |lines|, w0.procs[c]);
    hide *;
    moves := TakeUp(write, rules, docs, before, c, plan);
    var w := After(write, docs, moves);
    MidwayShape(write, w0, w, c, plan);
    MidwayFits(write, w0, w, c, plan);
    TimesOut(write.job.cfg, rules, lines, w.docs, w0.procs[c], w.procs[c]);
    Ended(write, rules, w0, w, c, plan, TimedOut);
    moves := MoreMoves(write, rules, docs, moves, Does(c, Returned(TimedOut)));
    ToldOne(write, w0, After(write, docs, moves), c, lines[p]);
  }

  lemma BeginsAfter(lines: seq<Line>, said: seq<Line>, p: nat)
    requires p < |lines|
    ensures BeginsWith(lines, [lines[p]] + said, p)
  {
  }

  /** A line that can be the first of its chunk to be accepted is given the first word. */
  lemma RunFirst(write: Write, rules: Rules, docs: Docs, before: seq<Move>, c: nat, p: nat)
    returns (moves: seq<Move>, said: seq<Line>)
    requires Moves(write, rules, docs, before) && Ready(write, After(write, docs, before), c)
    requires NotBegun(write.job.cfg, |write.job.layout[c]|, After(write, docs, before).procs[c])
    requires AllCreate(write.job.layout[c]) && FirstInChunk(write.job.cfg, rules, write.job.layout[c], p)
    ensures Moves(write, rules, docs, moves) && before <= moves
    ensures Told(write, After(write, docs, before), After(write, docs, moves), c, said)
    ensures BeginsWith(write.job.layout[c], said, p) && forall x :: x in said ==> x in write.job.layout[c]
    ensures After(write, docs, moves).procs[c].m.phase.Done?
  {
    var lines, w0 := write.job.layout[c], After(write, docs, before);
    ReadyHas(write, w0, c);
    NotBegunIsOpen(write.job.cfg, |lines|, w0.procs[c]);
    StartProbes(write.job.cfg, |lines|, w0.procs[c]);
    if !rules.ordered || IsFirst(lines, p) || write.job.cfg.Probes() || CanRetry(write.job.cfg, lines[p]) {
      var script := FirstScript(write.job.cfg, rules, lines, p);
      hide Moves, After, Ready, Told, Playable, Open, BeginsWith, Heard;
      moves, said := RunChunk(write, rules, docs, before, c, script);
      HeardWithin(lines, script, write.job.cfg.Probes(), said);
    } else {
      HealthyPlays(write.job.cfg, rules, lines);
      hide Moves, After, Ready, Told, Playable, Open, BeginsWith, Heard, CanRetry, NotBegun;
      moves := TimeOutAfter(write, rules, docs, before, c, p);
      var w1 := After(write, docs, moves);
      StillReady(write, w0, w1, c, [lines[p]]);
      moves, said := RunChunk(write, rules, docs, moves, c, Healthy(|lines|));
      HeardWithin(lines, Healthy(|lines|), w1.procs[c].m.phase.Probing?, said);
      ToldJoin(write, w0, w1, After(write, docs, moves), c, [lines[p]], said);
      BeginsAfter(lines, said, p);
      said := [lines[p]] + said;
    }
  }
}

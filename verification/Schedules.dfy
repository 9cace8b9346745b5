/** Single calls built on purpose: which lines a call takes up, in which order, and which of them it refuses.
    Everything happens inside the window, every item is truthful, and a probe has the flag it should have or, where that
    is allowed, none. */
module Schedules {
  import opened Wrappers
  import opened BulkOutcome
  import opened ChunkProtocol
  import opened ChunkAccounts
  import opened Documents
  import opened Cluster
  import opened Confluence
  import opened AppendOnly
  import opened Windows
  import opened ChunkRounds

  /* ---- one move ---- */

  lemma MoreMoves(write: Write, rules: Rules, docs: Docs, before: seq<Move>, move: Move) returns (moves: seq<Move>)
    requires Moves(write, rules, docs, before) && Admits(write, rules, After(write, docs, before), move)
    ensures Moves(write, rules, docs, moves) && before <= moves
    ensures After(write, docs, moves) == Moved(write, After(write, docs, before), move)
  {
    hide Admits, Moved;
    moves := before + [move];
    assert moves[..|before|] == before;
  }

  /** Nothing has happened to any chunk but `c`. */
  ghost predicate OthersSame(w: World, w': World, c: nat) {
    |w'.procs| == |w.procs| && forall k :: 0 <= k < |w.procs| && k != c ==> w'.procs[k] == w.procs[k]
  }

  lemma SameShape(w: World, w': World, c: nat)
    requires OthersSame(w, w', c)
    ensures |w'.procs| == |w.procs|
  {
  }

  lemma WindowSame(write: Write, w: World, w': World, c: nat)
    requires OthersSame(w, w', c) && InWindow(write, w, c)
    ensures InWindow(write, w', c)
  {
    assert Ahead(write, w', c) == Ahead(write, w, c);
  }

  /** Chunk `c` may act. */
  ghost predicate Ready(write: Write, w: World, c: nat) {
    && c < |write.job.layout| == |w.procs| && InWindow(write, w, c) && w.procs[c].flight == map[]
  }

  /* ---- the lines of one call ---- */

  /** The status a healthy server gives to a line. */
  function StatusFor(docs: Docs, line: Line): int {
    match line
    case Index(_, _) => 200
    case Create(id, _) => if id in docs then 409 else 201
    case Delete(id) => if id in docs then 200 else 404
  }

  lemma HealthyStatus(docs: Docs, line: Line)
    ensures Allows(docs, line, StatusFor(docs, line)) && Confirms(line, StatusFor(docs, line))
    ensures (if Is2xx(StatusFor(docs, line)) then ApplyLine(docs, line) else docs) == ApplyLine(docs, line)
  {
  }

  lemma RefusalAllowed(docs: Docs, line: Line, status: int)
    requires !Confirms(line, status)
    ensures Allows(docs, line, status) && !Is2xx(status)
  {
  }

  /** How a call goes: the positions it takes up, in order, and the status it refuses those in `late` with. */
  datatype Plan = Plan(order: seq<nat>, late: set<nat>, status: int)

  ghost predicate Suits(plan: Plan, rules: Rules, lines: seq<Line>) {
    && (forall i :: 0 <= i < |plan.order| ==> plan.order[i] < |lines|)
    && (rules.ordered ==> Increasing(plan.order))
    && (rules.once ==> forall i, j :: 0 <= i < j < |plan.order| ==> plan.order[i] != plan.order[j])
    && (forall q :: q in plan.late ==> q < |lines| && !Confirms(lines[q], plan.status))
  }

  function Front(plan: Plan): Plan
    requires plan.order != []
  {
    plan.(order := plan.order[..|plan.order| - 1])
  }

  /** The lines that are not refused, in the order in which they are taken up. */
  function Effective(lines: seq<Line>, plan: Plan): seq<Line>
    decreases |plan.order|
  {
    if plan.order == [] then []
    else
      var q := plan.order[|plan.order| - 1];
      Effective(lines, Front(plan)) + if q in plan.late || q >= |lines| then [] else [lines[q]]
  }

  /** The positions that are accepted. */
  function Accepted(docs: Docs, lines: seq<Line>, plan: Plan): multiset<nat>
    decreases |plan.order|
  {
    if plan.order == [] then multiset{}
    else
      var q := plan.order[|plan.order| - 1];
      Accepted(docs, lines, Front(plan)) +
      if q !in plan.late && q < |lines| && Is2xx(StatusFor(Fold(docs, Effective(lines, Front(plan))), lines[q]))
      then multiset{q} else multiset{}
  }

  /** The positions of the plan have statuses, and those in `late` the status they are refused with. */
  ghost predicate Fits(lines: seq<Line>, flight: map<nat, int>, plan: Plan) {
    && (forall q: nat :: q in flight <==> q in plan.order)
    && (forall q: nat :: q in flight ==>
          && q < |lines|
          && if q in plan.late then flight[q] == plan.status else Confirms(lines[q], flight[q]))
  }

  /** The call of `proc0` has taken up the positions of the plan. */
  ghost predicate TakenUp(lines: seq<Line>, docs: Docs, proc0: Proc, proc: Proc, plan: Plan) {
    && proc.m == proc0.m
    && proc.landed == proc0.landed + Accepted(docs, lines, plan)
    && Fits(lines, proc.flight, plan)
  }

  lemma FitsNext(lines: seq<Line>, flight: map<nat, int>, plan: Plan, status: int)
    requires plan.order != [] && Fits(lines, flight, Front(plan)) && plan.order[|plan.order| - 1] < |lines|
    requires var q := plan.order[|plan.order| - 1];
      if q in plan.late then status == plan.status else Confirms(lines[q], status)
    ensures Fits(lines, flight[plan.order[|plan.order| - 1] := status], plan)
  {
    hide Confirms;
    assert plan.order == Front(plan).order + [plan.order[|plan.order| - 1]];
  }

  lemma NothingTaken(lines: seq<Line>, docs: Docs, proc: Proc, plan: Plan)
    requires plan.order == [] && proc.flight == map[]
    ensures TakenUp(lines, docs, proc, proc, plan)
  {
  }

  function NextStatus(docs: Docs, lines: seq<Line>, plan: Plan, q: nat): int
    requires q < |lines|
  {
    if q in plan.late then plan.status else StatusFor(docs, lines[q])
  }

  lemma SuitsFront(plan: Plan, rules: Rules, lines: seq<Line>)
    requires plan.order != [] && Suits(plan, rules, lines)
    ensures Suits(Front(plan), rules, lines) && plan.order[|plan.order| - 1] < |lines|
    ensures rules.ordered ==> forall q :: q in Front(plan).order ==> q < plan.order[|plan.order| - 1]
    ensures rules.once ==> plan.order[|plan.order| - 1] !in Front(plan).order
  {
    hide Confirms;
  }

  lemma TakeNext(cfg: Config, rules: Rules, lines: seq<Line>, docs0: Docs, docs: Docs, proc0: Proc, proc: Proc,
                 plan: Plan)
    requires plan.order != [] && Suits(plan, rules, lines) && TakenUp(lines, docs0, proc0, proc, Front(plan))
    requires docs == Fold(docs0, Effective(lines, Front(plan)))
    requires plan.order[|plan.order| - 1] in Carried(|lines|, proc.m)
    ensures plan.order[|plan.order| - 1] < |lines|
    ensures var q := plan.order[|plan.order| - 1];
      var act := Apply(q, NextStatus(docs, lines, plan, q));
      && Can(lines, docs, proc, act) && Follows(rules, lines, proc, act)
      && TakenUp(lines, docs0, proc0, Acted(cfg, |lines|, proc, act), plan)
      && Effect(lines, docs, act) == if q in plan.late then docs else ApplyLine(docs, lines[q])
  {
    var q := plan.order[|plan.order| - 1];
    SuitsFront(plan, rules, lines);
    HealthyStatus(docs, lines[q]);
    if q in plan.late {
      RefusalAllowed(docs, lines[q], plan.status);
    }
    hide Suits, StatusFor, Confirms, ApplyLine, Is2xx, Allows, Fold, Effective, Carried;
    var act := Apply(q, NextStatus(docs, lines, plan, q));
    assert Can(lines, docs, proc, act) && Follows(rules, lines, proc, act);
    TookNext(cfg, lines, docs0, docs, proc0, proc, plan);
  }

  lemma AcceptedStep(docs: Docs, lines: seq<Line>, plan: Plan)
    requires plan.order != [] && plan.order[|plan.order| - 1] < |lines|
    ensures var q := plan.order[|plan.order| - 1];
      Accepted(docs, lines, plan) == Accepted(docs, lines, Front(plan)) +
      if q !in plan.late && Is2xx(StatusFor(Fold(docs, Effective(lines, Front(plan))), lines[q]))
      then multiset{q} else multiset{}
  {
    hide StatusFor, Fold, Effective;
  }

  lemma TookNext(cfg: Config, lines: seq<Line>, docs0: Docs, docs: Docs, proc0: Proc, proc: Proc, plan: Plan)
    requires plan.order != [] && TakenUp(lines, docs0, proc0, proc, Front(plan))
    requires docs == Fold(docs0, Effective(lines, Front(plan))) && plan.order[|plan.order| - 1] < |lines|
    requires var q := plan.order[|plan.order| - 1];
      if q in plan.late then !Is2xx(plan.status) else Confirms(lines[q], StatusFor(docs, lines[q]))
    ensures var q := plan.order[|plan.order| - 1];
      TakenUp(lines, docs0, proc0, Acted(cfg, |lines|, proc, Apply(q, NextStatus(docs, lines, plan, q))), plan)
  {
    AcceptedStep(docs0, lines, plan);
    var q := plan.order[|plan.order| - 1];
    FitsNext(lines, proc.flight, plan, NextStatus(docs, lines, plan, q));
    hide StatusFor, Confirms, Is2xx, Fold, Effective, Accepted, Fits, Front;
  }

  /** Chunk `c` was at the beginning of a call in `w0`, and that call has since taken up the positions of the plan. */
  ghost predicate Midway(write: Write, w0: World, w: World, c: nat, plan: Plan) {
    && Ready(write, w0, c) && OthersSame(w0, w, c)
    && TakenUp(write.job.layout[c], w0.docs, w0.procs[c], w.procs[c], plan)
    && w.docs == Fold(w0.docs, Effective(write.job.layout[c], plan))
  }

  lemma MidwayStart(write: Write, w: World, c: nat, plan: Plan)
    requires Ready(write, w, c) && plan.order == []
    ensures Midway(write, w, w, c, plan)
  {
    hide Fits, Accepted, InWindow;
    NothingTaken(write.job.layout[c], w.docs, w.procs[c], plan);
  }

  lemma MidwayShape(write: Write, w0: World, w: World, c: nat, plan: Plan)
    requires Midway(write, w0, w, c, plan)
    ensures c < |write.job.layout| == |w0.procs| == |w.procs|
  {
    hide TakenUp, InWindow;
  }

  lemma MidwayMore(write: Write, rules: Rules, w0: World, w: World, c: nat, plan: Plan)
    requires plan.order != [] && c < |write.job.layout| && c < |w0.procs| && Midway(write, w0, w, c, Front(plan))
    requires Suits(plan, rules, write.job.layout[c])
    requires plan.order[|plan.order| - 1] in Carried(|write.job.layout[c]|, w0.procs[c].m)
    ensures plan.order[|plan.order| - 1] < |write.job.layout[c]|
    ensures var q := plan.order[|plan.order| - 1];
      var move := Does(c, Apply(q, NextStatus(w.docs, write.job.layout[c], plan, q)));
      Admits(write, rules, w, move) && Midway(write, w0, Moved(write, w, move), c, plan)
  {
    hide TakenUp, Can, Acted, Effect, Follows, InWindow, ApplyLine, Carried, Fold, Effective, Suits, Front;
    var lines := write.job.layout[c];
    WindowSame(write, w0, w, c);
    SameMachine(lines, w0.docs, w0.procs[c], w.procs[c], Front(plan));
    TakeNext(write.job.cfg, rules, lines, w0.docs, w.docs, w0.procs[c], w.procs[c], plan);
    EffectiveStep(w0.docs, lines, plan);
  }

  function Upto(plan: Plan, j: nat): Plan
    requires j <= |plan.order|
  {
    plan.(order := plan.order[..j])
  }

  lemma UptoFront(plan: Plan, j: nat)
    requires j < |plan.order|
    ensures Upto(Front(plan), j) == Upto(plan, j) && Upto(plan, |plan.order|) == plan
  {
    assert plan.order[..|plan.order| - 1][..j] == plan.order[..j];
    assert plan.order[..|plan.order|] == plan.order;
  }

  /** A call that has taken up the first `j` positions of a plan takes up the others. */
  lemma {:induction false} TakeRest(
    write: Write, rules: Rules, docs: Docs, before: seq<Move>, w0: World, c: nat, plan: Plan, j: nat)
    returns (moves: seq<Move>)
    requires Moves(write, rules, docs, before) && j <= |plan.order| && c < |write.job.layout| && c < |w0.procs|
    requires Midway(write, w0, After(write, docs, before), c, Upto(plan, j))
    requires Suits(plan, rules, write.job.layout[c])
    requires forall q :: q in plan.order ==> q in Carried(|write.job.layout[c]|, w0.procs[c].m)
    ensures Moves(write, rules, docs, moves) && before <= moves
    ensures Midway(write, w0, After(write, docs, moves), c, plan)
    decreases |plan.order|
  {
    hide Moves, After, Midway, Suits, Carried, NextStatus, Admits, Moved;
    if j == |plan.order| {
      moves := before;
      assert plan.order[..j] == plan.order;
    } else {
      SuitsFront(plan, rules, write.job.layout[c]);
      FrontWithin(plan, Carried(|write.job.layout[c]|, w0.procs[c].m));
      UptoFront(plan, j);
      moves := TakeRest(write, rules, docs, before, w0, c, Front(plan), j);
      hide Front, Upto;
      MidwayMore(write, rules, w0, After(write, docs, moves), c, plan);
      var q := plan.order[|plan.order| - 1];
      var status := NextStatus(After(write, docs, moves).docs, write.job.layout[c], plan, q);
      moves := MoreMoves(write, rules, docs, moves, Does(c, Apply(q, status)));
    }
  }

  /** A call takes up the positions of a plan. */
  lemma TakeUp(write: Write, rules: Rules, docs: Docs, before: seq<Move>, c: nat, plan: Plan)
    returns (moves: seq<Move>)
    requires Moves(write, rules, docs, before) && Ready(write, After(write, docs, before), c)
    requires Suits(plan, rules, write.job.layout[c])
    requires forall q :: q in plan.order ==>
      q in Carried(|write.job.layout[c]|, After(write, docs, before).procs[c].m)
    ensures Moves(write, rules, docs, moves) && before <= moves
    ensures Midway(write, After(write, docs, before), After(write, docs, moves), c, plan)
  {
    var w0 := After(write, docs, before);
    MidwayStart(write, w0, c, Upto(plan, 0));
    hide Moves, After, Midway, Suits, Carried, InWindow, Upto;
    moves := TakeRest(write, rules, docs, before, w0, c, plan, 0);
  }

  lemma FrontWithin(plan: Plan, carried: seq<nat>)
    requires plan.order != [] && forall q :: q in plan.order ==> q in carried
    ensures forall q :: q in Front(plan).order ==> q in carried
    ensures |Front(plan).order| < |plan.order| && plan.order[|plan.order| - 1] in carried
  {
  }

  lemma SameMachine(lines: seq<Line>, docs: Docs, proc0: Proc, proc: Proc, plan: Plan)
    requires TakenUp(lines, docs, proc0, proc, plan)
    ensures proc.m == proc0.m
  {
  }

  lemma EffectiveStep(docs: Docs, lines: seq<Line>, plan: Plan)
    requires plan.order != [] && plan.order[|plan.order| - 1] < |lines|
    ensures var q := plan.order[|plan.order| - 1];
      Fold(docs, Effective(lines, plan)) ==
      if q in plan.late then Fold(docs, Effective(lines, Front(plan)))
      else ApplyLine(Fold(docs, Effective(lines, Front(plan))), lines[q])
  {
    var q := plan.order[|plan.order| - 1];
    var front := Effective(lines, Front(plan));
    hide ApplyLine;
    if q in plan.late {
      assert front + [] == front;
    } else {
      assert (front + [lines[q]])[..|front|] == front;
    }
  }

  /* ---- how a call returns ---- */

  /** The positions of `pending` that are in `late`. */
  function LateOf(pending: seq<nat>, late: set<nat>): seq<nat> {
    if pending == [] then []
    else
      var last := pending[|pending| - 1];
      LateOf(pending[..|pending| - 1], late) + if last in late then [last] else []
  }

  lemma {:induction false} LateIn(pending: seq<nat>, late: set<nat>, q: nat)
    ensures q in LateOf(pending, late) <==> q in pending && q in late
  {
    if pending != [] {
      LateIn(pending[..|pending| - 1], late, q);
    }
  }

  lemma PlannedItem(cfg: Config, pending: seq<nat>, round: nat, k: nat, item: Item, t: Tally)
    requires k < |pending| && !t.broken
    ensures var t' := TallyItem(cfg, pending, round, k, item, t);
      && !t'.broken
      && (cfg.Retries(item, round) ==> t'.retry == t.retry + [pending[k]] && t'.counts.errors == t.counts.errors)
      && (!cfg.Retries(item, round) ==>
            && t'.retry == t.retry
            && t'.counts.errors == t.counts.errors + if OutcomeOf(item) == Error then 1 else 0)
    ensures cfg.Retries(item, round) ==> OutcomeOf(item) == Error
  {
    RejectionOutcome(item);
  }

  /** The items in `late` are queued for the next round, and the others are fine. */
  lemma {:induction false} TallyPlanned(
    cfg: Config, pending: seq<nat>, round: nat, items: seq<Item>, k: nat, t0: Tally, late: set<nat>)
    requires k <= |items| == |pending| && t0.retry == [] && !t0.broken
    requires forall i :: 0 <= i < |items| ==>
      if pending[i] in late then cfg.Retries(items[i], round) else OutcomeOf(items[i]) != Error
    ensures var t := TallyItems(cfg, pending, round, items, k, t0);
      !t.broken && t.counts.errors == t0.counts.errors && t.retry == LateOf(pending[..k], late)
  {
    if k > 0 {
      TallyPlanned(cfg, pending, round, items, k - 1, t0, late);
      PlannedItem(cfg, pending, round, k - 1, items[k - 1], TallyItems(cfg, pending, round, items, k - 1, t0));
      assert pending[..k][..k - 1] == pending[..k - 1];
      hide TallyItem, Config.Retries, OutcomeOf;
    }
  }

  function ItemFor(lines: seq<Line>, flight: map<nat, int>, q: nat): Item {
    Item(if q < |lines| then OpOf(lines[q]) else OpOther, if q in flight then Some(flight[q]) else None)
  }

  /** The items of a full reply, one for each line sent. */
  function ItemsFor(lines: seq<Line>, pending: seq<nat>, flight: map<nat, int>): seq<Item> {
    seq(|pending|, i requires 0 <= i < |pending| => ItemFor(lines, flight, pending[i]))
  }

  /** The lines that the plan refuses in this round are sent again. */
  ghost predicate SentAgain(cfg: Config, lines: seq<Line>, plan: Plan, round: nat) {
    forall q :: q in plan.late && q < |lines| ==> cfg.Retries(Item(OpOf(lines[q]), Some(plan.status)), round)
  }

  /** The plan takes up just the positions that the call carries. */
  ghost predicate Covers(plan: Plan, carried: seq<nat>) {
    forall q: nat :: q in plan.order <==> q in carried
  }

  lemma ItemsPlanned(cfg: Config, lines: seq<Line>, flight: map<nat, int>, plan: Plan, pending: seq<nat>, round: nat)
    requires Fits(lines, flight, plan) && Covers(plan, pending) && SentAgain(cfg, lines, plan, round)
    ensures var items := ItemsFor(lines, pending, flight);
      forall i :: 0 <= i < |items| ==>
        if pending[i] in plan.late then cfg.Retries(items[i], round) else OutcomeOf(items[i]) != Error
  {
    hide Config.Retries, OutcomeOf;
    forall i | 0 <= i < |pending| ensures pending[i] in flight && pending[i] in pending {
    }
  }

  lemma ItemsTrue(lines: seq<Line>, proc: Proc, plan: Plan)
    requires proc.m.phase.Shipping? && Fits(lines, proc.flight, plan) && Covers(plan, proc.m.phase.pending)
    ensures Truthful(lines, proc, Reply(None, Some(ItemsFor(lines, proc.m.phase.pending, proc.flight))))
  {
    hide Confirms;
    var pending := proc.m.phase.pending;
    forall i | 0 <= i < |pending| ensures pending[i] in pending && pending[i] in proc.flight {
    }
  }

  predicate InRound(phase: Phase, pending: seq<nat>, round: nat) {
    phase.Shipping? && phase.pending == pending && phase.round == round
  }

  /** The phase after a round in which the lines in `late` were refused. */
  function AfterPlan(pending: seq<nat>, round: nat, late: set<nat>): Phase {
    if LateOf(pending, late) == [] then Done else Shipping(LateOf(pending, late), round + 1, 0)
  }

  /** A round returns: the refused lines go out again, and the others are settled. */
  lemma RoundReturns(cfg: Config, lines: seq<Line>, docs: Docs, proc: Proc, plan: Plan, pending: seq<nat>, round: nat)
    requires InRound(proc.m.phase, pending, round) && Fits(lines, proc.flight, plan) && Covers(plan, pending)
    requires SentAgain(cfg, lines, plan, round)
    ensures var act := Returned(Reply(None, Some(ItemsFor(lines, pending, proc.flight))));
      var proc' := Acted(cfg, |lines|, proc, act);
      && Can(lines, docs, proc, act)
      && proc'.m.phase == AfterPlan(pending, round, plan.late)
      && proc'.m.counts.errors == proc.m.counts.errors && proc'.flight == map[] && proc'.landed == proc.landed
  {
    var items := ItemsFor(lines, pending, proc.flight);
    ItemsPlanned(cfg, lines, proc.flight, plan, pending, round);
    TallyPlanned(cfg, pending, round, items, |items|, FirstTally(proc.m), plan.late);
    assert pending[..|items|] == pending;
    ItemsTrue(lines, proc, plan);
    hide TallyItems, Fits, Covers, SentAgain, Config.Retries, OutcomeOf, LateOf, ItemsFor, Truthful;
  }

  /** A probe returns, with the flag the model asks for or with none. */
  function Flag(lines: seq<Line>, flight: map<nat, int>, absent: bool): Answer {
    Reply(if absent then None else Some(!AllAccepted(lines, flight)), None)
  }

  lemma ProbeReturns(cfg: Config, rules: Rules, lines: seq<Line>, docs: Docs, proc: Proc, absent: bool)
    requires proc.m.phase.Probing? && (absent ==> !rules.honest)
    ensures var act := Returned(Flag(lines, proc.flight, absent));
      var proc' := Acted(cfg, |lines|, proc, act);
      && Can(lines, docs, proc, act) && Follows(rules, lines, proc, act)
      && proc'.m.phase == (if !absent && AllAccepted(lines, proc.flight) then Done else BeginRounds(|lines|))
      && proc'.m.counts.errors == proc.m.counts.errors && proc'.flight == map[] && proc'.landed == proc.landed
  {
    hide All, Settle, BeginRounds;
  }

  lemma ReturnsLater(rules: Rules, lines: seq<Line>, proc: Proc, a: Answer)
    requires a.Reply? && !proc.m.phase.Probing?
    ensures Follows(rules, lines, proc, Returned(a))
  {
  }

  lemma NoEffect(lines: seq<Line>, docs: Docs, a: Answer)
    ensures Effect(lines, docs, Returned(a)) == docs
  {
  }

  /* ---- whole calls ---- */

  lemma CoversWithin(plan: Plan, carried: seq<nat>)
    requires Covers(plan, carried)
    ensures forall q :: q in plan.order ==> q in carried
  {
  }

  /** What one call of chunk `c` has done between two worlds. */
  ghost predicate Called(write: Write, w: World, w': World, c: nat, plan: Plan) {
    && c < |w.procs| && c < |write.job.layout| && OthersSame(w, w', c)
    && w'.docs == Fold(w.docs, Effective(write.job.layout[c], plan))
    && w'.procs[c].landed == w.procs[c].landed + Accepted(w.docs, write.job.layout[c], plan)
    && w'.procs[c].m.counts.errors == w.procs[c].m.counts.errors && w'.procs[c].flight == map[]
  }

  /** The call of a plan ends. */
  lemma Ended(write: Write, rules: Rules, w0: World, w: World, c: nat, plan: Plan, a: Answer)
    requires Midway(write, w0, w, c, plan)
    requires Can(write.job.layout[c], w.docs, w.procs[c], Returned(a))
    requires Follows(rules, write.job.layout[c], w.procs[c], Returned(a))
    ensures Admits(write, rules, w, Does(c, Returned(a)))
    ensures var w' := Moved(write, w, Does(c, Returned(a)));
      && OthersSame(w0, w', c) && w'.docs == Fold(w0.docs, Effective(write.job.layout[c], plan))
      && w'.procs[c] == Acted(write.job.cfg, |write.job.layout[c]|, w.procs[c], Returned(a))
  {
    NoEffect(write.job.layout[c], w.docs, a);
    WindowSame(write, w0, w, c);
    hide Can, Acted, Effect, Fits, Fold, Effective, Accepted, InWindow, Follows;
  }

  /** The call of a plan ends without a new error. */
  lemma Completed(write: Write, rules: Rules, w0: World, w: World, c: nat, plan: Plan, a: Answer)
    requires Midway(write, w0, w, c, plan)
    requires Can(write.job.layout[c], w.docs, w.procs[c], Returned(a))
    requires Follows(rules, write.job.layout[c], w.procs[c], Returned(a))
    requires var proc' := Acted(write.job.cfg, |write.job.layout[c]|, w.procs[c], Returned(a));
      && proc'.m.counts.errors == w.procs[c].m.counts.errors && proc'.flight == map[]
      && proc'.landed == w.procs[c].landed
    ensures Admits(write, rules, w, Does(c, Returned(a)))
    ensures var w' := Moved(write, w, Does(c, Returned(a)));
      && Called(write, w0, w', c, plan)
      && w'.procs[c] == Acted(write.job.cfg, |write.job.layout[c]|, w.procs[c], Returned(a))
  {
    Ended(write, rules, w0, w, c, plan, a);
    hide Can, Acted, Effect, Fits, Fold, Effective, Accepted, InWindow, Follows, Moved, Admits;
  }

  lemma MidwayFits(write: Write, w0: World, w: World, c: nat, plan: Plan)
    requires Midway(write, w0, w, c, plan)
    ensures w.procs[c].m == w0.procs[c].m && Fits(write.job.layout[c], w.procs[c].flight, plan)
  {
    hide Fits, Accepted, InWindow;
  }

  /** The round of a plan returns. */
  lemma EndRound(write: Write, rules: Rules, docs: Docs, before: seq<Move>, w0: World, c: nat, plan: Plan,
                 pending: seq<nat>, round: nat) returns (moves: seq<Move>)
    requires Moves(write, rules, docs, before) && Midway(write, w0, After(write, docs, before), c, plan)
    requires InRound(w0.procs[c].m.phase, pending, round) && Covers(plan, pending)
    requires SentAgain(write.job.cfg, write.job.layout[c], plan, round)
    ensures Moves(write, rules, docs, moves) && before <= moves
    ensures Called(write, w0, After(write, docs, moves), c, plan)
    ensures After(write, docs, moves).procs[c].m.phase == AfterPlan(pending, round, plan.late)
  {
    var w := After(write, docs, before);
    MidwayShape(write, w0, w, c, plan);
    CarriesPending(|write.job.layout[c]|, w0.procs[c].m, pending, round);
    hide *;
    var lines := write.job.layout[c];
    MidwayFits(write, w0, w, c, plan);
    RoundReturns(write.job.cfg, lines, w.docs, w.procs[c], plan, pending, round);
    var reply := Reply(None, Some(ItemsFor(lines, pending, w.procs[c].flight)));
    ReturnsLater(rules, lines, w.procs[c], reply);
    Completed(write, rules, w0, w, c, plan, reply);
    moves := MoreMoves(write, rules, docs, before, Does(c, Returned(reply)));
  }

  /** A round of full sends after a plan. */
  lemma RunRound(write: Write, rules: Rules, docs: Docs, before: seq<Move>, c: nat, plan: Plan,
                 pending: seq<nat>, round: nat) returns (moves: seq<Move>)
    requires Moves(write, rules, docs, before) && Ready(write, After(write, docs, before), c)
    requires InRound(After(write, docs, before).procs[c].m.phase, pending, round)
    requires Suits(plan, rules, write.job.layout[c]) && Covers(plan, pending)
    requires SentAgain(write.job.cfg, write.job.layout[c], plan, round)
    ensures Moves(write, rules, docs, moves) && before <= moves
    ensures Called(write, After(write, docs, before), After(write, docs, moves), c, plan)
    ensures After(write, docs, moves).procs[c].m.phase == AfterPlan(pending, round, plan.late)
  {
    var w0 := After(write, docs, before);
    CoversWithin(plan, pending);
    ReadyHas(write, w0, c);
    CarriesPending(|write.job.layout[c]|, w0.procs[c].m, pending, round);
    hide *;
    moves := TakeUp(write, rules, docs, before, c, plan);
    moves := EndRound(write, rules, docs, moves, w0, c, plan, pending, round);
  }

  lemma CarriesPending(n: nat, m: Machine, pending: seq<nat>, round: nat)
    requires InRound(m.phase, pending, round)
    ensures Carried(n, m) == pending && !m.phase.Probing?
  {
  }

  lemma ProbeCarries(n: nat, m: Machine)
    requires m.phase.Probing?
    ensures Carried(n, m) == All(n)
  {
    hide All;
  }

  lemma ReadyHas(write: Write, w: World, c: nat)
    requires Ready(write, w, c)
    ensures c < |write.job.layout| == |w.procs|
  {
  }

  /** The probe of a plan returns: the chunk is settled, or begins its rounds. */
  lemma EndProbe(write: Write, rules: Rules, docs: Docs, before: seq<Move>, w0: World, c: nat, plan: Plan, absent: bool)
    returns (moves: seq<Move>)
    requires Moves(write, rules, docs, before) && Midway(write, w0, After(write, docs, before), c, plan)
    requires w0.procs[c].m.phase.Probing? && Suits(plan, rules, write.job.layout[c])
    requires Covers(plan, All(|write.job.layout[c]|)) && (absent ==> !rules.honest)
    ensures Moves(write, rules, docs, moves) && before <= moves
    ensures Called(write, w0, After(write, docs, moves), c, plan)
    ensures After(write, docs, moves).procs[c].m.phase == BeginRounds(|write.job.layout[c]|) ||
            (plan.late == {} && !absent && After(write, docs, moves).procs[c].m.phase == Done)
  {
    var w := After(write, docs, before);
    MidwayShape(write, w0, w, c, plan);
    hide *;
    var lines := write.job.layout[c];
    MidwayFits(write, w0, w, c, plan);
    LateNotAccepted(rules, lines, w.procs[c].flight, plan);
    ProbeReturns(write.job.cfg, rules, lines, w.docs, w.procs[c], absent);
    var reply := Flag(lines, w.procs[c].flight, absent);
    Completed(write, rules, w0, w, c, plan, reply);
    moves := MoreMoves(write, rules, docs, before, Does(c, Returned(reply)));
  }

  /** A probe after a plan. */
  lemma RunProbe(write: Write, rules: Rules, docs: Docs, before: seq<Move>, c: nat, plan: Plan, absent: bool)
    returns (moves: seq<Move>)
    requires Moves(write, rules, docs, before) && Ready(write, After(write, docs, before), c)
    requires After(write, docs, before).procs[c].m.phase.Probing? && Suits(plan, rules, write.job.layout[c])
    requires Covers(plan, All(|write.job.layout[c]|)) && (absent ==> !rules.honest)
    ensures Moves(write, rules, docs, moves) && before <= moves
    ensures Called(write, After(write, docs, before), After(write, docs, moves), c, plan)
    ensures After(write, docs, moves).procs[c].m.phase == BeginRounds(|write.job.layout[c]|) ||
            (plan.late == {} && !absent && After(write, docs, moves).procs[c].m.phase == Done)
  {
    var w0 := After(write, docs, before);
    ReadyHas(write, w0, c);
    CoversWithin(plan, All(|write.job.layout[c]|));
    ProbeCarries(|write.job.layout[c]|, w0.procs[c].m);
    hide *;
    moves := TakeUp(write, rules, docs, before, c, plan);
    moves := EndProbe(write, rules, docs, moves, w0, c, plan, absent);
  }

  lemma LateNotAccepted(rules: Rules, lines: seq<Line>, flight: map<nat, int>, plan: Plan)
    requires Suits(plan, rules, lines) && Fits(lines, flight, plan) && Covers(plan, All(|lines|))
    ensures plan.late != {} ==> !AllAccepted(lines, flight)
  {
    if q :| q in plan.late {
      AllPositions(|lines|);
      assert q in plan.order && q in flight;
    }
  }
}

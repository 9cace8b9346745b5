/** When the outcomes counted are the acceptances made. */
module ExactCounts {
  // For a line without an id every acceptance is a document in the index, for a create it is the one that added its
  // id. What was accepted and is not counted can never be made up for: that decides when the counts are exact.

  import opened Wrappers
  import opened BulkOutcome
  import opened ChunkProtocol
  import opened Documents
  import opened Cluster
  import opened Confluence
  import opened AppendOnly
  import opened Copies
  import opened Windows
  import opened ChunkRounds
  import opened Schedules
  import opened Scripts
  import opened WordScripts
  import opened Turns

  /** Each line has been accepted as often as it is counted written or deleted. */
  ghost predicate Exact(w: World) {
    forall c: nat, p: nat :: c < |w.procs| ==> w.procs[c].landed[p] == Kept(w.procs[c], p)
  }

  /** So it is after every run that finishes, from whatever index. */
  ghost predicate CountsExactly(write: Write, rules: Rules) {
    forall docs, moves :: Moves(write, rules, docs, moves) && Finished(After(write, docs, moves)) ==>
      Exact(After(write, docs, moves))
  }

  predicate NoLine(layout: seq<seq<Line>>) {
    forall c :: 0 <= c < |layout| ==> layout[c] == []
  }

  predicate OneLineEach(layout: seq<seq<Line>>) {
    forall c :: 0 <= c < |layout| ==> |layout[c]| <= 1
  }

  /** No call raises, nothing is started over, no call takes up a line twice, and what is probed has one line and a flag
      that tells the truth. */
  predicate Careful(write: Write, rules: Rules) {
    && !rules.raises && !rules.restarts && (rules.once || rules.ordered)
    && (write.job.cfg.Probes() ==> rules.honest && OneLineEach(write.job.layout))
  }

  /* ---- acceptances are never made up for ---- */

  /** The line has been accepted at least `k` times more than the ledger and the call in flight show. */
  ghost predicate Lost(proc: Proc, p: nat, k: nat) {
    proc.landed[p] >= Kept(proc, p) + InFlight(proc, p) + k
  }

  /** The end of a call counts no acceptance but those of the call. */
  lemma KeptAfter(cfg: Config, lines: seq<Line>, proc: Proc, a: Answer, p: nat)
    requires ProcOk(cfg, |lines|, proc) && proc.m.Active() && Truthful(lines, proc, a)
    ensures Kept(Acted(cfg, |lines|, proc, Returned(a)), p) <= Kept(proc, p) + InFlight(proc, p)
  {
    SettledNow(cfg, lines, proc, a, p);
    hide Next, ProcOk, Truthful;
  }

  lemma LostActed(cfg: Config, lines: seq<Line>, docs: Docs, proc: Proc, act: Act, p: nat, k: nat)
    requires ProcOk(cfg, |lines|, proc) && Can(lines, docs, proc, act) && Lost(proc, p, k)
    ensures Lost(Acted(cfg, |lines|, proc, act), p, k)
  {
    match act
    case Apply(q, status) => hide Shaped, CountsMatch;
    case Returned(a) =>
      KeptAfter(cfg, lines, proc, a, p);
      hide ProcOk, Truthful, Next;
    case Restart => hide ProcOk, Start;
  }

  /** A line that is taken up again after it was accepted is lost once more. */
  lemma LostTwice(cfg: Config, lines: seq<Line>, docs: Docs, proc: Proc, p: nat, status: int)
    requires ProcOk(cfg, |lines|, proc) && Can(lines, docs, proc, Apply(p, status)) && Lost(proc, p, 0)
    requires p in proc.flight && Is2xx(proc.flight[p])
    ensures Lost(Acted(cfg, |lines|, proc, Apply(p, status)), p, 1)
  {
    hide Shaped, CountsMatch;
  }

  lemma LostMoved(write: Write, rules: Rules, w: World, move: Move, c: nat, p: nat, k: nat)
    requires AllOk(write.job, w) && Admits(write, rules, w, move) && c < |w.procs| && Lost(w.procs[c], p, k)
    ensures c < |Moved(write, w, move).procs| && Lost(Moved(write, w, move).procs[c], p, k)
  {
    var job := write.job;
    match move
    case Does(d, act) =>
      if d == c {
        LostActed(job.cfg, job.layout[c], w.docs, w.procs[c], act, p, k);
      }
      hide Lost, ChunkOk, Can, Acted, Effect, Follows, InWindow;
    case StartOver(i) =>
      LostActed(job.cfg, job.layout[c], w.docs, w.procs[c], Restart, p, k);
      hide Lost, ChunkOk, Acted;
  }

  lemma {:induction false} AllOkAfter(write: Write, rules: Rules, docs: Docs, moves: seq<Move>)
    requires Moves(write, rules, docs, moves)
    ensures AllOk(write.job, After(write, docs, moves))
  {
    hide AllOk, Begin, Moved, Admits;
    if moves == [] {
      AllOkBegin(write.job, docs);
    } else {
      AllOkAfter(write, rules, docs, moves[..|moves| - 1]);
      AllOkMoved(write, rules, After(write, docs, moves[..|moves| - 1]), moves[|moves| - 1]);
    }
  }

  /** What is lost is lost for good. */
  lemma {:induction false} LostForGood(
    write: Write, rules: Rules, docs: Docs, before: seq<Move>, moves: seq<Move>, c: nat, p: nat, k: nat)
    requires Moves(write, rules, docs, moves) && before <= moves
    requires c < |After(write, docs, before).procs| && Lost(After(write, docs, before).procs[c], p, k)
    ensures c < |After(write, docs, moves).procs| && Lost(After(write, docs, moves).procs[c], p, k)
  {
    hide Lost, Begin, Moved, Admits, AllOk;
    if |moves| > |before| {
      var front := moves[..|moves| - 1];
      assert before <= front;
      LostForGood(write, rules, docs, before, front, c, p, k);
      AllOkAfter(write, rules, docs, front);
      LostMoved(write, rules, After(write, docs, front), moves[|moves| - 1], c, p, k);
    } else {
      assert moves == before;
    }
  }

  /** Nothing is ever counted that was not accepted. */
  lemma NeverTooMany(write: Write, rules: Rules, docs: Docs, moves: seq<Move>, c: nat, p: nat)
    requires Moves(write, rules, docs, moves) && c < |write.job.layout|
    ensures c < |After(write, docs, moves).procs| && Lost(After(write, docs, moves).procs[c], p, 0)
  {
    LostAtStart(write, docs, c, p);
    hide Lost, Moves, After;
    LostForGood(write, rules, docs, [], moves, c, p, 0);
  }

  lemma LostAtStart(write: Write, docs: Docs, c: nat, p: nat)
    requires c < |write.job.layout|
    ensures c < |After(write, docs, []).procs| && Lost(After(write, docs, []).procs[c], p, 0)
  {
    assert After(write, docs, []) == Begin(write.job, docs);
  }

  /* ---- nothing is lost by a careful write ---- */

  /** The acceptances are what the ledger and the call in flight show. */
  ghost predicate Shown(proc: Proc, p: nat) {
    proc.landed[p] == Kept(proc, p) + InFlight(proc, p)
  }

  /** What a chunk may do in a careful write. */
  ghost predicate CarefulAct(rules: Rules, lines: seq<Line>, proc: Proc, act: Act) {
    && (rules.once || rules.ordered) && !rules.raises && Follows(rules, lines, proc, act)
    && (proc.m.phase.Probing? ==> rules.honest && |lines| <= 1)
  }

  lemma ShownApplied(cfg: Config, rules: Rules, lines: seq<Line>, docs: Docs, proc: Proc, q: nat, status: int, p: nat)
    requires ProcOk(cfg, |lines|, proc) && Can(lines, docs, proc, Apply(q, status)) && Shown(proc, p)
    requires CarefulAct(rules, lines, proc, Apply(q, status))
    ensures Shown(Acted(cfg, |lines|, proc, Apply(q, status)), p)
  {
    hide Shaped, CountsMatch;
  }

  /** The call in flight has had nothing accepted. */
  predicate NoneAccepted(flight: map<nat, int>) {
    forall p :: p in flight ==> !Is2xx(flight[p])
  }

  /** A probe that tells the truth leaves every acceptance shown if and only if all its lines were accepted, or none. */
  lemma ProbeShowsExactly(cfg: Config, lines: seq<Line>, proc: Proc, a: Answer)
    requires ProcOk(cfg, |lines|, proc) && proc.m.phase.Probing? && Truthful(lines, proc, a)
    requires a.Reply? && a.errors == Some(!AllAccepted(lines, proc.flight)) && forall p: nat :: Shown(proc, p)
    ensures (forall p: nat :: Shown(Acted(cfg, |lines|, proc, Returned(a)), p)) <==>
            AllAccepted(lines, proc.flight) || NoneAccepted(proc.flight)
  {
    var proc' := Acted(cfg, |lines|, proc, Returned(a));
    hide ProcOk, Truthful, Next, AllAccepted, Kept;
    forall p: nat
      ensures Shown(proc', p) <==> AllAccepted(lines, proc.flight) || InFlight(proc, p) == 0
    {
      ProbeKeeps(cfg, lines, proc, a, p);
      assert Shown(proc, p);
    }
    if p: nat :| p in proc.flight && Is2xx(proc.flight[p]) {
      assert InFlight(proc, p) == 1;
    }
  }

  /** An honest probe of one line that comes back not clean has had nothing accepted. */
  lemma ShownProbed(cfg: Config, rules: Rules, lines: seq<Line>, proc: Proc, a: Answer, p: nat)
    requires ProcOk(cfg, |lines|, proc) && proc.m.phase.Probing? && Truthful(lines, proc, a) && Shown(proc, p)
    requires CarefulAct(rules, lines, proc, Returned(a))
    ensures Shown(Acted(cfg, |lines|, proc, Returned(a)), p)
  {
    ProbeKeeps(cfg, lines, proc, a, p);
    CarriedBelow(cfg, |lines|, proc.m);
    hide Next, Truthful, Shaped, Ledger;
  }

  lemma ShownReturned(cfg: Config, rules: Rules, lines: seq<Line>, proc: Proc, a: Answer, p: nat)
    requires ProcOk(cfg, |lines|, proc) && proc.m.Active() && Truthful(lines, proc, a) && Shown(proc, p)
    requires CarefulAct(rules, lines, proc, Returned(a))
    ensures Shown(Acted(cfg, |lines|, proc, Returned(a)), p)
  {
    if proc.m.phase.Probing? {
      ShownProbed(cfg, rules, lines, proc, a, p);
    } else {
      ReplyKeeps(cfg, lines, proc, a, p);
      hide ProcOk, Truthful, Next;
    }
  }

  ghost predicate AllShown(w: World) {
    forall c: nat, p: nat :: c < |w.procs| ==> Shown(w.procs[c], p)
  }

  /** Only a write that probes has a chunk that is probed. */
  ghost predicate ProbesAsTold(cfg: Config, w: World) {
    forall c :: 0 <= c < |w.procs| && w.procs[c].m.phase.Probing? ==> cfg.Probes()
  }

  lemma ProbesIfOk(job: Job, w: World)
    requires AllOk(job, w)
    ensures ProbesAsTold(job.cfg, w) && |w.procs| == |job.layout|
  {
    hide Ledger, RoundsOk;
  }

  lemma ShownMoved(write: Write, rules: Rules, w: World, move: Move)
    requires Careful(write, rules) && AllOk(write.job, w) && AllShown(w) && Admits(write, rules, w, move)
    ensures AllShown(Moved(write, w, move))
  {
    var job, c, act := write.job, move.c, move.act;
    ProbesIfOk(job, w);
    var lines, proc := job.layout[c], w.procs[c];
    assert CarefulAct(rules, lines, proc, act);
    assert ProcOk(job.cfg, |lines|, proc) && Can(lines, w.docs, proc, act);
    hide AllOk, ProcOk, CarefulAct, Shown, Careful, Follows, InWindow, Effect, Truthful, Next, ProbesAsTold;
    forall p: nat ensures Shown(Acted(job.cfg, |lines|, proc, act), p) {
      if act.Apply? {
        ShownApplied(job.cfg, rules, lines, w.docs, proc, act.p, act.status, p);
      } else if act.Returned? {
        ShownReturned(job.cfg, rules, lines, proc, act.a, p);
      }
    }
  }

  lemma {:induction false} EveryRunShows(write: Write, rules: Rules, docs: Docs, moves: seq<Move>)
    requires Careful(write, rules) && Moves(write, rules, docs, moves)
    ensures AllOk(write.job, After(write, docs, moves)) && AllShown(After(write, docs, moves))
  {
    hide AllOk, AllShown, Begin, Moved, Admits, Careful;
    if moves == [] {
      AllOkBegin(write.job, docs);
      ShownBegin(write.job, docs);
    } else {
      var front := moves[..|moves| - 1];
      EveryRunShows(write, rules, docs, front);
      AllOkMoved(write, rules, After(write, docs, front), moves[|moves| - 1]);
      ShownMoved(write, rules, After(write, docs, front), moves[|moves| - 1]);
    }
  }

  lemma ShownBegin(job: Job, docs: Docs)
    ensures AllShown(Begin(job, docs))
  {
  }

  /** A finished chunk has no call in flight. */
  lemma NothingInFlight(cfg: Config, n: nat, proc: Proc, p: nat)
    requires ProcOk(cfg, n, proc) && proc.m.phase.Done?
    ensures InFlight(proc, p) == 0
  {
    hide Ledger, Shaped;
  }

  lemma ShownIsExact(job: Job, w: World)
    requires AllOk(job, w) && AllShown(w) && Finished(w)
    ensures Exact(w)
  {
    hide ProcOk, Kept, InFlight;
    forall c: nat, p: nat | c < |w.procs| ensures w.procs[c].landed[p] == Kept(w.procs[c], p) {
      assert ChunkOk(job.cfg, job.layout[c], w.procs[c]) && Shown(w.procs[c], p);
      NothingInFlight(job.cfg, |job.layout[c]|, w.procs[c], p);
    }
  }

  /** A chunk without lines has none accepted. */
  ghost predicate NoneLanded(w: World) {
    forall c :: 0 <= c < |w.procs| ==> w.procs[c].landed == multiset{}
  }

  lemma {:induction false} NoLineLands(write: Write, docs: Docs, moves: seq<Move>)
    requires NoLine(write.job.layout)
    ensures NoneLanded(After(write, docs, moves))
  {
    hide Start, Next, Effect, Truthful;
    if moves != [] {
      NoLineLands(write, docs, moves[..|moves| - 1]);
    }
  }

  lemma NoLineIsExact(write: Write, rules: Rules, docs: Docs, moves: seq<Move>)
    requires NoLine(write.job.layout) && Moves(write, rules, docs, moves)
    ensures Exact(After(write, docs, moves))
  {
    NoLineLands(write, docs, moves);
    AllOkAfter(write, rules, docs, moves);
    var w := After(write, docs, moves);
    hide Moves, After;
    forall c: nat, p: nat | c < |w.procs| ensures w.procs[c].landed[p] == Kept(w.procs[c], p) {
      assert ChunkOk(write.job.cfg, write.job.layout[c], w.procs[c]);
    }
  }

  lemma CarefulIsExact(write: Write, rules: Rules)
    requires NoLine(write.job.layout) || Careful(write, rules)
    ensures CountsExactly(write, rules)
  {
    hide Moves, After, Finished, Exact, NoLine, Careful, AllOk, AllShown;
    forall docs, moves | Moves(write, rules, docs, moves) && Finished(After(write, docs, moves))
      ensures Exact(After(write, docs, moves))
    {
      if NoLine(write.job.layout) {
        NoLineIsExact(write, rules, docs, moves);
      } else {
        EveryRunShows(write, rules, docs, moves);
        ShownIsExact(write.job, After(write, docs, moves));
      }
    }
  }

  /* ---- any other write can lose an acceptance ---- */

  lemma LostIsNotExact(write: Write, rules: Rules, docs: Docs, moves: seq<Move>, c: nat, p: nat)
    requires Moves(write, rules, docs, moves) && Finished(After(write, docs, moves))
    requires c < |After(write, docs, moves).procs| && Lost(After(write, docs, moves).procs[c], p, 1)
    ensures !CountsExactly(write, rules)
  {
    hide Moves, After, Finished, Kept, InFlight;
    assert !Exact(After(write, docs, moves));
  }

  /** An index in which the line will be accepted. */
  function DocsFor(line: Line): Docs {
    match line
    case Delete(id) => map[id := ""]
    case _ => map[]
  }

  lemma Welcome(line: Line)
    ensures Is2xx(StatusFor(DocsFor(line), line))
  {
  }

  /** If a chunk can come to its end with a line lost, after those before it in its partition were refused, the write
      does not count exactly. */
  lemma EndsInexactly(write: Write, rules: Rules, docs: Docs, before: seq<Move>, w1: World, c: nat, p: nat)
    requires Moves(write, rules, docs, before) && write.Valid() && c < |write.part|
    requires RanFirst(write, docs, w1, After(write, docs, before), Earlier(write, c), c, false)
    requires c < |After(write, docs, before).procs| && Lost(After(write, docs, before).procs[c], p, 1)
    ensures !CountsExactly(write, rules)
  {
    hide Moves, After, Finished, Lost, CountsExactly, RanFirst, Earlier, EndedWell, AllSpare, Rest;
    var moves := RunAfter(write, rules, docs, before, w1, Earlier(write, c), c, false, "");
    LostIsNotExact(write, rules, docs, moves, c, p);
  }

  /** The first position that a plan takes up is accepted, if the index welcomes its line. */
  lemma {:induction false} FirstAccepted(docs: Docs, lines: seq<Line>, plan: Plan)
    requires plan.order != [] && plan.order[0] < |lines| && plan.order[0] !in plan.late
    requires Is2xx(StatusFor(docs, lines[plan.order[0]]))
    ensures plan.order[0] in Accepted(docs, lines, plan)
    decreases |plan.order|
  {
    if |plan.order| == 1 {
      NothingEffective(lines, Front(plan));
      assert Fold(docs, []) == docs;
      hide Effective, Is2xx, StatusFor;
    } else {
      FirstAccepted(docs, lines, Front(plan));
      hide Effective, Is2xx, StatusFor, Fold;
    }
  }

  /** The chunks before `c` in its partition are refused, and the index welcomes the first line of `c`. */
  lemma RefuseEarlier(write: Write, rules: Rules, c: nat) returns (docs: Docs, moves: seq<Move>)
    requires write.Valid() && c < |write.part| && write.job.layout[c] != []
    ensures Moves(write, rules, docs, moves) && UpNext(write, After(write, docs, moves), c)
    ensures HadTurns(Begin(write.job, docs), After(write, docs, moves), Earlier(write, c), |write.job.layout|, false)
    ensures After(write, docs, moves).docs == docs && Is2xx(StatusFor(docs, write.job.layout[c][0]))
    ensures Opens(write, Earlier(write, c), c)
  {
    EarlierCanRun(write, c);
    docs := DocsFor(write.job.layout[c][0]);
    Welcome(write.job.layout[c][0]);
    hide Moves, After, UpNext, HadTurns, Opens, Earlier, StatusFor, Is2xx, DocsFor, AllSpare;
    moves := RunBefore(write, rules, docs, Earlier(write, c), c, false, "");
  }

  lemma SameTwice(w0: World, w1: World, w2: World, c: nat)
    requires OthersSame(w0, w1, c) && OthersSame(w1, w2, c)
    ensures OthersSame(w0, w2, c)
  {
  }

  /** A line that was accepted before the full sends begin is lost. */
  lemma LostBeforeRounds(cfg: Config, lines: seq<Line>, proc: Proc, p: nat)
    requires ChunkOk(cfg, lines, proc) && lines != [] && proc.m.phase == BeginRounds(|lines|) && proc.flight == map[]
    requires p < |lines| && p in proc.landed
    ensures Lost(proc, p, 1)
  {
    AllPositions(|lines|);
    hide Shaped, CountsMatch, RoundsOk, All;
  }

  /** What a call has accepted. */
  lemma CalledLanded(write: Write, w: World, w': World, c: nat, plan: Plan)
    requires Called(write, w, w', c, plan) && plan.order != [] && plan.order[0] < |write.job.layout[c]|
    requires plan.order[0] !in plan.late && Is2xx(StatusFor(w.docs, write.job.layout[c][plan.order[0]]))
    ensures c < |w'.procs| && plan.order[0] in w'.procs[c].landed && w'.procs[c].flight == map[]
    ensures OthersSame(w, w', c)
  {
    FirstAccepted(w.docs, write.job.layout[c], plan);
    hide Accepted, Effective, Fold, StatusFor, Is2xx;
  }

  lemma InOrderBegins(n: nat, late: set<nat>, status: int)
    requires n > 0
    ensures InOrder(n, late, status).order != [] && InOrder(n, late, status).order[0] == 0
  {
  }

  lemma BeganRounds(write: Write, rules: Rules, docs: Docs, moves: seq<Move>, c: nat)
    requires Moves(write, rules, docs, moves) && c < |write.job.layout| && write.job.layout[c] != []
    requires c < |After(write, docs, moves).procs| && 0 in After(write, docs, moves).procs[c].landed
    requires After(write, docs, moves).procs[c].m.phase == BeginRounds(|write.job.layout[c]|)
    requires After(write, docs, moves).procs[c].flight == map[]
    ensures Lost(After(write, docs, moves).procs[c], 0, 1)
  {
    AllOkAfter(write, rules, docs, moves);
    hide Moves, After, ChunkOk, Lost, BeginRounds;
    LostBeforeRounds(write.job.cfg, write.job.layout[c], After(write, docs, moves).procs[c], 0);
  }

  /** A probe has its first line accepted and comes back not clean, or without its flag. */
  lemma LoseInProbe(write: Write, rules: Rules, docs: Docs, before: seq<Move>, c: nat, late: set<nat>, absent: bool)
    returns (moves: seq<Move>)
    requires Moves(write, rules, docs, before) && UpNext(write, After(write, docs, before), c)
    requires write.job.cfg.Probes() && write.job.layout[c] != []
    requires Is2xx(StatusFor(After(write, docs, before).docs, write.job.layout[c][0]))
    requires 0 !in late && forall q :: q in late ==> q < |write.job.layout[c]|
    requires if absent then !rules.honest else late != {}
    ensures Moves(write, rules, docs, moves) && before <= moves
    ensures OthersSame(After(write, docs, before), After(write, docs, moves), c)
    ensures Ready(write, After(write, docs, moves), c) && Lost(After(write, docs, moves).procs[c], 0, 1)
    ensures Open(|write.job.layout[c]|, After(write, docs, moves).procs[c])
    ensures !After(write, docs, moves).procs[c].m.phase.Probing?
  {
    var lines, w1 := write.job.layout[c], After(write, docs, before);
    var plan := InOrder(|lines|, late, REFUSED);
    NextIsReady(write, w1, c);
    InOrderSuits(rules, lines, late, REFUSED);
    InOrderBegins(|lines|, late, REFUSED);
    hide *;
    moves := RunProbe(write, rules, docs, before, c, plan, absent);
    var w2 := After(write, docs, moves);
    CalledTold(write, w1, w2, c, plan);
    CalledLanded(write, w1, w2, c, plan);
    BeganRounds(write, rules, docs, moves, c);
    StillReady(write, w1, w2, c, Effective(lines, plan));
    OpenAfterProbe(write, w1, w2, c, Effective(lines, plan));
  }

  /** Such a probe makes the write count inexactly. */
  lemma LostInProbe(write: Write, rules: Rules, c: nat, late: set<nat>, absent: bool)
    requires write.Valid() && write.job.cfg.Probes() && c < |write.part| && write.job.layout[c] != []
    requires 0 !in late && forall q :: q in late ==> q < |write.job.layout[c]|
    requires if absent then !rules.honest else late != {}
    ensures !CountsExactly(write, rules)
  {
    var lines := write.job.layout[c];
    HealthyPlays(write.job.cfg, rules, lines);
    hide *;
    var docs, moves := RefuseEarlier(write, rules, c);
    var w1 := After(write, docs, moves);
    moves := LoseInProbe(write, rules, docs, moves, c, late, absent);
    var before, w2 := moves, After(write, docs, moves);
    ReadyHas(write, w2, c);
    moves := RunRounds(write, rules, docs, moves, c, Healthy(|lines|));
    var w3 := After(write, docs, moves);
    LostForGood(write, rules, docs, before, moves, c, 0, 1);
    ToldOthers(write, w2, w3, c, Effective(lines, Healthy(|lines|).full) + Effective(lines, Healthy(|lines|).again));
    SameTwice(w1, w2, w3, c);
    SameShape(w1, w2, c);
    HasRun(write, docs, w1, w3, Earlier(write, c), c, false);
    EndsInexactly(write, rules, docs, moves, w1, c, 0);
  }

  lemma ToldOthers(write: Write, w: World, w': World, c: nat, said: seq<Line>)
    requires Told(write, w, w', c, said)
    ensures OthersSame(w, w', c) && c < |w'.procs|
  {
    hide Fold;
  }

  lemma HasRun(write: Write, docs: Docs, w1: World, w: World, first: set<nat>, c: nat, well: bool)
    requires Opens(write, first, c) && c < |w1.procs| && OthersSame(w1, w, c) && w.procs[c].m.phase.Done?
    requires HadTurns(Begin(write.job, docs), w1, first, |write.job.layout|, well)
    ensures RanFirst(write, docs, w1, w, first, c, well)
  {
    hide Opens, HadTurns;
  }

  /* ---- a raised call, a restart ---- */

  /** What a call in flight that has taken up the first line has accepted. */
  lemma MidwayLanded(write: Write, w0: World, w: World, c: nat, plan: Plan)
    requires Midway(write, w0, w, c, plan) && plan.order != [] && plan.order[0] < |write.job.layout[c]|
    requires plan.order[0] !in plan.late && Is2xx(StatusFor(w0.docs, write.job.layout[c][plan.order[0]]))
    ensures c < |w.procs| && plan.order[0] in w.procs[c].landed && w.procs[c].m == w0.procs[c].m
    ensures OthersSame(w0, w, c)
  {
    FirstAccepted(w0.docs, write.job.layout[c], plan);
    hide Accepted, Effective, Fold, StatusFor, Is2xx, Fits, InWindow;
  }

  lemma FailureLoses(cfg: Config, rules: Rules, lines: seq<Line>, docs: Docs, proc: Proc, p: nat)
    requires ChunkOk(cfg, lines, proc) && proc.m.Active() && p in Carried(|lines|, proc.m) && p in proc.landed
    requires rules.raises
    ensures Can(lines, docs, proc, Returned(Failed)) && Follows(rules, lines, proc, Returned(Failed))
    ensures Lost(Acted(cfg, |lines|, proc, Returned(Failed)), p, 1)
    ensures Acted(cfg, |lines|, proc, Returned(Failed)).m.phase.Done?
  {
    SettleKeys(proc.m.settled, Carried(|lines|, proc.m), Error);
    hide Settle, Carried, ChunkOk;
  }

  lemma StartActive(cfg: Config, n: nat, m: Machine)
    requires m == Start(cfg, n) && n > 0
    ensures m.Active()
  {
    hide All;
  }

  /** A call takes up the first line of a chunk. */
  lemma TakeFirst(write: Write, rules: Rules, docs: Docs, before: seq<Move>, c: nat) returns (moves: seq<Move>)
    requires Moves(write, rules, docs, before) && UpNext(write, After(write, docs, before), c)
    requires write.job.layout[c] != [] && Is2xx(StatusFor(After(write, docs, before).docs, write.job.layout[c][0]))
    ensures Moves(write, rules, docs, moves) && before <= moves
    ensures Midway(write, After(write, docs, before), After(write, docs, moves), c, Plan([0], {}, 0))
    ensures c < |After(write, docs, moves).procs| && 0 in After(write, docs, moves).procs[c].landed
    ensures After(write, docs, moves).procs[c].m == Start(write.job.cfg, |write.job.layout[c]|)
    ensures OthersSame(After(write, docs, before), After(write, docs, moves), c)
  {
    var lines, w1 := write.job.layout[c], After(write, docs, before);
    NextIsReady(write, w1, c);
    StartCarries(write.job.cfg, |lines|, w1.procs[c], 0);
    OneSuits(rules, lines, 0);
    assert w1.procs[c].m == Start(write.job.cfg, |lines|);
    hide *;
    moves := TakeUp(write, rules, docs, before, c, Plan([0], {}, 0));
    MidwayLanded(write, w1, After(write, docs, moves), c, Plan([0], {}, 0));
  }

  /** A call raises after a line was accepted. */
  lemma LostInFailure(write: Write, rules: Rules, c: nat)
    requires write.Valid() && rules.raises && c < |write.part| && write.job.layout[c] != []
    ensures !CountsExactly(write, rules)
  {
    var lines := write.job.layout[c];
    var docs, moves := RefuseEarlier(write, rules, c);
    var w1 := After(write, docs, moves);
    NextIsReady(write, w1, c);
    StartCarries(write.job.cfg, |lines|, w1.procs[c], 0);
    StartActive(write.job.cfg, |lines|, Start(write.job.cfg, |lines|));
    assert 0 in Carried(|lines|, Start(write.job.cfg, |lines|));
    hide *;
    moves := TakeFirst(write, rules, docs, moves, c);
    var w2 := After(write, docs, moves);
    ChunkOkAfter(write, rules, docs, moves, c);
    FailureLoses(write.job.cfg, rules, lines, w2.docs, w2.procs[c], 0);
    Ended(write, rules, w1, w2, c, Plan([0], {}, 0), Failed);
    moves := MoreMoves(write, rules, docs, moves, Does(c, Returned(Failed)));
    var w3 := After(write, docs, moves);
    SameShape(w1, w3, c);
    HasRun(write, docs, w1, w3, Earlier(write, c), c, false);
    EndsInexactly(write, rules, docs, moves, w1, c, 0);
  }

  lemma ChunkOkAfter(write: Write, rules: Rules, docs: Docs, moves: seq<Move>, c: nat)
    requires Moves(write, rules, docs, moves) && c < |write.job.layout|
    ensures c < |After(write, docs, moves).procs|
    ensures ChunkOk(write.job.cfg, write.job.layout[c], After(write, docs, moves).procs[c])
  {
    AllOkAfter(write, rules, docs, moves);
    hide Moves, After, ChunkOk;
  }

  lemma OverLoses(write: Write, w: World, c: nat, p: nat)
    requires c < |write.part| == |write.job.layout| == |w.procs| && p in w.procs[c].landed
    ensures var w' := Moved(write, w, StartOver(write.part[c]));
      c < |w'.procs| && Lost(w'.procs[c], p, 1)
  {
    hide BeginRounds;
  }

  lemma OverAdmitted(write: Write, rules: Rules, w: World, k: nat)
    requires rules.restarts
    ensures Admits(write, rules, w, StartOver(k))
  {
  }

  lemma WellIsFinished(w: World)
    requires EndedWell(w)
    ensures Finished(w)
  {
  }

  /** A partition is started over after a line was accepted. */
  lemma LostInRestart(write: Write, rules: Rules, c: nat)
    requires write.Valid() && rules.restarts && c < |write.part| && write.job.layout[c] != []
    ensures !CountsExactly(write, rules)
  {
    var docs, moves := RefuseEarlier(write, rules, c);
    var w1, over := After(write, docs, moves), StartOver(write.part[c]);
    hide *;
    moves := TakeFirst(write, rules, docs, moves, c);
    var w2 := After(write, docs, moves);
    ChunkOkAfter(write, rules, docs, moves, c);
    AfterShape(write, docs, moves);
    OverLoses(write, w2, c, 0);
    AllStartedOver(write, docs, w1, w2, c, false);
    OverAdmitted(write, rules, w2, write.part[c]);
    moves := MoreMoves(write, rules, docs, moves, over);
    var before := moves;
    moves := RunAll(write, rules, docs, moves, "");
    LostForGood(write, rules, docs, before, moves, c, 0, 1);
    WellIsFinished(After(write, docs, moves));
    LostIsNotExact(write, rules, docs, moves, c, 0);
  }

  /* ---- a line taken up twice in one call ---- */

  lemma Applied(write: Write, rules: Rules, w: World, c: nat, p: nat, status: int)
    requires Admits(write, rules, w, Does(c, Apply(p, status)))
    ensures var w' := Moved(write, w, Does(c, Apply(p, status)));
      && c < |write.job.layout| && c < |w.procs| && c < |w'.procs|
      && Can(write.job.layout[c], w.docs, w.procs[c], Apply(p, status))
      && w'.procs[c] == Acted(write.job.cfg, |write.job.layout[c]|, w.procs[c], Apply(p, status))
      && p in w'.procs[c].flight && w'.procs[c].flight[p] == status
  {
    hide Carried, Allows, Follows, InWindow, ApplyLine;
  }

  function Twice(n: nat): Plan {
    Plan([0] + All(n), {}, 0)
  }

  lemma TwiceSuits(rules: Rules, lines: seq<Line>)
    requires !rules.once && !rules.ordered && lines != []
    ensures Suits(Twice(|lines|), rules, lines) && Covers(Twice(|lines|), All(|lines|))
    ensures Suits(Upto(Twice(|lines|), 1), rules, lines) && Suits(Upto(Twice(|lines|), 2), rules, lines)
    ensures |Twice(|lines|).order| >= 2
  {
    AllPositions(|lines|);
    hide Confirms, Increasing;
    assert All(|lines|)[0] == 0;
  }

  lemma TwiceSteps(n: nat)
    requires n > 0
    ensures Upto(Twice(n), 0).order == [] && Upto(Twice(n), 1).order == [0] && Upto(Twice(n), 2).order == [0, 0]
    ensures Front(Upto(Twice(n), 1)) == Upto(Twice(n), 0) && Front(Upto(Twice(n), 2)) == Upto(Twice(n), 1)
    ensures forall j: nat :: j <= 2 ==> Upto(Twice(n), j).late == {}
  {
    assert All(n)[0] == 0;
  }

  /** The first line of the chunk is taken up for the first time, and accepted. */
  lemma TakeOnce(write: Write, rules: Rules, docs: Docs, before: seq<Move>, c: nat) returns (moves: seq<Move>)
    requires Moves(write, rules, docs, before) && UpNext(write, After(write, docs, before), c)
    requires !rules.once && !rules.ordered && write.job.layout[c] != []
    requires Is2xx(StatusFor(After(write, docs, before).docs, write.job.layout[c][0]))
    ensures Moves(write, rules, docs, moves) && before <= moves
    ensures Midway(write, After(write, docs, before), After(write, docs, moves), c,
                   Upto(Twice(|write.job.layout[c]|), 1))
    ensures c < |After(write, docs, moves).procs| && 0 in After(write, docs, moves).procs[c].flight
    ensures Is2xx(After(write, docs, moves).procs[c].flight[0])
  {
    var lines, w1 := write.job.layout[c], After(write, docs, before);
    var plan := Upto(Twice(|lines|), 1);
    NextIsReady(write, w1, c);
    TwiceSuits(rules, lines);
    TwiceSteps(|lines|);
    StartCarries(write.job.cfg, |lines|, w1.procs[c], 0);
    MidwayStart(write, w1, c, Upto(Twice(|lines|), 0));
    assert NextStatus(w1.docs, lines, plan, 0) == StatusFor(w1.docs, lines[0]);
    hide *;
    MidwayMore(write, rules, w1, w1, c, plan);
    var status := NextStatus(w1.docs, lines, plan, 0);
    Applied(write, rules, w1, c, 0, status);
    moves := MoreMoves(write, rules, docs, before, Does(c, Apply(0, status)));
  }

  /** It is taken up for the second time: that acceptance is lost. */
  lemma TakeAgain(write: Write, rules: Rules, docs: Docs, before: seq<Move>, w1: World, c: nat)
    returns (moves: seq<Move>)
    requires Moves(write, rules, docs, before) && c < |write.job.layout| && write.job.layout[c] != []
    requires Midway(write, w1, After(write, docs, before), c, Upto(Twice(|write.job.layout[c]|), 1))
    requires !rules.once && !rules.ordered && UpNext(write, w1, c)
    requires c < |After(write, docs, before).procs| && 0 in After(write, docs, before).procs[c].flight
    requires Is2xx(After(write, docs, before).procs[c].flight[0])
    ensures Moves(write, rules, docs, moves) && before <= moves
    ensures Midway(write, w1, After(write, docs, moves), c, Upto(Twice(|write.job.layout[c]|), 2))
    ensures c < |After(write, docs, moves).procs| && Lost(After(write, docs, moves).procs[c], 0, 1)
  {
    var lines, w2 := write.job.layout[c], After(write, docs, before);
    var plan := Upto(Twice(|lines|), 2);
    TwiceSuits(rules, lines);
    TwiceSteps(|lines|);
    NextIsReady(write, w1, c);
    StartCarries(write.job.cfg, |lines|, w1.procs[c], 0);
    NeverTooMany(write, rules, docs, before, c, 0);
    ChunkOkAfter(write, rules, docs, before, c);
    assert ProcOk(write.job.cfg, |lines|, w2.procs[c]);
    hide *;
    MidwayMore(write, rules, w1, w2, c, plan);
    var status := NextStatus(w2.docs, lines, plan, 0);
    Applied(write, rules, w2, c, 0, status);
    LostTwice(write.job.cfg, lines, w2.docs, w2.procs[c], 0, status);
    moves := MoreMoves(write, rules, docs, before, Does(c, Apply(0, status)));
  }

  /** The call returns, and the chunk comes to its end. */
  lemma FinishCall(write: Write, rules: Rules, docs: Docs, before: seq<Move>, w0: World, c: nat, plan: Plan)
    returns (moves: seq<Move>)
    requires Moves(write, rules, docs, before) && Midway(write, w0, After(write, docs, before), c, plan)
    requires c < |write.job.layout| && c < |w0.procs| && write.job.layout[c] != []
    requires Open(|write.job.layout[c]|, w0.procs[c])
    requires Suits(plan, rules, write.job.layout[c]) && Covers(plan, All(|write.job.layout[c]|)) && plan.late == {}
    ensures Moves(write, rules, docs, moves) && before <= moves
    ensures OthersSame(w0, After(write, docs, moves), c) && c < |After(write, docs, moves).procs|
    ensures After(write, docs, moves).procs[c].m.phase.Done?
  {
    var lines := write.job.layout[c];
    MidwayShape(write, w0, After(write, docs, before), c, plan);
    NothingSentAgain(write.job.cfg, lines, plan, 0);
    NoneLate(All(|lines|));
    HealthyPlays(write.job.cfg, rules, lines);
    MidwayReady(write, w0, After(write, docs, before), c, plan);
    hide Moves, After, Midway, Suits, Covers, SentAgain, Called, Told, LateOf, All, Effective, Playable, Ready, Healthy;
    if w0.procs[c].m.phase.Probing? {
      moves := EndProbe(write, rules, docs, before, w0, c, plan, false);
      var w1 := After(write, docs, moves);
      CalledTold(write, w0, w1, c, plan);
      ToldOthers(write, w0, w1, c, Effective(lines, plan));
      if w1.procs[c].m.phase != Done {
        StillReady(write, w0, w1, c, Effective(lines, plan));
        OpenAfterProbe(write, w0, w1, c, Effective(lines, plan));
        moves := RunRounds(write, rules, docs, moves, c, Healthy(|lines|));
        var said := Effective(lines, Healthy(|lines|).full) + Effective(lines, Healthy(|lines|).again);
        ToldOthers(write, w1, After(write, docs, moves), c, said);
        SameTwice(w0, w1, After(write, docs, moves), c);
      }
    } else {
      moves := EndRound(write, rules, docs, before, w0, c, plan, All(|lines|), 0);
      CalledTold(write, w0, After(write, docs, moves), c, plan);
      ToldOthers(write, w0, After(write, docs, moves), c, Effective(lines, plan));
    }
  }

  lemma MidwayReady(write: Write, w0: World, w: World, c: nat, plan: Plan)
    requires Midway(write, w0, w, c, plan)
    ensures Ready(write, w0, c)
  {
    hide TakenUp, InWindow;
  }

  lemma LostTakenTwice(write: Write, rules: Rules, c: nat)
    requires write.Valid() && !rules.once && !rules.ordered && c < |write.part| && write.job.layout[c] != []
    ensures !CountsExactly(write, rules)
  {
    var lines := write.job.layout[c];
    var plan := Twice(|lines|);
    var docs, moves := RefuseEarlier(write, rules, c);
    var w1 := After(write, docs, moves);
    NextIsReady(write, w1, c);
    TwiceSuits(rules, lines);
    assert forall q :: q in plan.order ==> q in Carried(|lines|, w1.procs[c].m) by {
      AllPositions(|lines|);
      forall q: nat | q < |lines| ensures q in Carried(|lines|, w1.procs[c].m) {
        StartCarries(write.job.cfg, |lines|, w1.procs[c], q);
      }
    }
    assert plan.late == {};
    hide *;
    moves := TakeOnce(write, rules, docs, moves, c);
    moves := TakeAgain(write, rules, docs, moves, w1, c);
    var before := moves;
    moves := TakeRest(write, rules, docs, moves, w1, c, plan, 2);
    moves := FinishCall(write, rules, docs, moves, w1, c, plan);
    LostForGood(write, rules, docs, before, moves, c, 0, 1);
    HasRun(write, docs, w1, After(write, docs, moves), Earlier(write, c), c, false);
    EndsInexactly(write, rules, docs, moves, w1, c, 0);
  }

  /* ---- the exact condition ---- */

  /** The exact condition, for every write and whatever runs are looked at. What is counted is what was accepted, in
      every run that finishes, if and only if the write has no line, or no call can raise, no partition be started over
      and no line be taken up twice in a call, and whatever is probed is a single line and the probe tells the truth. */
  lemma ExactlyIfCareful(write: Write, rules: Rules)
    requires write.Valid()
    ensures CountsExactly(write, rules) <==> NoLine(write.job.layout) || Careful(write, rules)
  {
    hide CountsExactly;
    if NoLine(write.job.layout) || Careful(write, rules) {
      CarefulIsExact(write, rules);
    } else {
      var c: nat :| c < |write.job.layout| && write.job.layout[c] != [];
      if rules.raises {
        LostInFailure(write, rules, c);
      } else if rules.restarts {
        LostInRestart(write, rules, c);
      } else if !rules.once && !rules.ordered {
        LostTakenTwice(write, rules, c);
      } else if !rules.honest {
        LostInProbe(write, rules, c, {}, true);
      } else {
        var d: nat :| d < |write.job.layout| && |write.job.layout[d]| > 1;
        LostInProbe(write, rules, d, {1}, false);
      }
    }
  }

  /* ---- creates: how far the index grows ---- */

  /** The index grows by exactly what is counted written, in every run that finishes. */
  ghost predicate GrowsExactly(write: Write, rules: Rules) {
    forall docs, moves :: Moves(write, rules, docs, moves) && Finished(After(write, docs, moves)) ==>
      |After(write, docs, moves).docs| == |docs| + SumWritten(After(write, docs, moves).procs)
  }

  ghost predicate ChunkExact(proc: Proc) {
    forall p: nat :: proc.landed[p] == Kept(proc, p)
  }

  lemma KeptIsWritten(cfg: Config, docs: Docs, lines: seq<Line>, proc: Proc)
    requires CreateOk(cfg, docs, lines, proc)
    ensures multiset(With(proc.m.settled, Written)) <= proc.landed
    ensures |With(proc.m.settled, Written)| == proc.m.counts.written
    ensures forall p: nat :: Kept(proc, p) == multiset(With(proc.m.settled, Written))[p]
  {
    hide Shaped, Stored;
    CarriedBelow(cfg, |lines|, proc.m);
  }

  lemma SameSize(a: multiset<nat>, b: multiset<nat>)
    requires a <= b
    ensures |a| == |b| <==> a == b
    ensures |a| <= |b|
  {
    assert b == a + (b - a);
    assert |b - a| == 0 ==> b - a == multiset{};
  }

  lemma ChunkGrows(cfg: Config, docs: Docs, lines: seq<Line>, proc: Proc)
    requires CreateOk(cfg, docs, lines, proc)
    ensures proc.m.counts.written <= |proc.landed|
    ensures proc.m.counts.written == |proc.landed| <==> ChunkExact(proc)
  {
    KeptIsWritten(cfg, docs, lines, proc);
    hide CreateOk, With, Kept;
    var written := With(proc.m.settled, Written);
    SameSize(multiset(written), proc.landed);
    assert |multiset(written)| == |written|;
    if ChunkExact(proc) {
      assert multiset(written) == proc.landed;
    }
  }

  lemma {:induction false} SumsAgree(cfg: Config, docs: Docs, layout: seq<seq<Line>>, procs: seq<Proc>)
    requires |procs| == |layout| && forall c :: 0 <= c < |procs| ==> CreateOk(cfg, docs, layout[c], procs[c])
    ensures SumWritten(procs) <= SumLanded(procs)
    ensures SumWritten(procs) == SumLanded(procs) <==> forall c :: 0 <= c < |procs| ==> ChunkExact(procs[c])
  {
    hide CreateOk, ChunkExact;
    if procs != [] {
      var k := |procs| - 1;
      SumsAgree(cfg, docs, layout[..k], procs[..k]);
      ChunkGrows(cfg, docs, layout[k], procs[k]);
      assert forall c :: 0 <= c < k ==> procs[..k][c] == procs[c];
    }
  }

  lemma ExactByChunk(w: World)
    ensures Exact(w) <==> forall c :: 0 <= c < |w.procs| ==> ChunkExact(w.procs[c])
  {
    hide Kept;
    if forall c :: 0 <= c < |w.procs| ==> ChunkExact(w.procs[c]) {
      forall c: nat, p: nat | c < |w.procs| ensures w.procs[c].landed[p] == Kept(w.procs[c], p) {
        assert ChunkExact(w.procs[c]);
      }
    }
  }

  /** The growth is what is counted written exactly when every acceptance is counted. */
  lemma GrowthIsCount(write: Write, rules: Rules, docs: Docs, moves: seq<Move>)
    requires AllCreates(write.job.layout) && Moves(write, rules, docs, moves)
    ensures |After(write, docs, moves).docs| == |docs| + SumWritten(After(write, docs, moves).procs) <==>
            Exact(After(write, docs, moves))
  {
    var w := After(write, docs, moves);
    hide Moves, After, Exact, CreateOk, Run, Exec, AllCreates, KeepsDocs;
    var events := MovesAreRun(write, rules, docs, moves);
    EveryRunAppends(write.job, docs, events);
    SumsAgree(write.job.cfg, w.docs, write.job.layout, w.procs);
    ExactByChunk(w);
  }

  /** The exact condition for creates. The index grows by exactly what the write counts written if and only if the write
      is careful, or has no line. */
  lemma GrowsExactlyIfCareful(write: Write, rules: Rules)
    requires write.Valid() && AllCreates(write.job.layout)
    ensures GrowsExactly(write, rules) <==> NoLine(write.job.layout) || Careful(write, rules)
  {
    ExactlyIfCareful(write, rules);
    hide Moves, After, Finished, Exact, NoLine, Careful, AllCreates;
    forall docs, moves | Moves(write, rules, docs, moves)
      ensures |After(write, docs, moves).docs| == |docs| + SumWritten(After(write, docs, moves).procs) <==>
              Exact(After(write, docs, moves))
    {
      GrowthIsCount(write, rules, docs, moves);
    }
  }
}

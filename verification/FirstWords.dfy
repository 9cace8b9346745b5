/** Writes that create: which lines can have the first word on an id. */
module FirstWords {
  // No partition is started over. A chunk begins only when fewer than `width` of the chunks before it are in progress,
  // and one that has ended well has seen to all its ids. So a line can come first only if fewer than `width` chunks
  // before it in its partition name its id. Inside a chunk, a server that keeps the order of the lines for an id lets
  // the earliest of them come first, unless the chunk is sent more than once.

  import opened Wrappers
  import opened BulkOutcome
  import opened ChunkProtocol
  import opened Documents
  import opened Cluster
  import opened Confluence
  import opened Arrangement
  import opened AppendOnly
  import opened Windows
  import opened ChunkRounds

  /** No earlier line of the chunk names its id. */
  predicate IsFirst(lines: seq<Line>, p: nat)
    requires p < |lines|
  {
    forall q :: 0 <= q < p ==> IdOf(lines[q]) != IdOf(lines[p])
  }

  /** The chunks before `c` in its partition that name the id. */
  function NamingBefore(write: Write, c: nat, id: Id): set<nat> {
    set e: nat | e < c && e < |write.job.layout| && e < |write.part| && c < |write.part| &&
      write.part[e] == write.part[c] && Names(write.job.layout[e], id)
  }

  /** The line can be sent more than once: after a probe, after a time-out, or after a rejection. */
  ghost predicate Repeats(cfg: Config, rules: Rules, line: Line) {
    cfg.Probes() || (rules.raises && cfg.TimeoutBudget() > 0) || CanRetry(cfg, line)
  }

  /** The line can be the first of its chunk to be accepted for its id. */
  ghost predicate FirstInChunk(cfg: Config, rules: Rules, lines: seq<Line>, p: nat) {
    p < |lines| && (rules.ordered ==> IsFirst(lines, p) || Repeats(cfg, rules, lines[p]))
  }

  /** The line can be the first of its partition to be accepted for its id. */
  ghost predicate CanBeFirst(write: Write, rules: Rules, c: nat, p: nat) {
    && Place(write.job.layout, c, p)
    && FirstInChunk(write.job.cfg, rules, write.job.layout[c], p)
    && (IdOf(write.job.layout[c][p]).Some? ==>
          |NamingBefore(write, c, IdOf(write.job.layout[c][p]).value)| < write.width)
  }

  /** Lines that can come first and have the same id are the same line. */
  ghost predicate FirstAgree(write: Write, rules: Rules) {
    forall c: nat, p: nat, c': nat, p': nat :: CanBeFirst(write, rules, c, p) && CanBeFirst(write, rules, c', p') ==>
      (IdOf(write.job.layout[c][p]) == IdOf(write.job.layout[c'][p']) ==>
         write.job.layout[c][p] == write.job.layout[c'][p'])
  }

  /** The lines for the id that can come first say `word`. */
  ghost predicate FirstSay(write: Write, rules: Rules, id: Id, word: Option<Doc>) {
    forall c: nat, p: nat :: CanBeFirst(write, rules, c, p) && IdOf(write.job.layout[c][p]) == Some(id) ==>
      Said(write.job.layout[c][p]) == word
  }

  /* ---- what was settled is in the index ---- */

  ghost predicate Known(docs: Docs, lines: seq<Line>, proc: Proc) {
    && (forall p :: p in proc.m.settled && p < |lines| && proc.m.settled[p] != Error ==>
          IdOf(lines[p]).Some? && IdOf(lines[p]).value in docs)
    && (forall p :: p in proc.flight && p < |lines| && Confirms(lines[p], proc.flight[p]) ==>
          IdOf(lines[p]).Some? && IdOf(lines[p]).value in docs)
  }

  lemma KnownElsewhere(docs: Docs, docs': Docs, lines: seq<Line>, proc: Proc)
    requires Known(docs, lines, proc) && KeepsDocs(docs, docs')
    ensures Known(docs', lines, proc)
  {
    hide Confirms;
  }

  lemma KnownApplied(cfg: Config, lines: seq<Line>, docs: Docs, proc: Proc, q: nat, status: int)
    requires AllCreate(lines) && Known(docs, lines, proc) && Can(lines, docs, proc, Apply(q, status))
    ensures Known(Effect(lines, docs, Apply(q, status)), lines, Acted(cfg, |lines|, proc, Apply(q, status)))
  {
    var docs' := Effect(lines, docs, Apply(q, status));
    EffectAppends(lines, docs, Apply(q, status));
    KnownElsewhere(docs, docs', lines, proc);
    if Confirms(lines[q], status) {
      assert lines[q].cid in docs';
    }
    hide Confirms;
  }

  lemma KnownReturned(cfg: Config, lines: seq<Line>, docs: Docs, proc: Proc, a: Answer)
    requires AllCreate(lines) && ProcOk(cfg, |lines|, proc) && Known(docs, lines, proc)
    requires proc.m.Active() && Truthful(lines, proc, a)
    ensures Known(docs, lines, Acted(cfg, |lines|, proc, Returned(a)))
  {
    var m' := Next(cfg, |lines|, proc.m, a);
    forall p | p in m'.settled && p < |lines| && m'.settled[p] != Error
      ensures IdOf(lines[p]).Some? && IdOf(lines[p]).value in docs
    {
      SettledNow(cfg, lines, proc, a, p);
      if p !in proc.m.settled {
        hide Next, ProcOk, Truthful;
        assert Confirms(lines[p], proc.flight[p]);
      }
    }
    hide Next, ProcOk, Truthful, Confirms;
  }

  lemma KnownActed(cfg: Config, lines: seq<Line>, docs: Docs, proc: Proc, act: Act)
    requires AllCreate(lines) && ProcOk(cfg, |lines|, proc) && Known(docs, lines, proc) && Can(lines, docs, proc, act)
    ensures Known(Effect(lines, docs, act), lines, Acted(cfg, |lines|, proc, act))
  {
    hide Known, ProcOk, AllCreate, Truthful;
    match act
    case Apply(q, status) => KnownApplied(cfg, lines, docs, proc, q, status);
    case Returned(a) => KnownReturned(cfg, lines, docs, proc, a);
    case Restart => KnownFresh(cfg, lines, docs, proc.landed);
  }

  lemma KnownFresh(cfg: Config, lines: seq<Line>, docs: Docs, landed: multiset<nat>)
    ensures Known(docs, lines, Proc(Start(cfg, |lines|), map[], landed))
  {
  }

  /* ---- a chunk that will not end well ---- */

  /** The only call of the chunk has passed over the line, or refused it. */
  ghost predicate Skipped(lines: seq<Line>, proc: Proc, id: Id, q: nat) {
    && q < |lines| && q in Carried(|lines|, proc.m) && IdOf(lines[q]) == Some(id)
    && if q in proc.flight then !Confirms(lines[q], proc.flight[q])
       else exists r: nat :: r in proc.flight && q < r && SameId(lines, r, q)
  }

  /** Each line is sent once only, in its order. */
  ghost predicate SentOnce(cfg: Config, rules: Rules, lines: seq<Line>) {
    rules.ordered && forall p :: 0 <= p < |lines| ==> !Repeats(cfg, rules, lines[p])
  }

  /** The chunk has counted an error, or cannot but count one. */
  ghost predicate Spoilt(cfg: Config, rules: Rules, lines: seq<Line>, proc: Proc, id: Id) {
    || proc.m.counts.errors > 0
    || (SentOnce(cfg, rules, lines) && exists q: nat :: Skipped(lines, proc, id, q))
  }

  lemma SkippedApplied(cfg: Config, rules: Rules, lines: seq<Line>, proc: Proc, p: nat, status: int, id: Id, q: nat)
    requires rules.ordered && Skipped(lines, proc, id, q) && Follows(rules, lines, proc, Apply(p, status))
    ensures Skipped(lines, Acted(cfg, |lines|, proc, Apply(p, status)), id, q)
  {
    hide Confirms, Carried;
    if q !in proc.flight {
      var r: nat :| r in proc.flight && q < r && SameId(lines, r, q);
      assert r in Acted(cfg, |lines|, proc, Apply(p, status)).flight;
    }
  }

  lemma SpoiltApplied(cfg: Config, rules: Rules, lines: seq<Line>, proc: Proc, p: nat, status: int, id: Id)
    requires Spoilt(cfg, rules, lines, proc, id) && Follows(rules, lines, proc, Apply(p, status))
    ensures Spoilt(cfg, rules, lines, Acted(cfg, |lines|, proc, Apply(p, status)), id)
  {
    hide Skipped, Repeats;
    if SentOnce(cfg, rules, lines) {
      if q: nat :| Skipped(lines, proc, id, q) {
        SkippedApplied(cfg, rules, lines, proc, p, status, id, q);
      }
    }
  }

  /** A line that is sent once only is not in the next call. */
  lemma NotSentAgain(cfg: Config, rules: Rules, lines: seq<Line>, proc: Proc, a: Answer, q: nat)
    requires ChunkOk(cfg, lines, proc) && proc.m.Active() && Truthful(lines, proc, a)
    requires Follows(rules, lines, proc, Returned(a)) && q < |lines| && !Repeats(cfg, rules, lines[q])
    ensures q !in Carried(|lines|, Next(cfg, |lines|, proc.m, a))
  {
    if a.Reply? {
      assert !proc.m.phase.Probing? by {
        hide Next, CanRetry, Truthful, Ledger, RoundsOk, Follows;
      }
      RoundsNext(cfg, lines, proc, a);
      hide Next, CanRetry, Truthful, ProcOk, Follows, Repeats;
      LaterRound(cfg, |lines|, proc.m, a);
    } else {
      hide CanRetry, Truthful, ProcOk, RoundsOk, Settle;
    }
  }

  lemma LaterRound(cfg: Config, n: nat, m: Machine, a: Answer)
    requires m.phase.Shipping? && a.Reply?
    ensures var m' := Next(cfg, n, m, a);
      if m'.phase.Shipping? then m'.phase.round > 0 else Carried(n, m') == []
  {
    hide TallyItems, Settle;
  }

  lemma SpoiltReturned(cfg: Config, rules: Rules, lines: seq<Line>, proc: Proc, a: Answer, id: Id)
    requires ChunkOk(cfg, lines, proc) && proc.m.Active() && Truthful(lines, proc, a)
    requires Follows(rules, lines, proc, Returned(a)) && Spoilt(cfg, rules, lines, proc, id)
    ensures Spoilt(cfg, rules, lines, Acted(cfg, |lines|, proc, Returned(a)), id)
  {
    ErrorsStay(cfg, |lines|, proc.m, a);
    if proc.m.counts.errors == 0 {
      var q: nat :| Skipped(lines, proc, id, q);
      hide ChunkOk, Next, Truthful, Confirms, Repeats, Follows;
      UnconfirmedReturned(cfg, lines, proc, a, q);
      NotSentAgain(cfg, rules, lines, proc, a, q);
    }
  }

  /* ---- the first acceptance ---- */

  lemma CarriesAll(cfg: Config, rules: Rules, lines: seq<Line>, proc: Proc, p: nat, q: nat)
    requires ChunkOk(cfg, lines, proc) && SentOnce(cfg, rules, lines) && p in Carried(|lines|, proc.m)
    requires p < |lines| && q < |lines|
    ensures q in Carried(|lines|, proc.m)
  {
    AllPositions(|lines|);
    hide ProcOk, CanRetry;
  }

  /** In order and sent once only, a line that comes first against the order of the chunk spoils it. */
  lemma OutOfTurn(cfg: Config, rules: Rules, lines: seq<Line>, docs: Docs, proc: Proc, p: nat, status: int, id: Id)
    requires ChunkOk(cfg, lines, proc) && AllCreate(lines) && Known(docs, lines, proc) && id !in docs
    requires Can(lines, docs, proc, Apply(p, status)) && Follows(rules, lines, proc, Apply(p, status))
    requires IdOf(lines[p]) == Some(id) && !FirstInChunk(cfg, rules, lines, p)
    ensures Spoilt(cfg, rules, lines, Acted(cfg, |lines|, proc, Apply(p, status)), id)
  {
    AllAlike(cfg, rules, lines, p);
    var q: nat :| q < p && IdOf(lines[q]) == Some(id);
    CarriesAll(cfg, rules, lines, proc, p, q);
    hide ChunkOk, Confirms, Repeats, Carried, Effect;
    var proc' := Acted(cfg, |lines|, proc, Apply(p, status));
    if q !in proc.flight {
      assert p in proc'.flight;
    }
    assert Skipped(lines, proc', id, q);
  }

  /** All creates are retried on the same statuses. */
  lemma AllAlike(cfg: Config, rules: Rules, lines: seq<Line>, p: nat)
    requires AllCreate(lines) && rules.ordered && p < |lines| && !Repeats(cfg, rules, lines[p])
    ensures SentOnce(cfg, rules, lines)
  {
    hide Config.Retries;
    forall q | 0 <= q < |lines| ensures !CanRetry(cfg, lines[q]) {
      assert OpOf(lines[q]) == OpOf(lines[p]);
      if status: int :| cfg.Retries(Item(OpOf(lines[q]), Some(status)), 0) {
        RetriedBy(cfg, lines[p], status);
      }
    }
  }

  lemma Smaller(a: set<nat>, b: set<nat>)
    requires a <= b
    ensures |a| <= |b|
  {
    assert b == a + (b - a);
  }

  /** A chunk that has ended without an error has its ids in the index. */
  lemma DoneIsKnown(cfg: Config, docs: Docs, lines: seq<Line>, proc: Proc, id: Id)
    requires ProcOk(cfg, |lines|, proc) && Known(docs, lines, proc) && Names(lines, id)
    requires !proc.m.Active() && proc.m.counts.errors == 0
    ensures id in docs
  {
    var p: nat :| p < |lines| && IdOf(lines[p]) == Some(id);
    NoErrorsSettled(|lines|, proc.m, p);
  }

  /** If the window lets a chunk begin although `width` chunks before it name the id, one of those has ended with an
      error, or has put the id into the index. */
  lemma SomeoneFailed(write: Write, rules: Rules, w: World, c: nat, id: Id)
    requires AllOk(write.job, w) && AllKnown(write.job, w) && InWindow(write, w, c) && c < |w.procs|
    requires |NamingBefore(write, c, id)| >= write.width && id !in w.docs
    ensures exists e: nat :: e < c && w.procs[e].m.counts.errors > 0
  {
    if e: nat :| e in NamingBefore(write, c, id) && !w.procs[e].m.Active() {
      hide NamingBefore, Ahead, Names, Known, ProcOk;
      assert ChunkOk(write.job.cfg, write.job.layout[e], w.procs[e]);
      if w.procs[e].m.counts.errors == 0 {
        DoneIsKnown(write.job.cfg, w.docs, write.job.layout[e], w.procs[e], id);
      }
    } else {
      hide ChunkOk, Known, Names;
      assert NamingBefore(write, c, id) <= Ahead(write, w, c);
      Smaller(NamingBefore(write, c, id), Ahead(write, w, c));
    }
  }

  /* ---- over runs ---- */

  ghost predicate AllKnown(job: Job, w: World) {
    forall c :: 0 <= c < |job.layout| && c < |w.procs| ==> Known(w.docs, job.layout[c], w.procs[c])
  }

  /** The id is not there, or it is as `word` says, or some chunk will not end well. */
  ghost predicate FirstOr(write: Write, rules: Rules, w: World, id: Id, word: Option<Doc>) {
    || id !in w.docs
    || At(w.docs, id) == word
    || exists c: nat :: c < |write.job.layout| && c < |w.procs| &&
         Spoilt(write.job.cfg, rules, write.job.layout[c], w.procs[c], id)
  }

  lemma AllKnownMoved(write: Write, rules: Rules, w: World, c: nat, act: Act)
    requires AllOk(write.job, w) && AllKnown(write.job, w) && AllCreates(write.job.layout)
    requires Admits(write, rules, w, Does(c, act))
    ensures AllKnown(write.job, Moved(write, w, Does(c, act)))
  {
    var job, w' := write.job, Moved(write, w, Does(c, act));
    KnownActed(job.cfg, job.layout[c], w.docs, w.procs[c], act);
    EffectAppends(job.layout[c], w.docs, act);
    hide ChunkOk, Known, Can, Effect, Acted, Follows, InWindow, KeepsDocs, AllCreate;
    forall d | 0 <= d < |job.layout| && d < |w'.procs| && d != c
      ensures Known(w'.docs, job.layout[d], w'.procs[d])
    {
      KnownElsewhere(w.docs, w'.docs, job.layout[d], w.procs[d]);
    }
  }

  lemma StaysSpoilt(write: Write, rules: Rules, w: World, c: nat, act: Act, id: Id, e: nat)
    requires AllOk(write.job, w) && Admits(write, rules, w, Does(c, act)) && e < |write.job.layout| == |w.procs|
    requires Spoilt(write.job.cfg, rules, write.job.layout[e], w.procs[e], id)
    ensures Spoilt(write.job.cfg, rules, write.job.layout[e], Moved(write, w, Does(c, act)).procs[e], id)
  {
    if e == c {
      hide ChunkOk, Spoilt, Follows, InWindow, Truthful, Effect, Next;
      match act
      case Apply(p, status) => SpoiltApplied(write.job.cfg, rules, write.job.layout[c], w.procs[c], p, status, id);
      case Returned(a) => SpoiltReturned(write.job.cfg, rules, write.job.layout[c], w.procs[c], a, id);
      case Restart => assert false;
    }
  }

  /** What it takes for an id to come into the index. */
  lemma CreatedNow(lines: seq<Line>, docs: Docs, act: Act, id: Id)
    requires AllCreate(lines) && At(Effect(lines, docs, act), id) != At(docs, id)
    ensures id !in docs && act.Apply? && act.p < |lines| && IdOf(lines[act.p]) == Some(id)
    ensures At(Effect(lines, docs, act), id) == Said(lines[act.p])
  {
  }

  lemma FirstDoes(write: Write, rules: Rules, w: World, c: nat, act: Act, id: Id, word: Option<Doc>)
    requires write.Valid() && AllOk(write.job, w) && AllKnown(write.job, w) && AllCreates(write.job.layout)
    requires FirstSay(write, rules, id, word) && Admits(write, rules, w, Does(c, act))
    requires FirstOr(write, rules, w, id, word)
    ensures FirstOr(write, rules, Moved(write, w, Does(c, act)), id, word)
  {
    var layout, w' := write.job.layout, Moved(write, w, Does(c, act));
    if At(w'.docs, id) == At(w.docs, id) {
      hide AllKnown, Spoilt, Moved, Admits, AllCreates, FirstSay;
      MovedShape(write, w, Does(c, act));
      if e: nat :| e < |layout| && e < |w.procs| && Spoilt(write.job.cfg, rules, layout[e], w.procs[e], id) {
        StaysSpoilt(write, rules, w, c, act, id, e);
      }
    } else {
      CreatedNow(layout[c], w.docs, act, id);
      hide Spoilt, Follows, InWindow, Effect, Acted, Can, Known, ChunkOk, AllCreate;
      FirstCreated(write, rules, w, c, act.p, act.status, id, word);
    }
  }

  lemma MovedShape(write: Write, w: World, move: Move)
    ensures |Moved(write, w, move).procs| == |w.procs|
  {
    hide Effect, Acted, Can;
  }

  /** The window let the chunk begin although too many before it name the id: one of those has failed. */
  lemma CrowdedOut(write: Write, rules: Rules, w: World, c: nat, p: nat, status: int, id: Id, word: Option<Doc>)
    requires AllOk(write.job, w) && AllKnown(write.job, w) && Admits(write, rules, w, Does(c, Apply(p, status)))
    requires id !in w.docs && |NamingBefore(write, c, id)| >= write.width
    ensures FirstOr(write, rules, Moved(write, w, Does(c, Apply(p, status))), id, word)
  {
    var w' := Moved(write, w, Does(c, Apply(p, status)));
    SomeoneFailed(write, rules, w, c, id);
    var e: nat :| e < c && w.procs[e].m.counts.errors > 0;
    hide Effect, Acted, Can, NamingBefore, AllKnown, ChunkOk, InWindow, Follows;
    assert Spoilt(write.job.cfg, rules, write.job.layout[e], w'.procs[e], id);
  }

  /** The line came first against the order of its chunk: the chunk is spoilt. */
  lemma TurnLost(write: Write, rules: Rules, w: World, c: nat, p: nat, status: int, id: Id, word: Option<Doc>)
    requires AllOk(write.job, w) && AllKnown(write.job, w) && AllCreates(write.job.layout)
    requires Admits(write, rules, w, Does(c, Apply(p, status))) && id !in w.docs
    requires p < |write.job.layout[c]| && IdOf(write.job.layout[c][p]) == Some(id)
    requires !FirstInChunk(write.job.cfg, rules, write.job.layout[c], p)
    ensures FirstOr(write, rules, Moved(write, w, Does(c, Apply(p, status))), id, word)
  {
    var lines, w' := write.job.layout[c], Moved(write, w, Does(c, Apply(p, status)));
    hide Effect, Acted, Can, Known, ChunkOk, Spoilt, FirstInChunk, InWindow, Follows, AllCreate;
    OutOfTurn(write.job.cfg, rules, lines, w.docs, w.procs[c], p, status, id);
    assert Spoilt(write.job.cfg, rules, lines, w'.procs[c], id);
  }

  lemma AdmitsPlace(write: Write, rules: Rules, w: World, c: nat, act: Act)
    requires Admits(write, rules, w, Does(c, act))
    ensures c < |write.job.layout|
  {
    hide Can, InWindow, Follows;
  }

  lemma FirstCreated(write: Write, rules: Rules, w: World, c: nat, p: nat, status: int, id: Id, word: Option<Doc>)
    requires write.Valid() && AllOk(write.job, w) && AllKnown(write.job, w) && AllCreates(write.job.layout)
    requires FirstSay(write, rules, id, word) && Admits(write, rules, w, Does(c, Apply(p, status)))
    requires id !in w.docs && p < |write.job.layout[c]| && IdOf(write.job.layout[c][p]) == Some(id)
    requires At(Moved(write, w, Does(c, Apply(p, status))).docs, id) == Said(write.job.layout[c][p])
    ensures FirstOr(write, rules, Moved(write, w, Does(c, Apply(p, status))), id, word)
  {
    hide AllOk, AllKnown, AllCreates, Moved, Admits, NamingBefore, FirstInChunk;
    AdmitsPlace(write, rules, w, c, Apply(p, status));
    if CanBeFirst(write, rules, c, p) {
      hide CanBeFirst;
    } else if |NamingBefore(write, c, id)| >= write.width {
      CrowdedOut(write, rules, w, c, p, status, id, word);
    } else {
      TurnLost(write, rules, w, c, p, status, id, word);
    }
  }

  /** Over every run without restarts. */
  lemma {:induction false} EveryRunFirst(
    write: Write, rules: Rules, docs: Docs, moves: seq<Move>, id: Id, word: Option<Doc>)
    requires write.Valid() && AllCreates(write.job.layout) && !rules.restarts && Moves(write, rules, docs, moves)
    requires FirstSay(write, rules, id, word) && id !in docs
    ensures var w := After(write, docs, moves);
      AllOk(write.job, w) && AllKnown(write.job, w) && FirstOr(write, rules, w, id, word)
  {
    hide AllOk, AllKnown, FirstOr, FirstSay, Begin, Moved, AllCreates;
    if moves == [] {
      AllOkBegin(write.job, docs);
      AllKnownBegin(write.job, docs);
      BeginDocs(write.job, docs);
      NotThere(write, rules, Begin(write.job, docs), id, word);
    } else {
      var front, move := moves[..|moves| - 1], moves[|moves| - 1];
      EveryRunFirst(write, rules, docs, front, id, word);
      var w := After(write, docs, front);
      AllOkMoved(write, rules, w, move);
      AllKnownMoved(write, rules, w, move.c, move.act);
      FirstDoes(write, rules, w, move.c, move.act, id, word);
    }
  }

  lemma BeginDocs(job: Job, docs: Docs)
    ensures Begin(job, docs).docs == docs
  {
  }

  lemma NotThere(write: Write, rules: Rules, w: World, id: Id, word: Option<Doc>)
    requires id !in w.docs
    ensures FirstOr(write, rules, w, id, word)
  {
  }

  lemma AllKnownBegin(job: Job, docs: Docs)
    ensures AllKnown(job, Begin(job, docs))
  {
    hide Known;
    forall c | 0 <= c < |job.layout| ensures Known(docs, job.layout[c], Begin(job, docs).procs[c]) {
      KnownFresh(job.cfg, job.layout[c], docs, multiset{});
    }
  }

  /** A run that ended well has every id the write names, as the lines that can come first say. */
  lemma EndedFirst(write: Write, rules: Rules, w: World, id: Id, word: Option<Doc>, c: nat)
    requires AllOk(write.job, w) && AllKnown(write.job, w) && FirstOr(write, rules, w, id, word) && EndedWell(w)
    requires c < |write.job.layout| && Names(write.job.layout[c], id)
    ensures At(w.docs, id) == word
  {
    hide ProcOk, Known, Names, SentOnce;
    assert ChunkOk(write.job.cfg, write.job.layout[c], w.procs[c]);
    DoneIsKnown(write.job.cfg, w.docs, write.job.layout[c], w.procs[c], id);
  }

  /* ---- the serial result ---- */

  lemma {:induction false} FoldKeeps(docs: Docs, lines: seq<Line>, id: Id)
    requires AllCreate(lines) && id in docs
    ensures At(Fold(docs, lines), id) == At(docs, id)
  {
    if lines != [] {
      FoldKeeps(docs, lines[..|lines| - 1], id);
    }
  }

  lemma {:induction false} FoldFirst(docs: Docs, lines: seq<Line>, p: nat)
    requires AllCreate(lines) && p < |lines| && IsFirst(lines, p) && IdOf(lines[p]).value !in docs
    ensures At(Fold(docs, lines), IdOf(lines[p]).value) == Said(lines[p])
  {
    var k := |lines| - 1;
    if p < k {
      FoldFirst(docs, lines[..k], p);
    } else {
      FoldElsewhere(docs, lines[..k], IdOf(lines[p]).value);
    }
  }

  lemma {:induction false} FirstNaming(lines: seq<Line>, q: nat) returns (p: nat)
    requires q < |lines|
    ensures p <= q && IdOf(lines[p]) == IdOf(lines[q]) && IsFirst(lines, p)
  {
    if r: nat :| r < q && IdOf(lines[r]) == IdOf(lines[q]) {
      p := FirstNaming(lines, r);
    } else {
      p := q;
    }
  }

  lemma {:induction false} FirstChunk(layout: seq<seq<Line>>, c: nat, id: Id) returns (d: nat)
    requires c < |layout| && Names(layout[c], id)
    ensures d <= c && Names(layout[d], id) && forall e :: 0 <= e < d ==> !Names(layout[e], id)
  {
    hide Names;
    if e: nat :| e < c && Names(layout[e], id) {
      d := FirstChunk(layout, e, id);
    } else {
      d := c;
    }
  }

  lemma {:induction false} SerialFirst(docs: Docs, layout: seq<seq<Line>>, d: nat, p: nat, k: nat)
    requires AllCreates(layout) && d < k <= |layout| && p < |layout[d]| && IsFirst(layout[d], p)
    requires IdOf(layout[d][p]).value !in docs
    requires forall e :: 0 <= e < d ==> !Names(layout[e], IdOf(layout[d][p]).value)
    ensures At(Fold(docs, Flatten(layout[..k])), IdOf(layout[d][p]).value) == Said(layout[d][p])
  {
    var id := IdOf(layout[d][p]).value;
    var before := Flatten(layout[..k - 1]);
    assert layout[..k][..k - 1] == layout[..k - 1];
    FoldJoin(docs, before, layout[k - 1]);
    if k - 1 == d {
      FoldUnnamed(docs, layout[..d], id);
      hide Fold, Names;
      FoldFirst(Fold(docs, before), layout[d], p);
    } else {
      SerialFirst(docs, layout, d, p, k - 1);
      hide Fold, Names;
      FoldKeeps(Fold(docs, before), layout[k - 1], id);
    }
  }

  lemma {:induction false} FoldAllKeeps(docs: Docs, layout: seq<seq<Line>>, id: Id)
    requires AllCreates(layout) && id in docs
    ensures At(Fold(docs, Flatten(layout)), id) == At(docs, id)
  {
    if layout != [] {
      var k := |layout| - 1;
      FoldAllKeeps(docs, layout[..k], id);
      FoldJoin(docs, Flatten(layout[..k]), layout[k]);
      hide Fold;
      FoldKeeps(Fold(docs, Flatten(layout[..k])), layout[k], id);
    }
  }

  lemma {:induction false} ThereStays(write: Write, docs: Docs, moves: seq<Move>, id: Id)
    requires AllCreates(write.job.layout) && id in docs
    ensures At(After(write, docs, moves).docs, id) == At(docs, id)
  {
    if moves != [] {
      var front, move := moves[..|moves| - 1], moves[|moves| - 1];
      ThereStays(write, docs, front, id);
      var w := After(write, docs, front);
      if move.Does? && Enabled(write.job, w, Event(move.c, move.act)) {
        EffectAppends(write.job.layout[move.c], w.docs, move.act);
      }
      hide Effect, Enabled, Acted, AllCreates;
    }
  }

  /** What the lines for an id that can come first say, if they agree: what the first of them says. */
  lemma FirstWordOf(write: Write, rules: Rules, docs: Docs, id: Id, c: nat) returns (word: Option<Doc>)
    requires write.Valid() && FirstAgree(write, rules) && AllCreates(write.job.layout) && id !in docs
    requires c < |write.job.layout| && Names(write.job.layout[c], id)
    ensures FirstSay(write, rules, id, word) && At(Fold(docs, Flatten(write.job.layout)), id) == word
  {
    var layout := write.job.layout;
    var d := FirstChunk(layout, c, id);
    var q: nat :| q < |layout[d]| && IdOf(layout[d][q]) == Some(id);
    var p := FirstNaming(layout[d], q);
    word := Said(layout[d][p]);
    assert layout[..|layout|] == layout;
    SerialFirst(docs, layout, d, p, |layout|);
    hide Fold, Flatten, AllCreates, Names, Repeats;
    assert NamingBefore(write, d, id) == {};
    assert CanBeFirst(write, rules, d, p);
    hide CanBeFirst;
  }

  lemma FirstSerially(write: Write, rules: Rules, docs: Docs, moves: seq<Move>, id: Id)
    requires write.Valid() && FirstAgree(write, rules) && AllCreates(write.job.layout) && !rules.restarts
    requires Moves(write, rules, docs, moves) && EndedWell(After(write, docs, moves))
    ensures At(After(write, docs, moves).docs, id) == At(Fold(docs, Flatten(write.job.layout)), id)
  {
    hide Moves, After, Fold, Names, Flatten, FirstAgree, EndedWell, FirstOr, AllOk, AllKnown, AllCreates, FirstSay;
    if id in docs {
      ThereStays(write, docs, moves, id);
      FoldAllKeeps(docs, write.job.layout, id);
    } else if c: nat :| c < |write.job.layout| && Names(write.job.layout[c], id) {
      var word := FirstWordOf(write, rules, docs, id, c);
      EveryRunFirst(write, rules, docs, moves, id, word);
      EndedFirst(write, rules, After(write, docs, moves), id, word, c);
    } else {
      UnnamedStays(write, docs, moves, id);
      FoldUnnamed(docs, write.job.layout, id);
    }
  }

  /** First lines that agree are enough: every run without restarts that ends well leaves the serial result. */
  lemma FirstAgreementIsEnough(write: Write, rules: Rules, docs: Docs, moves: seq<Move>)
    requires write.Valid() && FirstAgree(write, rules) && AllCreates(write.job.layout) && !rules.restarts
    requires Moves(write, rules, docs, moves) && EndedWell(After(write, docs, moves))
    ensures After(write, docs, moves).docs == Fold(docs, Flatten(write.job.layout))
  {
    hide Moves, After, Fold, Flatten, FirstAgree, EndedWell, AllCreates;
    forall id ensures At(After(write, docs, moves).docs, id) == At(Fold(docs, Flatten(write.job.layout)), id) {
      FirstSerially(write, rules, docs, moves, id);
    }
    SameDocs(After(write, docs, moves).docs, Fold(docs, Flatten(write.job.layout)));
  }
}

/** What concurrent chunks leave in the index. */
module Confluence {
  // No two of their lines demand different things of one id. `Target` is what one serial application of a line leaves
  // at its id. Whatever the interleaving, the rejections, the time-outs, the probes sent twice and the tasks started
  // again, each id is at every moment as it was before the write or as its line demands, and it is as its line demands
  // once the line is counted as anything but an error.

  import opened Wrappers
  import opened BulkOutcome
  import opened ChunkProtocol
  import opened Documents
  import opened Cluster

  function Target(base: Docs, line: Line): Option<Doc> {
    match line
    case Index(_, doc) => Some(doc)
    case Create(id, doc) => if id in base then Some(base[id]) else Some(doc)
    case Delete(_) => None
  }

  /** What the id of a line holds right after the line was applied, if it is not a create. */
  function Said(line: Line): Option<Doc> {
    match line
    case Delete(_) => None
    case Index(_, doc) => Some(doc)
    case Create(_, doc) => Some(doc)
  }

  ghost predicate Landed(base: Docs, docs: Docs, line: Line) {
    IdOf(line).Some? && At(docs, IdOf(line).value) == Target(base, line)
  }

  ghost predicate Untouched(base: Docs, docs: Docs, line: Line) {
    IdOf(line).Some? && At(docs, IdOf(line).value) == At(base, IdOf(line).value)
  }

  ghost predicate OldOrNew(base: Docs, docs: Docs, line: Line) {
    Untouched(base, docs, line) || Landed(base, docs, line)
  }

  predicate Place(layout: seq<seq<Line>>, c: nat, p: nat) {
    c < |layout| && p < |layout[c]|
  }

  function LineAt(layout: seq<seq<Line>>, c: nat, p: nat): Line
    requires Place(layout, c, p)
  {
    layout[c][p]
  }

  /** Every line names an id. */
  ghost predicate AllNamed(layout: seq<seq<Line>>) {
    forall c, p :: Place(layout, c, p) ==> IdOf(LineAt(layout, c, p)).Some?
  }

  /** Every line names an id, and lines for the same id are the same line. Distinct ids are the usual case. */
  ghost predicate Agreeing(layout: seq<seq<Line>>) {
    && AllNamed(layout)
    && (forall c, p, c', p' :: Place(layout, c, p) && Place(layout, c', p') ==>
          (IdOf(LineAt(layout, c, p)) == IdOf(LineAt(layout, c', p')) ==>
             LineAt(layout, c, p) == LineAt(layout, c', p')))
  }

  ghost predicate Named(layout: seq<seq<Line>>, id: Id) {
    exists c: nat, p: nat :: Place(layout, c, p) && IdOf(LineAt(layout, c, p)) == Some(id)
  }

  /** Every id the write names is old or new, and every other id is as it was. */
  ghost predicate Between(base: Docs, layout: seq<seq<Line>>, docs: Docs) {
    && (forall c, p :: Place(layout, c, p) ==> OldOrNew(base, docs, LineAt(layout, c, p)))
    && (forall id :: !Named(layout, id) ==> At(docs, id) == At(base, id))
  }

  /** A status that settles the line as something other than an error. */
  predicate Confirms(line: Line, status: int) {
    OutcomeOf(Item(OpOf(line), Some(status))) != Error
  }

  /** The server's answer is trustworthy: a confirmed line is in effect, whether this application put it there, an
      earlier one did, or it already was. */
  lemma ApplyLands(base: Docs, docs: Docs, line: Line, status: int)
    requires OldOrNew(base, docs, line) && Allows(docs, line, status)
    ensures var docs' := if Is2xx(status) then ApplyLine(docs, line) else docs;
      && OldOrNew(base, docs', line)
      && (Confirms(line, status) ==> Landed(base, docs', line))
      && (Landed(base, docs, line) ==> Landed(base, docs', line))
  {
  }

  /** Applying a line changes nothing at any other id. */
  lemma ApplyElsewhere(docs: Docs, line: Line, id: Id)
    requires IdOf(line) != Some(id)
    ensures At(ApplyLine(docs, line), id) == At(docs, id)
  {
  }

  ghost predicate ProcSound(base: Docs, docs: Docs, lines: seq<Line>, proc: Proc) {
    && (forall p :: p in proc.m.settled && p < |lines| && proc.m.settled[p] != Error ==> Landed(base, docs, lines[p]))
    && (forall p :: p in proc.flight && p < |lines| && Confirms(lines[p], proc.flight[p]) ==>
          Landed(base, docs, lines[p]))
  }

  ghost predicate Sound(base: Docs, job: Job, w: World) {
    && |w.procs| == |job.layout|
    && Between(base, job.layout, w.docs)
    && (forall c :: 0 <= c < |w.procs| ==> ProcOk(job.cfg, |job.layout[c]|, w.procs[c]))
    && (forall c :: 0 <= c < |w.procs| ==> ProcSound(base, w.docs, job.layout[c], w.procs[c]))
  }

  lemma SoundReturned(base: Docs, cfg: Config, docs: Docs, lines: seq<Line>, proc: Proc, a: Answer)
    requires ProcOk(cfg, |lines|, proc) && proc.m.Active() && Truthful(lines, proc, a)
    requires ProcSound(base, docs, lines, proc)
    ensures ProcSound(base, docs, lines, Acted(cfg, |lines|, proc, Returned(a)))
  {
    hide ProcOk, Truthful, Landed;
    var m' := Next(cfg, |lines|, proc.m, a);
    forall p | p in m'.settled && p < |lines| && m'.settled[p] != Error ensures Landed(base, docs, lines[p]) {
      SettledNow(cfg, lines, proc, a, p);
      if p !in proc.m.settled {
        assert Judged(lines, proc, p, m'.settled[p]);
        assert Confirms(lines[p], proc.flight[p]);
      }
    }
  }

  /** An application by chunk `c` leaves every place as sound as it was. */
  lemma AppliedKeeps(base: Docs, layout: seq<seq<Line>>, docs: Docs, c: nat, p: nat, status: int, c': nat, p': nat)
    requires Agreeing(layout) && Place(layout, c, p) && Place(layout, c', p')
    requires OldOrNew(base, docs, LineAt(layout, c, p)) && OldOrNew(base, docs, LineAt(layout, c', p'))
    requires Allows(docs, LineAt(layout, c, p), status)
    ensures var docs' := Effect(layout[c], docs, Apply(p, status));
      && OldOrNew(base, docs', LineAt(layout, c', p'))
      && (Landed(base, docs, LineAt(layout, c', p')) ==> Landed(base, docs', LineAt(layout, c', p')))
      && ((c', p') == (c, p) && Confirms(LineAt(layout, c, p), status) ==> Landed(base, docs', LineAt(layout, c, p)))
  {
    var line, line' := LineAt(layout, c, p), LineAt(layout, c', p');
    if IdOf(line') == IdOf(line) {
      ApplyLands(base, docs, line, status);
    } else {
      ApplyElsewhere(docs, line, IdOf(line').value);
    }
  }

  lemma BetweenApplied(base: Docs, layout: seq<seq<Line>>, docs: Docs, c: nat, p: nat, status: int)
    requires Agreeing(layout) && Place(layout, c, p) && Between(base, layout, docs)
    requires Allows(docs, LineAt(layout, c, p), status)
    ensures Between(base, layout, Effect(layout[c], docs, Apply(p, status)))
  {
    hide Agreeing, OldOrNew;
    var docs' := Effect(layout[c], docs, Apply(p, status));
    forall c', p' | Place(layout, c', p') ensures OldOrNew(base, docs', LineAt(layout, c', p')) {
      AppliedKeeps(base, layout, docs, c, p, status, c', p');
    }
    forall id | !Named(layout, id) ensures At(docs', id) == At(base, id) {
      assert IdOf(LineAt(layout, c, p)) != Some(id);
      ApplyElsewhere(docs, LineAt(layout, c, p), id);
    }
  }

  lemma SoundApplied(base: Docs, cfg: Config, layout: seq<seq<Line>>, docs: Docs, c: nat, p: nat, status: int,
                     c': nat, proc: Proc)
    requires Agreeing(layout) && Place(layout, c, p) && c' < |layout| && Between(base, layout, docs)
    requires Allows(docs, LineAt(layout, c, p), status)
    requires ProcSound(base, docs, layout[c'], proc)
    ensures var proc' := if c' == c then Acted(cfg, |layout[c]|, proc, Apply(p, status)) else proc;
      ProcSound(base, Effect(layout[c], docs, Apply(p, status)), layout[c'], proc')
  {
    hide Agreeing, OldOrNew, Landed, Effect, Confirms;
    forall p': nat | p' < |layout[c']| ensures
        && (Landed(base, docs, layout[c'][p']) ==>
              Landed(base, Effect(layout[c], docs, Apply(p, status)), layout[c'][p']))
        && ((c', p') == (c, p) && Confirms(layout[c][p], status) ==>
              Landed(base, Effect(layout[c], docs, Apply(p, status)), layout[c][p]))
    {
      assert Place(layout, c', p');
      assert LineAt(layout, c', p') == layout[c'][p'] && LineAt(layout, c, p) == layout[c][p];
      AppliedKeeps(base, layout, docs, c, p, status, c', p');
    }
  }

  lemma SoundStep(base: Docs, job: Job, w: World, e: Event)
    requires Agreeing(job.layout) && Sound(base, job, w) && Enabled(job, w, e)
    ensures Sound(base, job, Step(job, w, e))
  {
    hide Agreeing, Between, ProcOk, ProcSound, Acted, Can, Effect;
    var lines, proc, w' := job.layout[e.c], w.procs[e.c], Step(job, w, e);
    assert Can(lines, w.docs, proc, e.act);
    ProcOkActed(job.cfg, lines, w.docs, proc, e.act);
    BetweenStep(base, job, w, e);
    forall c | 0 <= c < |w.procs| ensures ProcSound(base, w'.docs, job.layout[c], w'.procs[c]) {
      ProcSoundStep(base, job, w, e, c);
    }
  }

  lemma BetweenStep(base: Docs, job: Job, w: World, e: Event)
    requires Agreeing(job.layout) && Between(base, job.layout, w.docs) && Enabled(job, w, e)
    ensures Between(base, job.layout, Step(job, w, e).docs)
  {
    hide Agreeing, Between, Acted;
    if e.act.Apply? {
      assert Place(job.layout, e.c, e.act.p);
      BetweenApplied(base, job.layout, w.docs, e.c, e.act.p, e.act.status);
    }
  }

  lemma ProcSoundStep(base: Docs, job: Job, w: World, e: Event, c: nat)
    requires Agreeing(job.layout) && Between(base, job.layout, w.docs) && Enabled(job, w, e)
    requires |w.procs| == |job.layout| && c < |w.procs|
    requires ProcOk(job.cfg, |job.layout[e.c]|, w.procs[e.c])
    requires ProcSound(base, w.docs, job.layout[c], w.procs[c])
    ensures ProcSound(base, Step(job, w, e).docs, job.layout[c], Step(job, w, e).procs[c])
  {
    hide Agreeing, Between, ProcOk, ProcSound, Truthful, Next, Landed;
    match e.act
    case Apply(p, status) =>
      assert Place(job.layout, e.c, p);
      SoundApplied(base, job.cfg, job.layout, w.docs, e.c, p, status, c, w.procs[c]);
    case Returned(a) =>
      if c == e.c {
        SoundReturned(base, job.cfg, w.docs, job.layout[c], w.procs[c], a);
      }
    case Restart =>
      if c == e.c {
        NothingToShow(base, w.docs, job.layout[c], job.cfg, w.procs[c].landed);
      }
  }

  lemma NothingToShow(base: Docs, docs: Docs, lines: seq<Line>, cfg: Config, landed: multiset<nat>)
    ensures ProcSound(base, docs, lines, Proc(Start(cfg, |lines|), map[], landed))
  {
  }

  lemma SoundBegin(base: Docs, job: Job, docs: Docs)
    requires Between(base, job.layout, docs)
    ensures Sound(base, job, Begin(job, docs))
  {
    hide Between, ProcOk, ProcSound;
    var w := Begin(job, docs);
    forall c | 0 <= c < |w.procs| ensures
      ProcOk(job.cfg, |job.layout[c]|, w.procs[c]) && ProcSound(base, docs, job.layout[c], w.procs[c])
    {
      ProcOkFresh(job.cfg, |job.layout[c]|, multiset{});
      NothingToShow(base, docs, job.layout[c], job.cfg, multiset{});
    }
  }

  /** Safety over every run, also one that begins where an earlier, unfinished write of the same lines ended. */
  lemma {:induction false} EveryRunSound(base: Docs, job: Job, docs: Docs, events: seq<Event>)
    requires Agreeing(job.layout) && Between(base, job.layout, docs) && Run(job, docs, events)
    ensures Sound(base, job, Exec(job, docs, events))
  {
    hide Agreeing, Between, Sound, Enabled, Step, Begin;
    if events == [] {
      SoundBegin(base, job, docs);
    } else {
      var front := events[..|events| - 1];
      EveryRunSound(base, job, docs, front);
      SoundStep(base, job, Exec(job, docs, front), events[|events| - 1]);
    }
  }

  /* ---- one serial application ---- */

  function Fold(docs: Docs, lines: seq<Line>): Docs {
    if lines == [] then docs else ApplyLine(Fold(docs, lines[..|lines| - 1]), lines[|lines| - 1])
  }

  /** The same for a batch that is not yet dealt out. */
  ghost predicate AgreeingLines(lines: seq<Line>) {
    && (forall x :: x in lines ==> IdOf(x).Some?)
    && (forall x, y :: x in lines && y in lines && IdOf(x) == IdOf(y) ==> x == y)
  }

  /** Applied to an index that is old or new at its id, a line leaves its target. */
  lemma ApplyIsTarget(base: Docs, docs: Docs, line: Line)
    requires OldOrNew(base, docs, line)
    ensures Landed(base, ApplyLine(docs, line), line)
  {
  }

  /** Serial application puts every line at its target, in whatever order the lines come. */
  lemma {:induction false} FoldAt(base: Docs, lines: seq<Line>, i: nat)
    requires AgreeingLines(lines) && i < |lines|
    ensures At(Fold(base, lines), IdOf(lines[i]).value) == Target(base, lines[i])
    decreases |lines|, 0
  {
    var front, last := lines[..|lines| - 1], lines[|lines| - 1];
    forall x | x in front ensures x in lines {
    }
    if IdOf(lines[i]) != IdOf(last) {
      FoldAt(base, front, i);
      ApplyElsewhere(Fold(base, front), last, IdOf(lines[i]).value);
    } else {
      FoldOldOrNew(base, front, last);
      ApplyIsTarget(base, Fold(base, front), last);
    }
  }

  lemma {:induction false} FoldOldOrNew(base: Docs, lines: seq<Line>, line: Line)
    requires AgreeingLines(lines) && IdOf(line).Some?
    requires forall x :: x in lines && IdOf(x) == IdOf(line) ==> x == line
    ensures OldOrNew(base, Fold(base, lines), line)
    decreases |lines|, 1
  {
    if j :| 0 <= j < |lines| && lines[j] == line {
      FoldAt(base, lines, j);
    } else {
      FoldElsewhere(base, lines, IdOf(line).value);
    }
  }

  lemma {:induction false} FoldElsewhere(base: Docs, lines: seq<Line>, id: Id)
    requires forall i :: 0 <= i < |lines| ==> IdOf(lines[i]) != Some(id)
    ensures At(Fold(base, lines), id) == At(base, id)
  {
    if lines != [] {
      FoldElsewhere(base, lines[..|lines| - 1], id);
      ApplyElsewhere(Fold(base, lines[..|lines| - 1]), lines[|lines| - 1], id);
    }
  }

  /** `lines` and `layout` hold the same lines: the chunks are some arrangement of the batch. */
  ghost predicate Arranges(lines: seq<Line>, layout: seq<seq<Line>>) {
    && (forall c, p :: Place(layout, c, p) ==> LineAt(layout, c, p) in lines)
    && (forall i :: 0 <= i < |lines| ==>
          exists c: nat, p: nat :: Place(layout, c, p) && LineAt(layout, c, p) == lines[i])
  }

  /** Once every line has landed, the index is the serial application of the batch. */
  lemma AllLandedIsFold(base: Docs, lines: seq<Line>, layout: seq<seq<Line>>, docs: Docs)
    requires AgreeingLines(lines) && Arranges(lines, layout) && Between(base, layout, docs)
    requires forall c, p :: Place(layout, c, p) ==> Landed(base, docs, LineAt(layout, c, p))
    ensures docs == Fold(base, lines)
  {
    forall id ensures At(docs, id) == At(Fold(base, lines), id) {
      if i :| 0 <= i < |lines| && IdOf(lines[i]) == Some(id) {
        FoldAt(base, lines, i);
        var c, p :| Place(layout, c, p) && LineAt(layout, c, p) == lines[i];
        assert Landed(base, docs, LineAt(layout, c, p));
      } else {
        FoldElsewhere(base, lines, id);
        assert !Named(layout, id);
      }
    }
    SameDocs(docs, Fold(base, lines));
  }

  lemma SameDocs(a: Docs, b: Docs)
    requires forall id :: At(a, id) == At(b, id)
    ensures a == b
  {
    forall id ensures id in a <==> id in b {
      assert At(a, id) == At(b, id);
    }
    forall id | id in a ensures a[id] == b[id] {
      assert At(a, id) == At(b, id);
    }
  }

  /** The outcome the ledger of chunk `c` gives to its line at `p`, if it has one yet. */
  function CountedAs(w: World, c: nat, p: nat): Option<Outcome> {
    if c < |w.procs| && p in w.procs[c].m.settled then Some(w.procs[c].m.settled[p]) else None
  }

  lemma SoundAt(base: Docs, job: Job, w: World, c: nat, p: nat)
    requires Sound(base, job, w) && Place(job.layout, c, p)
    ensures OldOrNew(base, w.docs, LineAt(job.layout, c, p))
    ensures CountedAs(w, c, p).Some? && CountedAs(w, c, p) != Some(Error) ==>
              Landed(base, w.docs, LineAt(job.layout, c, p))
  {
    hide OldOrNew, Landed, ProcOk;
    assert ProcSound(base, w.docs, job.layout[c], w.procs[c]);
  }

  lemma SerialAt(base: Docs, lines: seq<Line>, layout: seq<seq<Line>>, c: nat, p: nat)
    requires AgreeingLines(lines) && Arranges(lines, layout) && Place(layout, c, p)
    ensures var line := LineAt(layout, c, p);
      IdOf(line).Some? && At(Fold(base, lines), IdOf(line).value) == Target(base, line)
  {
    var i :| 0 <= i < |lines| && lines[i] == LineAt(layout, c, p);
    FoldAt(base, lines, i);
  }

  /** Interleaving confluence. After any run over lines that agree on their ids, a line counted written, deleted or
      ignored has left its id as one serial application of the batch would; any other line has left it either so or as
      it was. */
  lemma InterleavingConfluence(
    docs: Docs, lines: seq<Line>, job: Job, events: seq<Event>, c: nat, p: nat, id: Id)
    requires Agreeing(job.layout) && AgreeingLines(lines) && Arranges(lines, job.layout)
    requires Run(job, docs, events) && Place(job.layout, c, p) && IdOf(LineAt(job.layout, c, p)) == Some(id)
    ensures
      var w := Exec(job, docs, events);
      var counted := CountedAs(w, c, p);
      && (counted.Some? && counted != Some(Error) ==> At(w.docs, id) == At(Fold(docs, lines), id))
      && (At(w.docs, id) == At(docs, id) || At(w.docs, id) == At(Fold(docs, lines), id))
  {
    assert Between(docs, job.layout, docs);
    hide Agreeing, AgreeingLines, Arranges, Run, Exec, Between, Sound, Fold, Target, CountedAs;
    EveryRunSound(docs, job, docs, events);
    SoundAt(docs, job, Exec(job, docs, events), c, p);
    SerialAt(docs, lines, job.layout, c, p);
  }
}

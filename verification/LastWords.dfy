/** Writes without creates: which lines can have the last word on an id. */
module LastWords {
  // The chunks of a partition that is shipped one chunk after the other speak in turn, so that only the last one to
  // name an id has a say on it. Inside a chunk, a server that keeps the order of the lines for an id leaves the last
  // word to the last of them, unless an earlier one is put off by a retry.

  import opened Wrappers
  import opened BulkOutcome
  import opened ChunkProtocol
  import opened Documents
  import opened Cluster
  import opened Confluence
  import opened Arrangement
  import opened Windows
  import opened ChunkRounds

  /** Every line names its id and is no create. */
  predicate Upserts(lines: seq<Line>) {
    forall p :: 0 <= p < |lines| ==> IdOf(lines[p]).Some? && !lines[p].Create?
  }

  predicate AllUpserts(layout: seq<seq<Line>>) {
    forall c :: 0 <= c < |layout| ==> Upserts(layout[c])
  }

  /** A later chunk of the partition names the id. */
  predicate NamedLater(write: Write, c: nat, id: Id) {
    exists d: nat :: c < d < |write.job.layout| && d < |write.part| && c < |write.part| &&
      write.part[d] == write.part[c] && Names(write.job.layout[d], id)
  }

  /** The chunk can be the last of its partition to say something on the id. */
  predicate HasSay(write: Write, c: nat, id: Id) {
    write.width > 1 || !NamedLater(write, c, id)
  }

  /** The line can have the last word of its chunk on its id. */
  ghost predicate CanBeLast(cfg: Config, ordered: bool, lines: seq<Line>, p: nat) {
    p < |lines| && (ordered ==> IsLast(lines, p) || CanRetry(cfg, lines[p]))
  }

  /** The line can have the last word of its partition on its id. */
  ghost predicate Decisive(write: Write, ordered: bool, c: nat, p: nat) {
    && Place(write.job.layout, c, p)
    && CanBeLast(write.job.cfg, ordered, write.job.layout[c], p)
    && (IdOf(write.job.layout[c][p]).Some? ==> HasSay(write, c, IdOf(write.job.layout[c][p]).value))
  }

  /** Decisive lines for the same id are the same line. */
  ghost predicate DecisiveAgree(write: Write, ordered: bool) {
    forall c: nat, p: nat, c': nat, p': nat :: Decisive(write, ordered, c, p) && Decisive(write, ordered, c', p') ==>
      (IdOf(write.job.layout[c][p]) == IdOf(write.job.layout[c'][p']) ==>
         write.job.layout[c][p] == write.job.layout[c'][p'])
  }

  /** Every line for the id that can have the last word of the chunk says `word`. */
  ghost predicate Speaks(cfg: Config, ordered: bool, lines: seq<Line>, id: Id, word: Option<Doc>) {
    forall p: nat :: CanBeLast(cfg, ordered, lines, p) && IdOf(lines[p]) == Some(id) ==> Said(lines[p]) == word
  }

  /* ---- a chunk that has not had its last word ---- */

  /** A line that says `word` is still to be confirmed by the call in flight. */
  ghost predicate Due(lines: seq<Line>, proc: Proc, id: Id, word: Option<Doc>, p: nat) {
    && p < |lines| && p in Carried(|lines|, proc.m) && IdOf(lines[p]) == Some(id) && Said(lines[p]) == word
    && !(p in proc.flight && Confirms(lines[p], proc.flight[p]))
  }

  /** The chunk names the id, and either has counted an error or is still to say `word`. */
  ghost predicate Owes(lines: seq<Line>, proc: Proc, id: Id, word: Option<Doc>) {
    Names(lines, id) && (proc.m.counts.errors > 0 || exists p: nat :: Due(lines, proc, id, word, p))
  }

  lemma OwesAtStart(cfg: Config, ordered: bool, lines: seq<Line>, id: Id, word: Option<Doc>, landed: multiset<nat>)
    requires Names(lines, id) && Speaks(cfg, ordered, lines, id, word)
    ensures Owes(lines, Proc(Start(cfg, |lines|), map[], landed), id, word)
  {
    var q: nat :| q < |lines| && IdOf(lines[q]) == Some(id);
    var p := LastNaming(lines, q);
    assert CanBeLast(cfg, ordered, lines, p);
    AllPositions(|lines|);
    assert Due(lines, Proc(Start(cfg, |lines|), map[], landed), id, word, p);
  }

  /** After a line for the id was taken up, the index says `word` or the chunk is still to say it. */
  lemma SpokenOrDue(cfg: Config, rules: Rules, lines: seq<Line>, docs: Docs, proc: Proc, q: nat, status: int, id: Id,
                    word: Option<Doc>)
    requires ChunkOk(cfg, lines, proc) && Upserts(lines) && Speaks(cfg, rules.ordered, lines, id, word)
    requires Can(lines, docs, proc, Apply(q, status)) && Follows(rules, lines, proc, Apply(q, status))
    requires IdOf(lines[q]) == Some(id) && Confirms(lines[q], status)
    ensures
      || At(Effect(lines, docs, Apply(q, status)), id) == word
      || Owes(lines, Acted(cfg, |lines|, proc, Apply(q, status)), id, word)
  {
    ConfirmedSays(docs, lines[q], status);
    if Said(lines[q]) != word {
      assert !CanBeLast(cfg, rules.ordered, lines, q);
      var p := LastNaming(lines, q);
      LaterIsCarried(cfg, lines, proc, q, p);
      hide ChunkOk, IsLast, CanRetry, Confirms, Effect, Carried;
      assert CanBeLast(cfg, rules.ordered, lines, p);
      assert Due(lines, Acted(cfg, |lines|, proc, Apply(q, status)), id, word, p);
    }
  }

  lemma ConfirmedSays(docs: Docs, line: Line, status: int)
    requires Allows(docs, line, status) && Confirms(line, status) && IdOf(line).Some? && !line.Create?
    ensures At(if Is2xx(status) then ApplyLine(docs, line) else docs, IdOf(line).value) == Said(line)
  {
  }

  /** A line that cannot be retried is sent with the whole chunk. */
  lemma LaterIsCarried(cfg: Config, lines: seq<Line>, proc: Proc, q: nat, p: nat)
    requires ChunkOk(cfg, lines, proc) && q in Carried(|lines|, proc.m)
    requires q < |lines| && p < |lines| && !CanRetry(cfg, lines[q])
    ensures p in Carried(|lines|, proc.m)
  {
    AllPositions(|lines|);
    hide ProcOk, CanRetry;
  }

  lemma OwesApplied(cfg: Config, lines: seq<Line>, proc: Proc, q: nat, status: int, id: Id, word: Option<Doc>)
    requires Owes(lines, proc, id, word) && q < |lines| && (IdOf(lines[q]) == Some(id) ==> !Confirms(lines[q], status))
    ensures Owes(lines, Acted(cfg, |lines|, proc, Apply(q, status)), id, word)
  {
    hide Confirms, Carried;
    if p: nat :| Due(lines, proc, id, word, p) {
      assert Due(lines, Acted(cfg, |lines|, proc, Apply(q, status)), id, word, p);
    }
  }

  /** A line that is due stays due, or is an error. */
  lemma DueReturned(cfg: Config, lines: seq<Line>, proc: Proc, a: Answer, id: Id, word: Option<Doc>, p: nat)
    requires ChunkOk(cfg, lines, proc) && proc.m.Active() && Truthful(lines, proc, a) && Due(lines, proc, id, word, p)
    ensures var m' := Next(cfg, |lines|, proc.m, a);
      m'.counts.errors > 0 || p in Carried(|lines|, m')
  {
    hide Confirms;
    UnconfirmedReturned(cfg, lines, proc, a, p);
  }

  lemma OwesReturned(cfg: Config, lines: seq<Line>, proc: Proc, a: Answer, id: Id, word: Option<Doc>)
    requires ChunkOk(cfg, lines, proc) && proc.m.Active() && Truthful(lines, proc, a) && Owes(lines, proc, id, word)
    ensures Owes(lines, Acted(cfg, |lines|, proc, Returned(a)), id, word)
  {
    var proc' := Acted(cfg, |lines|, proc, Returned(a));
    ErrorsStay(cfg, |lines|, proc.m, a);
    if p: nat :| Due(lines, proc, id, word, p) {
      DueReturned(cfg, lines, proc, a, id, word, p);
      hide ChunkOk, Next, Truthful, Confirms, Carried;
      assert proc'.m.counts.errors == 0 ==> Due(lines, proc', id, word, p);
    }
  }

  /* ---- one chunk after the other ---- */

  /** At width one, nothing has happened to a chunk while an earlier one of its partition is in progress. */
  ghost predicate Queued(write: Write, w: World) {
    write.width == 1 ==> forall e: nat, c: nat ::
      (e < c < |w.procs| && c < |write.part| && c < |write.job.layout| && write.part[e] == write.part[c] &&
       w.procs[e].m.Active()) ==> NotBegun(write.job.cfg, |write.job.layout[c]|, w.procs[c])
  }

  lemma NoneAhead(write: Write, w: World, c: nat, e: nat)
    requires write.width == 1 && InWindow(write, w, c) && e < c < |w.procs| && c < |write.part|
    requires write.part[e] == write.part[c]
    ensures !w.procs[e].m.Active()
  {
    assert Ahead(write, w, c) == {};
    assert e !in Ahead(write, w, c);
  }

  lemma QueuedDoes(write: Write, rules: Rules, w: World, c: nat, act: Act)
    requires Queued(write, w) && |w.procs| == |write.job.layout| && Admits(write, rules, w, Does(c, act))
    ensures Queued(write, Moved(write, w, Does(c, act)))
  {
    var w' := Moved(write, w, Does(c, act));
    Acting(write.job.layout[c], w.docs, w.procs[c], act);
    hide Can, Effect, Acted, Follows, Ahead, Start;
    if write.width == 1 {
      forall e: nat, d: nat | e < d < |w'.procs| && d < |write.part| && write.part[e] == write.part[d] &&
          w'.procs[e].m.Active()
        ensures NotBegun(write.job.cfg, |write.job.layout[d]|, w'.procs[d])
      {
        if d == c {
          NoneAhead(write, w, c, e);
        }
      }
    }
  }

  /** Only a chunk in progress acts. */
  lemma Acting(lines: seq<Line>, docs: Docs, proc: Proc, act: Act)
    requires Can(lines, docs, proc, act) && !act.Restart?
    ensures proc.m.Active()
  {
  }

  lemma QueuedOver(write: Write, w: World, k: nat)
    requires Queued(write, w) && |w.procs| == |write.job.layout|
    ensures Queued(write, Moved(write, w, StartOver(k)))
  {
    hide Start;
  }

  /** The last chunk of the partition that names the id. */
  lemma {:induction false} LastChunk(write: Write, c: nat, id: Id) returns (d: nat)
    requires c < |write.job.layout| && write.Valid() && Names(write.job.layout[c], id)
    ensures c <= d < |write.job.layout| && write.part[d] == write.part[c] && Names(write.job.layout[d], id)
    ensures !NamedLater(write, d, id)
    decreases |write.job.layout| - c
  {
    hide Names;
    if e: nat :| c < e < |write.job.layout| && write.part[e] == write.part[c] && Names(write.job.layout[e], id) {
      d := LastChunk(write, e, id);
    } else {
      d := c;
    }
  }

  /* ---- over runs ---- */

  /** The index says `word` at the id, or some chunk is still to say it or has counted an error. */
  ghost predicate Spoken(job: Job, w: World, id: Id, word: Option<Doc>) {
    || At(w.docs, id) == word
    || exists c: nat :: c < |job.layout| && c < |w.procs| && Owes(job.layout[c], w.procs[c], id, word)
  }

  /** The chunks that have a say on the id say `word`. */
  ghost predicate AllSpeak(write: Write, ordered: bool, id: Id, word: Option<Doc>) {
    forall c: nat :: c < |write.job.layout| && HasSay(write, c, id) ==>
      Speaks(write.job.cfg, ordered, write.job.layout[c], id, word)
  }

  ghost predicate WorldOk(write: Write, w: World) {
    AllOk(write.job, w) && Queued(write, w)
  }

  /** A line for the id is taken up by a chunk that has no say: the last chunk of the partition is still to begin. */
  lemma LaterOwes(write: Write, ordered: bool, w: World, c: nat, id: Id, word: Option<Doc>)
    requires write.Valid() && WorldOk(write, w) && AllSpeak(write, ordered, id, word)
    requires c < |write.job.layout| && w.procs[c].m.Active()
    requires Names(write.job.layout[c], id) && !HasSay(write, c, id)
    ensures exists d: nat :: c < d < |w.procs| && Owes(write.job.layout[d], w.procs[d], id, word)
  {
    var d := LastChunk(write, c, id);
    hide ChunkOk, Speaks, Names, Owes, Start;
    assert HasSay(write, d, id) && d > c;
    assert NotBegun(write.job.cfg, |write.job.layout[d]|, w.procs[d]);
    OwesAtStart(write.job.cfg, ordered, write.job.layout[d], id, word, w.procs[d].landed);
    assert w.procs[d] == Proc(Start(write.job.cfg, |write.job.layout[d]|), map[], w.procs[d].landed);
  }

  lemma SomethingSaid(write: Write, rules: Rules, w: World, c: nat, q: nat, status: int, id: Id, word: Option<Doc>)
    requires write.Valid() && WorldOk(write, w) && AllUpserts(write.job.layout)
    requires AllSpeak(write, rules.ordered, id, word) && Admits(write, rules, w, Does(c, Apply(q, status)))
    requires IdOf(write.job.layout[c][q]) == Some(id) && Confirms(write.job.layout[c][q], status)
    ensures Spoken(write.job, Moved(write, w, Does(c, Apply(q, status))), id, word)
  {
    var lines, proc, w' := write.job.layout[c], w.procs[c], Moved(write, w, Does(c, Apply(q, status)));
    Acting(lines, w.docs, proc, Apply(q, status));
    if HasSay(write, c, id) {
      SpokenOrDue(write.job.cfg, rules, lines, w.docs, proc, q, status, id, word);
      hide ChunkOk, Speaks, Upserts, Effect, Acted, Owes, Can, HasSay;
    } else {
      LaterOwes(write, rules.ordered, w, c, id, word);
      hide ChunkOk, Speaks, Upserts, Effect, Acted, Owes, Can, HasSay;
      var d: nat :| c < d < |w.procs| && Owes(write.job.layout[d], w.procs[d], id, word);
      assert Owes(write.job.layout[d], w'.procs[d], id, word);
    }
  }

  lemma SpokenDoes(write: Write, rules: Rules, w: World, c: nat, act: Act, id: Id, word: Option<Doc>)
    requires write.Valid() && WorldOk(write, w) && AllUpserts(write.job.layout)
    requires AllSpeak(write, rules.ordered, id, word) && Admits(write, rules, w, Does(c, act))
    requires Spoken(write.job, w, id, word)
    ensures Spoken(write.job, Moved(write, w, Does(c, act)), id, word)
  {
    var lines, proc, w' := write.job.layout[c], w.procs[c], Moved(write, w, Does(c, act));
    if act.Apply? && IdOf(lines[act.p]) == Some(id) && Confirms(lines[act.p], act.status) {
      SomethingSaid(write, rules, w, c, act.p, act.status, id, word);
    } else {
      if act.Apply? {
        NothingSaid(lines, w.docs, act.p, act.status, id);
      }
      hide ChunkOk, Effect, Owes, Truthful, Start, Next, Follows, Queued, AllSpeak, AllUpserts, InWindow, Confirms;
      if k: nat :| k < |write.job.layout| && k < |w.procs| && Owes(write.job.layout[k], w.procs[k], id, word) {
        if k == c {
          if act.Apply? {
            OwesApplied(write.job.cfg, lines, proc, act.p, act.status, id, word);
          } else {
            OwesReturned(write.job.cfg, lines, proc, act.a, id, word);
          }
        }
        assert Owes(write.job.layout[k], w'.procs[k], id, word);
      }
    }
  }

  lemma NamesIfOwes(lines: seq<Line>, proc: Proc, id: Id, word: Option<Doc>)
    requires Owes(lines, proc, id, word)
    ensures Names(lines, id)
  {
  }

  lemma SpokenOver(write: Write, ordered: bool, w: World, k: nat, id: Id, word: Option<Doc>)
    requires write.Valid() && |w.procs| == |write.job.layout|
    requires AllSpeak(write, ordered, id, word) && Spoken(write.job, w, id, word)
    ensures Spoken(write.job, Moved(write, w, StartOver(k)), id, word)
  {
    var w' := Moved(write, w, StartOver(k));
    hide Owes, Start, Speaks, HasSay, Names;
    if c: nat :| c < |write.job.layout| && Owes(write.job.layout[c], w.procs[c], id, word) {
      if write.part[c] == k {
        NamesIfOwes(write.job.layout[c], w.procs[c], id, word);
        var d := LastChunk(write, c, id);
        LastHasSay(write, d, id);
        OwesAtStart(write.job.cfg, ordered, write.job.layout[d], id, word, w.procs[d].landed);
        assert Owes(write.job.layout[d], w'.procs[d], id, word);
      } else {
        assert Owes(write.job.layout[c], w'.procs[c], id, word);
      }
    }
  }

  lemma LastHasSay(write: Write, d: nat, id: Id)
    requires !NamedLater(write, d, id)
    ensures HasSay(write, d, id)
  {
  }

  lemma WorldOkMoved(write: Write, rules: Rules, w: World, move: Move)
    requires write.Valid() && WorldOk(write, w) && Admits(write, rules, w, move)
    ensures WorldOk(write, Moved(write, w, move))
  {
    hide Queued;
    AllOkMoved(write, rules, w, move);
    hide AllOk, Moved, Admits;
    ShapeOk(write.job, w);
    if move.Does? {
      QueuedDoes(write, rules, w, move.c, move.act);
    } else {
      QueuedOver(write, w, move.k);
    }
  }

  lemma ShapeOk(job: Job, w: World)
    requires AllOk(job, w)
    ensures |w.procs| == |job.layout|
  {
  }

  lemma WorldOkBegin(write: Write, docs: Docs)
    ensures WorldOk(write, Begin(write.job, docs))
  {
    AllOkBegin(write.job, docs);
    hide AllOk, Start;
  }

  lemma SpokenBegin(write: Write, ordered: bool, docs: Docs, id: Id, word: Option<Doc>, c: nat)
    requires write.Valid() && AllSpeak(write, ordered, id, word)
    requires c < |write.job.layout| && Names(write.job.layout[c], id)
    ensures Spoken(write.job, Begin(write.job, docs), id, word)
  {
    var d := LastChunk(write, c, id);
    LastHasSay(write, d, id);
    hide Names, Speaks, HasSay, Start;
    OwesAtStart(write.job.cfg, ordered, write.job.layout[d], id, word, multiset{});
    hide Owes;
    assert Owes(write.job.layout[d], Begin(write.job, docs).procs[d], id, word);
  }

  /** Over every run: the index says what the decisive lines say, or some chunk is still to say it. */
  lemma {:induction false} EveryRunSpeaks(
    write: Write, rules: Rules, docs: Docs, moves: seq<Move>, id: Id, word: Option<Doc>, c: nat)
    requires write.Valid() && AllUpserts(write.job.layout) && Moves(write, rules, docs, moves)
    requires AllSpeak(write, rules.ordered, id, word) && c < |write.job.layout| && Names(write.job.layout[c], id)
    ensures WorldOk(write, After(write, docs, moves)) && Spoken(write.job, After(write, docs, moves), id, word)
  {
    hide WorldOk, Spoken, AllSpeak, Names, Begin, Moved, Admits, AllUpserts;
    if moves == [] {
      WorldOkBegin(write, docs);
      SpokenBegin(write, rules.ordered, docs, id, word, c);
    } else {
      var front, move := moves[..|moves| - 1], moves[|moves| - 1];
      EveryRunSpeaks(write, rules, docs, front, id, word, c);
      WorldOkMoved(write, rules, After(write, docs, front), move);
      match move
      case Does(d, act) => SpokenDoes(write, rules, After(write, docs, front), d, act, id, word);
      case StartOver(k) =>
        AfterShape(write, docs, front);
        SpokenOver(write, rules.ordered, After(write, docs, front), k, id, word);
    }
  }

  /** In a run that ended well no chunk owes anything. */
  lemma NothingOwed(job: Job, w: World, id: Id, word: Option<Doc>)
    requires EndedWell(w) && Spoken(job, w, id, word)
    ensures At(w.docs, id) == word
  {
  }

  /* ---- the serial result ---- */

  lemma {:induction false} FoldLast(docs: Docs, lines: seq<Line>, p: nat)
    requires Upserts(lines) && p < |lines| && IsLast(lines, p)
    ensures At(Fold(docs, lines), IdOf(lines[p]).value) == Said(lines[p])
  {
    var k := |lines| - 1;
    if p < k {
      FoldLast(docs, lines[..k], p);
      ApplyElsewhere(Fold(docs, lines[..k]), lines[k], IdOf(lines[p]).value);
    }
  }

  lemma ChunkSays(cfg: Config, ordered: bool, docs: Docs, lines: seq<Line>, id: Id, word: Option<Doc>)
    requires Upserts(lines) && Speaks(cfg, ordered, lines, id, word) && Names(lines, id)
    ensures At(Fold(docs, lines), id) == word
  {
    var q: nat :| q < |lines| && IdOf(lines[q]) == Some(id);
    var p := LastNaming(lines, q);
    FoldLast(docs, lines, p);
    assert CanBeLast(cfg, ordered, lines, p);
  }

  lemma SerialSplit(docs: Docs, layout: seq<seq<Line>>, k: nat)
    requires 0 < k <= |layout|
    ensures Fold(docs, Flatten(layout[..k])) == Fold(Fold(docs, Flatten(layout[..k - 1])), layout[k - 1])
  {
    assert layout[..k][..k - 1] == layout[..k - 1];
    FoldJoin(docs, Flatten(layout[..k - 1]), layout[k - 1]);
    hide Fold;
  }

  /** Applied last, the last chunk that names the id says what it has to. */
  lemma LastChunkSays(write: Write, ordered: bool, docs: Docs, id: Id, word: Option<Doc>, k: nat)
    requires write.Valid() && AllUpserts(write.job.layout) && AllSpeak(write, ordered, id, word)
    requires k < |write.job.layout| && Names(write.job.layout[k], id)
    requires forall d :: k < d < |write.job.layout| ==> !Names(write.job.layout[d], id)
    ensures At(Fold(docs, write.job.layout[k]), id) == word
  {
    hide Fold, Names, Speaks, Upserts;
    assert HasSay(write, k, id);
    ChunkSays(write.job.cfg, ordered, docs, write.job.layout[k], id, word);
  }

  lemma UnnamingChunk(docs: Docs, lines: seq<Line>, id: Id)
    requires !Names(lines, id)
    ensures At(Fold(docs, lines), id) == At(docs, id)
  {
    FoldElsewhere(docs, lines, id);
  }

  /** Chunk by chunk: the first `k` chunks leave at the id what the last of them that names it says. */
  lemma {:induction false} SerialSays(
    write: Write, ordered: bool, docs: Docs, id: Id, word: Option<Doc>, k: nat, c: nat)
    requires write.Valid() && AllUpserts(write.job.layout) && AllSpeak(write, ordered, id, word)
    requires c < k <= |write.job.layout| && Names(write.job.layout[c], id)
    requires forall d :: k <= d < |write.job.layout| ==> !Names(write.job.layout[d], id)
    ensures At(Fold(docs, Flatten(write.job.layout[..k])), id) == word
  {
    hide Fold, Flatten, Names, AllUpserts, AllSpeak;
    var before := Fold(docs, Flatten(write.job.layout[..k - 1]));
    SerialSplit(docs, write.job.layout, k);
    if Names(write.job.layout[k - 1], id) {
      LastChunkSays(write, ordered, before, id, word, k - 1);
    } else {
      SerialSays(write, ordered, docs, id, word, k - 1, c);
      UnnamingChunk(before, write.job.layout[k - 1], id);
    }
  }

  /** What the decisive lines for an id say, if they agree. */
  lemma WordOf(write: Write, ordered: bool, id: Id, c: nat) returns (word: Option<Doc>)
    requires write.Valid() && DecisiveAgree(write, ordered) && AllUpserts(write.job.layout)
    requires c < |write.job.layout| && Names(write.job.layout[c], id)
    ensures AllSpeak(write, ordered, id, word)
  {
    var layout := write.job.layout;
    var d := LastChunk(write, c, id);
    LastHasSay(write, d, id);
    var q: nat :| q < |layout[d]| && IdOf(layout[d][q]) == Some(id);
    var p := LastNaming(layout[d], q);
    word := Said(layout[d][p]);
    assert Decisive(write, ordered, d, p);
    hide Upserts, CanBeLast, HasSay;
    forall k: nat | k < |layout| && HasSay(write, k, id)
      ensures Speaks(write.job.cfg, ordered, layout[k], id, word)
    {
      forall r: nat | CanBeLast(write.job.cfg, ordered, layout[k], r) && IdOf(layout[k][r]) == Some(id)
        ensures Said(layout[k][r]) == word
      {
        assert Decisive(write, ordered, k, r);
      }
    }
  }

  lemma SaysSerially(write: Write, rules: Rules, docs: Docs, moves: seq<Move>, id: Id)
    requires write.Valid() && DecisiveAgree(write, rules.ordered) && AllUpserts(write.job.layout)
    requires Moves(write, rules, docs, moves) && EndedWell(After(write, docs, moves))
    ensures At(After(write, docs, moves).docs, id) == At(Fold(docs, Flatten(write.job.layout)), id)
  {
    hide Moves, After, Fold, Names, Flatten, DecisiveAgree, EndedWell, Spoken, WorldOk, AllUpserts, AllSpeak;
    var layout := write.job.layout;
    assert layout[..|layout|] == layout;
    if c: nat :| c < |layout| && Names(layout[c], id) {
      var word := WordOf(write, rules.ordered, id, c);
      EveryRunSpeaks(write, rules, docs, moves, id, word, c);
      NothingOwed(write.job, After(write, docs, moves), id, word);
      SerialSays(write, rules.ordered, docs, id, word, |layout|, c);
    } else {
      UnnamedStays(write, docs, moves, id);
      FoldUnnamed(docs, layout, id);
    }
  }

  /** Decisive lines that agree are enough: every run that ends well leaves the serial result, from every index,
      probes, time-outs, retries and restarts notwithstanding. */
  lemma AgreementIsEnough(write: Write, rules: Rules, docs: Docs, moves: seq<Move>)
    requires write.Valid() && DecisiveAgree(write, rules.ordered) && AllUpserts(write.job.layout)
    requires Moves(write, rules, docs, moves) && EndedWell(After(write, docs, moves))
    ensures After(write, docs, moves).docs == Fold(docs, Flatten(write.job.layout))
  {
    hide Moves, After, Fold, Flatten, DecisiveAgree, EndedWell, AllUpserts;
    forall id ensures At(After(write, docs, moves).docs, id) == At(Fold(docs, Flatten(write.job.layout)), id) {
      SaysSerially(write, rules, docs, moves, id);
    }
    SameDocs(After(write, docs, moves).docs, Fold(docs, Flatten(write.job.layout)));
  }
}

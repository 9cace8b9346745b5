/** Chosen chunks run one after the other, inside the window: some of them, then one of our choice, then the others; or
    all of them, after a partition was started over. */
module Turns {
  import opened ChunkProtocol
  import opened Documents
  import opened Cluster
  import opened Confluence
  import opened AppendOnly
  import opened Windows
  import opened ChunkRounds
  import opened FirstWords
  import opened Schedules
  import opened Scripts

  /** The chunks before `c` in its partition that are in progress and whose turn does not come. */
  function Waiting(write: Write, w: World, todo: set<nat>, c: nat): set<nat>
    requires c < |write.part|
  {
    set e: nat | e < c && e < |w.procs| && write.part[e] == write.part[c] && w.procs[e].m.Active() && e !in todo
  }

  /** The chunks of `todo` are still to begin, and the window will let them. */
  ghost predicate InTurn(write: Write, w: World, todo: set<nat>) {
    && |w.procs| == |write.job.layout| == |write.part|
    && forall c :: c in todo ==>
         && c < |w.procs| && NotBegun(write.job.cfg, |write.job.layout[c]|, w.procs[c])
         && |Waiting(write, w, todo, c)| < write.width
  }

  /** Of the chunks below `k` those in `todo` have had their turn, and nothing has happened to the others. */
  ghost predicate HadTurns(w0: World, w: World, todo: set<nat>, k: nat, well: bool) {
    && |w.procs| == |w0.procs|
    && forall e: nat :: e < |w.procs| ==>
         if e in todo && e < k then w.procs[e].m.phase.Done? && (well ==> Settled(w.procs[e]))
         else w.procs[e] == w0.procs[e]
  }

  lemma TurnComes(write: Write, w0: World, w: World, todo: set<nat>, k: nat, well: bool)
    requires InTurn(write, w0, todo) && HadTurns(w0, w, todo, k, well) && k in todo
    ensures Ready(write, w, k) && NotBegun(write.job.cfg, |write.job.layout[k]|, w.procs[k])
  {
    hide Start;
    assert Ahead(write, w, k) <= Waiting(write, w0, todo, k);
    Smaller(Ahead(write, w, k), Waiting(write, w0, todo, k));
  }

  lemma HadTurnsShape(w0: World, w: World, todo: set<nat>, k: nat, well: bool)
    requires HadTurns(w0, w, todo, k, well)
    ensures |w.procs| == |w0.procs|
  {
  }

  lemma NoTurnYet(w: World, todo: set<nat>, well: bool)
    ensures HadTurns(w, w, todo, 0, well)
  {
  }

  lemma HadTurn(w0: World, w: World, w': World, todo: set<nat>, k: nat, well: bool)
    requires HadTurns(w0, w, todo, k, well) && k < |w.procs| && OthersSame(w, w', k)
    requires if k in todo then w'.procs[k].m.phase.Done? && (well ==> Settled(w'.procs[k])) else w' == w
    ensures HadTurns(w0, w', todo, k + 1, well)
  {
  }

  /** The chunk cannot change what the index says at the id. */
  ghost predicate Spares(lines: seq<Line>, docs: Docs, id: Id) {
    (AllCreate(lines) && id in docs) || !Names(lines, id)
  }

  ghost predicate AllSpare(layout: seq<seq<Line>>, todo: set<nat>, docs: Docs, id: Id) {
    forall c :: c in todo && c < |layout| ==> Spares(layout[c], docs, id)
  }

  lemma Spared(docs: Docs, lines: seq<Line>, said: seq<Line>, id: Id)
    requires Spares(lines, docs, id) && forall x :: x in said ==> x in lines
    ensures At(Fold(docs, said), id) == At(docs, id)
  {
    assert forall i :: 0 <= i < |said| ==> said[i] in said;
    if Names(lines, id) {
      FoldKeeps(docs, said, id);
    } else {
      FoldElsewhere(docs, said, id);
    }
  }

  /** One chunk runs, and is confirmed or refused throughout. */
  lemma RunOne(write: Write, rules: Rules, docs: Docs, before: seq<Move>, c: nat, well: bool, id: Id)
    returns (moves: seq<Move>)
    requires Moves(write, rules, docs, before) && Ready(write, After(write, docs, before), c)
    requires NotBegun(write.job.cfg, |write.job.layout[c]|, After(write, docs, before).procs[c])
    ensures Moves(write, rules, docs, moves) && before <= moves
    ensures OthersSame(After(write, docs, before), After(write, docs, moves), c)
    ensures After(write, docs, moves).procs[c].m.phase.Done? && (well ==> Settled(After(write, docs, moves).procs[c]))
    ensures !well ==> After(write, docs, moves).docs == After(write, docs, before).docs
    ensures Spares(write.job.layout[c], After(write, docs, before).docs, id) ==>
              At(After(write, docs, moves).docs, id) == At(After(write, docs, before).docs, id)
  {
    var lines, w0 := write.job.layout[c], After(write, docs, before);
    ReadyHas(write, w0, c);
    NotBegunIsOpen(write.job.cfg, |lines|, w0.procs[c]);
    hide Moves, After, Ready, Spares, Playable, Heard, NotBegun, All, Fold;
    if well {
      HealthyPlays(write.job.cfg, rules, lines);
      var said;
      moves, said := RunChunk(write, rules, docs, before, c, Healthy(|lines|));
      HeardWithin(lines, Healthy(|lines|), w0.procs[c].m.phase.Probing?, said);
      if Spares(lines, w0.docs, id) {
        Spared(w0.docs, lines, said, id);
      }
    } else {
      moves := RefuseChunk(write, rules, docs, before, c);
    }
  }

  /** The turn of chunk `k`, if it has one. */
  lemma RunNext(write: Write, rules: Rules, docs: Docs, before: seq<Move>, w0: World, todo: set<nat>, k: nat,
                well: bool, id: Id) returns (moves: seq<Move>)
    requires Moves(write, rules, docs, before) && InTurn(write, w0, todo) && k < |write.job.layout|
    requires HadTurns(w0, After(write, docs, before), todo, k, well)
    ensures Moves(write, rules, docs, moves) && before <= moves
    ensures HadTurns(w0, After(write, docs, moves), todo, k + 1, well)
    ensures !well ==> After(write, docs, moves).docs == After(write, docs, before).docs
    ensures AllSpare(write.job.layout, todo, w0.docs, id) &&
            At(After(write, docs, before).docs, id) == At(w0.docs, id) ==>
              At(After(write, docs, moves).docs, id) == At(w0.docs, id)
  {
    var w1 := After(write, docs, before);
    InTurnShape(write, w0, todo);
    HadTurnsShape(w0, w1, todo, k, well);
    hide Moves, After, InTurn, HadTurns, AllSpare, Ready, NotBegun, OthersSame, Spares, Settled;
    moves := before;
    if k in todo {
      TurnComes(write, w0, w1, todo, k, well);
      moves := RunOne(write, rules, docs, before, k, well, id);
      if AllSpare(write.job.layout, todo, w0.docs, id) && At(w1.docs, id) == At(w0.docs, id) {
        SparesStill(write.job.layout, todo, w0.docs, w1.docs, id, k);
      }
    }
    HadTurn(w0, w1, After(write, docs, moves), todo, k, well);
  }

  /** The chunks of `todo` below `k` run in their order. */
  lemma {:induction false} RunInTurn(
    write: Write, rules: Rules, docs: Docs, before: seq<Move>, todo: set<nat>, k: nat, well: bool, id: Id)
    returns (moves: seq<Move>)
    requires Moves(write, rules, docs, before) && InTurn(write, After(write, docs, before), todo)
    requires k <= |write.job.layout|
    ensures Moves(write, rules, docs, moves) && before <= moves
    ensures HadTurns(After(write, docs, before), After(write, docs, moves), todo, k, well)
    ensures !well ==> After(write, docs, moves).docs == After(write, docs, before).docs
    ensures AllSpare(write.job.layout, todo, After(write, docs, before).docs, id) ==>
              At(After(write, docs, moves).docs, id) == At(After(write, docs, before).docs, id)
  {
    hide *;
    var w0 := After(write, docs, before);
    if k == 0 {
      moves := before;
      NoTurnYet(w0, todo, well);
    } else {
      moves := RunInTurn(write, rules, docs, before, todo, k - 1, well, id);
      moves := RunNext(write, rules, docs, moves, w0, todo, k - 1, well, id);
    }
  }

  lemma InTurnShape(write: Write, w: World, todo: set<nat>)
    requires InTurn(write, w, todo)
    ensures |w.procs| == |write.job.layout|
  {
  }

  lemma SparesStill(layout: seq<seq<Line>>, todo: set<nat>, docs: Docs, docs': Docs, id: Id, c: nat)
    requires AllSpare(layout, todo, docs, id) && At(docs', id) == At(docs, id) && c in todo && c < |layout|
    ensures Spares(layout[c], docs', id)
  {
    hide Names;
  }

  /* ---- some chunks, then one of our choice, then the others ---- */

  /** The chunks before `c` in its partition that are not in `first`. */
  function Blocking(write: Write, first: set<nat>, c: nat): set<nat>
    requires c < |write.part|
  {
    set e: nat | e < c && write.part[e] == write.part[c] && e !in first
  }

  /** The chunks of `first` can run from the beginning, and chunk `c` after them. */
  ghost predicate Opens(write: Write, first: set<nat>, c: nat) {
    && write.Valid() && c < |write.part| && c !in first && |Blocking(write, first, c)| < write.width
    && forall d :: d in first ==> d < |write.part| && |Blocking(write, first, d)| < write.width
  }

  lemma BeginInTurn(write: Write, docs: Docs, first: set<nat>, c: nat)
    requires Opens(write, first, c)
    ensures InTurn(write, Begin(write.job, docs), first)
  {
    hide Start;
    var w := Begin(write.job, docs);
    forall d | d in first ensures |Waiting(write, w, first, d)| < write.width {
      Smaller(Waiting(write, w, first, d), Blocking(write, first, d));
    }
  }

  /** Nothing has happened to the chunk yet, and it may begin. */
  ghost predicate UpNext(write: Write, w: World, c: nat) {
    Ready(write, w, c) && NotBegun(write.job.cfg, |write.job.layout[c]|, w.procs[c])
  }

  lemma NextIsReady(write: Write, w: World, c: nat)
    requires UpNext(write, w, c)
    ensures c < |write.job.layout| == |w.procs| && Ready(write, w, c)
    ensures NotBegun(write.job.cfg, |write.job.layout[c]|, w.procs[c])
    ensures Open(|write.job.layout[c]|, w.procs[c]) && w.procs[c].m.phase.Probing? == write.job.cfg.Probes()
  {
    NotBegunIsOpen(write.job.cfg, |write.job.layout[c]|, w.procs[c]);
    StartProbes(write.job.cfg, |write.job.layout[c]|, w.procs[c]);
    hide InWindow, NotBegun, Open;
  }

  lemma NextUp(write: Write, docs: Docs, w: World, first: set<nat>, c: nat, well: bool)
    requires Opens(write, first, c)
    requires HadTurns(Begin(write.job, docs), w, first, |write.job.layout|, well)
    ensures UpNext(write, w, c)
  {
    hide Start;
    assert Ahead(write, w, c) <= Blocking(write, first, c);
    Smaller(Ahead(write, w, c), Blocking(write, first, c));
  }

  /** The first chunks run. */
  lemma RunBefore(write: Write, rules: Rules, docs: Docs, first: set<nat>, c: nat, well: bool, id: Id)
    returns (moves: seq<Move>)
    requires Opens(write, first, c)
    ensures Moves(write, rules, docs, moves) && UpNext(write, After(write, docs, moves), c)
    ensures HadTurns(Begin(write.job, docs), After(write, docs, moves), first, |write.job.layout|, well)
    ensures !well ==> After(write, docs, moves).docs == docs
    ensures AllSpare(write.job.layout, first, docs, id) ==> At(After(write, docs, moves).docs, id) == At(docs, id)
  {
    BeginInTurn(write, docs, first, c);
    NoMove(write, rules, docs);
    hide *;
    moves := RunInTurn(write, rules, docs, [], first, |write.job.layout|, well, id);
    NextUp(write, docs, After(write, docs, moves), first, c, well);
  }

  lemma NoMove(write: Write, rules: Rules, docs: Docs)
    ensures Moves(write, rules, docs, []) && After(write, docs, []) == Begin(write.job, docs)
    ensures Begin(write.job, docs).docs == docs
  {
    hide Start;
  }

  /** All chunks but `c` and those in `first`. */
  function Rest(write: Write, first: set<nat>, c: nat): set<nat> {
    Below(|write.job.layout|) - first - {c}
  }

  /** The chunks in `first` have run from the beginning until `w1`, and then chunk `c` until `w`. */
  ghost predicate RanFirst(write: Write, docs: Docs, w1: World, w: World, first: set<nat>, c: nat, well: bool) {
    && Opens(write, first, c)
    && HadTurns(Begin(write.job, docs), w1, first, |write.job.layout|, well)
    && c < |w1.procs| && OthersSame(w1, w, c) && w.procs[c].m.phase.Done?
  }

  lemma RestInTurn(write: Write, docs: Docs, w1: World, w: World, first: set<nat>, c: nat, well: bool)
    requires RanFirst(write, docs, w1, w, first, c, well)
    ensures InTurn(write, w, Rest(write, first, c))
  {
    hide Start;
    var rest := Rest(write, first, c);
    BelowIs(|write.job.layout|);
    hide Below;
    forall d | d in rest ensures Waiting(write, w, rest, d) == {} {
    }
  }

  lemma AllRan(write: Write, docs: Docs, w1: World, w: World, w': World, first: set<nat>, c: nat, well: bool)
    requires RanFirst(write, docs, w1, w, first, c, well)
    requires HadTurns(w, w', Rest(write, first, c), |write.job.layout|, true)
    ensures Finished(w') && c < |w'.procs| && w'.procs[c] == w.procs[c]
    ensures well && w.procs[c].m.counts.errors == 0 ==> EndedWell(w')
  {
    hide Start;
    BelowIs(|write.job.layout|);
    hide Below;
  }

  /** The chunks that are left run, and end well. */
  lemma RunAfter(write: Write, rules: Rules, docs: Docs, before: seq<Move>, w1: World, first: set<nat>, c: nat,
                 well: bool, id: Id) returns (moves: seq<Move>)
    requires Moves(write, rules, docs, before) && RanFirst(write, docs, w1, After(write, docs, before), first, c, well)
    ensures Moves(write, rules, docs, moves) && before <= moves && Finished(After(write, docs, moves))
    ensures c < |After(write, docs, moves).procs| && c < |After(write, docs, before).procs|
    ensures After(write, docs, moves).procs[c] == After(write, docs, before).procs[c]
    ensures well && After(write, docs, before).procs[c].m.counts.errors == 0 ==> EndedWell(After(write, docs, moves))
    ensures AllSpare(write.job.layout, Rest(write, first, c), After(write, docs, before).docs, id) ==>
              At(After(write, docs, moves).docs, id) == At(After(write, docs, before).docs, id)
  {
    var w := After(write, docs, before);
    RestInTurn(write, docs, w1, w, first, c, well);
    RanShape(write, docs, w1, w, first, c, well);
    hide *;
    moves := RunInTurn(write, rules, docs, before, Rest(write, first, c), |write.job.layout|, true, id);
    AllRan(write, docs, w1, w, After(write, docs, moves), first, c, well);
  }

  lemma RanShape(write: Write, docs: Docs, w1: World, w: World, first: set<nat>, c: nat, well: bool)
    requires RanFirst(write, docs, w1, w, first, c, well)
    ensures c < |w.procs|
  {
    hide HadTurns, Opens;
  }

  /* ---- a partition that is started over, and the whole write after that ---- */

  /** The chunks before `c` in its partition. */
  function Earlier(write: Write, c: nat): set<nat>
    requires write.Valid() && c < |write.part|
  {
    set d | d in Below(c) && write.part[d] == write.part[c]
  }

  lemma EarlierCanRun(write: Write, c: nat)
    requires write.Valid() && c < |write.part|
    ensures Opens(write, Earlier(write, c), c)
  {
    BelowIs(c);
    var first := Earlier(write, c);
    assert Blocking(write, first, c) == {};
    forall d | d in first ensures Blocking(write, first, d) == {} {
    }
  }

  /** Everything of the write is still to begin. */
  ghost predicate NoneBegun(write: Write, w: World) {
    && |w.procs| == |write.job.layout|
    && forall d :: 0 <= d < |w.procs| ==> NotBegun(write.job.cfg, |write.job.layout[d]|, w.procs[d])
  }

  /** The chunks before `c` of its partition have run, `c` has begun, and the partition is started over. */
  lemma AllStartedOver(write: Write, docs: Docs, w1: World, w2: World, c: nat, well: bool)
    requires write.Valid() && c < |write.part|
    requires HadTurns(Begin(write.job, docs), w1, Earlier(write, c), |write.job.layout|, well)
    requires OthersSame(w1, w2, c)
    ensures NoneBegun(write, Moved(write, w2, StartOver(write.part[c])))
  {
    hide Start;
    BelowIs(c);
  }

  lemma AllInTurn(write: Write, w: World)
    requires write.Valid() && NoneBegun(write, w)
    ensures InTurn(write, w, Below(|write.job.layout|))
  {
    var all := Below(|write.job.layout|);
    BelowIs(|write.job.layout|);
    hide Below, NotBegun;
    forall d | d in all ensures Waiting(write, w, all, d) == {} {
    }
  }

  lemma AllEndWell(w: World, w': World, n: nat)
    requires HadTurns(w, w', Below(n), n, true) && |w.procs| == n
    ensures EndedWell(w')
  {
    BelowIs(n);
  }

  /** A write of which nothing has begun can end well, from whatever index. */
  lemma RunAll(write: Write, rules: Rules, docs: Docs, before: seq<Move>, id: Id) returns (moves: seq<Move>)
    requires Moves(write, rules, docs, before) && write.Valid() && NoneBegun(write, After(write, docs, before))
    ensures Moves(write, rules, docs, moves) && before <= moves && EndedWell(After(write, docs, moves))
    ensures AllSpare(write.job.layout, Below(|write.job.layout|), After(write, docs, before).docs, id) ==>
              At(After(write, docs, moves).docs, id) == At(After(write, docs, before).docs, id)
  {
    var n, w := |write.job.layout|, After(write, docs, before);
    AllInTurn(write, w);
    hide Moves, After, InTurn, HadTurns, Below, AllSpare, NotBegun, EndedWell;
    moves := RunInTurn(write, rules, docs, before, Below(n), n, true, id);
    AllEndWell(w, After(write, docs, moves), n);
  }
}

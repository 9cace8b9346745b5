/** When a write leaves the serial result: exactly when the lines that can decide on an id agree. */
module Divergence {
  // The lines that can decide are named by `LastWords.Decisive` and `FirstWords.CanBeFirst`. That their agreement is
  // enough is proved there. Here each of them is given the decision by a run inside the window in which every chunk
  // ends well and every probe that is answered tells the truth, so that two of them that disagree lead to two indexes.

  import opened Wrappers
  import opened ChunkProtocol
  import opened Documents
  import opened Cluster
  import opened Confluence
  import opened Arrangement
  import opened AppendOnly
  import opened Windows
  import opened ChunkRounds
  import opened LastWords
  import opened FirstWords
  import opened Schedules
  import opened Scripts
  import opened WordScripts
  import opened Turns

  /** Every run that ends well, from whatever index, leaves the lines applied one after the other. */
  ghost predicate LeavesSerialResult(write: Write, rules: Rules) {
    forall docs, moves :: Moves(write, rules, docs, moves) && EndedWell(After(write, docs, moves)) ==>
      After(write, docs, moves).docs == Fold(docs, Flatten(write.job.layout))
  }

  /** Some run from the empty index ends well with the id as `word` says. */
  ghost predicate CanEnd(write: Write, rules: Rules, id: Id, word: Option<Doc>) {
    exists moves ::
      && Moves(write, rules, map[], moves) && EndedWell(After(write, map[], moves))
      && At(After(write, map[], moves).docs, id) == word
  }

  lemma TwoEnds(write: Write, rules: Rules, id: Id, a: Option<Doc>, b: Option<Doc>)
    requires a != b && CanEnd(write, rules, id, a) && CanEnd(write, rules, id, b)
    ensures !LeavesSerialResult(write, rules)
  {
    hide Moves, After, EndedWell, Fold;
    var moves :|
      && Moves(write, rules, map[], moves) && EndedWell(After(write, map[], moves))
      && At(After(write, map[], moves).docs, id) == a;
    var moves' :|
      && Moves(write, rules, map[], moves') && EndedWell(After(write, map[], moves'))
      && At(After(write, map[], moves').docs, id) == b;
  }

  lemma ToldWell(write: Write, w: World, w': World, c: nat, said: seq<Line>)
    requires UpNext(write, w, c) && Told(write, w, w', c, said)
    ensures OthersSame(w, w', c) && w'.docs == Fold(w.docs, said) && c < |w.procs| == |write.job.layout|
    ensures c < |w'.procs| && w'.procs[c].m.counts.errors == 0
  {
    hide Fold, InWindow, All;
  }

  /* ---- writes that do not create ---- */

  /** The chunks that run before `c`: where one chunk runs at a time, the later ones of its partition wait. */
  function AllButLater(write: Write, c: nat): set<nat>
    requires write.Valid() && c < |write.part|
  {
    set d | d in Below(|write.part|) && d != c && (write.width > 1 || d < c || write.part[d] != write.part[c])
  }

  lemma LaterOpens(write: Write, c: nat)
    requires write.Valid() && c < |write.part|
    ensures Opens(write, AllButLater(write, c), c)
  {
    BelowIs(|write.part|);
    var first := AllButLater(write, c);
    forall d | d in first ensures |Blocking(write, first, d)| < write.width {
      Smaller(Blocking(write, first, d), if write.width > 1 then {c} else {});
    }
    assert Blocking(write, first, c) == {};
  }

  /** The chunks that are left do not name the id. */
  lemma LaterSpare(write: Write, c: nat, docs: Docs, id: Id)
    requires write.Valid() && c < |write.part| && HasSay(write, c, id)
    ensures AllSpare(write.job.layout, Rest(write, AllButLater(write, c), c), docs, id)
  {
    BelowIs(|write.part|);
    hide Below, Names;
  }

  /** A decisive line is given the last word. */
  lemma DecisiveDecides(write: Write, rules: Rules, c: nat, p: nat)
    requires write.Valid() && AllUpserts(write.job.layout) && Decisive(write, rules.ordered, c, p)
    ensures IdOf(write.job.layout[c][p]).Some?
    ensures CanEnd(write, rules, IdOf(write.job.layout[c][p]).value, Said(write.job.layout[c][p]))
  {
    var lines := write.job.layout[c];
    var first, id := AllButLater(write, c), IdOf(lines[p]).value;
    LaterOpens(write, c);
    assert Upserts(lines);
    hide Moves, After, AllUpserts, AllButLater, Opens, EndedWell, HadTurns, UpNext, Rest, AllSpare, CanBeLast, HasSay;
    var moves := RunBefore(write, rules, map[], first, c, true, id);
    var w1 := After(write, map[], moves);
    NextIsReady(write, w1, c);
    hide Ready, NotBegun, Open, Told, EndsWith, Fold;
    var said;
    moves, said := RunLast(write, rules, map[], moves, c, p);
    var w2 := After(write, map[], moves);
    ToldWell(write, w1, w2, c, said);
    SaidLast(w1.docs, lines, said, p);
    LaterSpare(write, c, w2.docs, id);
    moves := RunAfter(write, rules, map[], moves, w1, first, c, true, id);
  }

  /** Two decisive lines for one id that are not the same line. */
  lemma DecisiveClash(write: Write, ordered: bool) returns (c: nat, p: nat, c': nat, p': nat)
    requires AllUpserts(write.job.layout) && !DecisiveAgree(write, ordered)
    ensures Decisive(write, ordered, c, p) && Decisive(write, ordered, c', p')
    ensures IdOf(write.job.layout[c][p]) == IdOf(write.job.layout[c'][p'])
    ensures Said(write.job.layout[c][p]) != Said(write.job.layout[c'][p'])
  {
    hide CanBeLast, HasSay;
    c, p, c', p' :| Decisive(write, ordered, c, p) && Decisive(write, ordered, c', p') &&
      IdOf(write.job.layout[c][p]) == IdOf(write.job.layout[c'][p']) &&
      write.job.layout[c][p] != write.job.layout[c'][p'];
    assert Upserts(write.job.layout[c]) && Upserts(write.job.layout[c']);
  }

  /** The exact condition for writes that do not create, in whatever runs are looked at. The write leaves the serial
      result if and only if no two decisive lines demand different things of one id. */
  lemma UpsertsExactly(write: Write, rules: Rules)
    requires write.Valid() && AllUpserts(write.job.layout)
    ensures DecisiveAgree(write, rules.ordered) <==> LeavesSerialResult(write, rules)
  {
    hide Moves, After, Fold, EndedWell, AllUpserts, DecisiveAgree, CanEnd;
    if DecisiveAgree(write, rules.ordered) {
      forall docs, moves | Moves(write, rules, docs, moves) && EndedWell(After(write, docs, moves))
        ensures After(write, docs, moves).docs == Fold(docs, Flatten(write.job.layout))
      {
        AgreementIsEnough(write, rules, docs, moves);
      }
    } else {
      hide LeavesSerialResult, Decisive;
      var c, p, c', p' := DecisiveClash(write, rules.ordered);
      DecisiveDecides(write, rules, c, p);
      DecisiveDecides(write, rules, c', p');
      TwoEnds(write, rules, IdOf(write.job.layout[c][p]).value, Said(write.job.layout[c][p]),
              Said(write.job.layout[c'][p']));
    }
  }

  /** The chunks that name the id are of one partition. */
  ghost predicate OnePartitionNames(write: Write, id: Id)
    requires write.Valid()
  {
    forall c: nat, d: nat ::
      (c < |write.part| && d < |write.part| && Names(write.job.layout[c], id) && Names(write.job.layout[d], id)) ==>
        write.part[c] == write.part[d]
  }

  /** What the documentation says of rows with the same id, that the later one is kept. It holds where one chunk is
      shipped after the other, the server keeps the order of the lines for an id, no line can be retried, and no id is
      named in two partitions. */
  lemma LaterRowWins(write: Write, rules: Rules)
    requires write.Valid() && AllUpserts(write.job.layout) && write.width == 1 && rules.ordered
    requires forall c, p :: Place(write.job.layout, c, p) ==> !CanRetry(write.job.cfg, LineAt(write.job.layout, c, p))
    requires forall id :: OnePartitionNames(write, id)
    ensures LeavesSerialResult(write, rules)
  {
    var layout := write.job.layout;
    forall c: nat, p: nat, c': nat, p': nat |
        Decisive(write, true, c, p) && Decisive(write, true, c', p') && IdOf(layout[c][p]) == IdOf(layout[c'][p'])
      ensures layout[c][p] == layout[c'][p']
    {
      OneLastLine(write, c, p, c', p');
    }
    UpsertsExactly(write, rules);
  }

  lemma OneLastLine(write: Write, c: nat, p: nat, c': nat, p': nat)
    requires write.Valid() && AllUpserts(write.job.layout) && write.width == 1
    requires Decisive(write, true, c, p) && Decisive(write, true, c', p')
    requires !CanRetry(write.job.cfg, write.job.layout[c][p]) && !CanRetry(write.job.cfg, write.job.layout[c'][p'])
    requires IdOf(write.job.layout[c][p]) == IdOf(write.job.layout[c'][p'])
    requires forall id :: OnePartitionNames(write, id)
    ensures write.job.layout[c][p] == write.job.layout[c'][p']
  {
    hide CanRetry;
    assert Upserts(write.job.layout[c]);
    var id := IdOf(write.job.layout[c][p]).value;
    assert Names(write.job.layout[c], id) && Names(write.job.layout[c'], id);
    assert OnePartitionNames(write, id);
    assert c < c' ==> NamedLater(write, c, id);
    assert c' < c ==> NamedLater(write, c', id);
  }

  /* ---- writes that create, with no partition started over ---- */

  /** The chunks that run before `c`: those before it in its partition that do not name the id. */
  function EarlierUnnaming(write: Write, c: nat, id: Id): set<nat>
    requires write.Valid() && c < |write.part|
  {
    set d | d in Below(c) && write.part[d] == write.part[c] && !Names(write.job.layout[d], id)
  }

  lemma EarlierOpens(write: Write, c: nat, id: Id)
    requires write.Valid() && c < |write.part| && |NamingBefore(write, c, id)| < write.width
    ensures Opens(write, EarlierUnnaming(write, c, id), c)
  {
    BelowIs(c);
    hide Names;
    var first := EarlierUnnaming(write, c, id);
    forall d | d in first ensures |Blocking(write, first, d)| < write.width {
      Smaller(Blocking(write, first, d), NamingBefore(write, c, id));
    }
    Smaller(Blocking(write, first, c), NamingBefore(write, c, id));
  }

  lemma EarlierSpare(write: Write, c: nat, docs: Docs, id: Id)
    requires write.Valid() && c < |write.part|
    ensures AllSpare(write.job.layout, EarlierUnnaming(write, c, id), docs, id)
  {
    hide Names, Below;
  }

  lemma CreatesSpare(write: Write, todo: set<nat>, docs: Docs, id: Id)
    requires AllCreates(write.job.layout) && id in docs
    ensures AllSpare(write.job.layout, todo, docs, id)
  {
    hide Names;
  }

  lemma ThereIfSaid(docs: Docs, id: Id, doc: Doc)
    requires At(docs, id) == Some(doc)
    ensures id in docs
  {
  }

  /** A line that can come first is given the first word. */
  lemma FirstDecides(write: Write, rules: Rules, c: nat, p: nat)
    requires write.Valid() && AllCreates(write.job.layout) && CanBeFirst(write, rules, c, p)
    ensures IdOf(write.job.layout[c][p]).Some?
    ensures CanEnd(write, rules, IdOf(write.job.layout[c][p]).value, Said(write.job.layout[c][p]))
  {
    var lines := write.job.layout[c];
    assert AllCreate(lines) && lines[p].Create?;
    var id := lines[p].cid;
    var first := EarlierUnnaming(write, c, id);
    EarlierOpens(write, c, id);
    EarlierSpare(write, c, map[], id);
    hide Moves, After, AllCreates, AllCreate, EarlierUnnaming, Opens, EndedWell, HadTurns, UpNext, Rest, AllSpare;
    hide FirstInChunk, NamingBefore;
    var moves := RunBefore(write, rules, map[], first, c, true, id);
    var w1 := After(write, map[], moves);
    NextIsReady(write, w1, c);
    hide Ready, NotBegun, Open, Told, BeginsWith, Fold;
    var said;
    moves, said := RunFirst(write, rules, map[], moves, c, p);
    var w2 := After(write, map[], moves);
    ToldWell(write, w1, w2, c, said);
    SaidFirst(w1.docs, lines, said, p);
    ThereIfSaid(w2.docs, id, lines[p].doc);
    CreatesSpare(write, Rest(write, first, c), w2.docs, id);
    moves := RunAfter(write, rules, map[], moves, w1, first, c, true, id);
  }

  lemma FirstClash(write: Write, rules: Rules) returns (c: nat, p: nat, c': nat, p': nat)
    requires AllCreates(write.job.layout) && !FirstAgree(write, rules)
    ensures CanBeFirst(write, rules, c, p) && CanBeFirst(write, rules, c', p')
    ensures IdOf(write.job.layout[c][p]) == IdOf(write.job.layout[c'][p'])
    ensures Said(write.job.layout[c][p]) != Said(write.job.layout[c'][p'])
  {
    hide FirstInChunk, NamingBefore;
    c, p, c', p' :| CanBeFirst(write, rules, c, p) && CanBeFirst(write, rules, c', p') &&
      IdOf(write.job.layout[c][p]) == IdOf(write.job.layout[c'][p']) &&
      write.job.layout[c][p] != write.job.layout[c'][p'];
    assert AllCreate(write.job.layout[c]) && AllCreate(write.job.layout[c']);
  }

  /** The exact condition for writes that create, in runs in which no partition is started over. The write leaves the
      serial result if and only if no two lines that can come first demand different things of one id. */
  lemma CreatesExactly(write: Write, rules: Rules)
    requires write.Valid() && AllCreates(write.job.layout) && !rules.restarts
    ensures FirstAgree(write, rules) <==> LeavesSerialResult(write, rules)
  {
    hide Moves, After, Fold, EndedWell, AllCreates, FirstAgree, CanEnd;
    if FirstAgree(write, rules) {
      forall docs, moves | Moves(write, rules, docs, moves) && EndedWell(After(write, docs, moves))
        ensures After(write, docs, moves).docs == Fold(docs, Flatten(write.job.layout))
      {
        FirstAgreementIsEnough(write, rules, docs, moves);
      }
    } else {
      hide LeavesSerialResult, CanBeFirst;
      var c, p, c', p' := FirstClash(write, rules);
      FirstDecides(write, rules, c, p);
      FirstDecides(write, rules, c', p');
      TwoEnds(write, rules, IdOf(write.job.layout[c][p]).value, Said(write.job.layout[c][p]),
              Said(write.job.layout[c'][p']));
    }
  }

  /* ---- writes that create, with partitions started over ---- */

  lemma MidwayOne(write: Write, w0: World, w: World, c: nat, p: nat)
    requires c < |write.job.layout| && p < |write.job.layout[c]| && Midway(write, w0, w, c, Plan([p], {}, 0))
    requires Effective(write.job.layout[c], Plan([p], {}, 0)) == [write.job.layout[c][p]]
    requires write.job.layout[c][p].Create? && w0.docs == map[]
    ensures At(w.docs, write.job.layout[c][p].cid) == Said(write.job.layout[c][p])
    ensures OthersSame(w0, w, c)
  {
    hide TakenUp, InWindow, Effective;
    CreatedAlone(write.job.layout[c][p]);
  }

  lemma CreatedAlone(line: Line)
    requires line.Create?
    ensures At(Fold(map[], [line]), line.cid) == Said(line)
  {
    assert [line][..0] == [];
  }

  /** Any line is given the first word: it is accepted, and then its partition is started over. */
  lemma RestartDecides(write: Write, rules: Rules, c: nat, p: nat)
    requires write.Valid() && AllCreates(write.job.layout) && rules.restarts && Place(write.job.layout, c, p)
    ensures IdOf(write.job.layout[c][p]).Some?
    ensures CanEnd(write, rules, IdOf(write.job.layout[c][p]).value, Said(write.job.layout[c][p]))
  {
    var lines := write.job.layout[c];
    assert AllCreate(lines) && lines[p].Create?;
    var id, first := lines[p].cid, Earlier(write, c);
    EarlierCanRun(write, c);
    hide Moves, After, AllCreates, AllCreate, Earlier, Opens, EndedWell, HadTurns, UpNext, AllSpare, Midway;
    var moves := RunBefore(write, rules, map[], first, c, false, id);
    var w1 := After(write, map[], moves);
    NextIsReady(write, w1, c);
    StartCarries(write.job.cfg, |lines|, w1.procs[c], p);
    OneSuits(rules, lines, p);
    hide Ready, NotBegun, Open, Suits, Carried, Fold, Moved, NoneBegun, OthersSame;
    moves := TakeUp(write, rules, map[], moves, c, Plan([p], {}, 0));
    var w2 := After(write, map[], moves);
    MidwayOne(write, w1, w2, c, p);
    AllStartedOver(write, map[], w1, w2, c, false);
    OverKeeps(write, w2, write.part[c]);
    moves := MoreMoves(write, rules, map[], moves, StartOver(write.part[c]));
    ThereIfSaid(w2.docs, id, lines[p].doc);
    CreatesSpare(write, Below(|write.job.layout|), w2.docs, id);
    moves := RunAll(write, rules, map[], moves, id);
  }

  lemma OverKeeps(write: Write, w: World, k: nat)
    ensures Moved(write, w, StartOver(k)).docs == w.docs
  {
    hide Start;
  }

  lemma CreatesNamed(layout: seq<seq<Line>>)
    requires AllCreates(layout)
    ensures AllNamed(layout)
    ensures forall c, p :: Place(layout, c, p) ==> LineAt(layout, c, p).Create?
  {
  }

  lemma AgreeingClash(layout: seq<seq<Line>>) returns (c: nat, p: nat, c': nat, p': nat)
    requires AllCreates(layout) && !Agreeing(layout)
    ensures Place(layout, c, p) && Place(layout, c', p')
    ensures IdOf(layout[c][p]) == IdOf(layout[c'][p']) && Said(layout[c][p]) != Said(layout[c'][p'])
  {
    CreatesNamed(layout);
    hide AllCreates;
    c, p, c', p' :| Place(layout, c, p) && Place(layout, c', p') &&
      IdOf(LineAt(layout, c, p)) == IdOf(LineAt(layout, c', p')) && LineAt(layout, c, p) != LineAt(layout, c', p');
  }

  lemma LinesAgree(lines: seq<Line>, layout: seq<seq<Line>>)
    requires Arranges(lines, layout) && Agreeing(layout)
    ensures AgreeingLines(lines)
  {
    forall x | x in lines ensures exists c: nat, p: nat :: Place(layout, c, p) && LineAt(layout, c, p) == x {
      var i :| 0 <= i < |lines| && lines[i] == x;
    }
  }

  /** Over every run of the cluster: lines that agree on their ids leave the serial result. */
  lemma AgreementConverges(job: Job, lines: seq<Line>, docs: Docs, events: seq<Event>)
    requires Arranges(lines, job.layout) && Agreeing(job.layout)
    requires Run(job, docs, events) && EndedWell(Exec(job, docs, events))
    ensures Exec(job, docs, events).docs == Fold(docs, lines)
  {
    assert Between(docs, job.layout, docs);
    LinesAgree(lines, job.layout);
    hide Run, Exec, Between, Agreeing, AgreeingLines, Arranges, Fold;
    var w := Exec(job, docs, events);
    EveryRunSound(docs, job, docs, events);
    forall c: nat, p: nat | Place(job.layout, c, p) ensures Landed(docs, w.docs, LineAt(job.layout, c, p)) {
      assert Settled(w.procs[c]);
      NoErrorsSettled(|job.layout[c]|, w.procs[c].m, p);
      SoundAt(docs, job, w, c, p);
    }
    AllLandedIsFold(docs, lines, job.layout, w.docs);
  }

  lemma AgreeingIsEnough(write: Write, rules: Rules, docs: Docs, moves: seq<Move>)
    requires Agreeing(write.job.layout) && Moves(write, rules, docs, moves) && EndedWell(After(write, docs, moves))
    ensures After(write, docs, moves).docs == Fold(docs, Flatten(write.job.layout))
  {
    hide Moves, After, EndedWell, Agreeing, Run, Exec, Fold;
    var events := MovesAreRun(write, rules, docs, moves);
    DealtArranges(Flatten(write.job.layout), write.job.layout);
    AgreementConverges(write.job, Flatten(write.job.layout), docs, events);
  }

  /** The exact condition for writes that create, when partitions may be started over. The write leaves the serial
      result if and only if no two of its lines demand different things of one id. */
  lemma RestartedCreatesExactly(write: Write, rules: Rules)
    requires write.Valid() && AllCreates(write.job.layout) && rules.restarts
    ensures Agreeing(write.job.layout) <==> LeavesSerialResult(write, rules)
  {
    hide Moves, After, Fold, EndedWell, AllCreates, Agreeing, CanEnd;
    if Agreeing(write.job.layout) {
      forall docs, moves | Moves(write, rules, docs, moves) && EndedWell(After(write, docs, moves))
        ensures After(write, docs, moves).docs == Fold(docs, Flatten(write.job.layout))
      {
        AgreeingIsEnough(write, rules, docs, moves);
      }
    } else {
      hide LeavesSerialResult;
      var c, p, c', p' := AgreeingClash(write.job.layout);
      RestartDecides(write, rules, c, p);
      RestartDecides(write, rules, c', p');
      TwoEnds(write, rules, IdOf(write.job.layout[c][p]).value, Said(write.job.layout[c][p]),
              Said(write.job.layout[c'][p']));
    }
  }
}

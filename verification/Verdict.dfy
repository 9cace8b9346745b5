/** The driver's rollup of the partition summaries and the verdict on a whole write. */
module Verdict {
  import opened Wrappers
  import opened ChunkProtocol
  import opened ChunkShipper

  /** One partition summary. A null or absent cell is `None` and reads as zero. */
  datatype Row = Row(
    written: Option<int>, deleted: Option<int>, errors: Option<int>, ignored: Option<int>,
    totalInput: Option<int>, samples: Option<seq<Sample>>)

  datatype Result = Result(
    written: int, deleted: int, errors: int, ignored: int, totalInput: int,
    unaccounted: int, overcounted: int, samples: seq<Sample>)

  function Written(r: Row): int { r.written.GetOr(0) }

  function Deleted(r: Row): int { r.deleted.GetOr(0) }

  function Errors(r: Row): int { r.errors.GetOr(0) }

  function Ignored(r: Row): int { r.ignored.GetOr(0) }

  function TotalInput(r: Row): int { r.totalInput.GetOr(0) }

  /** Rows that went in minus outcomes that came out. */
  function Delta(r: Row): int {
    TotalInput(r) - (Written(r) + Deleted(r) + Errors(r) + Ignored(r))
  }

  function Shortfall(r: Row): int {
    if Delta(r) > 0 then Delta(r) else 0
  }

  function Excess(r: Row): int {
    if Delta(r) < 0 then -Delta(r) else 0
  }

  function Sum<T>(s: seq<T>, f: T -> int): int {
    if |s| == 0 then 0 else Sum(s[..|s| - 1], f) + f(s[|s| - 1])
  }

  function AllSamples(rows: seq<Row>): seq<Sample> {
    if rows == [] then []
    else AllSamples(rows[..|rows| - 1]) + rows[|rows| - 1].samples.GetOr([])
  }

  /** The sums of the columns, with the two signs of the discrepancy kept apart, and the first 20 samples. */
  ghost predicate IsRollup(rows: seq<Row>, r: Result) {
    && r.written == Sum(rows, Written)
    && r.deleted == Sum(rows, Deleted)
    && r.errors == Sum(rows, Errors)
    && r.ignored == Sum(rows, Ignored)
    && r.totalInput == Sum(rows, TotalInput)
    && r.unaccounted == Sum(rows, Shortfall)
    && r.overcounted == Sum(rows, Excess)
    && r.samples == Cap(AllSamples(rows))
  }

  method MergePartitionResults(rows: seq<Row>) returns (r: Result)
    ensures IsRollup(rows, r)
  {
    var written, deleted, errors, ignored, total, unaccounted, overcounted := 0, 0, 0, 0, 0, 0, 0;
    var samples: seq<Sample> := [];
    for k := 0 to |rows|
      invariant written == Sum(rows[..k], Written) && deleted == Sum(rows[..k], Deleted)
      invariant errors == Sum(rows[..k], Errors) && ignored == Sum(rows[..k], Ignored)
      invariant total == Sum(rows[..k], TotalInput)
      invariant unaccounted == Sum(rows[..k], Shortfall) && overcounted == Sum(rows[..k], Excess)
      invariant Cap(samples) == Cap(AllSamples(rows[..k]))
    {
      assert rows[..k + 1][..k] == rows[..k];
      var row := rows[k];
      written := written + row.written.GetOr(0);
      deleted := deleted + row.deleted.GetOr(0);
      errors := errors + row.errors.GetOr(0);
      ignored := ignored + row.ignored.GetOr(0);
      total := total + row.totalInput.GetOr(0);
      var delta := row.totalInput.GetOr(0)
        - (row.written.GetOr(0) + row.deleted.GetOr(0) + row.errors.GetOr(0) + row.ignored.GetOr(0));
      if delta > 0 {
        unaccounted := unaccounted + delta;
      } else if delta < 0 {
        overcounted := overcounted - delta;
      }
      SamplesMore(samples, AllSamples(rows[..k]), row.samples.GetOr([]));
      if |samples| < ERROR_SAMPLE_CAP && row.samples.Some? {
        samples := samples + row.samples.value;
      }
    }
    assert rows[..|rows|] == rows;
    r := Result(written, deleted, errors, ignored, total, unaccounted, overcounted, Cap(samples));
  }

  /** A list that is full up to the cap may stop growing: its first 20 are settled. */
  lemma SamplesMore(samples: seq<Sample>, all: seq<Sample>, more: seq<Sample>)
    requires Cap(samples) == Cap(all)
    ensures Cap(samples + more) == Cap(all + more)
    ensures |samples| >= ERROR_SAMPLE_CAP ==> Cap(samples) == Cap(all + more)
  {
    CapMore(samples, more);
    CapMore(all, more);
    if |samples| >= ERROR_SAMPLE_CAP {
      assert |Cap(samples)| == ERROR_SAMPLE_CAP;
      assert Cap(Cap(all) + more) == Cap(all);
    }
  }

  /* ---- what the rollup means ---- */

  /** Lost rows and counting bugs never cancel: the net discrepancy is exactly their difference. */
  lemma {:induction false} NetDiscrepancy(rows: seq<Row>)
    ensures Sum(rows, TotalInput)
         - (Sum(rows, Written) + Sum(rows, Deleted) + Sum(rows, Errors) + Sum(rows, Ignored))
         == Sum(rows, Shortfall) - Sum(rows, Excess)
  {
    if rows != [] {
      NetDiscrepancy(rows[..|rows| - 1]);
    }
  }

  lemma {:induction false} SumWithout<T>(s: seq<T>, f: T -> int, i: nat)
    requires i < |s|
    ensures Sum(s, f) == f(s[i]) + Sum(s[..i] + s[i + 1..], f)
  {
    var k := |s| - 1;
    if i == k {
      assert s[..i] + s[i + 1..] == s[..k];
    } else {
      SumWithout(s[..k], f, i);
      var rest := s[..i] + s[i + 1..];
      assert rest[..|rest| - 1] == s[..k][..i] + s[..k][i + 1..];
    }
  }

  lemma Without<T>(s: seq<T>, i: nat)
    requires i < |s|
    ensures multiset(s[..i] + s[i + 1..]) == multiset(s) - multiset{s[i]}
  {
    assert s == s[..i] + [s[i]] + s[i + 1..];
  }

  /** The order in which the partitions report does not matter. */
  lemma {:induction false} SumPermutes<T>(s: seq<T>, s': seq<T>, f: T -> int)
    requires multiset(s) == multiset(s')
    ensures Sum(s, f) == Sum(s', f)
  {
    if |s| == 0 {
      assert |multiset(s')| == 0;
    } else {
      var k := |s| - 1;
      assert s[k] in multiset(s);
      var i :| 0 <= i < |s'| && s'[i] == s[k];
      Without(s', i);
      Without(s, k);
      assert s[..k] + s[k + 1..] == s[..k];
      SumPermutes(s[..k], s'[..i] + s'[i + 1..], f);
      SumWithout(s', f, i);
    }
  }

  lemma {:induction false} SumZero(rows: seq<Row>, f: Row -> int)
    requires forall r :: f(r) >= 0
    ensures Sum(rows, f) >= 0
    ensures Sum(rows, f) == 0 <==> forall i :: 0 <= i < |rows| ==> f(rows[i]) == 0
  {
    if rows != [] {
      SumZero(rows[..|rows| - 1], f);
    }
  }

  /** Both discrepancies vanish exactly when every partition balances. */
  lemma BalancedExactly(rows: seq<Row>)
    ensures Sum(rows, Shortfall) == 0 && Sum(rows, Excess) == 0 <==>
            forall i :: 0 <= i < |rows| ==> Delta(rows[i]) == 0
  {
    SumZero(rows, Shortfall);
    SumZero(rows, Excess);
    if forall i :: 0 <= i < |rows| ==> Shortfall(rows[i]) == 0 {
      forall i | 0 <= i < |rows| ensures Delta(rows[i]) <= 0 {
        assert Shortfall(rows[i]) == 0;
      }
    }
    if forall i :: 0 <= i < |rows| ==> Excess(rows[i]) == 0 {
      forall i | 0 <= i < |rows| ensures Delta(rows[i]) >= 0 {
        assert Excess(rows[i]) == 0;
      }
    }
  }

  /* ---- the verdict ---- */

  /** The verdict of `reconcile_or_raise`: whether it raises, and how many surplus outcomes it logs. An older result
      that kept the discrepancy in one signed number is read in the safe direction. */
  datatype Reconciled = Reconciled(raises: bool, surplusLogged: int)

  function ReconcileOrRaise(r: Result): Reconciled {
    var overcounted := if r.unaccounted < 0 then r.overcounted - r.unaccounted else r.overcounted;
    var unaccounted := if r.unaccounted < 0 then 0 else r.unaccounted;
    Reconciled(!(r.errors == 0 && unaccounted <= 0), overcounted)
  }

  /** The rows a healthy partition reports: no negative error count. */
  predicate Plain(rows: seq<Row>) {
    forall i :: 0 <= i < |rows| ==> Errors(rows[i]) >= 0
  }

  lemma {:induction false} SumErrors(rows: seq<Row>)
    requires Plain(rows)
    ensures Sum(rows, Errors) >= 0
    ensures Sum(rows, Errors) > 0 <==> exists i :: 0 <= i < |rows| && Errors(rows[i]) > 0
  {
    if rows != [] {
      SumErrors(rows[..|rows| - 1]);
    }
  }

  /** The write is failed exactly when some document was rejected or some partition fell short; a surplus elsewhere
      neither hides a shortfall nor fails the write. */
  lemma RaisesExactly(rows: seq<Row>, r: Result)
    requires Plain(rows) && IsRollup(rows, r)
    ensures ReconcileOrRaise(r).raises <==>
            exists i :: 0 <= i < |rows| && (Errors(rows[i]) > 0 || Delta(rows[i]) > 0)
    ensures ReconcileOrRaise(r).surplusLogged == Sum(rows, Excess)
  {
    SumErrors(rows);
    SumZero(rows, Shortfall);
    if i :| 0 <= i < |rows| && Delta(rows[i]) > 0 {
      assert Shortfall(rows[i]) != 0;
    }
    if i :| 0 <= i < |rows| && Shortfall(rows[i]) != 0 {
      assert Delta(rows[i]) > 0;
    }
  }

  /** A failed write has a diagnostic to show, and a write without errors has none. */
  lemma {:induction false} SamplesShowErrors(rows: seq<Row>)
    requires Plain(rows)
    requires forall i :: 0 <= i < |rows| ==> (rows[i].samples.GetOr([]) == [] <==> Errors(rows[i]) == 0)
    ensures Cap(AllSamples(rows)) == [] <==> Sum(rows, Errors) == 0
  {
    if rows != [] {
      SamplesShowErrors(rows[..|rows| - 1]);
      SumErrors(rows[..|rows| - 1]);
    }
  }
}

/**
  The index bookkeeping of the example driver. `order` starts as the
  identity on the 150 rows and is shuffled once; every epoch reshuffles only
  its first 105 entries and trains on the rows they name; afterwards the rows
  named by `order[105 .. 150)` are predicted and scored. Training itself is
  recorded as the sequence of rows handed to `train`; the trained network's
  prediction is a parameter `predict`.
*/
module Driver {
  import Shuffle

  const Rows: nat := 150
  const TrainRows: nat := 105
  const Cols: nat := 4
  const OutCols: nat := 3
  const Epochs: nat := 100000

  /** Every row index `0 .. Rows - 1` exactly once. */
  predicate IsRowOrder(order: seq<int>)
  {
    && |order| == Rows
    && (forall k :: 0 <= k < |order| ==> 0 <= order[k] < Rows)
    && Shuffle.Distinct(order)
  }

  /** `0, 1, ..., n - 1`. */
  function Identity(n: nat): (r: seq<int>)
    ensures |r| == n
  {
    seq(n, i => i)
  }

  /** Equal multisets hold the same values. */
  lemma SameEntries(a: seq<int>, b: seq<int>)
    requires multiset(a) == multiset(b)
    ensures forall k :: 0 <= k < |a| ==> a[k] in b
  {
    forall k | 0 <= k < |a|
      ensures a[k] in b
    {
      assert a[k] in multiset(a);
    }
  }

  /** A row order keeps being one under any rearrangement. */
  lemma RearrangedOrder(a: seq<int>, b: seq<int>)
    requires IsRowOrder(b) && multiset(a) == multiset(b) && Shuffle.Distinct(a)
    ensures IsRowOrder(a)
  {
    SameEntries(a, b);
    assert |a| == |multiset(a)| == |multiset(b)| == |b|;
  }

  /** The training part and the test part of a row order share no row. */
  lemma PartsDisjoint(order: seq<int>, x: int)
    requires IsRowOrder(order)
    ensures !(x in order[..TrainRows] && x in order[TrainRows..])
  {
  }

  /**
    `for (i = 0; i < rows; ++i) order[i] = i;` then `shuffle(order, rows)`:
    a shuffled identity, hence every row exactly once.
  */
  method InitialOrder(rand: nat -> nat, randMax: nat, pos: nat) returns (order: seq<int>, next: nat)
    requires Shuffle.RandBounded(rand, randMax)
    ensures IsRowOrder(order) && next == pos + Rows - 1
    ensures multiset(order) == multiset(Identity(Rows))
    ensures order == Shuffle.Shuffled(Identity(Rows), Rows, rand, randMax, pos)
  {
    order := [];
    var i := 0;
    while i < Rows
      invariant 0 <= i <= Rows && order == Identity(i)
    {
      order := order + [i];
      i := i + 1;
    }
    var start := order;
    order, next := Shuffle.ShuffleArray(order, Rows, rand, randMax, pos);
    Shuffle.ShuffledRearranges(start, Rows, rand, randMax, pos);
    RearrangedOrder(order, start);
  }

  /**
    One epoch: `shuffle(order, train_rows)`, then `train` on `order[j]` for
    every `j < train_rows`, in that order. The test part is left alone.
  */
  method Epoch(order: seq<int>, rand: nat -> nat, randMax: nat, pos: nat)
    returns (shuffled: seq<int>, next: nat, fed: seq<int>)
    requires IsRowOrder(order) && Shuffle.RandBounded(rand, randMax)
    ensures IsRowOrder(shuffled) && next == pos + TrainRows - 1
    ensures shuffled[TrainRows..] == order[TrainRows..]
    ensures multiset(shuffled[..TrainRows]) == multiset(order[..TrainRows])
    ensures fed == shuffled[..TrainRows]
  {
    shuffled, next := Shuffle.ShuffleArray(order, TrainRows, rand, randMax, pos);
    Shuffle.ShuffledRearranges(order, TrainRows, rand, randMax, pos);
    RearrangedOrder(shuffled, order);
    fed := [];
    var j := 0;
    while j < TrainRows
      invariant 0 <= j <= TrainRows && fed == shuffled[..j]
    {
      var row := shuffled[j];
      fed := fed + [row];
      j := j + 1;
    }
  }

  /**
    The training loop of `main`: `epochs` epochs. Every row handed to `train`
    is one of the training rows fixed by the first shuffle, never a test row,
    and the test part of `order` comes out as it went in.
  */
  method Training(order: seq<int>, epochs: nat, rand: nat -> nat, randMax: nat, pos: nat)
    returns (final: seq<int>, next: nat, fed: seq<int>)
    requires IsRowOrder(order) && Shuffle.RandBounded(rand, randMax)
    ensures IsRowOrder(final) && next == pos + epochs * (TrainRows - 1)
    ensures final[TrainRows..] == order[TrainRows..]
    ensures multiset(final[..TrainRows]) == multiset(order[..TrainRows])
    ensures |fed| == epochs * TrainRows
    ensures forall k :: 0 <= k < |fed| ==> fed[k] in order[..TrainRows] && fed[k] !in order[TrainRows..]
  {
    final, next, fed := order, pos, [];
    var e := 0;
    while e < epochs
      invariant 0 <= e <= epochs && IsRowOrder(final) && next == pos + e * (TrainRows - 1)
      invariant final[TrainRows..] == order[TrainRows..]
      invariant multiset(final[..TrainRows]) == multiset(order[..TrainRows])
      invariant |fed| == e * TrainRows
      invariant forall k :: 0 <= k < |fed| ==> fed[k] in order[..TrainRows] && fed[k] !in order[TrainRows..]
    {
      var rows;
      final, next, rows := Epoch(final, rand, randMax, next);
      EpochRowsAreTrainingRows(order, final, rows);
      fed := fed + rows;
      e := e + 1;
    }
  }

  /** The rows of one epoch are training rows of the original order and none of its test rows. */
  lemma EpochRowsAreTrainingRows(order: seq<int>, current: seq<int>, rows: seq<int>)
    requires IsRowOrder(order) && |current| == Rows
    requires multiset(current[..TrainRows]) == multiset(order[..TrainRows]) && rows == current[..TrainRows]
    ensures forall k :: 0 <= k < |rows| ==> rows[k] in order[..TrainRows] && rows[k] !in order[TrainRows..]
  {
    SameEntries(rows, order[..TrainRows]);
    forall k | 0 <= k < |rows|
      ensures rows[k] !in order[TrainRows..]
    {
      PartsDisjoint(order, rows[k]);
    }
  }

  // ---------------------------------------------------------------------------
  // Evaluation
  // ---------------------------------------------------------------------------

  /** `feat + row * cols`: the four features of `row`. */
  function Features(feat: seq<real>, row: int): (r: seq<real>)
    requires |feat| == Rows * Cols && 0 <= row < Rows
    ensures |r| == Cols
  {
    feat[row * Cols .. row * Cols + Cols]
  }

  /** `label + row * out_cols`: the three label entries of `row`. */
  function Labels(labels: seq<real>, row: int): (r: seq<real>)
    requires |labels| == Rows * OutCols && 0 <= row < Rows
    ensures |r| == OutCols
  {
    labels[row * OutCols .. row * OutCols + OutCols]
  }

  function Abs(x: real): real
  {
    if x < 0.0 then -x else x
  }

  /** The test of `main`: each of the three predicted values lies within `0.1` of the label. */
  predicate Close(p: seq<real>, y: seq<real>)
    requires |y| == OutCols
  {
    |p| >= OutCols && forall k :: 0 <= k < OutCols ==> Abs(p[k] - y[k]) < 0.1
  }

  /** How many of `rows` the network predicts correctly. */
  function CountCorrect(rows: seq<int>, feat: seq<real>, labels: seq<real>, predict: seq<real> -> seq<real>): (c: nat)
    requires |feat| == Rows * Cols && |labels| == Rows * OutCols
    requires forall k :: 0 <= k < |rows| ==> 0 <= rows[k] < Rows
    ensures c <= |rows|
  {
    if rows == [] then 0
    else
      var row := rows[|rows| - 1];
      CountCorrect(rows[..|rows| - 1], feat, labels, predict)
        + (if Close(predict(Features(feat, row)), Labels(labels, row)) then 1 else 0)
  }

  /**
    The evaluation loop of `main` over `order[train_rows .. rows)`: every row
    read stays inside `feat` and `label`, `correct` counts the close
    predictions and `correct + incorrect` is the number of test rows.
  */
  method Evaluate(order: seq<int>, feat: seq<real>, labels: seq<real>, predict: seq<real> -> seq<real>)
    returns (correct: nat, incorrect: nat, tested: seq<int>)
    requires IsRowOrder(order) && |feat| == Rows * Cols && |labels| == Rows * OutCols
    ensures tested == order[TrainRows..]
    ensures correct == CountCorrect(tested, feat, labels, predict)
    ensures correct + incorrect == Rows - TrainRows
  {
    correct, incorrect, tested := 0, 0, [];
    var i := TrainRows;
    while i < Rows
      invariant TrainRows <= i <= Rows && tested == order[TrainRows..i]
      invariant correct == CountCorrect(tested, feat, labels, predict)
      invariant correct + incorrect == i - TrainRows
    {
      var row := order[i];
      assert tested + [row] == order[TrainRows..i + 1];
      var ok := Score(feat, labels, predict, row);
      if ok {
        correct := correct + 1;
      } else {
        incorrect := incorrect + 1;
      }
      tested := tested + [row];
      i := i + 1;
    }
  }

  /**
    The test of one row: `predict(feat + row * cols)` against
    `label + row * out_cols`, entry by entry.
  */
  method Score(feat: seq<real>, labels: seq<real>, predict: seq<real> -> seq<real>, row: int) returns (ok: bool)
    requires |feat| == Rows * Cols && |labels| == Rows * OutCols && 0 <= row < Rows
    ensures ok == Close(predict(Features(feat, row)), Labels(labels, row))
  {
    var prediction := predict(feat[row * Cols .. row * Cols + Cols]);
    var y := labels[row * OutCols .. row * OutCols + OutCols];
    ok := |prediction| >= OutCols && Abs(prediction[0] - y[0]) < 0.1 && Abs(prediction[1] - y[1]) < 0.1
          && Abs(prediction[2] - y[2]) < 0.1;
  }

  /**
    `main` without the file reading and the printing: seed 0 puts the first
    `rand()` call at position 0. The test rows are exactly the last 45 entries
    of the initial shuffle, every row fed to training is one of its first 105
    entries, the two sets are disjoint, and `correct` counts the test rows
    whose prediction is close to the label.
  */
  method RunExample(feat: seq<real>, labels: seq<real>, predict: seq<real> -> seq<real>, rand: nat -> nat, randMax: nat)
    returns (correct: nat, incorrect: nat, initial: seq<int>, fed: seq<int>, tested: seq<int>)
    requires |feat| == Rows * Cols && |labels| == Rows * OutCols && Shuffle.RandBounded(rand, randMax)
    ensures initial == Shuffle.Shuffled(Identity(Rows), Rows, rand, randMax, 0)
    ensures IsRowOrder(initial) && tested == initial[TrainRows..]
    ensures forall k :: 0 <= k < |fed| ==> fed[k] in initial[..TrainRows]
    ensures correct == CountCorrect(tested, feat, labels, predict)
    ensures correct + incorrect == Rows - TrainRows
    ensures |fed| == Epochs * TrainRows && |tested| == Rows - TrainRows
    ensures Shuffle.Distinct(tested) && forall k :: 0 <= k < |tested| ==> 0 <= tested[k] < Rows
    ensures forall k :: 0 <= k < |fed| ==> fed[k] !in tested
  {
    var next;
    initial, next := InitialOrder(rand, randMax, 0);
    var final;
    final, next, fed := Training(initial, Epochs, rand, randMax, next);
    correct, incorrect, tested := Evaluate(final, feat, labels, predict);
  }
}

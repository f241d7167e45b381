/**
 * A single pass over a sequence of input rows, as every extraction loop of the
 * pipeline performs it: a step function applied row by row, stopping for good at
 * the first state that is halted (a row that raised an exception).  The result
 * on a sequence is defined on its prefixes, so a loop that has handled rows
 * rs[..i] holds exactly Run(init, rs[..i], ...).
 */
module Scan {

  function Run<S, R>(init: S, rs: seq<R>, step: (S, R) -> S, halted: S -> bool): S
    decreases |rs|
  {
    if rs == [] then init
    else
      var prev := Run(init, rs[..|rs| - 1], step, halted);
      if halted(prev) then prev else step(prev, rs[|rs| - 1])
  }

  /** One more row: the state after rs[..i + 1] is the step applied to the state after rs[..i]. */
  lemma RunNext<S, R>(init: S, rs: seq<R>, i: nat, step: (S, R) -> S, halted: S -> bool)
    requires i < |rs| && !halted(Run(init, rs[..i], step, halted))
    ensures Run(init, rs[..i + 1], step, halted) == step(Run(init, rs[..i], step, halted), rs[i])
  {
    assert rs[..i + 1][..i] == rs[..i];
  }

  /** A row appended after the others. */
  lemma RunSnoc<S, R>(init: S, rs: seq<R>, r: R, step: (S, R) -> S, halted: S -> bool)
    ensures Run(init, rs + [r], step, halted)
         == (var prev := Run(init, rs, step, halted);
             if halted(prev) then prev else step(prev, r))
  {
    assert (rs + [r])[..|rs|] == rs;
  }

  /** Rows after i change nothing once the state reached after rs[..i] is halted. */
  lemma {:induction false} RunHalted<S, R>(init: S, rs: seq<R>, i: nat, step: (S, R) -> S, halted: S -> bool)
    requires i <= |rs|
    requires halted(Run(init, rs[..i], step, halted))
    ensures Run(init, rs, step, halted) == Run(init, rs[..i], step, halted)
    decreases |rs|
  {
    if i < |rs| {
      var n := |rs| - 1;
      assert rs[..n][..i] == rs[..i];
      RunHalted(init, rs[..n], i, step, halted);
    } else {
      assert rs[..i] == rs;
    }
  }

  /** A run over rs is the run over rs[i..] from the state reached after rs[..i]. */
  lemma {:induction false} RunSplit<S, R>(init: S, rs: seq<R>, i: nat, step: (S, R) -> S, halted: S -> bool)
    requires i <= |rs|
    ensures Run(init, rs, step, halted) == Run(Run(init, rs[..i], step, halted), rs[i..], step, halted)
    decreases |rs|
  {
    if i == |rs| {
      assert rs[..i] == rs && rs[i..] == [];
    } else {
      var n := |rs| - 1;
      RunSplit(init, rs[..n], i, step, halted);
      assert rs[..n][..i] == rs[..i];
      assert rs[i..][..|rs[i..]| - 1] == rs[..n][i..];
    }
  }

  /** The whole input: once the loop has handled every row, its state is the run over all of them. */
  lemma RunAll<S, R>(init: S, rs: seq<R>, step: (S, R) -> S, halted: S -> bool)
    ensures Run(init, rs[..|rs|], step, halted) == Run(init, rs, step, halted)
  {
    assert rs[..|rs|] == rs;
  }

  /** A property of states that holds initially and that every step keeps holds at the end. */
  lemma {:induction false} RunKeeps<S, R>(init: S, rs: seq<R>, step: (S, R) -> S, halted: S -> bool, inv: S -> bool)
    requires inv(init)
    requires forall s, r :: inv(s) && !halted(s) ==> inv(step(s, r))
    ensures inv(Run(init, rs, step, halted))
    decreases |rs|
  {
    if rs != [] {
      RunKeeps(init, rs[..|rs| - 1], step, halted, inv);
    }
  }

  /** RunKeeps for a property that the steps keep on the rows of rs only. */
  lemma {:induction false} RunKeepsIn<S, R>(init: S, rs: seq<R>, step: (S, R) -> S, halted: S -> bool, inv: S -> bool)
    requires inv(init)
    requires forall s, r :: r in rs && inv(s) && !halted(s) ==> inv(step(s, r))
    ensures inv(Run(init, rs, step, halted))
    decreases |rs|
  {
    if rs != [] {
      var n := |rs| - 1;
      assert forall r :: r in rs[..n] ==> r in rs;
      RunKeepsIn(init, rs[..n], step, halted, inv);
      assert rs[n] in rs;
    }
  }

  /**
   * A mark that every step leaves on its own row and that no step erases: a
   * run that does not halt has marked every row.
   */
  lemma {:induction false} RunMarks<S, R>(init: S, rs: seq<R>, step: (S, R) -> S, halted: S -> bool, marked: (S, R) -> bool)
    requires forall s, r :: !halted(s) && !halted(step(s, r)) ==> marked(step(s, r), r)
    requires forall s, r, x :: !halted(s) && !halted(step(s, r)) && marked(s, x) ==> marked(step(s, r), x)
    requires !halted(Run(init, rs, step, halted))
    ensures forall r :: r in rs ==> marked(Run(init, rs, step, halted), r)
    decreases |rs|
  {
    if rs != [] {
      var n := |rs| - 1;
      var prev := Run(init, rs[..n], step, halted);
      assert !halted(prev);
      RunMarks(init, rs[..n], step, halted, marked);
      assert forall r :: r in rs ==> r in rs[..n] || r == rs[n];
    }
  }

  /** The sum of the weights of the rows. */
  function Total<R>(rs: seq<R>, w: R -> nat): nat
    decreases |rs|
  {
    if rs == [] then 0 else Total(rs[..|rs| - 1], w) + w(rs[|rs| - 1])
  }

  /**
   * A measure of the state that every step which does not halt raises by the
   * weight of its row: a run that does not halt raises it by the total weight
   * of the rows.
   */
  lemma {:induction false} RunTotal<S, R>(init: S, rs: seq<R>, step: (S, R) -> S, halted: S -> bool, m: S -> int, w: R -> nat)
    requires forall s, r :: !halted(s) && !halted(step(s, r)) ==> m(step(s, r)) == m(s) + w(r)
    requires !halted(Run(init, rs, step, halted))
    ensures m(Run(init, rs, step, halted)) == m(init) + Total(rs, w)
    decreases |rs|
  {
    if rs != [] {
      RunTotal(init, rs[..|rs| - 1], step, halted, m, w);
    }
  }

  /** The pieces of the rows, concatenated in order. */
  function Flat<R, T>(rs: seq<R>, piece: R -> seq<T>): seq<T>
    decreases |rs|
  {
    if rs == [] then [] else Flat(rs[..|rs| - 1], piece) + piece(rs[|rs| - 1])
  }

  /**
   * A log of the state to which every step that does not halt appends the
   * piece of its row: a run that does not halt appends the pieces of all rows,
   * in order.
   */
  lemma {:induction false} RunLog<S, R, T>(init: S, rs: seq<R>, step: (S, R) -> S, halted: S -> bool, log: S -> seq<T>, piece: R -> seq<T>)
    requires forall s, r :: !halted(s) && !halted(step(s, r)) ==> log(step(s, r)) == log(s) + piece(r)
    requires !halted(Run(init, rs, step, halted))
    ensures log(Run(init, rs, step, halted)) == log(init) + Flat(rs, piece)
    decreases |rs|
  {
    if rs != [] {
      var n := |rs| - 1;
      assert !halted(Run(init, rs[..n], step, halted));
      RunLog(init, rs[..n], step, halted, log, piece);
      assert log(init) + Flat(rs[..n], piece) + piece(rs[n]) == log(init) + (Flat(rs[..n], piece) + piece(rs[n]));
    }
  }

  /** The pieces of a prefix one entry longer. */
  lemma FlatNext<R, T>(rs: seq<R>, piece: R -> seq<T>, k: nat)
    requires k < |rs|
    ensures Flat(rs[..k + 1], piece) == Flat(rs[..k], piece) + piece(rs[k])
  {
    assert rs[..k + 1][..k] == rs[..k];
  }

  /** One entry per row: the pieces are single entries, so the concatenation has one entry per row, in order. */
  lemma {:induction false} FlatOnes<R, T>(rs: seq<R>, piece: R -> seq<T>)
    requires forall r :: |piece(r)| == 1
    ensures |Flat(rs, piece)| == |rs|
    ensures forall i :: 0 <= i < |rs| ==> Flat(rs, piece)[i] == piece(rs[i])[0]
    decreases |rs|
  {
    if rs != [] {
      var n := |rs| - 1;
      FlatOnes(rs[..n], piece);
      assert forall i :: 0 <= i < n ==> rs[..n][i] == rs[i];
    }
  }

  /** Rows whose pieces are single elements, where only the rows at hand need be: the same conclusion. */
  lemma {:induction false} FlatOnesIn<R, T>(rs: seq<R>, piece: R -> seq<T>)
    requires forall i :: 0 <= i < |rs| ==> |piece(rs[i])| == 1
    ensures |Flat(rs, piece)| == |rs|
    ensures forall i :: 0 <= i < |rs| ==> Flat(rs, piece)[i] == piece(rs[i])[0]
    decreases |rs|
  {
    if rs != [] {
      var n := |rs| - 1;
      assert forall i :: 0 <= i < n ==> rs[..n][i] == rs[i];
      FlatOnesIn(rs[..n], piece);
    }
  }

  /** The halting test of a loop that never stops early. */
  predicate Never<S>(s: S) {
    false
  }

  /** Rows of weight one: the total is the number of rows. */
  lemma {:induction false} TotalOnes<R>(rs: seq<R>, w: R -> nat)
    requires forall r :: w(r) == 1
    ensures Total(rs, w) == |rs|
    decreases |rs|
  {
    if rs != [] {
      TotalOnes(rs[..|rs| - 1], w);
    }
  }
}

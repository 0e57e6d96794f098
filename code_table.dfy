/** The code table builder of a keyboard backend: a static list of
    (normalized code, native code) pairs, ended by a sentinel pair whose
    normalized code equals the table size, is written into a table that
    starts out all zero. Later pairs for the same normalized code win. */
module CodeTable {

  /** One entry of a static key list: normalized code `os`, native code `code`. */
  datatype Pair = Pair(os: nat, code: nat)

  /** A table of `n` entries, all "no mapping". */
  function Zeros(n: nat): (r: seq<nat>)
    ensures |r| == n
    ensures forall k :: 0 <= k < n ==> r[k] == 0
  {
    seq(n, _ => 0)
  }

  /** The walk over `ps` meets a pair whose normalized code is `max` (the
      sentinel), and every pair it writes before that is inside the table. */
  predicate Terminated(ps: seq<Pair>, max: nat)
  {
    |ps| > 0 && (ps[0].os == max || (ps[0].os < max && Terminated(ps[1..], max)))
  }

  /** The pairs the walk visits: everything before the first sentinel. */
  function Prefix(ps: seq<Pair>, max: nat): (r: seq<Pair>)
    ensures |r| <= |ps| && r == ps[..|r|]
    ensures forall j :: 0 <= j < |r| ==> r[j].os != max
    ensures |r| < |ps| ==> ps[|r|].os == max
  {
    if ps == [] || ps[0].os == max then [] else [ps[0]] + Prefix(ps[1..], max)
  }

  /** A walk terminates exactly when a sentinel exists and every pair
      before the first one indexes the table. */
  lemma {:induction false} TerminatedIff(ps: seq<Pair>, max: nat)
    ensures Terminated(ps, max) <==>
      (|Prefix(ps, max)| < |ps| &&
       forall j :: 0 <= j < |Prefix(ps, max)| ==> ps[j].os < max)
  {
    if ps != [] && ps[0].os != max {
      TerminatedIff(ps[1..], max);
      var r := Prefix(ps[1..], max);
      assert Prefix(ps, max) == [ps[0]] + r;
      if Terminated(ps, max) {
        assert forall j :: 0 <= j < |Prefix(ps, max)| ==> ps[j].os < max by {
          forall j | 0 <= j < |Prefix(ps, max)| ensures ps[j].os < max {
            if j > 0 { assert ps[j] == ps[1..][j - 1]; }
          }
        }
      }
      if |Prefix(ps, max)| < |ps| && forall j :: 0 <= j < |Prefix(ps, max)| ==> ps[j].os < max {
        assert ps[0].os < max;
        forall j | 0 <= j < |r| ensures ps[1..][j].os < max {
          assert ps[1..][j] == ps[j + 1];
        }
      }
    }
  }

  /** Index of the sentinel that stops a terminating walk. */
  function Walked(ps: seq<Pair>, max: nat): (n: nat)
    requires Terminated(ps, max)
    ensures n < |ps| && ps[n].os == max
    ensures forall j :: 0 <= j < n ==> ps[j].os < max
    ensures ps[..n] == Prefix(ps, max)
  {
    TerminatedIff(ps, max);
    |Prefix(ps, max)|
  }

  /** Writes `ps` into `t` in list order (the last pair is written last). */
  function Overlay(t: seq<nat>, ps: seq<Pair>): (r: seq<nat>)
    requires forall j :: 0 <= j < |ps| ==> ps[j].os < |t|
    ensures |r| == |t|
    decreases |ps|
  {
    if ps == [] then t
    else
      var last := ps[|ps| - 1];
      Overlay(t, ps[..|ps| - 1])[last.os := last.code]
  }

  /** An entry no pair names keeps its old value. */
  lemma {:induction false} OverlayUntouched(t: seq<nat>, ps: seq<Pair>, k: nat)
    requires forall j :: 0 <= j < |ps| ==> ps[j].os < |t|
    requires k < |t|
    requires forall j :: 0 <= j < |ps| ==> ps[j].os != k
    ensures Overlay(t, ps)[k] == t[k]
    decreases |ps|
  {
    if ps != [] {
      OverlayUntouched(t, ps[..|ps| - 1], k);
    }
  }

  /** The entry of a normalized code holds the native code of the last pair
      that names it. */
  lemma {:induction false} OverlayLastWins(t: seq<nat>, ps: seq<Pair>, j: nat)
    requires forall i :: 0 <= i < |ps| ==> ps[i].os < |t|
    requires j < |ps|
    requires forall l :: j < l < |ps| ==> ps[l].os != ps[j].os
    ensures Overlay(t, ps)[ps[j].os] == ps[j].code
    decreases |ps|
  {
    if j < |ps| - 1 {
      var init := ps[..|ps| - 1];
      assert init[j] == ps[j];
      OverlayLastWins(t, init, j);
    }
  }

  /** The table a terminating walk over `ps` builds from an all-zero table. */
  function Built(ps: seq<Pair>, max: nat): (r: seq<nat>)
    requires Terminated(ps, max)
    ensures |r| == max
  {
    var n := Walked(ps, max);
    Overlay(Zeros(max), ps[..n])
  }

  /** A normalized code named by no pair before the sentinel stays unmapped (0). */
  lemma BuiltUnlisted(ps: seq<Pair>, max: nat, k: nat)
    requires Terminated(ps, max)
    requires k < max
    requires forall j :: 0 <= j < Walked(ps, max) ==> ps[j].os != k
    ensures Built(ps, max)[k] == 0
  {
    var n := Walked(ps, max);
    OverlayUntouched(Zeros(max), ps[..n], k);
  }

  /** For a pair before the sentinel that no later pair before the sentinel
      overrides, its normalized code maps to its native code. */
  lemma BuiltLastWins(ps: seq<Pair>, max: nat, j: nat)
    requires Terminated(ps, max)
    requires j < Walked(ps, max)
    requires forall l :: j < l < Walked(ps, max) ==> ps[l].os != ps[j].os
    ensures Built(ps, max)[ps[j].os] == ps[j].code
  {
    var n := Walked(ps, max);
    assert ps[..n][j] == ps[j];
    OverlayLastWins(Zeros(max), ps[..n], j);
  }

  /** Pairs after the sentinel are never read: they do not change the table. */
  lemma BuiltIgnoresTail(ps: seq<Pair>, max: nat, tail: seq<Pair>)
    requires Terminated(ps, max)
    ensures Terminated(ps + tail, max)
    ensures Walked(ps + tail, max) == Walked(ps, max)
    ensures Built(ps + tail, max) == Built(ps, max)
  {
    var n := Walked(ps, max);
    var qs := ps + tail;
    assert qs[..n] == ps[..n];
    assert qs[n] == ps[n];
    TerminatedIff(qs, max);
  }
}

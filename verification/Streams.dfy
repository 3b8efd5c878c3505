/** A stream of records read one after another until it ends.

    `step` reads one record at a cursor and moves the reader's state on. What a
    truncated stream yields is proved here once, for any step, and instantiated
    for FETCH streams, subgroup streams and control streams. */
module Streams {
  import opened Wire

  type Step<!S, !R> = (S, Bytes, nat) -> Parsed<(R, S)>

  ghost predicate Progress<S(!new), R(!new)>(step: Step<S, R>) {
    forall st, s, i: nat :: step(st, s, i).Ok? ==> i < step(st, s, i).end <= |s|
  }

  /** The clean end of a stream is reported between records, and only there. */
  ghost predicate CleanEnd<S(!new), R(!new)>(step: Step<S, R>) {
    forall st, s, i: nat :: step(st, s, i) == Err(Eof) <==> i >= |s|
  }

  /** A record wholly before a cut reads as before; one the cut falls inside is truncated. */
  ghost predicate CutSafe<S(!new), R(!new)>(step: Step<S, R>, truncated: Error) {
    forall st, s, i: nat, k | step(st, s, i).Ok? && i <= k <= |s| ::
      step(st, s[..k], i) ==
        if step(st, s, i).end <= k then step(st, s, i)
        else if k == i then Err(Eof) else Err(truncated)
  }

  /** Every record from `i` on, and the error that ended the reading. */
  ghost function ReadAll<S(!new), R(!new)>(step: Step<S, R>, st: S, s: Bytes, i: nat): (seq<R>, Error)
    requires Progress(step)
    decreases |s| - i
  {
    match step(st, s, i)
    case Err(e) => ([], e)
    case Ok((rec, st'), j) =>
      var (recs, e) := ReadAll(step, st', s, j);
      ([rec] + recs, e)
  }

  /** The cursors after each record of the stream. */
  ghost function Boundaries<S(!new), R(!new)>(step: Step<S, R>, st: S, s: Bytes, i: nat): (b: seq<nat>)
    requires Progress(step)
    ensures |b| == |ReadAll(step, st, s, i).0|
    decreases |s| - i
  {
    match step(st, s, i)
    case Err(e) => []
    case Ok((rec, st'), j) => [j] + Boundaries(step, st', s, j)
  }

  /** How many records end at or before the cut. */
  ghost function Before<S(!new), R(!new)>(step: Step<S, R>, st: S, s: Bytes, i: nat, k: nat): (n: nat)
    requires Progress(step)
    ensures n <= |ReadAll(step, st, s, i).0|
    decreases |s| - i
  {
    match step(st, s, i)
    case Err(e) => 0
    case Ok((rec, st'), j) => if j <= k then 1 + Before(step, st', s, j, k) else 0
  }

  /** Of the cursors `b`, all past `i`, the first `n` are at or before `k` and the rest past it. */
  ghost predicate Splits(b: seq<nat>, n: nat, i: nat, k: nat) {
    && n <= |b|
    && (forall m | 0 <= m < |b| :: i < b[m])
    && (forall m | 0 <= m < n :: b[m] <= k)
    && (forall m | n <= m < |b| :: k < b[m])
  }

  /** Before counts the boundaries at or before the cut, and no later one. */
  lemma {:induction false} BeforeIsCount<S(!new), R(!new)>(step: Step<S, R>, st: S, s: Bytes, i: nat, k: nat)
    requires Progress(step)
    ensures Splits(Boundaries(step, st, s, i), Before(step, st, s, i, k), i, k)
    decreases |s| - i
  {
    match step(st, s, i)
    case Err(_) =>
    case Ok((rec, st'), j) =>
      BeforeIsCount(step, st', s, j, k);
      var rest, n := Boundaries(step, st', s, j), Before(step, st', s, j, k);
      SplitsCons(j, rest, n, i, k);
  }

  lemma SplitsCons(j: nat, rest: seq<nat>, n: nat, i: nat, k: nat)
    requires Splits(rest, n, j, k) && i < j
    ensures Splits([j] + rest, if j <= k then 1 + n else 0, i, k)
  {
    var b := [j] + rest;
    assert forall m | 1 <= m < |b| :: b[m] == rest[m - 1];
  }

  /** Cutting a valid stream at any byte yields exactly the records wholly before
      the cut, then a clean end if the cut is on a record boundary and a
      truncation otherwise. */
  lemma {:induction false} CutStream<S(!new), R(!new)>(
      step: Step<S, R>, truncated: Error, st: S, s: Bytes, i: nat, k: nat)
    requires Progress(step) && CleanEnd(step) && CutSafe(step, truncated)
    requires ReadAll(step, st, s, i).1 == Eof && i <= k <= |s|
    requires truncated != Eof
    ensures ReadAll(step, st, s[..k], i).0 == ReadAll(step, st, s, i).0[..Before(step, st, s, i, k)]
    ensures ReadAll(step, st, s[..k], i).1 ==
            if k == i || k in Boundaries(step, st, s, i) then Eof else truncated
    decreases |s| - i
  {
    match step(st, s, i)
    case Err(_) =>
      assert s[..k] == s;
    case Ok((rec, st'), j) =>
      var next := ReadAll(step, st', s, j);
      BeforeIsCount(step, st', s, j, k);
      if j <= k {
        CutStream(step, truncated, st', s, j, k);
      }
  }
}

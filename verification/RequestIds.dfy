/** Request IDs: even from a client, odd from a server, each stepping by 2. The
    receiver remembers which were used by a low water mark and the holes above it. */
module RequestIds {
  import opened Wire

  datatype Perspective = Client | Server

  function FirstId(p: Perspective): U64 {
    if p.Server? then 1 else 0
  }

  function Peer(p: Perspective): Perspective {
    if p.Server? then Client else Server
  }

  class RequestIDGenerator {
    var next: U64

    constructor (p: Perspective)
      ensures next == if p.Client? then 0 else 1
    {
      next := FirstId(p);
    }

    method NextID() returns (id: U64)
      modifies this
      ensures id == old(next) && next == WrapAdd(old(next), 2)
    {
      id := next;
      next := WrapAdd(next, 2);
    }
  }

  datatype Tracker = Tracker(lowest: U64, ahead: set<U64>)

  function Fresh(first: U64): Tracker {
    Tracker(first, {})
  }

  /** Moves the low water mark over the run that has become contiguous. */
  function Absorb(t: Tracker): Tracker
    decreases |t.ahead|
  {
    if t.lowest !in t.ahead then t else Absorb(Tracker(WrapAdd(t.lowest, 2), t.ahead - {t.lowest}))
  }

  function Use(t: Tracker, id: U64): Result<Tracker> {
    if id % 2 != t.lowest % 2 then Failure(WrongParity)
    else if id < t.lowest || id in t.ahead then Failure(DuplicateRequestId)
    else Success(Absorb(t.(ahead := t.ahead + {id})))
  }

  class PeerRequestIDs {
    var lowest: U64
    var ahead: set<U64>

    /** Tracks the peer of an endpoint with perspective `p`. */
    constructor (p: Perspective)
      ensures State() == Tracker(if p.Client? then 1 else 0, {})
    {
      lowest, ahead := FirstId(Peer(p)), {};
    }

    function State(): Tracker
      reads this
    {
      Tracker(lowest, ahead)
    }

    /** Records an ID, or refuses it and remembers nothing. */
    method UseID(id: U64) returns (res: Result<()>)
      modifies this
      ensures match Use(old(State()), id)
              case Success(t) => res == Success(()) && State() == t
              case Failure(e) => res == Failure(e) && State() == old(State())
    {
      if id % 2 != lowest % 2 {
        return Failure(WrongParity);
      }
      if id < lowest {
        return Failure(DuplicateRequestId);
      }
      if id in ahead {
        return Failure(DuplicateRequestId);
      }
      ahead := ahead + {id};
      ghost var target := Absorb(State());
      while lowest in ahead
        invariant Absorb(State()) == target
        decreases |ahead|
      {
        ahead := ahead - {lowest};
        lowest := WrapAdd(lowest, 2);
      }
      return Success(());
    }
  }

  // ---- What the mark and the holes represent.

  ghost predicate Marked(t: Tracker, id: U64) {
    id % 2 == t.lowest % 2 && (id < t.lowest || id in t.ahead)
  }

  /** `used` is exactly what the tracker remembers. */
  ghost predicate Remembers(t: Tracker, used: set<U64>) {
    && (forall id: U64 :: id in used <==> Marked(t, id))
    && (forall id | id in t.ahead :: id % 2 == t.lowest % 2 && t.lowest <= id)
  }

  /** The mark is on an ID that was not used. */
  ghost predicate Settled(t: Tracker) {
    t.lowest !in t.ahead
  }

  /** Every ID the sender can have. */
  ghost predicate Complete(used: set<U64>, parity: int) {
    forall id: U64 | id % 2 == parity :: id in used
  }

  lemma StepParity(low: U64)
    ensures WrapAdd(low, 2) % 2 == low % 2
    ensures low < MAX_U64 - 1 ==> WrapAdd(low, 2) == low + 2
    ensures low >= MAX_U64 - 1 ==> WrapAdd(low, 2) == low % 2
  {
  }

  /** Absorbing forgets nothing until the mark passes the last ID of all. */
  lemma {:induction false} AbsorbRemembers(t: Tracker, used: set<U64>)
    requires Remembers(t, used)
    ensures Absorb(t).lowest % 2 == t.lowest % 2
    ensures !Complete(used, t.lowest % 2) ==> Remembers(Absorb(t), used) && Settled(Absorb(t))
    ensures Complete(used, t.lowest % 2) ==> Absorb(t) == Fresh(t.lowest % 2)
    decreases |t.ahead|
  {
    StepParity(t.lowest);
    assert Marked(t, t.lowest) <==> t.lowest in t.ahead;
    if t.lowest in t.ahead {
      var next := Tracker(WrapAdd(t.lowest, 2), t.ahead - {t.lowest});
      if t.lowest < MAX_U64 - 1 {
        StepRemembers(t, used);
        AbsorbRemembers(next, used);
      } else {
        assert next.ahead == {};
        LastIsComplete(t, used);
      }
    }
  }

  lemma StepRemembers(t: Tracker, used: set<U64>)
    requires Remembers(t, used) && t.lowest in t.ahead && t.lowest < MAX_U64 - 1
    ensures Remembers(Tracker(t.lowest + 2, t.ahead - {t.lowest}), used)
  {
  }

  lemma LastIsComplete(t: Tracker, used: set<U64>)
    requires Remembers(t, used) && t.lowest in t.ahead && t.lowest >= MAX_U64 - 1
    ensures Complete(used, t.lowest % 2)
  {
    forall id: U64 | id % 2 == t.lowest % 2 ensures id in used {
      assert Marked(t, id);
    }
  }

  /** An ID is accepted exactly when its parity is right and it is new, and is then remembered with the
      rest -- until every ID there is has been used, when the mark wraps and the tracker is as new. */
  lemma UseIsExact(t: Tracker, used: set<U64>, id: U64)
    requires Remembers(t, used)
    ensures Use(t, id).Success? <==> id % 2 == t.lowest % 2 && id !in used
    ensures Use(t, id).Success? ==>
              if Complete(used + {id}, t.lowest % 2) then Use(t, id).value == Fresh(t.lowest % 2)
              else Remembers(Use(t, id).value, used + {id}) && Settled(Use(t, id).value)
                   && Use(t, id).value.lowest % 2 == t.lowest % 2
  {
    hide Complete, Absorb;
    assert id in used <==> Marked(t, id);
    if Use(t, id).Success? {
      var added := t.(ahead := t.ahead + {id});
      assert Remembers(added, used + {id}) by {
        forall x: U64 ensures x in used + {id} <==> Marked(added, x) {
          assert x in used <==> Marked(t, x);
        }
      }
      AbsorbRemembers(added, used + {id});
    }
  }

  lemma FreshRemembersNothing(first: U64)
    requires first < 2
    ensures Remembers(Fresh(first), {}) && Settled(Fresh(first))
  {
  }

  /** The wrap, concretely: used last of all, the largest even ID makes every ID acceptable again. */
  lemma WrapForgets()
    ensures var t := Tracker(MAX_U64 - 1, {});
            && Use(t, 0) == Failure(DuplicateRequestId)
            && Use(t, MAX_U64 - 1).Success?
            && Use(Use(t, MAX_U64 - 1).value, 0).Success?
  {
    var t := Tracker(MAX_U64 - 1, {MAX_U64 - 1});
    assert {} + {MAX_U64 - 1} == t.ahead;
    assert t.ahead - {t.lowest} == {};
    assert WrapAdd(t.lowest, 2) == 0;
    assert Absorb(t) == Absorb(Tracker(0, {}));
  }

  // ---- Runs.

  /** The verdict on each ID of a run, and the tracker after it. A refused ID changes nothing. */
  function Run(t: Tracker, ids: seq<U64>): (r: (seq<bool>, Tracker))
    ensures |r.0| == |ids|
    decreases |ids|
  {
    if ids == [] then ([], t)
    else
      var u := Use(t, ids[0]);
      var (verdicts, end) := Run(if u.Success? then u.value else t, ids[1..]);
      ([u.Success?] + verdicts, end)
  }

  /** Those of `ids` that have the right parity. */
  function Rightful(ids: seq<U64>, parity: int): set<U64> {
    set id | id in ids && id % 2 == parity
  }

  /** Over any run that leaves at least one ID unused, an ID is accepted exactly when its parity is right
      and it has not come before, and at the end exactly the accepted IDs are remembered. */
  lemma {:induction false} RunIsExact(t: Tracker, used: set<U64>, ids: seq<U64>)
    requires Remembers(t, used) && Settled(t)
    requires !Complete(used + Rightful(ids, t.lowest % 2), t.lowest % 2)
    ensures forall k | 0 <= k < |ids| ::
              Run(t, ids).0[k] <==> ids[k] % 2 == t.lowest % 2 && ids[k] !in used && ids[k] !in ids[..k]
    ensures Remembers(Run(t, ids).1, used + Rightful(ids, t.lowest % 2)) && Settled(Run(t, ids).1)
    ensures Run(t, ids).1.lowest % 2 == t.lowest % 2
    decreases |ids|
  {
    hide Remembers, Settled, Use;
    var parity := t.lowest % 2;
    if ids == [] {
      assert used + Rightful(ids, parity) == used;
    } else {
      var id, rest := ids[0], ids[1..];
      var added := if id % 2 == parity then used + {id} else used;
      assert added + Rightful(rest, parity) == used + Rightful(ids, parity) by {
        assert ids == [id] + rest;
      }
      StillIncomplete(added, Rightful(rest, parity), parity);
      UseIsExact(t, used, id);
      var u := Use(t, id);
      var next := if u.Success? then u.value else t;
      if !u.Success? {
        assert added == used;
      }
      RunIsExact(next, added, rest);
      forall k | 0 <= k < |ids|
        ensures Run(t, ids).0[k] <==> ids[k] % 2 == parity && ids[k] !in used && ids[k] !in ids[..k]
      {
        if k > 0 {
          assert rest[k - 1] == ids[k] && ids[..k] == [id] + rest[..k - 1];
        }
      }
    }
  }

  lemma StillIncomplete(used: set<U64>, more: set<U64>, parity: int)
    requires !Complete(used + more, parity)
    ensures !Complete(used, parity)
  {
    var id: U64 :| id % 2 == parity && id !in used + more;
    assert id !in used;
  }

  // ---- What the generator sends.

  /** The first `n` IDs a generator hands out. */
  function Generated(first: U64, n: nat): (ids: seq<U64>)
    ensures |ids| == n
    decreases n
  {
    if n == 0 then [] else [first] + Generated(WrapAdd(first, 2), n - 1)
  }

  lemma {:induction false} GeneratedAt(first: U64, n: nat, k: nat)
    requires k < n && first + 2 * n <= TWO_64
    ensures Generated(first, n)[k] == first + 2 * k
    decreases n
  {
    if k > 0 {
      GeneratedAt(first + 2, n - 1, k - 1);
    }
  }

  lemma GeneratedIs(first: U64, n: nat, id: U64)
    requires first < 2 && first + 2 * n <= TWO_64
    ensures id in Generated(first, n) <==> id % 2 == first % 2 && id < first + 2 * n
  {
    hide Generated;
    forall k | 0 <= k < n ensures Generated(first, n)[k] == first + 2 * k {
      GeneratedAt(first, n, k);
    }
    if id % 2 == first % 2 && id < first + 2 * n {
      var k := (id - first) / 2;
      assert Generated(first, n)[k] == id;
    }
  }

  lemma GeneratedOnce(first: U64, n: nat, id: U64)
    requires first + 2 * n <= TWO_64
    ensures multiset(Generated(first, n))[id] <= 1
  {
    var ids := Generated(first, n);
    hide Generated;
    forall a, b | 0 <= a < b < |ids| ensures ids[a] < ids[b] {
      GeneratedAt(first, n, a);
      GeneratedAt(first, n, b);
    }
    IncreasingOnce(ids, id);
  }

  lemma {:induction false} IncreasingOnce(ids: seq<U64>, id: U64)
    requires forall a, b | 0 <= a < b < |ids| :: ids[a] < ids[b]
    ensures multiset(ids)[id] <= 1
  {
    if ids != [] {
      var first, rest := ids[0], ids[1..];
      IncreasingOnce(rest, id);
      assert ids == [first] + rest;
      assert multiset(ids) == multiset{first} + multiset(rest);
      if id == first {
        assert id !in rest;
        assert id !in multiset(rest);
      }
    }
  }

  lemma OnceIsDistinct(ids: seq<U64>, a: nat, b: nat)
    requires a < b < |ids| && multiset(ids)[ids[a]] <= 1
    ensures ids[a] != ids[b]
  {
    assert ids == ids[..b] + ids[b..];
    assert ids[..b][a] == ids[a] && ids[b..][0] == ids[b];
    assert multiset(ids) == multiset(ids[..b]) + multiset(ids[b..]);
    assert ids[a] in multiset(ids[..b]) && ids[b] in multiset(ids[b..]);
  }

  lemma PermutationDistinct(first: U64, n: nat, ids: seq<U64>, a: nat, b: nat)
    requires first + 2 * n <= TWO_64 && multiset(ids) == multiset(Generated(first, n)) && a < b < |ids|
    ensures ids[a] != ids[b]
  {
    hide Generated;
    GeneratedOnce(first, n, ids[a]);
    OnceIsDistinct(ids, a, b);
  }

  lemma PermutationMembers(first: U64, n: nat, ids: seq<U64>, id: U64)
    requires first < 2 && first + 2 * n <= TWO_64 && multiset(ids) == multiset(Generated(first, n))
    ensures id in ids <==> id % 2 == first % 2 && id < first + 2 * n
  {
    hide Generated;
    GeneratedIs(first, n, id);
    assert id in ids <==> id in multiset(ids);
    assert id in Generated(first, n) <==> id in multiset(Generated(first, n));
  }

  /** The IDs a peer generates, in any order they happen to arrive, are all accepted; and once every one
      up to a point is in, no hole is kept. */
  lemma PermutationAccepted(p: Perspective, n: nat, ids: seq<U64>)
    requires FirstId(p) + 2 * n <= MAX_U64
    requires multiset(ids) == multiset(Generated(FirstId(p), n))
    ensures forall k | 0 <= k < |ids| :: Run(Fresh(FirstId(p)), ids).0[k]
    ensures Run(Fresh(FirstId(p)), ids).1 == Tracker(FirstId(p) + 2 * n, {})
  {
    hide Remembers, Settled, Run, Generated, Marked;
    var first := FirstId(p);
    var used := Rightful(ids, first % 2);
    forall id: U64 ensures id in used <==> id % 2 == first % 2 && id < first + 2 * n {
      PermutationMembers(first, n, ids, id);
    }
    assert {} + used == used;
    assert first + 2 * n !in used;
    FreshRemembersNothing(first);
    RunIsExact(Fresh(first), {}, ids);
    PrefixHasNoHoles(Run(Fresh(first), ids).1, used, first, n);
    forall k | 0 <= k < |ids| ensures Run(Fresh(first), ids).0[k] {
      PermutationMembers(first, n, ids, ids[k]);
      forall a | 0 <= a < k ensures ids[a] != ids[k] {
        PermutationDistinct(first, n, ids, a, k);
      }
    }
  }

  /** A tracker that remembers exactly a complete prefix keeps no hole. */
  lemma PrefixHasNoHoles(t: Tracker, used: set<U64>, first: U64, n: nat)
    requires Remembers(t, used) && Settled(t) && first < 2 && first + 2 * n <= MAX_U64
    requires forall id: U64 :: id in used <==> id % 2 == first % 2 && id < first + 2 * n
    requires t.lowest % 2 == first % 2
    ensures t == Tracker(first + 2 * n, {})
  {
    var past := first + 2 * n;
    assert t.lowest in used <==> Marked(t, t.lowest);
    assert past in used <==> Marked(t, past);
    forall id | id in t.ahead ensures id in used {
      assert Marked(t, id);
    }
    assert t.ahead == {};
  }
}

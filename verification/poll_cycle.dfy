/** The filter step of `main`'s poll cycle in data.js: list the tracked
    addresses, look each one up, and keep the snapshots that pass the screen.
    The timer and the asynchronous fan-out are abstracted: one cycle is one
    call, and the market-data lookup is the parameter `fetch`. */
module PollCycle {
  import opened Wrappers
  import opened Screening
  import opened AddressStore
  import opened Pairs

  /** `a` is `b` with some elements deleted, the rest in their original order. */
  ghost predicate IsSubsequence<T>(a: seq<T>, b: seq<T>)
    decreases |b|
  {
    if |a| == 0 then true
    else if |b| == 0 then false
    else (a[0] == b[0] && IsSubsequence(a[1..], b[1..])) || IsSubsequence(a, b[1..])
  }

  /** `results.filter(filterMemeCoins)`: keeps exactly the qualifying
      snapshots, each as often as it occurs, in their original order. */
  function FilterQualifying(results: seq<Snapshot>): (r: seq<Snapshot>)
    ensures forall s :: s in r ==> Qualifies(s)
    ensures forall s :: multiset(r)[s] == if Qualifies(s) then multiset(results)[s] else 0
    ensures IsSubsequence(r, results)
    decreases |results|
  {
    if |results| == 0 then []
    else
      var rest := FilterQualifying(results[1..]);
      assert results == [results[0]] + results[1..];
      if Qualifies(results[0]) then
        assert ([results[0]] + rest)[1..] == rest;
        [results[0]] + rest
      else rest
  }

  /** Completeness of the filter: every qualifying input is kept. */
  lemma FilterComplete(results: seq<Snapshot>, s: Snapshot)
    requires s in results && Qualifies(s)
    ensures s in FilterQualifying(results)
  {
  }

  /** Filtering an already filtered sequence changes nothing. */
  lemma {:induction false} FilterIdempotent(results: seq<Snapshot>)
    ensures FilterQualifying(FilterQualifying(results)) == FilterQualifying(results)
    decreases |results|
  {
    if |results| > 0 {
      FilterIdempotent(results[1..]);
      var rest := FilterQualifying(results[1..]);
      if Qualifies(results[0]) {
        assert ([results[0]] + rest)[1..] == rest;
      }
    }
  }

  /** How the lookup for one tracked address settles. */
  datatype Settled =
    | Undefined        // the address was falsy: the callback returned nothing
    | Rejected         // `fetchPriceAsPair` threw
    | Null             // the response had no pairs
    | Pair(pair: Snapshot)

  /** The per-address callback of the cycle's `map`. */
  function Settle(mint: string, fetch: string -> Option<Response>): (r: Settled)
    ensures r.Undefined? <==> mint == ""
    ensures r.Rejected? <==> mint != "" && fetch(mint).None?
    ensures r.Pair? ==> mint != "" && FetchPriceAsPair(fetch(mint)) == Success(Some(r.pair))
    ensures mint != "" && fetch(mint).Some? && FirstPair(fetch(mint).value.pairs).Some? ==> r.Pair?
  {
    if mint == "" then Undefined
    else match FetchPriceAsPair(fetch(mint))
      case Failure(_) => Rejected
      case Success(None) => Null
      case Success(Some(s)) => Pair(s)
  }

  /** `a` with every element wrapped as a settled pair. */
  function AsPairs(a: seq<Snapshot>): (r: seq<Settled>)
    ensures |r| == |a|
    ensures forall i :: 0 <= i < |a| ==> r[i] == Pair(a[i])
  {
    seq(|a|, i requires 0 <= i < |a| => Pair(a[i]))
  }

  /** Being a subsequence is transitive. */
  lemma {:induction false} SubsequenceTransitive<T>(x: seq<T>, y: seq<T>, z: seq<T>)
    requires IsSubsequence(x, y) && IsSubsequence(y, z)
    ensures IsSubsequence(x, z)
    decreases |z|
  {
    if |x| > 0 {
      if IsSubsequence(y, z[1..]) {
        SubsequenceTransitive(x, y, z[1..]);
      } else if x[0] == y[0] && IsSubsequence(x[1..], y[1..]) {
        SubsequenceTransitive(x[1..], y[1..], z[1..]);
      } else {
        SubsequenceTransitive(x, y[1..], z[1..]);
      }
    }
  }

  /** Wrapping both sides as pairs keeps a subsequence a subsequence. */
  lemma {:induction false} SubsequenceAsPairs(a: seq<Snapshot>, b: seq<Snapshot>)
    requires IsSubsequence(a, b)
    ensures IsSubsequence(AsPairs(a), AsPairs(b))
    decreases |b|
  {
    if |a| > 0 {
      assert AsPairs(a)[1..] == AsPairs(a[1..]);
      assert AsPairs(b)[1..] == AsPairs(b[1..]);
      if a[0] == b[0] && IsSubsequence(a[1..], b[1..]) {
        SubsequenceAsPairs(a[1..], b[1..]);
      } else {
        SubsequenceAsPairs(a, b[1..]);
      }
    }
  }

  /** `r` holds the pairs of `settled`, each as often as it settled, in
      settling order. */
  ghost predicate PairsOf(r: seq<Snapshot>, settled: seq<Settled>) {
    && (forall s :: s in r <==> Pair(s) in settled)
    && (forall s :: multiset(r)[s] == multiset(settled)[Pair(s)])
    && IsSubsequence(AsPairs(r), settled)
  }

  /** A leading pair is kept in front of the pairs of the rest. */
  lemma PairsOfCons(rest: seq<Snapshot>, settled: seq<Settled>)
    requires |settled| > 0 && settled[0].Pair? && PairsOf(rest, settled[1..])
    ensures PairsOf([settled[0].pair] + rest, settled)
  {
    var s := settled[0].pair;
    assert settled == [settled[0]] + settled[1..];
    assert multiset(settled) == multiset{settled[0]} + multiset(settled[1..]);
    assert AsPairs([s] + rest)[1..] == AsPairs(rest);
  }

  /** A leading lookup that did not settle as a pair is dropped. */
  lemma PairsOfSkip(rest: seq<Snapshot>, settled: seq<Settled>)
    requires |settled| > 0 && !settled[0].Pair? && PairsOf(rest, settled[1..])
    ensures PairsOf(rest, settled)
  {
    assert settled == [settled[0]] + settled[1..];
    assert multiset(settled) == multiset{settled[0]} + multiset(settled[1..]);
  }

  /** The snapshots among settled lookups; everything that is not a pair is
      dropped. Each pair is kept as often as it settled, in settling order. */
  function Resolved(settled: seq<Settled>): (r: seq<Snapshot>)
    ensures forall s :: s in r <==> Pair(s) in settled
    ensures forall s :: multiset(r)[s] == multiset(settled)[Pair(s)]
    ensures IsSubsequence(AsPairs(r), settled)
    decreases |settled|
  {
    if |settled| == 0 then []
    else
      var rest := Resolved(settled[1..]);
      if settled[0].Pair? then
        PairsOfCons(rest, settled);
        [settled[0].pair] + rest
      else
        PairsOfSkip(rest, settled);
        rest
  }

  /** The lookups of one cycle, one per tracked address in listing order. */
  function Lookups(mints: seq<string>, fetch: string -> Option<Response>): (r: seq<Settled>)
    ensures |r| == |mints|
    ensures forall i :: 0 <= i < |mints| ==> r[i] == Settle(mints[i], fetch)
  {
    seq(|mints|, i requires 0 <= i < |mints| => Settle(mints[i], fetch))
  }

  /** A listing of a store whose addresses are all non-empty never hands the
      callback an empty address, so no lookup settles as `undefined`. */
  lemma ValidListingIsLookedUp(reply: StoreReply, store: set<string>, fetch: string -> Option<Response>)
    requires Lists(reply, store) && ValidStore(store)
    ensures Undefined !in Lookups(TrackedMints(reply), fetch)
  {
    var mints := TrackedMints(reply);
    forall i | 0 <= i < |mints|
      ensures Lookups(mints, fetch)[i] != Undefined
    {
      assert mints[i] in store;
    }
  }

  /** One poll cycle with every lookup awaited before filtering. The output
      holds exactly the qualifying first pairs of the tracked addresses, each
      as often as addresses produced it, in listing order; a failed store
      read yields nothing. */
  function Cycle(reply: StoreReply, fetch: string -> Option<Response>): (r: seq<Snapshot>)
    ensures reply.StoreError? ==> r == []
    ensures forall s :: s in r ==> Qualifies(s)
    ensures forall s :: s in r ==>
      exists i :: 0 <= i < |TrackedMints(reply)| && Settle(TrackedMints(reply)[i], fetch) == Pair(s)
    ensures forall i :: (0 <= i < |TrackedMints(reply)| && Settle(TrackedMints(reply)[i], fetch).Pair? &&
                         Qualifies(Settle(TrackedMints(reply)[i], fetch).pair)) ==>
                        Settle(TrackedMints(reply)[i], fetch).pair in r
    ensures forall s :: multiset(r)[s] ==
                        if Qualifies(s) then multiset(Lookups(TrackedMints(reply), fetch))[Pair(s)] else 0
    ensures IsSubsequence(AsPairs(r), Lookups(TrackedMints(reply), fetch))
  {
    var settled := Lookups(TrackedMints(reply), fetch);
    var resolved := Resolved(settled);
    var r := FilterQualifying(resolved);
    forall i | 0 <= i < |TrackedMints(reply)| && settled[i].Pair? && Qualifies(settled[i].pair)
      ensures settled[i].pair in r
    {
      assert settled[i] in settled;
      FilterComplete(resolved, settled[i].pair);
    }
    forall s | s in r
      ensures exists i :: 0 <= i < |TrackedMints(reply)| && Settle(TrackedMints(reply)[i], fetch) == Pair(s)
    {
      assert Pair(s) in settled;
    }
    SubsequenceAsPairs(r, resolved);
    SubsequenceTransitive(AsPairs(r), AsPairs(resolved), settled);
    r
  }

  /** What `filterMemeCoins` reads from each element as written: the callback
      is `async`, so each element is a pending Promise, and every property
      read on a Promise yields `undefined`, so every field is absent. */
  const AllAbsent: Snapshot := Snapshot(None, None, None, None, None, None)

  /** What one cycle as written leaves behind: the list it logs, and whether
      some lookup promise rejects with nobody awaiting it. */
  datatype CycleOutcome = CycleOutcome(logged: seq<Snapshot>, unhandledRejection: bool)

  /** The cycle as written: the filter runs over un-awaited Promises and so
      logs nothing, whatever the store and the market data hold. A lookup whose
      fetch failed rejects (reading `pairs` of `undefined`) and, since nothing
      awaits `trackedMemes`, that rejection is unhandled. */
  function CycleAsWritten(reply: StoreReply, fetch: string -> Option<Response>): (r: CycleOutcome)
    ensures r.logged == []
    ensures r.unhandledRejection <==>
      exists i :: 0 <= i < |TrackedMints(reply)| && TrackedMints(reply)[i] != "" && fetch(TrackedMints(reply)[i]).None?
  {
    var mints := TrackedMints(reply);
    var settled := Lookups(mints, fetch);
    var pending := seq(|mints|, i => AllAbsent);
    assert !Qualifies(AllAbsent);
    assert Rejected in settled ==> exists i :: 0 <= i < |mints| && settled[i] == Rejected;
    CycleOutcome(FilterQualifying(pending), Rejected in settled)
  }

  /** A concrete cycle showing the first discrepancy: one tracked address
      whose only pair qualifies is reported by the awaited cycle and dropped by
      the cycle as written. */
  lemma CycleDiscrepancy()
    ensures
      var pair := WithMetrics(150000.0, 40000.0, 60.0, 120000.0);
      var fetch := (mint: string) => Some(Response(Some([pair])));
      && Cycle(Members(["A"]), fetch) == [pair]
      && CycleAsWritten(Members(["A"]), fetch) == CycleOutcome([], false)
  {
  }

  /** A concrete cycle showing the second discrepancy: the fetch for "A"
      fails and "B" has a qualifying pair. The awaited cycle reports the pair
      of "B"; the cycle as written logs nothing and leaves a rejection
      unhandled. */
  lemma FailedFetchDiscrepancy()
    ensures
      var pair := WithMetrics(150000.0, 40000.0, 60.0, 120000.0);
      var fetch := (mint: string) => if mint == "A" then None else Some(Response(Some([pair])));
      && Cycle(Members(["A", "B"]), fetch) == [pair]
      && CycleAsWritten(Members(["A", "B"]), fetch) == CycleOutcome([], true)
  {
    var pair := WithMetrics(150000.0, 40000.0, 60.0, 120000.0);
    var fetch := (mint: string) => if mint == "A" then None else Some(Response(Some([pair])));
    var settled := Lookups(["A", "B"], fetch);
    assert settled[0] == Rejected && settled[1] == Pair(pair);
    assert Resolved(settled) == [pair];
  }
}

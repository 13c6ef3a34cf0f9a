/**
 * Properties of the two hooks: what the salability filter computes, how the
 * effects behave when they run again, and what the state slots hold after any
 * order in which the SDK queries resolve.
 */
module HookProperties {
  import opened Wrappers
  import opened CustomHooks

  // ---------------------------------------------------------------------------
  // The salability filter
  // ---------------------------------------------------------------------------

  /** `r` is `s` with some elements dropped and the rest kept in order. */
  ghost predicate IsSubsequence<T>(r: seq<T>, s: seq<T>)
    decreases |s|
  {
    |r| == 0 || (|s| > 0 && ((r[0] == s[0] && IsSubsequence(r[1..], s[1..])) || IsSubsequence(r, s[1..])))
  }

  /** Every owned NFT keeps its multiplicity unless its id is listed, in which case it is gone. */
  lemma {:induction false} SalablesMultiplicity(owned: seq<OwnedNft>, listing: seq<Listing>, x: OwnedNft)
    ensures multiset(Salables(owned, listing))[x] ==
      if x.id in ListedIds(listing) then 0 else multiset(owned)[x]
  {
    if owned != [] {
      SalablesMultiplicity(owned[1..], listing, x);
      ListedIdsSpec(listing, owned[0].id);
      assert owned == [owned[0]] + owned[1..];
    }
  }

  /** The salable NFTs are a subsequence of the owned NFTs: order is preserved. */
  lemma {:induction false} SalablesSubsequence(owned: seq<OwnedNft>, listing: seq<Listing>)
    ensures IsSubsequence(Salables(owned, listing), owned)
  {
    if owned != [] {
      SalablesSubsequence(owned[1..], listing);
      var r := Salables(owned, listing);
      if !IsListed(listing, owned[0].id) {
        assert r[1..] == Salables(owned[1..], listing);
      }
    }
  }

  /** Filtering an NFT followed by more NFTs: the NFT is kept in front unless its id is listed. */
  lemma SalablesCons(h: OwnedNft, t: seq<OwnedNft>, listing: seq<Listing>)
    ensures Salables([h] + t, listing) == (if IsListed(listing, h.id) then [] else [h]) + Salables(t, listing)
  {
    assert ([h] + t)[0] == h && ([h] + t)[1..] == t;
  }

  /** Filtering distributes over concatenation, so each NFT's fate is decided on its own. */
  lemma {:induction false} SalablesAppend(a: seq<OwnedNft>, b: seq<OwnedNft>, listing: seq<Listing>)
    ensures Salables(a + b, listing) == Salables(a, listing) + Salables(b, listing)
  {
    if a == [] {
      assert a + b == b;
    } else {
      var h, t := a[0], a[1..];
      assert a == [h] + t;
      assert a + b == [h] + (t + b);
      SalablesCons(h, t + b, listing);
      SalablesCons(h, t, listing);
      SalablesAppend(t, b, listing);
    }
  }

  /** Keyed by token id, the salable NFTs are the owned ids minus the listed ids. */
  lemma SalablesIdsAreSetDifference(owned: seq<OwnedNft>, listing: seq<Listing>)
    ensures (set x | x in Salables(owned, listing) :: x.id) == (set x | x in owned :: x.id) - ListedIds(listing)
  {
    var r := Salables(owned, listing);
    var ownedIds, listed := set x | x in owned :: x.id, ListedIds(listing);
    forall x | x in r
      ensures x in owned && x.id !in listed
    {
      SalablesMembership(owned, listing, x);
      ListedIdsSpec(listing, x.id);
    }
    forall id | id in ownedIds && id !in listed
      ensures id in (set x | x in r :: x.id)
    {
      var x :| x in owned && x.id == id;
      SalablesMembership(owned, listing, x);
      ListedIdsSpec(listing, id);
    }
  }

  /** When no owned NFT is listed, every owned NFT is salable, in the same order. */
  lemma {:induction false} SalablesNothingListed(owned: seq<OwnedNft>, listing: seq<Listing>)
    requires forall x :: x in owned ==> x.id !in ListedIds(listing)
    ensures Salables(owned, listing) == owned
  {
    if owned != [] {
      assert owned[0] in owned;
      ListedIdsSpec(listing, owned[0].id);
      assert forall x :: x in owned[1..] ==> x in owned;
      SalablesNothingListed(owned[1..], listing);
      assert owned == [owned[0]] + owned[1..];
    }
  }

  /** Filtering the salable NFTs again by the same listings removes nothing more. */
  lemma SalablesIdempotent(owned: seq<OwnedNft>, listing: seq<Listing>)
    ensures Salables(Salables(owned, listing), listing) == Salables(owned, listing)
  {
    var r := Salables(owned, listing);
    forall x | x in r
      ensures x.id !in ListedIds(listing)
    {
      SalablesMembership(owned, listing, x);
      ListedIdsSpec(listing, x.id);
    }
    SalablesNothingListed(r, listing);
  }

  /** Token ids are compared exactly: "01" does not match "1". */
  lemma ExactTokenIdMatch()
    ensures Salables([OwnedNft("1")], [Listing(DirectListing, "01")]) == [OwnedNft("1")]
    ensures Salables([OwnedNft("1")], [Listing(EnglishAuction, "1")]) == []
  {
  }

  // ---------------------------------------------------------------------------
  // Running an effect again
  // ---------------------------------------------------------------------------

  /** Running the listing effect twice on the same inputs is the same as running it once. */
  lemma ListingStepIdempotent(v: ListingView, q: ListingQuery)
    ensures ListingStep(ListingStep(v, q), q) == ListingStep(v, q)
  {
  }

  /** Running the salability effect twice on the same inputs is the same as running it once. */
  lemma SalableStepIdempotent(s: SalableView, listing: ListingView, q: OwnedQuery)
    ensures SalableStep(SalableStep(s, listing, q), listing, q) == SalableStep(s, listing, q)
  {
  }

  /** A settled listing view never returns to loading, whatever the inputs. */
  lemma ListingSettledStays(v: ListingView, q: ListingQuery)
    requires !v.isLoading
    ensures !ListingStep(v, q).isLoading
    ensures q.loadingDirect || q.loadingAuction ==> ListingStep(v, q).data == v.data
  {
  }

  // ---------------------------------------------------------------------------
  // Arbitrary resolution orders
  // ---------------------------------------------------------------------------

  /** The listing slot after the listing effect has run on each query snapshot in turn. */
  function RunListing(v: ListingView, trace: seq<ListingQuery>): (r: ListingView)
    decreases |trace|
  {
    if trace == [] then v else RunListing(ListingStep(v, trace[0]), trace[1..])
  }

  /**
   * The listing slot depends only on the last snapshot that made the effect
   * fire: it is that snapshot's merge, settled, or the starting slot when no
   * snapshot fired.
   */
  lemma {:induction false} RunListingLastFiring(v: ListingView, trace: seq<ListingQuery>)
    ensures (forall i :: 0 <= i < |trace| ==> !Fires(trace[i])) ==> RunListing(v, trace) == v
    ensures forall i :: 0 <= i < |trace| && Fires(trace[i]) &&
                        (forall j :: i < j < |trace| ==> !Fires(trace[j])) ==>
      RunListing(v, trace) == ListingView(Merge(trace[i].direct, trace[i].auctions).value, false)
    decreases |trace|
  {
    if trace != [] {
      var v' := ListingStep(v, trace[0]);
      var rest := trace[1..];
      RunListingLastFiring(v', rest);
      assert forall j :: 0 <= j < |rest| ==> rest[j] == trace[j + 1];
    }
  }

  /** Starting from the initial slot, the listing view stays loading until some snapshot fires. */
  lemma RunListingStuckWithoutData(trace: seq<ListingQuery>)
    requires forall i :: 0 <= i < |trace| ==> trace[i].direct.None? && trace[i].auctions.None?
    ensures RunListing(InitialListing, trace) == InitialListing
  {
  }

  /** An event the mounted `useSalableNFTs` reacts to. */
  datatype HookCall =
    | ListingResolved(listingQuery: ListingQuery)
    | OwnedResolved(ownedQuery: OwnedQuery)

  /** Both state slots of a mounted `useSalableNFTs`. */
  datatype HookState = HookState(listing: ListingView, salable: SalableView)

  const InitialState := HookState(InitialListing, InitialSalable)

  /** One effect run: the listing effect changes only the listing slot, the salability effect only the salable one. */
  function Apply(st: HookState, c: HookCall): HookState {
    match c
    case ListingResolved(q) => st.(listing := ListingStep(st.listing, q))
    case OwnedResolved(q) => st.(salable := SalableStep(st.salable, st.listing, q))
  }

  /** Both slots after the effects have run for each event in turn. */
  function Run(st: HookState, calls: seq<HookCall>): HookState
    decreases |calls|
  {
    if calls == [] then st else Run(Apply(st, calls[0]), calls[1..])
  }

  /** The listing snapshots among the events, in order. */
  function ListingQueries(calls: seq<HookCall>): (r: seq<ListingQuery>)
    ensures |r| <= |calls|
    ensures forall q :: q in r <==> ListingResolved(q) in calls
  {
    if calls == [] then []
    else
      assert forall c :: c in calls <==> c == calls[0] || c in calls[1..];
      (if calls[0].ListingResolved? then [calls[0].listingQuery] else []) + ListingQueries(calls[1..])
  }

  /** The salability effect never disturbs the listing slot. */
  lemma {:induction false} RunListingPart(st: HookState, calls: seq<HookCall>)
    ensures Run(st, calls).listing == RunListing(st.listing, ListingQueries(calls))
    decreases |calls|
  {
    if calls != [] {
      RunListingPart(Apply(st, calls[0]), calls[1..]);
      if calls[0].ListingResolved? {
        var qs := ListingQueries(calls[1..]);
        assert ([calls[0].listingQuery] + qs)[1..] == qs;
      } else {
        assert ListingQueries(calls) == ListingQueries(calls[1..]);
      }
    }
  }

  /** Every event keeps a settled salable view backed by a settled listing view. */
  lemma {:induction false} RunKeepsConsistent(st: HookState, calls: seq<HookCall>)
    requires Consistent(st.listing, st.salable)
    ensures Consistent(Run(st, calls).listing, Run(st, calls).salable)
    decreases |calls|
  {
    if calls != [] {
      var st' := Apply(st, calls[0]);
      if calls[0].ListingResolved? {
        if !st.listing.isLoading {
          ListingSettledStays(st.listing, calls[0].listingQuery);
        }
      }
      assert Consistent(st'.listing, st'.salable);
      RunKeepsConsistent(st', calls[1..]);
    }
  }

  /**
   * When both listing queries keep coming back absent, both views stay in
   * their initial loading state forever, whatever the owned-NFT query does.
   */
  lemma {:induction false} RunStuckWithoutListings(calls: seq<HookCall>)
    requires forall q :: ListingResolved(q) in calls ==> q.direct.None? && q.auctions.None?
    ensures Run(InitialState, calls) == InitialState
    decreases |calls|
  {
    if calls != [] {
      assert calls[0] in calls;
      assert Apply(InitialState, calls[0]) == InitialState;
      assert forall c :: c in calls[1..] ==> c in calls;
      RunStuckWithoutListings(calls[1..]);
    }
  }

  // ---------------------------------------------------------------------------
  // Worked scenarios
  // ---------------------------------------------------------------------------

  /** Direct listing "1" and auction "2", both loaded: the view is ["1", "2"], settled. */
  lemma ScenarioMergeBoth()
    ensures ListingStep(InitialListing,
                        ListingQuery(Some([Listing(DirectListing, "1")]), Some([Listing(EnglishAuction, "2")]), false, false))
         == ListingView([Listing(DirectListing, "1"), Listing(EnglishAuction, "2")], false)
  {
  }

  /** Owned "1", "2", "3" with "2" listed: "1" and "3" are salable, in that order. */
  lemma ScenarioSalable()
    ensures Salables([OwnedNft("1"), OwnedNft("2"), OwnedNft("3")], [Listing(DirectListing, "2")])
         == [OwnedNft("1"), OwnedNft("3")]
  {
  }

  /** A settled listing view followed by a snapshot that is loading again keeps its stale data, settled. */
  lemma ScenarioReloadKeepsStaleView()
    ensures var v := ListingStep(InitialListing, ListingQuery(Some([Listing(DirectListing, "1")]), None, false, false));
            ListingStep(v, ListingQuery(None, None, true, false)) == ListingView([Listing(DirectListing, "1")], false)
  {
  }
}

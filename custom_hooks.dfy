/**
 * The two view-model hooks of the marketplace front end (hooks/custom.ts).
 *
 * `useCustomListing` joins the direct listings and the English auctions of the
 * NFT collection into one view; `useSalableNFTs` subtracts the listed tokens
 * from the NFTs the connected wallet owns. Each hook holds one React state slot
 * `{data, isLoading}` and rewrites it from an effect that React runs whenever
 * one of the effect's inputs changes. Here a slot is a field of a class, the
 * effect is a method, and the SDK query results the effect reads are the
 * method's parameters.
 */
module CustomHooks {
  import opened Wrappers

  /** The two kinds of marketplace offer the collection can have. */
  datatype ListingKind = DirectListing | EnglishAuction

  /** A valid direct listing or English auction; only its `tokenId` is consulted. */
  datatype Listing = Listing(kind: ListingKind, tokenId: string)

  /** An NFT held by the wallet; `id` is the NFT's `metadata.id`. */
  datatype OwnedNft = OwnedNft(id: string)

  /** The state slot of `useCustomListing`. */
  datatype ListingView = ListingView(data: seq<Listing>, isLoading: bool)

  /** The state slot of `useSalableNFTs`. */
  datatype SalableView = SalableView(data: seq<OwnedNft>, isLoading: bool)

  /** What the listing effect reads: both query results and their loading flags. */
  datatype ListingQuery = ListingQuery(
    direct: Option<seq<Listing>>,
    auctions: Option<seq<Listing>>,
    loadingDirect: bool,
    loadingAuction: bool)

  /** What the salability effect reads from the owned-NFT query. */
  datatype OwnedQuery = OwnedQuery(owned: Option<seq<OwnedNft>>, loadingOwned: bool)

  /** Both slots start as `{data: [], isLoading: true}`. */
  const InitialListing := ListingView([], true)
  const InitialSalable := SalableView([], true)

  // ---------------------------------------------------------------------------
  // The listing merge
  // ---------------------------------------------------------------------------

  /**
   * The data the listing effect stores once both queries have loaded: the
   * concatenation when both are present, the present one otherwise, and `None`
   * when neither is present (then no branch of the effect fires).
   */
  function Merge(direct: Option<seq<Listing>>, auctions: Option<seq<Listing>>): (r: Option<seq<Listing>>)
    ensures r.None? <==> direct.None? && auctions.None?
    ensures direct.Some? && auctions.Some? ==>
      && |r.value| == |direct.value| + |auctions.value|
      && (forall i :: 0 <= i < |direct.value| ==> r.value[i] == direct.value[i])
      && (forall j :: 0 <= j < |auctions.value| ==> r.value[|direct.value| + j] == auctions.value[j])
    ensures direct.Some? && auctions.None? ==> r == direct
    ensures direct.None? && auctions.Some? ==> r == auctions
    ensures r.Some? ==> forall l :: l in r.value <==>
      (direct.Some? && l in direct.value) || (auctions.Some? && l in auctions.value)
  {
    if direct.Some? && auctions.Some? then Some(direct.value + auctions.value)
    else if direct.Some? then direct
    else if auctions.Some? then auctions
    else None
  }

  /** True when the listing effect overwrites its slot for these inputs. */
  predicate Fires(q: ListingQuery) {
    !q.loadingAuction && !q.loadingDirect && (q.direct.Some? || q.auctions.Some?)
  }

  /** One run of the listing effect: the slot after it, given the slot before it. */
  function ListingStep(v: ListingView, q: ListingQuery): (r: ListingView)
    ensures q.loadingAuction || q.loadingDirect ==> r == v
    ensures !q.loadingAuction && !q.loadingDirect ==>
      && (q.direct.Some? && q.auctions.Some? ==> r == ListingView(q.direct.value + q.auctions.value, false))
      && (q.direct.Some? && q.auctions.None? ==> r == ListingView(q.direct.value, false))
      && (q.direct.None? && q.auctions.Some? ==> r == ListingView(q.auctions.value, false))
      && (q.direct.None? && q.auctions.None? ==> r == v)
  {
    if q.loadingAuction || q.loadingDirect then v
    else match Merge(q.direct, q.auctions)
      case None => v
      case Some(d) => ListingView(d, false)
  }

  // ---------------------------------------------------------------------------
  // The salability filter
  // ---------------------------------------------------------------------------

  /**
   * `listing.find(elem => elem.tokenId === id)`: the first listing whose
   * `tokenId` is exactly `id`, or `None`.
   */
  function FindByTokenId(listing: seq<Listing>, id: string): (r: Option<Listing>)
    ensures r.None? <==> forall i :: 0 <= i < |listing| ==> listing[i].tokenId != id
    ensures r.Some? ==> r.value.tokenId == id
    ensures r.Some? ==> exists i :: (0 <= i < |listing| && listing[i] == r.value &&
                                     forall j :: 0 <= j < i ==> listing[j].tokenId != id)
  {
    if listing == [] then None
    else if listing[0].tokenId == id then Some(listing[0])
    else
      var r := FindByTokenId(listing[1..], id);
      assert forall i :: 1 <= i < |listing| ==> listing[i] == listing[1..][i - 1];
      r
  }

  /** True when some listing has the token id `id`. */
  predicate IsListed(listing: seq<Listing>, id: string) {
    FindByTokenId(listing, id).Some?
  }

  /** The token ids that currently have a listing or auction. */
  function ListedIds(listing: seq<Listing>): set<string> {
    set l | l in listing :: l.tokenId
  }

  /**
   * `ownedNFTs.filter(nft => !listing.find(...))`: the owned NFTs, in their
   * order, that no listing names.
   */
  function Salables(owned: seq<OwnedNft>, listing: seq<Listing>): (r: seq<OwnedNft>)
    ensures |r| <= |owned|
  {
    if owned == [] then []
    else
      var rest := Salables(owned[1..], listing);
      if IsListed(listing, owned[0].id) then rest else [owned[0]] + rest
  }

  /** An NFT is salable exactly when it is owned and no listing has its id. */
  lemma {:induction false} SalablesMembership(owned: seq<OwnedNft>, listing: seq<Listing>, x: OwnedNft)
    ensures x in Salables(owned, listing) <==> x in owned && !IsListed(listing, x.id)
  {
    if owned != [] {
      SalablesMembership(owned[1..], listing, x);
      assert x in owned <==> x == owned[0] || x in owned[1..] by {
        assert owned == [owned[0]] + owned[1..];
      }
    }
  }

  /** `IsListed` (the source's `find`) and membership in `ListedIds` agree. */
  lemma ListedIdsSpec(listing: seq<Listing>, id: string)
    ensures IsListed(listing, id) <==> id in ListedIds(listing)
  {
  }

  /** One run of the salability effect, given the merged listing view it reads. */
  function SalableStep(s: SalableView, listing: ListingView, q: OwnedQuery): (r: SalableView)
    ensures listing.isLoading || q.loadingOwned ==> r == s
    ensures !listing.isLoading && !q.loadingOwned ==>
      && !r.isLoading
      && (q.owned.None? ==> r.data == [])
      && (q.owned.Some? ==> r.data == Salables(q.owned.value, listing.data))
  {
    if listing.isLoading || q.loadingOwned then s
    else
      var salables := if q.owned.Some? then Some(Salables(q.owned.value, listing.data)) else None;
      SalableView(if salables.None? then [] else salables.value, false)
  }

  // ---------------------------------------------------------------------------
  // The hooks as objects
  // ---------------------------------------------------------------------------

  /** A mounted `useCustomListing`: its state slot and its effect. */
  class CustomListing {
    var listing: ListingView

    constructor ()
      ensures listing == InitialListing
    {
      listing := InitialListing;
    }

    /** The effect of hooks/custom.ts:35-45, run on the current query results. */
    method Effect(direct: Option<seq<Listing>>, auctions: Option<seq<Listing>>,
                  loadingDirect: bool, loadingAuction: bool)
      modifies this
      ensures listing == ListingStep(old(listing), ListingQuery(direct, auctions, loadingDirect, loadingAuction))
    {
      if loadingAuction || loadingDirect {
        return;
      }
      if direct.Some? && auctions.Some? {
        listing := ListingView(direct.value + auctions.value, false);
      } else if direct.Some? {
        listing := ListingView(direct.value, false);
      } else if auctions.Some? {
        listing := ListingView(auctions.value, false);
      }
    }
  }

  /** A settled salable view is only ever computed from a settled listing view. */
  ghost predicate Consistent(listing: ListingView, salable: SalableView) {
    !salable.isLoading ==> !listing.isLoading
  }

  /** A mounted `useSalableNFTs`: its own `useCustomListing` and its state slot. */
  class SalableNfts {
    const custom: CustomListing
    var salable: SalableView

    ghost predicate Valid()
      reads this, custom
    {
      Consistent(custom.listing, salable)
    }

    constructor ()
      ensures Valid() && fresh(custom)
      ensures custom.listing == InitialListing && salable == InitialSalable
    {
      custom := new CustomListing();
      salable := InitialSalable;
    }

    /** The inner listing hook's effect runs; the salable slot is untouched. */
    method ListingEffect(direct: Option<seq<Listing>>, auctions: Option<seq<Listing>>,
                         loadingDirect: bool, loadingAuction: bool)
      requires Valid()
      modifies custom
      ensures Valid()
      ensures custom.listing == ListingStep(old(custom.listing), ListingQuery(direct, auctions, loadingDirect, loadingAuction))
      ensures salable == old(salable)
    {
      custom.Effect(direct, auctions, loadingDirect, loadingAuction);
    }

    /** The effect of hooks/custom.ts:62-73, run on the current owned-NFT result. */
    method Effect(owned: Option<seq<OwnedNft>>, loadingOwned: bool)
      requires Valid()
      modifies this
      ensures Valid()
      ensures salable == SalableStep(old(salable), custom.listing, OwnedQuery(owned, loadingOwned))
      ensures custom.listing == old(custom.listing)
    {
      var listing := custom.listing;
      if listing.isLoading || loadingOwned {
        return;
      }
      var salables := if owned.Some? then Some(Salables(owned.value, listing.data)) else None;
      if salables.None? {
        salables := Some([]);
      }
      salable := SalableView(salables.value, false);
    }
  }
}

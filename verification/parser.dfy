/** Normalisation of raw search items into listings: the title is stripped and the
    other identifying fields are copied. */
module Parser {
  import opened Wrappers
  import opened Text
  import opened Models

  /** A listing built from a raw item. Only the eight fields of the source's record are
      set from the item; the extension fields take their defaults. */
  function NormalizeListing(raw: RawListing): (l: Listing)
    ensures l.title == Strip(raw.title)
    ensures l.id == raw.id && l.price == raw.price && l.imageUrl == raw.imageUrl
    ensures l.sellerId == raw.sellerId && l.sellerName == raw.sellerName
    ensures l.location == raw.location && l.detailUrl == raw.detailUrl
    ensures l.tags == [] && l.postTime.None? && l.originalPrice.None? && l.wantsCount.None?
    ensures l.sellerRating == 0.0 && l.sellerRegistrationDays == 0 && l.reputationScore == 0.0
  {
    Listing(
      id := raw.id,
      title := Strip(raw.title),
      price := raw.price,
      imageUrl := raw.imageUrl,
      sellerId := raw.sellerId,
      sellerName := raw.sellerName,
      location := raw.location,
      detailUrl := raw.detailUrl,
      tags := [],
      postTime := None,
      originalPrice := None,
      wantsCount := None,
      sellerRating := 0.0,
      sellerRegistrationDays := 0,
      reputationScore := 0.0)
  }

  /** Element-wise normalisation, order and length kept. */
  function NormalizeListings(raws: seq<RawListing>): (ls: seq<Listing>)
    ensures |ls| == |raws|
    ensures forall i :: 0 <= i < |raws| ==> ls[i] == NormalizeListing(raws[i])
  {
    seq(|raws|, i requires 0 <= i < |raws| => NormalizeListing(raws[i]))
  }

  /** A raw item carrying a listing's own fields. */
  function ToRaw(l: Listing): (raw: RawListing)
    ensures raw.title == l.title && raw.id == l.id
  {
    RawListing(l.id, l.title, l.price, l.imageUrl, l.sellerId, l.sellerName, l.location,
               l.postTime, l.detailUrl, l.originalPrice, l.wantsCount, l.tags)
  }

  /** Every normalised title has no surrounding whitespace. */
  lemma NormalizedTitleIsStripped(raw: RawListing)
    ensures IsStripped(NormalizeListing(raw).title)
  {
    StripIsSlice(raw.title);
  }

  /** Normalising an already-normalised listing again leaves its title unchanged. */
  lemma NormalizeTitleIdempotent(raw: RawListing)
    ensures NormalizeListing(ToRaw(NormalizeListing(raw))).title == NormalizeListing(raw).title
  {
    StripIdempotent(raw.title);
  }

  /** Normalising a feed made of pages is normalising each page. */
  lemma NormalizeConcat(a: seq<RawListing>, b: seq<RawListing>)
    ensures NormalizeListings(a + b) == NormalizeListings(a) + NormalizeListings(b)
  {
  }
}

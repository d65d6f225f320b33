/** The user portal's search results (user-portal/pages/SearchResults.tsx):
    turning the public bus list into cards, the feature toggle and the
    filters. The bus list request and the sample buses are parameters. */
module SearchResults {
  import opened Common

  // ---------------------------------------------------------------------
  // Media sources

  /** A media item as the public bus list returns it. */
  datatype ListedMedia = ListedMedia(kind: string, mimeType: Option<string>, data: Option<string>, url: Option<string>)

  /** `data:<mime>;base64,<data>` (section 2 of RFC 2397). */
  function DataUri(mime: string, data: string): string {
    "data:" + mime + ";base64," + data
  }

  /** Reads a base64 data URI back into its media type and data: the text
      between `data:` and the first `;base64,`, and the rest. */
  function ParseDataUri(uri: string): (r: Option<(string, string)>)
    ensures r.Some? ==> uri == DataUri(r.value.0, r.value.1)
  {
    if |uri| < 5 || uri[..5] != "data:" then None
    else
      var rest := uri[5..];
      match IndexOf(rest, ";base64,")
      case None => None
      case Some(i) =>
        SplitDataUri(uri, i);
        Some((rest[..i], rest[i + 8..]))
  }

  /** A `data:` URI with `;base64,` at position `i` of its remainder is the
      data URI of the text before and after that separator. */
  lemma SplitDataUri(uri: string, i: nat)
    requires |uri| >= 5 && uri[..5] == "data:" && OccursAt(uri[5..], ";base64,", i)
    ensures uri == DataUri(uri[5..][..i], uri[5..][i + 8..])
  {
    var rest := uri[5..];
    assert uri == uri[..5] + rest;
    assert rest == rest[..i] + rest[i..i + 8] + rest[i + 8..];
  }

  /** A data URI built from a media type without `;` reads back as the
      media type and data it was built from. */
  lemma DataUriRoundTrip(mime: string, data: string)
    requires ';' !in mime
    ensures ParseDataUri(DataUri(mime, data)) == Some((mime, data))
  {
    var pat := ";base64,";
    var rest := mime + pat + data;
    assert DataUri(mime, data) == "data:" + rest;
    assert rest[..|mime|] == mime;
    assert rest[|mime|..|mime| + 8] == pat;
    assert rest[|mime| + 8..] == data;
    FirstSeparator(mime, pat, data);
  }

  /** In `mime + pat + data`, with `pat` starting with `;` and no `;` in
      `mime`, the first occurrence of `pat` is right after `mime`. */
  lemma FirstSeparator(mime: string, pat: string, data: string)
    requires ';' !in mime && |pat| > 0 && pat[0] == ';'
    ensures IndexOf(mime + pat + data, pat) == Some(|mime|)
  {
    var rest := mime + pat + data;
    assert rest[|mime|..|mime| + |pat|] == pat;
    assert OccursAt(rest, pat, |mime|);
  }

  /** The media type assumed when an item has none: `video/mp4` for videos,
      `image/jpeg` for anything else. */
  function FallbackMime(kind: string): (mime: string)
    ensures ';' !in mime
    ensures kind == "VIDEO" <==> mime == "video/mp4"
  {
    if kind == "VIDEO" then "video/mp4" else "image/jpeg"
  }

  /** The media type an item is shown with: its own, or the fallback. */
  function MimeOf(m: ListedMedia): string {
    OrElse(m.mimeType, FallbackMime(m.kind))
  }

  /** `resolveMediaSource`: nothing for no item; inline data as a data URI
      (with the item's media type, or the fallback); else the url; else
      nothing. Whatever it returns is not empty, so `filter(Boolean)` keeps
      every source found. */
  function ResolveMediaSource(item: Option<ListedMedia>): (r: Option<string>)
    ensures item.None? ==> r.None?
    ensures item.Some? && Present(item.value.data) ==> r == Some(DataUri(MimeOf(item.value), item.value.data.value))
    ensures item.Some? && !Present(item.value.data) ==> r == (if Present(item.value.url) then item.value.url else None)
    ensures r.Some? ==> r.value != ""
  {
    match item
    case None => None
    case Some(m) =>
      if Present(m.data) then Some(DataUri(MimeOf(m), m.data.value))
      else if Present(m.url) then m.url
      else None
  }

  /** Inline data is recoverable from the source: with a media type free of
      `;`, the data URI reads back as the media type and the data. */
  lemma InlineSourceReadsBack(m: ListedMedia)
    requires Present(m.data) && ';' !in MimeOf(m)
    ensures ParseDataUri(ResolveMediaSource(Some(m)).value) == Some((MimeOf(m), m.data.value))
  {
    DataUriRoundTrip(MimeOf(m), m.data.value);
  }

  // ---------------------------------------------------------------------
  // Bus cards

  const FallbackHero := "https://images.unsplash.com/photo-1529429617124-aee711907c6c?auto=format&fit=crop&w=1600&q=80"
  const DefaultDescription := "Premium boutique travel experience by Connection Travels."

  /** `gallerySources`: the sources of the `IMAGE` items, in order, leaving
      out items without one. */
  function GallerySources(media: seq<ListedMedia>): (r: seq<string>)
    ensures forall k :: 0 <= k < |r| ==> r[k] != ""
    ensures forall src :: src in r <==>
      exists k :: 0 <= k < |media| && media[k].kind == "IMAGE" && ResolveMediaSource(Some(media[k])) == Some(src)
    ensures |r| <= |media|
  {
    if media == [] then []
    else
      var rest := GallerySources(media[1..]);
      assert forall k :: 1 <= k < |media| ==> media[k] == media[1..][k - 1];
      var src := ResolveMediaSource(Some(media[0]));
      if media[0].kind == "IMAGE" && src.Some? then [src.value] + rest else rest
  }

  /** The gallery of two lists of items one after the other is the first
      list's gallery followed by the second's: sources keep the items' order
      and each image item contributes at most one. */
  lemma {:induction false} GalleryInOrder(a: seq<ListedMedia>, b: seq<ListedMedia>)
    ensures GallerySources(a + b) == GallerySources(a) + GallerySources(b)
  {
    if a == [] {
      assert a + b == b;
    } else {
      assert (a + b)[0] == a[0] && (a + b)[1..] == a[1..] + b;
      GalleryInOrder(a[1..], b);
    }
  }

  /** The first `IMAGE` item that has a source leads the gallery. */
  lemma {:induction false} FirstImageLeads(media: seq<ListedMedia>, k: nat)
    requires k < |media| && media[k].kind == "IMAGE" && ResolveMediaSource(Some(media[k])).Some?
    requires forall j :: 0 <= j < k ==> media[j].kind != "IMAGE" || ResolveMediaSource(Some(media[j])).None?
    ensures GallerySources(media) != [] && GallerySources(media)[0] == ResolveMediaSource(Some(media[k])).value
  {
    if k > 0 {
      FirstImageLeads(media[1..], k - 1);
    }
  }

  /** The hero image: the first gallery source, else the first item's
      source, else the fixed fallback picture; never empty. */
  function HeroImage(media: seq<ListedMedia>): (r: string)
    ensures r != ""
    ensures |GallerySources(media)| > 0 ==> r == GallerySources(media)[0]
    ensures |GallerySources(media)| == 0 && media != [] && ResolveMediaSource(Some(media[0])).Some? ==>
              r == ResolveMediaSource(Some(media[0])).value
    ensures |GallerySources(media)| == 0 && (media == [] || ResolveMediaSource(Some(media[0])).None?) ==> r == FallbackHero
  {
    var gallery := GallerySources(media);
    var first := if media == [] then None else ResolveMediaSource(Some(media[0]));
    if |gallery| > 0 then gallery[0]
    else if first.Some? then first.value
    else FallbackHero
  }

  /** A bus as the public bus list returns it; `None` stands for a missing
      or null field (and for a `media` that is not an array). */
  datatype ListedBus = ListedBus(
    id: string,
    title: string,
    active: Option<bool>,
    media: Option<seq<ListedMedia>>,
    gallery: Option<seq<string>>,
    capacity: Option<int>,
    amenities: Option<seq<string>>,
    description: Option<string>)

  /** A search result card. */
  datatype SearchBus = SearchBus(
    id: string,
    name: string,
    image: string,
    gallery: seq<string>,
    capacity: int,
    features: seq<string>,
    rating: real,
    verified: bool,
    ownerContact: string,
    year: int,
    condition: string,
    description: string,
    isAvailable: bool,
    statusMessage: Option<string>,
    tags: seq<string>)

  /** The card of a listed bus. It is available unless `active` is false; an
      unavailable card says "Temporarily unavailable" and leads its tags with
      "Currently reviewing". The picture and gallery come from the media
      items, falling back to the bus's own gallery; a missing capacity is 0
      and missing amenities are none. */
  function ToSearchBus(b: ListedBus): (c: SearchBus)
    ensures c.id == b.id && c.name == b.title
    ensures c.isAvailable <==> b.active != Some(false)
    ensures |c.tags| == 3 && c.tags[1..] == ["Matches your budget", "Verified bus"]
    ensures c.isAvailable ==> c.statusMessage.None? && c.tags[0] == "Available"
    ensures !c.isAvailable ==> c.statusMessage == Some("Temporarily unavailable") && c.tags[0] == "Currently reviewing"
    ensures c.image == HeroImage(b.media.GetOr([])) && c.image != ""
    ensures |GallerySources(b.media.GetOr([]))| > 0 ==> c.gallery == GallerySources(b.media.GetOr([]))
    ensures |GallerySources(b.media.GetOr([]))| == 0 ==> c.gallery == b.gallery.GetOr([])
    ensures c.capacity == b.capacity.GetOr(0) && c.features == b.amenities.GetOr([])
    ensures c.description == b.description.GetOr(DefaultDescription)
  {
    var isAvailable := b.active.GetOr(true);
    var media := b.media.GetOr([]);
    var gallery := GallerySources(media);
    SearchBus(
      b.id, b.title, HeroImage(media),
      if |gallery| > 0 then gallery else b.gallery.GetOr([]),
      b.capacity.GetOr(0), b.amenities.GetOr([]),
      4.8, true, "Contact on request", 2023, "Excellent",
      b.description.GetOr(DefaultDescription),
      isAvailable,
      if isAvailable then None else Some("Temporarily unavailable"),
      [if isAvailable then "Available" else "Currently reviewing", "Matches your budget", "Verified bus"])
  }

  /** `mapMockBus`: a sample bus is shown as available. */
  function SampleCard(b: SearchBus): (c: SearchBus)
    ensures c.isAvailable && c.tags == ["Available", "Verified bus", "Matches your budget"]
    ensures c.(isAvailable := b.isAvailable, tags := b.tags) == b
  {
    b.(isAvailable := true, tags := ["Available", "Verified bus", "Matches your budget"])
  }

  // ---------------------------------------------------------------------
  // Filters

  /** A card has every selected feature and, when a minimum capacity is
      set, at least that many seats. */
  predicate Matches(bus: SearchBus, features: seq<string>, capacity: int) {
    (forall f :: f in features ==> f in bus.features) && (capacity == 0 || bus.capacity >= capacity)
  }

  /** `filteredBuses`: the available cards that match, in their order. The
      budget is not consulted. */
  function FilteredBuses(buses: seq<SearchBus>, features: seq<string>, capacity: int, budget: int): (r: seq<SearchBus>)
    ensures IsSubsequence(r, buses)
    ensures forall b :: b in r <==> b in buses && b.isAvailable && Matches(b, features, capacity)
    ensures forall b :: multiset(r)[b] == if b.isAvailable && Matches(b, features, capacity) then multiset(buses)[b] else 0
  {
    var available := (b: SearchBus) => b.isAvailable;
    var matching := (b: SearchBus) => Matches(b, features, capacity);
    FilterFilter(buses, available, matching);
    Filter(Filter(buses, available), matching)
  }

  /** Moving the budget slider never changes the results. */
  lemma BudgetNeverExcludes(buses: seq<SearchBus>, features: seq<string>, capacity: int, b1: int, b2: int)
    ensures FilteredBuses(buses, features, capacity, b1) == FilteredBuses(buses, features, capacity, b2)
  {
  }

  const AllUnavailableMessage := "All buses are currently unavailable. Please check back soon."
  const FetchFailedMessage := "Unable to fetch live buses. Showing sample data."

  /** The state of the search results page. */
  class SearchPage {
    var budget: int
    var selectedFeatures: seq<string>
    var capacity: int
    var buses: seq<SearchBus>
    var loading: bool
    var error: Option<string>

    /** The page starts with the `feature` query parameter selected, if
        truthy, and the sample buses. */
    constructor (initialFeature: Option<string>, samples: seq<SearchBus>)
      ensures budget == 200000 && capacity == 0 && loading && error.None?
      ensures selectedFeatures == if Present(initialFeature) then [initialFeature.value] else []
      ensures buses == MapSeq(samples, SampleCard)
    {
      budget := 200000;
      selectedFeatures := if Present(initialFeature) then [initialFeature.value] else [];
      capacity := 0;
      buses := MapSeq(samples, SampleCard);
      loading := true;
      error := None;
    }

    /** `toggleFeature`. */
    method ToggleFeature(f: string)
      modifies this
      ensures selectedFeatures == Toggle(old(selectedFeatures), f)
      ensures f in old(selectedFeatures) ==> f !in selectedFeatures
      ensures f !in old(selectedFeatures) ==> selectedFeatures == old(selectedFeatures) + [f]
      ensures forall g :: g != f ==> (g in selectedFeatures <==> g in old(selectedFeatures))
      ensures budget == old(budget) && capacity == old(capacity) && buses == old(buses)
      ensures loading == old(loading) && error == old(error)
    {
      selectedFeatures := Toggle(selectedFeatures, f);
    }

    /** `loadBuses` once the request has settled: `fetched` is the list, or
        `None` when the request failed. A list replaces the cards, and the
        error is set exactly when no listed bus is available, that is when
        every one is marked inactive; a failure shows the samples with an
        error. Loading ends either way. */
    method LoadBuses(fetched: Option<seq<ListedBus>>, samples: seq<SearchBus>)
      modifies this
      ensures !loading
      ensures budget == old(budget) && capacity == old(capacity) && selectedFeatures == old(selectedFeatures)
      ensures fetched.Some? ==> buses == MapSeq(fetched.value, ToSearchBus)
      ensures fetched.Some? ==>
        (error == Some(AllUnavailableMessage) <==> forall k :: 0 <= k < |fetched.value| ==> fetched.value[k].active == Some(false))
      ensures fetched.Some? ==> error.None? || error == Some(AllUnavailableMessage)
      ensures fetched.None? ==> buses == MapSeq(samples, SampleCard) && error == Some(FetchFailedMessage)
    {
      if fetched.Some? {
        var mapped := MapSeq(fetched.value, ToSearchBus);
        buses := mapped;
        if !(exists k :: 0 <= k < |mapped| && mapped[k].isAvailable) {
          error := Some(AllUnavailableMessage);
        } else {
          error := None;
        }
      } else {
        error := Some(FetchFailedMessage);
        buses := MapSeq(samples, SampleCard);
      }
      loading := false;
    }
  }
}

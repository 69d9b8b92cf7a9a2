/** The Grounded Search panel (`Search` in features/Search.tsx): how `handleSearch`
    shapes its request (the tool list and the optional retrieval location) and how it
    turns the grounding chunks of the answer into the list of sources shown. The
    handler runs in two steps. `Submit` is the synchronous part up to the `await`.
    `Settle` is what happens once the request settles, through the `finally`. */
module Search {
  import opened JsText

  datatype Tool = GoogleSearch | GoogleMaps

  /** The browser position the geolocation effect stores: `{ lat, lon }`. */
  datatype Location = Location(lat: real, lon: real)

  /** `retrievalConfig.latLng` */
  datatype LatLng = LatLng(latitude: real, longitude: real)

  /** One `ai.models.generateContent` call: the model, the query, `config.tools`, and
      the location of `config.toolConfig`, None when `toolConfig` is undefined. */
  datatype SearchRequest = SearchRequest(model: string, contents: string, tools: seq<Tool>, latLng: Option<LatLng>)

  /** `chunk.web` or `chunk.maps`: both fields are optional strings. */
  datatype Ref = Ref(uri: Option<string>, title: Option<string>)

  datatype GroundingChunk = GroundingChunk(web: Option<Ref>, maps: Option<Ref>)

  datatype Source = Source(title: string, uri: string)

  /** How the request settles. `Failed` means it rejected. `Answered` carries
      `response.text` and the grounding chunks of the first candidate, each of which
      may be undefined. */
  datatype SearchReply = Failed(thrown: Thrown) | Answered(text: Option<string>, groundingChunks: Option<seq<GroundingChunk>>)

  const DefaultModel := "gemini-2.5-flash"
  const WebSourceTitle := "Web Source"
  const MapLocationTitle := "Map Location"
  const Placeholder := "#"
  const UnknownError := "An unknown error occurred."

  // ---------------------------------------------------------------------------
  // Request shaping

  /** `toolConfig`: the retrieval location is sent exactly when maps grounding is on
      and a location is known, and it is that location. */
  function RetrievalLocation(useMaps: bool, location: Option<Location>): (c: Option<LatLng>)
    ensures c.Some? <==> useMaps && location.Some?
    ensures c.Some? ==> c.value.latitude == location.value.lat && c.value.longitude == location.value.lon
  {
    if useMaps && location.Some? then Some(LatLng(location.value.lat, location.value.lon)) else None
  }

  /** The `tools` array: Google Search always and first, Google Maps after it exactly
      when maps grounding is on. */
  method BuildTools(useMaps: bool) returns (tools: seq<Tool>)
    ensures 1 <= |tools| <= 2 && tools[0] == GoogleSearch
    ensures GoogleMaps in tools <==> useMaps
    ensures forall i :: 1 <= i < |tools| ==> tools[i] == GoogleMaps
  {
    tools := [GoogleSearch];
    if useMaps {
      tools := tools + [GoogleMaps];
    }
  }

  // ---------------------------------------------------------------------------
  // Source extraction

  /** `title || fallback`: an undefined or empty title is replaced. */
  function TitleOr(title: Option<string>, fallback: string): string
  {
    if Truthy(title) then title.value else fallback
  }

  /** The source one reference contributes: one when its uri is non-empty, none
      otherwise. */
  function RefSource(r: Option<Ref>, fallback: string): (ss: seq<Source>)
    ensures |ss| <= 1
    ensures ss != [] <==> r.Some? && Truthy(r.value.uri)
    ensures ss != [] ==> ss[0] == Source(TitleOr(r.value.title, fallback), r.value.uri.value)
  {
    if r.Some? && Truthy(r.value.uri) then [Source(TitleOr(r.value.title, fallback), r.value.uri.value)] else []
  }

  /** The body of the `flatMap` callback: the web source, then the maps source. */
  function ChunkSources(c: GroundingChunk): seq<Source>
  {
    RefSource(c.web, WebSourceTitle) + RefSource(c.maps, MapLocationTitle)
  }

  /** The shape of one chunk's sources. It gives at most two. The web source comes
      first when there is one, and the maps source last. Each has a non-empty uri,
      and an absent title becomes "Web Source" or "Map Location". */
  lemma ChunkSourcesShape(c: GroundingChunk)
    ensures var ss := ChunkSources(c);
      && |ss| == (if c.web.Some? && Truthy(c.web.value.uri) then 1 else 0)
               + (if c.maps.Some? && Truthy(c.maps.value.uri) then 1 else 0)
      && (c.web.Some? && Truthy(c.web.value.uri) ==>
            ss[0] == Source(TitleOr(c.web.value.title, WebSourceTitle), c.web.value.uri.value))
      && (c.maps.Some? && Truthy(c.maps.value.uri) ==>
            ss[|ss| - 1] == Source(TitleOr(c.maps.value.title, MapLocationTitle), c.maps.value.uri.value))
      && (forall i :: 0 <= i < |ss| ==> ss[i].uri != "")
  {
  }

  /** `groundingChunks.flatMap(...)`: each chunk's sources, in chunk order. */
  function FlatSources(cs: seq<GroundingChunk>): (ss: seq<Source>)
    ensures |ss| <= 2 * |cs|
    ensures forall i :: 0 <= i < |ss| ==> ss[i].uri != ""
    decreases |cs|
  {
    if cs == [] then [] else ChunkSources(cs[0]) + FlatSources(cs[1..])
  }

  /** `.filter(s => s.uri !== '#')`: drops the placeholder sources and keeps every
      other one, in order. */
  function WithoutPlaceholders(ss: seq<Source>): (r: seq<Source>)
    ensures |r| <= |ss|
    decreases |ss|
  {
    if ss == [] then []
    else if ss[0].uri == Placeholder then WithoutPlaceholders(ss[1..])
    else [ss[0]] + WithoutPlaceholders(ss[1..])
  }

  /** The sources `handleSearch` stores for a list of grounding chunks. */
  function ExtractSources(cs: seq<GroundingChunk>): seq<Source>
  {
    WithoutPlaceholders(FlatSources(cs))
  }

  /** The flattening works chunk by chunk: the sources of two runs of chunks are the
      sources of the first run followed by those of the second. */
  lemma {:induction false} FlatSourcesAppend(a: seq<GroundingChunk>, b: seq<GroundingChunk>)
    ensures FlatSources(a + b) == FlatSources(a) + FlatSources(b)
    decreases |a|
  {
    if a == [] {
      assert a + b == b;
    } else {
      FlatSourcesAppend(a[1..], b);
      assert (a + b)[1..] == a[1..] + b;
    }
  }

  /** Filtering works piece by piece. */
  lemma {:induction false} WithoutPlaceholdersAppend(a: seq<Source>, b: seq<Source>)
    ensures WithoutPlaceholders(a + b) == WithoutPlaceholders(a) + WithoutPlaceholders(b)
    decreases |a|
  {
    if a == [] {
      assert a + b == b;
    } else {
      var t := a + b;
      WithoutPlaceholdersAppend(a[1..], b);
      assert t[0] == a[0] && t[1..] == a[1..] + b;
      var rest := WithoutPlaceholders(a[1..]) + WithoutPlaceholders(b);
      assert WithoutPlaceholders(t[1..]) == rest;
      if a[0].uri != Placeholder {
        assert [a[0]] + rest == [a[0]] + WithoutPlaceholders(a[1..]) + WithoutPlaceholders(b);
      }
    }
  }

  /** Chunk order is preserved: the sources of two runs of chunks are those of the
      first run followed by those of the second. */
  lemma ExtractSourcesAppend(a: seq<GroundingChunk>, b: seq<GroundingChunk>)
    ensures ExtractSources(a + b) == ExtractSources(a) + ExtractSources(b)
  {
    FlatSourcesAppend(a, b);
    WithoutPlaceholdersAppend(FlatSources(a), FlatSources(b));
  }

  /** A list without placeholders passes the filter unchanged, so filtering twice is
      filtering once. */
  lemma {:induction false} WithoutPlaceholdersKeepsTheRest(ss: seq<Source>)
    requires forall i :: 0 <= i < |ss| ==> ss[i].uri != Placeholder
    ensures WithoutPlaceholders(ss) == ss
    decreases |ss|
  {
    if ss != [] {
      WithoutPlaceholdersKeepsTheRest(ss[1..]);
    }
  }

  /** The filter keeps a source exactly when it is not a placeholder. */
  lemma {:induction false} WithoutPlaceholdersMembers(ss: seq<Source>, s: Source)
    ensures s in WithoutPlaceholders(ss) <==> s in ss && s.uri != Placeholder
    decreases |ss|
  {
    if ss != [] {
      WithoutPlaceholdersMembers(ss[1..], s);
      assert ss == [ss[0]] + ss[1..];
    }
  }

  /** A source is among the flattened sources exactly when some chunk contributes it. */
  lemma {:induction false} FlatSourceOrigin(cs: seq<GroundingChunk>, s: Source)
    ensures s in FlatSources(cs) <==> exists i :: 0 <= i < |cs| && s in ChunkSources(cs[i])
    decreases |cs|
  {
    if cs != [] {
      FlatSourceOrigin(cs[1..], s);
      if s in FlatSources(cs[1..]) {
        var i :| 0 <= i < |cs[1..]| && s in ChunkSources(cs[1..][i]);
        assert s in ChunkSources(cs[i + 1]);
      }
      if exists i :: 0 <= i < |cs| && s in ChunkSources(cs[i]) {
        var i :| 0 <= i < |cs| && s in ChunkSources(cs[i]);
        if i > 0 {
          assert cs[i] == cs[1..][i - 1];
        }
      }
    }
  }

  /** A source is extracted exactly when it is not a placeholder and some chunk
      contributes it. */
  lemma ExtractedSourceOrigin(cs: seq<GroundingChunk>, s: Source)
    ensures s in ExtractSources(cs) <==>
      s.uri != Placeholder && exists i :: 0 <= i < |cs| && s in ChunkSources(cs[i])
  {
    FlatSourceOrigin(cs, s);
    WithoutPlaceholdersMembers(FlatSources(cs), s);
  }

  /** No extracted source is a placeholder or has an empty uri. */
  lemma ExtractedSourcesAreReal(cs: seq<GroundingChunk>)
    ensures var e := ExtractSources(cs);
      forall i :: 0 <= i < |e| ==> e[i].uri != Placeholder && e[i].uri != ""
  {
    var e := ExtractSources(cs);
    forall i | 0 <= i < |e|
      ensures e[i].uri != Placeholder && e[i].uri != ""
    {
      WithoutPlaceholdersMembers(FlatSources(cs), e[i]);
    }
  }

  /** A web reference without a title becomes "Web Source". A maps reference whose uri
      is the placeholder is dropped. A reference with an empty uri gives nothing. */
  lemma ExtractionExample()
    ensures ExtractSources([
      GroundingChunk(Some(Ref(Some("https://f1.com"), None)), Some(Ref(Some("#"), Some("Track")))),
      GroundingChunk(Some(Ref(Some(""), Some("Empty"))), Some(Ref(Some("https://maps/x"), Some(""))))])
      == [Source(WebSourceTitle, "https://f1.com"), Source(MapLocationTitle, "https://maps/x")]
  {
    var c0 := GroundingChunk(Some(Ref(Some("https://f1.com"), None)), Some(Ref(Some("#"), Some("Track"))));
    var c1 := GroundingChunk(Some(Ref(Some(""), Some("Empty"))), Some(Ref(Some("https://maps/x"), Some(""))));
    var s0 := Source(WebSourceTitle, "https://f1.com");
    var s1 := Source(MapLocationTitle, "https://maps/x");
    assert ChunkSources(c0) == [s0, Source("Track", "#")];
    assert ChunkSources(c1) == [s1];
    assert [c0, c1][1..] == [c1] && [c1][1..] == [];
    assert FlatSources([c0, c1]) == [s0, Source("Track", "#"), s1];
    var flat := [s0, Source("Track", "#"), s1];
    assert flat[1..] == [Source("Track", "#"), s1] && flat[1..][1..] == [s1] && [s1][1..] == [];
  }

  // ---------------------------------------------------------------------------
  // The panel

  class SearchPanel {
    var query: string
    var useMaps: bool
    var location: Option<Location>
    var isLoading: bool
    var error: Option<string>
    var result: Option<string>
    var sources: seq<Source>
    var model: string
    /** Every `generateContent` call, in order. */
    var requests: seq<SearchRequest>
    /** How many of those calls have not settled yet. */
    var pending: nat

    /** Loading is shown only while some request is in flight, and no stored source
        is a placeholder or has an empty uri. */
    ghost predicate Valid()
      reads this
    {
      && (isLoading ==> pending > 0)
      && (forall i :: 0 <= i < |sources| ==> sources[i].uri != Placeholder && sources[i].uri != "")
    }

    /** The first render: maps grounding on, no location, nothing shown. */
    constructor ()
      ensures Valid()
      ensures query == "" && useMaps && location == None
      ensures !isLoading && error == None && result == None && sources == []
      ensures model == DefaultModel && requests == [] && pending == 0
    {
      query, useMaps, location := "", true, None;
      isLoading, error, result, sources := false, None, None, [];
      model, requests, pending := DefaultModel, [], 0;
    }

    /** The query textarea's `onChange`. */
    method SetQuery(q: string)
      requires Valid()
      modifies this`query
      ensures Valid() && query == q
    {
      query := q;
    }

    /** The maps-grounding toggle. */
    method SetUseMaps(on: bool)
      requires Valid()
      modifies this`useMaps
      ensures Valid() && useMaps == on
    {
      useMaps := on;
    }

    /** The geolocation callback storing the browser position. */
    method SetLocation(l: Location)
      requires Valid()
      modifies this`location
      ensures Valid() && location == Some(l)
    {
      location := Some(l);
    }

    /** The synchronous part of `handleSearch`. A blank query does nothing. Otherwise
        loading is set and the error, the result and the sources are cleared before
        the request is made. The request carries the query, the tools and the
        retrieval location. No check stops a search while another is in flight. */
    method Submit() returns (issued: bool)
      requires Valid()
      modifies this`isLoading, this`error, this`result, this`sources, this`requests, this`pending
      ensures Valid()
      ensures issued <==> !IsBlank(query)
      ensures !issued ==> unchanged(this)
      ensures issued ==>
        && isLoading && error == None && result == None && sources == []
        && pending == old(pending) + 1
        && |requests| == |old(requests)| + 1 && requests[..|old(requests)|] == old(requests)
        && var r := requests[|requests| - 1];
           && r.model == model && r.contents == query
           && r.tools == (if useMaps then [GoogleSearch, GoogleMaps] else [GoogleSearch])
           && r.latLng == RetrievalLocation(useMaps, location)
    {
      TrimEmptyIffBlank(query);
      if Trim(query) == "" {
        return false;
      }
      issued := true;
      Request();
    }

    /** Everything `Submit` does once the guard has passed. */
    method Request()
      requires Valid()
      modifies this`isLoading, this`error, this`result, this`sources, this`requests, this`pending
      ensures Valid()
      ensures isLoading && error == None && result == None && sources == []
      ensures pending == old(pending) + 1
      ensures |requests| == |old(requests)| + 1 && requests[..|old(requests)|] == old(requests)
      ensures var r := requests[|requests| - 1];
        && r.model == model && r.contents == query
        && r.tools == (if useMaps then [GoogleSearch, GoogleMaps] else [GoogleSearch])
        && r.latLng == RetrievalLocation(useMaps, location)
    {
      isLoading, error, result, sources := true, None, None, [];
      var tools := BuildTools(useMaps);
      assert tools == (if useMaps then [GoogleSearch, GoogleMaps] else [GoogleSearch]) by {
        if |tools| == 2 {
          assert tools[1] == GoogleMaps && tools[1] in tools;
        }
      }
      requests := requests + [SearchRequest(model, query, tools, RetrievalLocation(useMaps, location))];
      pending := pending + 1;
    }

    /** The rest of `handleSearch`, once one request settles. An answer stores its
        text and, when grounding chunks came back, the sources extracted from them.
        A rejection stores the error. Loading is cleared either way, even if another
        request is still in flight. */
    method Settle(reply: SearchReply)
      requires Valid() && pending > 0
      modifies this`isLoading, this`error, this`result, this`sources, this`pending
      ensures Valid() && !isLoading && pending == old(pending) - 1
      ensures reply.Failed? ==>
        && error == Some(ErrorText(reply.thrown, UnknownError))
        && result == old(result) && sources == old(sources)
      ensures reply.Answered? ==>
        && error == old(error) && result == reply.text
        && sources == if reply.groundingChunks.Some? then ExtractSources(reply.groundingChunks.value) else old(sources)
    {
      match reply {
        case Failed(thrown) =>
          error := Some(ErrorText(thrown, UnknownError));
        case Answered(text, groundingChunks) =>
          result := text;
          if groundingChunks.Some? {
            ExtractedSourcesAreReal(groundingChunks.value);
            sources := ExtractSources(groundingChunks.value);
          }
      }
      isLoading := false;
      pending := pending - 1;
    }
  }

  /** Two searches submitted before either settles. When the first settles, loading is
      cleared although the second is still in flight; when the second settles, its
      answer replaces whatever the first stored. */
  method OverlappingSearches(p: SearchPanel, first: SearchReply, second: SearchReply)
      returns (loadingBetween: bool, inFlightBetween: nat)
    requires p.Valid() && !IsBlank(p.query) && second.Answered?
    modifies p
    ensures !loadingBetween && inFlightBetween == old(p.pending) + 1
    ensures p.Valid() && p.pending == old(p.pending) && !p.isLoading
    ensures p.result == second.text
  {
    var issued := p.Submit();
    issued := p.Submit();
    p.Settle(first);
    loadingBetween, inFlightBetween := p.isLoading, p.pending;
    p.Settle(second);
  }
}

/** The search-and-answer form: it sends a question with the Google Search tool enabled and
    shows the answer with the web pages the answer was grounded on, each page once. */
module SearchGrounding {
  import opened Common
  import Text
  import GeminiService

  /** `chunk.web`: both fields may be missing. */
  datatype WebSource = WebSource(uri: Option<string>, title: Option<string>)

  datatype GroundingChunk = GroundingChunk(web: Option<WebSource>)

  /** `response.candidates?.[0]?.groundingMetadata?.groundingChunks`: missing anywhere along
      the chain, present but not an array, or an array of chunks. */
  datatype RawSources = Absent | NotAnArray | Chunks(chunks: seq<GroundingChunk>)

  datatype GroundingSource = GroundingSource(uri: string, title: string)

  /** The parts of a search response the form reads. */
  datatype SearchResponse = SearchResponse(text: string, groundingChunks: RawSources)

  datatype SearchResult = SearchResult(answer: string, sources: seq<GroundingSource>)

  const EMPTY_QUERY := "Please enter a question or topic to search."
  const SEARCH_FAILED := "An unknown error occurred during the search."

  /** One chunk through the first three steps of the pipeline: chunks without a web source
      or without a URI are dropped; the title falls back to the URI. */
  function ToSource(chunk: GroundingChunk): (r: Option<GroundingSource>)
    ensures r.Some? <==> chunk.web.Some? && Truthy(chunk.web.value.uri)
    ensures r.Some? ==> r.value.uri == chunk.web.value.uri.value
    ensures r.Some? && Truthy(chunk.web.value.title) ==> r.value.title == chunk.web.value.title.value
    ensures r.Some? && !Truthy(chunk.web.value.title) ==> r.value.title == r.value.uri
  {
    match chunk.web
    case Some(WebSource(Some(uri), title)) =>
      if uri == "" then None
      else Some(GroundingSource(uri, if Truthy(title) then title.value else uri))
    case _ => None
  }

  /** `.map(chunk => chunk.web).filter(web => web && web.uri).map(...)`. */
  function WithUri(chunks: seq<GroundingChunk>): (sources: seq<GroundingSource>)
    ensures |sources| <= |chunks|
  {
    if chunks == [] then []
    else match ToSource(chunks[0])
      case Some(source) => [source] + WithUri(chunks[1..])
      case None => WithUri(chunks[1..])
  }

  /** The first steps work chunk by chunk, so they distribute over concatenation. */
  lemma {:induction false} WithUriAppend(a: seq<GroundingChunk>, b: seq<GroundingChunk>)
    ensures WithUri(a + b) == WithUri(a) + WithUri(b)
  {
    if a == [] {
      assert a + b == b;
    } else {
      assert (a + b)[0] == a[0];
      assert (a + b)[1..] == a[1..] + b;
      WithUriAppend(a[1..], b);
      match ToSource(a[0]) {
        case Some(source) =>
          assert [source] + (WithUri(a[1..]) + WithUri(b)) == [source] + WithUri(a[1..]) + WithUri(b);
        case None =>
      }
    }
  }

  /** Every source the first steps produce has a URI and a title and comes from some chunk,
      and every chunk with a URI yields one. */
  lemma {:induction false} WithUriSpec(chunks: seq<GroundingChunk>)
    ensures forall k :: 0 <= k < |WithUri(chunks)| ==>
              WithUri(chunks)[k].uri != "" && WithUri(chunks)[k].title != ""
    ensures forall k :: 0 <= k < |WithUri(chunks)| ==>
              exists j :: 0 <= j < |chunks| && ToSource(chunks[j]) == Some(WithUri(chunks)[k])
    ensures forall j :: 0 <= j < |chunks| && ToSource(chunks[j]).Some? ==>
              ToSource(chunks[j]).value in WithUri(chunks)
  {
    if chunks != [] {
      var tail := chunks[1..];
      WithUriSpec(tail);
      var w, rest := WithUri(chunks), WithUri(tail);
      forall k | 0 <= k < |w|
        ensures w[k].uri != "" && w[k].title != ""
        ensures exists j :: 0 <= j < |chunks| && ToSource(chunks[j]) == Some(w[k])
      {
        if ToSource(chunks[0]).Some? && k == 0 {
          assert ToSource(chunks[0]) == Some(w[0]);
        } else {
          var k' := if ToSource(chunks[0]).Some? then k - 1 else k;
          assert w[k] == rest[k'];
          var j :| 0 <= j < |tail| && ToSource(tail[j]) == Some(rest[k']);
          assert chunks[j + 1] == tail[j];
          assert ToSource(chunks[j + 1]) == Some(w[k]);
        }
      }
      forall j | 0 <= j < |chunks| && ToSource(chunks[j]).Some?
        ensures ToSource(chunks[j]).value in w
      {
        if j > 0 {
          assert chunks[j] == tail[j - 1];
        }
      }
    } else {
      assert WithUri(chunks) == [];
    }
  }

  /** `self.findIndex(s => s.uri === uri)`: the first position with that URI, or -1. */
  function FindIndex(sources: seq<GroundingSource>, uri: string): (k: int)
    ensures -1 <= k < |sources|
    ensures k >= 0 ==> sources[k].uri == uri
    ensures forall m :: 0 <= m < |sources| && (k == -1 || m < k) ==> sources[m].uri != uri
  {
    if sources == [] then -1
    else if sources[0].uri == uri then 0
    else
      var k := FindIndex(sources[1..], uri);
      if k == -1 then -1 else k + 1
  }

  /** The elements from position `i` on that are the first with their URI. */
  function KeepFirstFrom(sources: seq<GroundingSource>, i: nat): seq<GroundingSource>
    requires i <= |sources|
    decreases |sources| - i
  {
    if i == |sources| then []
    else (if FindIndex(sources, sources[i].uri) == i then [sources[i]] else [])
         + KeepFirstFrom(sources, i + 1)
  }

  /** `source` is the first element with its URI, and that element sits at or after `i`. */
  predicate FirstOccurrenceFrom(sources: seq<GroundingSource>, i: nat, source: GroundingSource)
  {
    var k := FindIndex(sources, source.uri);
    i <= k && sources[k] == source
  }

  /** Every source kept from position `i` on is the first with its URI, at or after `i`. */
  lemma {:induction false} KeepFirstSound(sources: seq<GroundingSource>, i: nat)
    requires i <= |sources|
    ensures forall p :: 0 <= p < |KeepFirstFrom(sources, i)| ==>
              FirstOccurrenceFrom(sources, i, KeepFirstFrom(sources, i)[p])
    decreases |sources| - i
  {
    if i < |sources| {
      KeepFirstSound(sources, i + 1);
      var rest := KeepFirstFrom(sources, i + 1);
      if FindIndex(sources, sources[i].uri) == i {
        var r := [sources[i]] + rest;
        assert KeepFirstFrom(sources, i) == r;
        forall p | 0 <= p < |r|
          ensures FirstOccurrenceFrom(sources, i, r[p])
        {
          if p > 0 {
            assert r[p] == rest[p - 1];
            assert FirstOccurrenceFrom(sources, i + 1, rest[p - 1]);
          } else {
            assert r[0] == sources[i];
          }
        }
      } else {
        assert KeepFirstFrom(sources, i) == rest;
      }
    }
  }

  /** The sources kept from position `i` on appear in the order of their first positions. */
  lemma {:induction false} KeepFirstOrdered(sources: seq<GroundingSource>, i: nat)
    requires i <= |sources|
    ensures forall p, q :: 0 <= p < q < |KeepFirstFrom(sources, i)| ==>
              FindIndex(sources, KeepFirstFrom(sources, i)[p].uri) < FindIndex(sources, KeepFirstFrom(sources, i)[q].uri)
    decreases |sources| - i
  {
    if i < |sources| {
      KeepFirstOrdered(sources, i + 1);
      KeepFirstSound(sources, i + 1);
      var rest := KeepFirstFrom(sources, i + 1);
      if FindIndex(sources, sources[i].uri) == i {
        var r := [sources[i]] + rest;
        assert KeepFirstFrom(sources, i) == r;
        forall p, q | 0 <= p < q < |r|
          ensures FindIndex(sources, r[p].uri) < FindIndex(sources, r[q].uri)
        {
          assert r[q] == rest[q - 1];
          assert FirstOccurrenceFrom(sources, i + 1, rest[q - 1]);
          if p > 0 {
            assert r[p] == rest[p - 1];
          } else {
            assert r[0] == sources[i];
          }
        }
      } else {
        assert KeepFirstFrom(sources, i) == rest;
      }
    }
  }

  /** Some element of `sources` has the URI `uri`. */
  predicate HasUri(sources: seq<GroundingSource>, uri: string)
  {
    exists p :: 0 <= p < |sources| && sources[p].uri == uri
  }

  /** Every URI whose first position is at or after `i` is kept. */
  lemma {:induction false} KeepFirstComplete(sources: seq<GroundingSource>, i: nat)
    requires i <= |sources|
    ensures forall j :: 0 <= j < |sources| && i <= FindIndex(sources, sources[j].uri) ==>
              HasUri(KeepFirstFrom(sources, i), sources[j].uri)
    decreases |sources| - i
  {
    if i < |sources| {
      KeepFirstComplete(sources, i + 1);
      var rest := KeepFirstFrom(sources, i + 1);
      var r := KeepFirstFrom(sources, i);
      var kept := FindIndex(sources, sources[i].uri) == i;
      assert kept ==> r == [sources[i]] + rest;
      assert !kept ==> r == rest;
      forall j | 0 <= j < |sources| && i <= FindIndex(sources, sources[j].uri)
        ensures HasUri(r, sources[j].uri)
      {
        var u := sources[j].uri;
        if FindIndex(sources, u) == i {
          assert kept && r[0].uri == u;
        } else {
          assert HasUri(rest, u);
          var p :| 0 <= p < |rest| && rest[p].uri == u;
          if kept {
            assert r[p + 1] == rest[p];
          }
        }
      }
    }
  }

  /** `.filter((source, index, self) => index === self.findIndex(s => s.uri === source.uri))`:
      each kept source is the first with its URI, the kept sources keep their order, no URI
      is kept twice and no URI is lost. */
  function Dedupe(sources: seq<GroundingSource>): (r: seq<GroundingSource>)
    ensures forall p, q :: 0 <= p < q < |r| ==> r[p].uri != r[q].uri
  {
    KeepFirstSound(sources, 0);
    KeepFirstOrdered(sources, 0);
    KeepFirstFrom(sources, 0)
  }

  /** Each kept source is the first with its URI, and the kept sources keep their order. */
  lemma DedupeFirstOccurrence(sources: seq<GroundingSource>)
    ensures var r := Dedupe(sources);
            forall p :: 0 <= p < |r| ==>
              0 <= FindIndex(sources, r[p].uri) && sources[FindIndex(sources, r[p].uri)] == r[p]
    ensures var r := Dedupe(sources);
            forall p, q :: 0 <= p < q < |r| ==> FindIndex(sources, r[p].uri) < FindIndex(sources, r[q].uri)
  {
    KeepFirstSound(sources, 0);
    KeepFirstOrdered(sources, 0);
  }

  /** No URI is lost: every URI among the sources is kept once. */
  lemma DedupeComplete(sources: seq<GroundingSource>)
    ensures forall j :: 0 <= j < |sources| ==> HasUri(Dedupe(sources), sources[j].uri)
  {
    KeepFirstComplete(sources, 0);
  }

  /** Lines 34-46 of the search form: the grounding sources shown under an answer. */
  function NormalizeSources(raw: RawSources): (r: seq<GroundingSource>)
    ensures !raw.Chunks? ==> r == []
    ensures forall p :: 0 <= p < |r| ==> r[p].uri != "" && r[p].title != ""
    ensures forall p, q :: 0 <= p < q < |r| ==> r[p].uri != r[q].uri
  {
    match raw
    case Chunks(chunks) =>
      WithUriSpec(chunks);
      DedupeFirstOccurrence(WithUri(chunks));
      Dedupe(WithUri(chunks))
    case _ => []
  }

  /** Every source shown comes from some chunk, and every chunk that yields a source has its
      URI shown. */
  lemma NormalizeSourcesSpec(chunks: seq<GroundingChunk>)
    ensures var r := NormalizeSources(Chunks(chunks));
            forall p :: 0 <= p < |r| ==> exists j :: 0 <= j < |chunks| && ToSource(chunks[j]) == Some(r[p])
    ensures var r := NormalizeSources(Chunks(chunks));
            forall j :: 0 <= j < |chunks| && ToSource(chunks[j]).Some? ==> HasUri(r, ToSource(chunks[j]).value.uri)
  {
    var w := WithUri(chunks);
    WithUriSpec(chunks);
    DedupeFirstOccurrence(w);
    DedupeComplete(w);
    var r := Dedupe(w);
    assert forall p :: 0 <= p < |r| ==> r[p] in w;
  }

  /** The sources keep the order in which their URIs first appear among the chunks, and each
      is the first chunk's source for its URI (so its title is that chunk's title, or the URI). */
  lemma NormalizedOrder(chunks: seq<GroundingChunk>)
    ensures var w, r := WithUri(chunks), NormalizeSources(Chunks(chunks));
            forall p, q :: 0 <= p < q < |r| ==> 0 <= FindIndex(w, r[p].uri) < FindIndex(w, r[q].uri)
    ensures var w, r := WithUri(chunks), NormalizeSources(Chunks(chunks));
            forall p :: 0 <= p < |r| ==> 0 <= FindIndex(w, r[p].uri) && w[FindIndex(w, r[p].uri)] == r[p]
  {
    DedupeFirstOccurrence(WithUri(chunks));
  }

  /** The search form's state. */
  class SearchGroundingComponent {
    const apiKey: Option<string>
    var query: string
    var searchResult: Option<SearchResult>
    var isLoading: bool
    var error: Option<string>

    constructor (apiKey: Option<string>)
      ensures this.apiKey == apiKey
      ensures query == "" && searchResult.None? && !isLoading && error.None?
    {
      this.apiKey := apiKey;
      query, searchResult, isLoading, error := "", None, false, None;
    }

    /** The query field's `onChange`. */
    method SetQuery(q: string)
      modifies this
      ensures query == q
      ensures searchResult == old(searchResult) && isLoading == old(isLoading) && error == old(error)
    {
      query := q;
    }

    /** `handleSearch`, with the SDK's answer as `reply`; `request` is the request sent, if any.
        The form disables the search while one is running, so it starts idle. */
    method HandleSearch(reply: Reply<SearchResponse>) returns (request: Option<GeminiService.SearchRequest>)
      requires !isLoading
      modifies this
      ensures !isLoading && query == old(query)
      ensures Text.IsBlank(old(query)) ==>
                request.None? && error == Some(EMPTY_QUERY) && searchResult == old(searchResult)
      ensures !Text.IsBlank(old(query)) ==>
                var call := GeminiService.GenerateContentWithGoogleSearch(apiKey, old(query), reply);
                && request == call.request
                && (call.result.Success? ==>
                      error.None?
                      && searchResult == Some(SearchResult(call.result.value.text,
                                                           NormalizeSources(call.result.value.groundingChunks))))
                && (call.result.Failure? ==>
                      searchResult.None? && error == Some(Describe(call.result.error, SEARCH_FAILED)))
    {
      if Text.IsBlank(query) {
        error := Some(EMPTY_QUERY);
        return None;
      }
      request := Search(query, reply);
    }

    /** The search for a query `q` that is not blank: earlier results and errors are cleared,
        then the outcome of the call replaces them. */
    method Search(q: string, reply: Reply<SearchResponse>) returns (request: Option<GeminiService.SearchRequest>)
      modifies this`isLoading, this`error, this`searchResult
      ensures !isLoading
      ensures var call := GeminiService.GenerateContentWithGoogleSearch(apiKey, q, reply);
              && request == call.request
              && (call.result.Success? ==>
                    error.None?
                    && searchResult == Some(SearchResult(call.result.value.text,
                                                         NormalizeSources(call.result.value.groundingChunks))))
              && (call.result.Failure? ==>
                    searchResult.None? && error == Some(Describe(call.result.error, SEARCH_FAILED)))
    {
      isLoading := true;
      error := None;
      searchResult := None;
      var call := GeminiService.GenerateContentWithGoogleSearch(apiKey, q, reply);
      request := call.request;
      match call.result {
        case Success(response) =>
          searchResult := Some(SearchResult(response.text, NormalizeSources(response.groundingChunks)));
        case Failure(e) =>
          error := Some(Describe(e, SEARCH_FAILED));
      }
      isLoading := false;
    }
  }
}

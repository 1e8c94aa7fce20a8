/**
 * The records every search engine produces and consumes: a search result,
 * the metadata of one search, and a search request, with the defaults their
 * dataclass constructors fill in and the dictionaries `to_dict` serialises
 * them to.
 */
module SearchModels {
  import opened Wrappers

  /**
   * A value of a dictionary that `to_dict` returns. Each record's keys are
   * an enumeration whose `Name()` is the key string.
   */
  datatype Value =
    | Str(s: string)
    | Int(i: int)
    | Bool(b: bool)
    | Real(r: real)
    | StrList(items: seq<string>)
    | Null


  /** The fields of `BaseSearchResult`, in declaration order. */
  datatype ResultRecord = ResultRecord(
    url: string,
    title: string,
    description: string,
    position: int,
    engine: string,
    timestamp: string,
    contentHash: string,
    searchSnippet: string,
    searchPosition: int,
    isOrganic: bool,
    hasRichSnippet: bool,
    richSnippetType: string,
    estimatedTraffic: string,
    searchFeatures: Option<seq<string>>)

  /** A result as the dataclass fields hold it before `__post_init__`, with the declared defaults. */
  function NewResult(url: string, title: string, description: string): (r: ResultRecord)
    ensures r.url == url && r.title == title && r.description == description
    ensures r.position == 0 && r.searchPosition == 0 && r.isOrganic && !r.hasRichSnippet
    ensures r.engine == "" && r.timestamp == "" && r.contentHash == "" && r.searchSnippet == ""
    ensures r.richSnippetType == "" && r.estimatedTraffic == "" && r.searchFeatures == Some([])
  {
    ResultRecord(url, title, description, 0, "", "", "", "", 0, true, false, "", "", Some([]))
  }

  /**
   * `__post_init__` as a function of the fields before it: each falsy field
   * among timestamp, content hash, snippet and search position gets its
   * computed value, and a `None` feature list becomes empty. `md5` stands
   * for the hex digest of the encoded URL and `now` for the ISO time.
   */
  function PostInitDefaults(r: ResultRecord, md5: string -> string, now: string): ResultRecord {
    r.(timestamp := if r.timestamp == "" then now else r.timestamp,
       contentHash := if r.contentHash == "" then md5(r.url) else r.contentHash,
       searchSnippet := if r.searchSnippet == "" then r.description else r.searchSnippet,
       searchPosition := if r.searchPosition == 0 then r.position else r.searchPosition,
       searchFeatures := if r.searchFeatures.None? then Some([]) else r.searchFeatures)
  }

  /**
   * What `__post_init__` promises: the data fields and a field already set
   * are kept; an empty field is filled from its source; no feature list is
   * left `None`.
   */
  lemma PostInitFills(r: ResultRecord, md5: string -> string, now: string)
    ensures var p := PostInitDefaults(r, md5, now);
            && p.url == r.url && p.title == r.title && p.description == r.description
            && p.position == r.position && p.engine == r.engine && p.isOrganic == r.isOrganic
            && p.hasRichSnippet == r.hasRichSnippet && p.richSnippetType == r.richSnippetType
            && p.estimatedTraffic == r.estimatedTraffic
            && (r.timestamp != "" ==> p.timestamp == r.timestamp)
            && (r.timestamp == "" ==> p.timestamp == now)
            && (r.contentHash != "" ==> p.contentHash == r.contentHash)
            && (r.contentHash == "" ==> p.contentHash == md5(r.url))
            && (r.searchSnippet != "" ==> p.searchSnippet == r.searchSnippet)
            && (r.searchSnippet == "" ==> p.searchSnippet == r.description)
            && (r.searchPosition != 0 ==> p.searchPosition == r.searchPosition)
            && (r.searchPosition == 0 ==> p.searchPosition == r.position)
            && p.searchFeatures.Some?
            && (r.searchFeatures.Some? ==> p.searchFeatures == r.searchFeatures)
  {
  }

  /** Running `__post_init__` a second time changes nothing. */
  lemma PostInitIdempotent(r: ResultRecord, md5: string -> string, now: string)
    ensures PostInitDefaults(PostInitDefaults(r, md5, now), md5, now) == PostInitDefaults(r, md5, now)
  {
    var p := PostInitDefaults(r, md5, now);
    var q := PostInitDefaults(p, md5, now);
    assert q.timestamp == p.timestamp;
    assert q.contentHash == p.contentHash by {
      if r.contentHash == "" && md5(r.url) == "" {
        assert p.contentHash == "" && p.url == r.url;
      }
    }
    assert q.searchSnippet == p.searchSnippet;
    assert q.searchPosition == p.searchPosition;
  }

  /**
   * A field set when the result is built is never replaced: if none of the
   * defaulted fields is falsy, `__post_init__` leaves the record as it is.
   */
  lemma PostInitKeepsSetFields(r: ResultRecord, md5: string -> string, now: string)
    requires r.timestamp != "" && r.contentHash != "" && r.searchSnippet != ""
    requires r.searchPosition != 0 && r.searchFeatures.Some?
    ensures PostInitDefaults(r, md5, now) == r
  {
  }

  /** The keys of `BaseSearchResult.to_dict`, one per field. */
  datatype ResultKey =
    | UrlKey | TitleKey | DescriptionKey | PositionKey | EngineKey | TimestampKey | ContentHashKey
    | SearchSnippetKey | SearchPositionKey | IsOrganicKey | HasRichSnippetKey | RichSnippetTypeKey
    | EstimatedTrafficKey | SearchFeaturesKey
  {
    /** The key as it appears in the dictionary. */
    function Name(): string {
      match this
      case UrlKey => "url"
      case TitleKey => "title"
      case DescriptionKey => "description"
      case PositionKey => "position"
      case EngineKey => "engine"
      case TimestampKey => "timestamp"
      case ContentHashKey => "content_hash"
      case SearchSnippetKey => "search_snippet"
      case SearchPositionKey => "search_position"
      case IsOrganicKey => "is_organic"
      case HasRichSnippetKey => "has_rich_snippet"
      case RichSnippetTypeKey => "rich_snippet_type"
      case EstimatedTrafficKey => "estimated_traffic"
      case SearchFeaturesKey => "search_features"
    }
  }

  /** Distinct keys have distinct names, so the dictionary has fourteen entries. */
  lemma ResultKeyNamesDistinct(a: ResultKey, b: ResultKey)
    requires a.Name() == b.Name()
    ensures a == b
  {
  }

  /** How a possibly-`None` feature list serialises. */
  function FeaturesValue(features: Option<seq<string>>): Value {
    match features
    case None => Null
    case Some(items) => StrList(items)
  }

  /** `BaseSearchResult.to_dict`: every key present, each mapped to its field's value. */
  function ResultToDict(r: ResultRecord): (d: map<ResultKey, Value>)
    ensures d.Keys == {
      UrlKey, TitleKey, DescriptionKey, PositionKey, EngineKey, TimestampKey, ContentHashKey, SearchSnippetKey,
      SearchPositionKey, IsOrganicKey, HasRichSnippetKey, RichSnippetTypeKey, EstimatedTrafficKey, SearchFeaturesKey}
  {
    map[
      UrlKey := Str(r.url),
      TitleKey := Str(r.title),
      DescriptionKey := Str(r.description),
      PositionKey := Int(r.position),
      EngineKey := Str(r.engine),
      TimestampKey := Str(r.timestamp),
      ContentHashKey := Str(r.contentHash),
      SearchSnippetKey := Str(r.searchSnippet),
      SearchPositionKey := Int(r.searchPosition),
      IsOrganicKey := Bool(r.isOrganic),
      HasRichSnippetKey := Bool(r.hasRichSnippet),
      RichSnippetTypeKey := Str(r.richSnippetType),
      EstimatedTrafficKey := Str(r.estimatedTraffic),
      SearchFeaturesKey := FeaturesValue(r.searchFeatures)]
  }

  /** The dictionary has a string under `key`. */
  predicate HasStr<K>(d: map<K, Value>, key: K) {
    key in d && d[key].Str?
  }

  /** The dictionary has an integer under `key`. */
  predicate HasInt<K>(d: map<K, Value>, key: K) {
    key in d && d[key].Int?
  }

  /** The dictionary has a boolean under `key`. */
  predicate HasBool<K>(d: map<K, Value>, key: K) {
    key in d && d[key].Bool?
  }

  /** How a feature-list value reads back: a list of strings or `None`. */
  function FeaturesOf(v: Value): Option<seq<string>>
    requires v.StrList? || v.Null?
  {
    if v.StrList? then Some(v.items) else None
  }

  /** Every field of a result is present in `d` with a value of its kind. */
  predicate IsResultDict(d: map<ResultKey, Value>) {
    && HasStr(d, UrlKey) && HasStr(d, TitleKey) && HasStr(d, DescriptionKey) && HasInt(d, PositionKey)
    && HasStr(d, EngineKey) && HasStr(d, TimestampKey) && HasStr(d, ContentHashKey)
    && HasStr(d, SearchSnippetKey) && HasInt(d, SearchPositionKey) && HasBool(d, IsOrganicKey)
    && HasBool(d, HasRichSnippetKey) && HasStr(d, RichSnippetTypeKey) && HasStr(d, EstimatedTrafficKey)
    && SearchFeaturesKey in d && (d[SearchFeaturesKey].StrList? || d[SearchFeaturesKey].Null?)
  }

  /** Reads a result back from its dictionary; `None` when a key is missing or of the wrong kind. */
  function ResultFromDict(d: map<ResultKey, Value>): Option<ResultRecord> {
    if !IsResultDict(d) then None
    else
      Some(ResultRecord(
        d[UrlKey].s, d[TitleKey].s, d[DescriptionKey].s, d[PositionKey].i, d[EngineKey].s,
        d[TimestampKey].s, d[ContentHashKey].s, d[SearchSnippetKey].s, d[SearchPositionKey].i,
        d[IsOrganicKey].b, d[HasRichSnippetKey].b, d[RichSnippetTypeKey].s,
        d[EstimatedTrafficKey].s, FeaturesOf(d[SearchFeaturesKey])))
  }

  /** `to_dict` loses nothing: every field comes back from the dictionary unchanged. */
  lemma ResultDictRoundTrip(r: ResultRecord)
    ensures ResultFromDict(ResultToDict(r)) == Some(r)
  {
    var d := ResultToDict(r);
    assert IsResultDict(d);
    assert FeaturesOf(d[SearchFeaturesKey]) == r.searchFeatures;
  }

  /** Two results with the same dictionary are the same result. */
  lemma ResultToDictInjective(r: ResultRecord, s: ResultRecord)
    requires ResultToDict(r) == ResultToDict(s)
    ensures r == s
  {
    ResultDictRoundTrip(r);
    ResultDictRoundTrip(s);
  }

  /**
   * A search result whose computed fields `__post_init__` completes in
   * place; the fields given by the engine are not changed after construction.
   */
  class SearchResult {
    const url: string
    const title: string
    const description: string
    const position: int
    const engine: string
    var timestamp: string
    var contentHash: string
    var searchSnippet: string
    var searchPosition: int
    const isOrganic: bool
    const hasRichSnippet: bool
    const richSnippetType: string
    const estimatedTraffic: string
    var searchFeatures: Option<seq<string>>

    /** The fields as a record. */
    function Fields(): ResultRecord
      reads this
    {
      ResultRecord(url, title, description, position, engine, timestamp, contentHash, searchSnippet,
                   searchPosition, isOrganic, hasRichSnippet, richSnippetType, estimatedTraffic, searchFeatures)
    }

    /** The dataclass constructor: stores the given fields, then runs `__post_init__`. */
    constructor (given: ResultRecord, md5: string -> string, now: string)
      ensures Fields() == PostInitDefaults(given, md5, now)
    {
      url, title, description, position, engine := given.url, given.title, given.description, given.position, given.engine;
      isOrganic, hasRichSnippet, richSnippetType, estimatedTraffic := given.isOrganic, given.hasRichSnippet, given.richSnippetType, given.estimatedTraffic;
      timestamp, contentHash, searchSnippet, searchPosition := given.timestamp, given.contentHash, given.searchSnippet, given.searchPosition;
      searchFeatures := given.searchFeatures;
      new;
      PostInit(md5, now);
    }

    /** `__post_init__`: fills each falsy computed field in place. */
    method PostInit(md5: string -> string, now: string)
      modifies this
      ensures Fields() == PostInitDefaults(old(Fields()), md5, now)
    {
      ghost var before := Fields();
      var t := if timestamp == "" then now else timestamp;
      var h := if contentHash == "" then md5(url) else contentHash;
      var snippet := if searchSnippet == "" then description else searchSnippet;
      var pos := if searchPosition == 0 then position else searchPosition;
      var features := if searchFeatures.None? then Some([]) else searchFeatures;
      assert PostInitDefaults(before, md5, now) ==
             before.(timestamp := t, contentHash := h, searchSnippet := snippet, searchPosition := pos, searchFeatures := features);
      timestamp, contentHash, searchSnippet, searchPosition, searchFeatures := t, h, snippet, pos, features;
    }

    /** `to_dict` of the current fields. */
    function ToDict(): (d: map<ResultKey, Value>)
      reads this
      ensures ResultFromDict(d) == Some(Fields())
    {
      ResultDictRoundTrip(Fields());
      ResultToDict(Fields())
    }
  }

  /** The fields of `BaseSearchMetadata`. */
  datatype Metadata = Metadata(
    query: string,
    engine: string,
    timestamp: string,
    totalResults: int,
    searchTimeMs: real,
    success: bool,
    errorMessage: string)

  /** `BaseSearchMetadata.__post_init__`: an empty timestamp becomes the current ISO time. */
  function MetadataPostInit(m: Metadata, now: string): (p: Metadata)
    ensures m.timestamp != "" ==> p == m
    ensures m.timestamp == "" ==> p == m.(timestamp := now)
  {
    if m.timestamp == "" then m.(timestamp := now) else m
  }

  /** The keys of `BaseSearchMetadata.to_dict`. */
  datatype MetadataKey =
    | QueryKey | MetadataEngineKey | MetadataTimestampKey | TotalResultsKey | SearchTimeMsKey | SuccessKey
    | ErrorMessageKey
  {
    /** The key as it appears in the dictionary. */
    function Name(): string {
      match this
      case QueryKey => "query"
      case MetadataEngineKey => "engine"
      case MetadataTimestampKey => "timestamp"
      case TotalResultsKey => "total_results"
      case SearchTimeMsKey => "search_time_ms"
      case SuccessKey => "success"
      case ErrorMessageKey => "error_message"
    }
  }

  /** Distinct keys have distinct names, so the dictionary has seven entries. */
  lemma MetadataKeyNamesDistinct(a: MetadataKey, b: MetadataKey)
    requires a.Name() == b.Name()
    ensures a == b
  {
  }

  /** `BaseSearchMetadata.to_dict`: every key present, each mapped to its field's value. */
  function MetadataToDict(m: Metadata): (d: map<MetadataKey, Value>)
    ensures d.Keys == {
      QueryKey, MetadataEngineKey, MetadataTimestampKey, TotalResultsKey, SearchTimeMsKey, SuccessKey, ErrorMessageKey}
  {
    map[
      QueryKey := Str(m.query),
      MetadataEngineKey := Str(m.engine),
      MetadataTimestampKey := Str(m.timestamp),
      TotalResultsKey := Int(m.totalResults),
      SearchTimeMsKey := Real(m.searchTimeMs),
      SuccessKey := Bool(m.success),
      ErrorMessageKey := Str(m.errorMessage)]
  }

  /** Reads metadata back from its dictionary. */
  function MetadataFromDict(d: map<MetadataKey, Value>): Option<Metadata> {
    if && HasStr(d, QueryKey) && HasStr(d, MetadataEngineKey) && HasStr(d, MetadataTimestampKey)
       && HasInt(d, TotalResultsKey) && SearchTimeMsKey in d && d[SearchTimeMsKey].Real?
       && HasBool(d, SuccessKey) && HasStr(d, ErrorMessageKey)
    then Some(Metadata(d[QueryKey].s, d[MetadataEngineKey].s, d[MetadataTimestampKey].s, d[TotalResultsKey].i,
                       d[SearchTimeMsKey].r, d[SuccessKey].b, d[ErrorMessageKey].s))
    else None
  }

  /** Every metadata field comes back from its dictionary unchanged. */
  lemma MetadataDictRoundTrip(m: Metadata)
    ensures MetadataFromDict(MetadataToDict(m)) == Some(m)
  {
  }

  /** The fields of `BaseSearchRequest`. */
  datatype SearchRequest = SearchRequest(
    query: string,
    numResults: int,
    extractContent: bool,
    followLinks: bool,
    maxDepth: int,
    useFallback: bool,
    timeout: int)

  /** A request for `query` with every other field at its declared default. */
  function NewRequest(query: string): (q: SearchRequest)
    ensures q.query == query && q.numResults == 10 && !q.extractContent && !q.followLinks
    ensures q.maxDepth == 1 && q.useFallback && q.timeout == 30
  {
    SearchRequest(query, 10, false, false, 1, true, 30)
  }

  /** The keys of `BaseSearchRequest.to_dict`. */
  datatype RequestKey =
    | RequestQueryKey | NumResultsKey | ExtractContentKey | FollowLinksKey | MaxDepthKey | UseFallbackKey
    | TimeoutKey
  {
    /** The key as it appears in the dictionary. */
    function Name(): string {
      match this
      case RequestQueryKey => "query"
      case NumResultsKey => "num_results"
      case ExtractContentKey => "extract_content"
      case FollowLinksKey => "follow_links"
      case MaxDepthKey => "max_depth"
      case UseFallbackKey => "use_fallback"
      case TimeoutKey => "timeout"
    }
  }

  /** Distinct keys have distinct names, so the dictionary has seven entries. */
  lemma RequestKeyNamesDistinct(a: RequestKey, b: RequestKey)
    requires a.Name() == b.Name()
    ensures a == b
  {
  }

  /** `BaseSearchRequest.to_dict`: every key present, each mapped to its field's value. */
  function RequestToDict(q: SearchRequest): (d: map<RequestKey, Value>)
    ensures d.Keys == {
      RequestQueryKey, NumResultsKey, ExtractContentKey, FollowLinksKey, MaxDepthKey, UseFallbackKey, TimeoutKey}
  {
    map[
      RequestQueryKey := Str(q.query),
      NumResultsKey := Int(q.numResults),
      ExtractContentKey := Bool(q.extractContent),
      FollowLinksKey := Bool(q.followLinks),
      MaxDepthKey := Int(q.maxDepth),
      UseFallbackKey := Bool(q.useFallback),
      TimeoutKey := Int(q.timeout)]
  }

  /** Reads a request back from its dictionary. */
  function RequestFromDict(d: map<RequestKey, Value>): Option<SearchRequest> {
    if && HasStr(d, RequestQueryKey) && HasInt(d, NumResultsKey) && HasBool(d, ExtractContentKey)
       && HasBool(d, FollowLinksKey) && HasInt(d, MaxDepthKey) && HasBool(d, UseFallbackKey) && HasInt(d, TimeoutKey)
    then Some(SearchRequest(d[RequestQueryKey].s, d[NumResultsKey].i, d[ExtractContentKey].b, d[FollowLinksKey].b,
                            d[MaxDepthKey].i, d[UseFallbackKey].b, d[TimeoutKey].i))
    else None
  }

  /** Every request field comes back from its dictionary unchanged. */
  lemma RequestDictRoundTrip(q: SearchRequest)
    ensures RequestFromDict(RequestToDict(q)) == Some(q)
  {
  }
}

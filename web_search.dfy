/** The web search tool (minimal_agents/tools/web/search.py): the query is
    stripped, the configured engine picks one of three search back ends, the
    decoded response is reduced to at most `max_results` entries of title,
    snippet and URL, and the entries are rendered as a numbered listing.
    Every exception raised on the way becomes a `Search error:` string. */
module WebSearch {
  import opened Text

  // ---------------------------------------------------------------------
  // The decoded response body and the Python operations the mapping uses
  // ---------------------------------------------------------------------

  /** A decoded JSON value: a string, a list, an object, or any other
      scalar (a number, a boolean or null), kept as the text Python's `str`
      gives it (`5`, `2.5`, `True`, `None`). */
  datatype Json =
    | JString(text: string)
    | JArray(items: seq<Json>)
    | JObject(fields: map<string, Json>)
    | JScalar(literal: string)

  /** What one request to a back end gives: the decoded body, or the message
      of the exception the request, the status check or the decoding raised. */
  datatype Fetch = Fetched(body: Json) | Failed(message: string)

  /** The Python operations of the mapping that can raise on a value of the
      wrong kind: `key in v`, the slice `v[:n]`, the subscript `v[key]` and
      the call `v.get(key, default)`. */
  datatype Operation = MemberTest | Slicing | Subscript | GetCall

  /** The search back ends and what the tool cannot compute itself: `fetch`
      is the HTTP round trip (engine, query, `max_results`); `describe` is the
      text of the exception Python raises when an operation of the mapping is
      applied to a value of the wrong kind (`TypeError: argument of type 'int'
      is not iterable` for `"items" in 5`, `'NoneType' object is not
      subscriptable` for `None[:5]`); `show` is Python's `str` of a decoded
      list or object, as an f-string renders it; `cseId` is the
      `GOOGLE_CSE_ID` environment variable, empty when unset. */
  datatype Backend = Backend(
    fetch: (string, string, int) -> Fetch,
    describe: (Operation, Json) -> string,
    show: Json -> string,
    cseId: string)

  /** The outcome of a Python expression over JSON values: a value, or the
      operation that raised and the value it was applied to. */
  datatype Eval<T> = Value(value: T) | Raises(op: Operation, culprit: Json)

  /** Python's `key in v`: a key of an object, an element of a list, a
      substring of a string; any other value raises `TypeError`. */
  function Member(v: Json, key: string): (r: Eval<bool>)
    ensures r.Raises? <==> v.JScalar?
    ensures r.Raises? ==> r == Raises(MemberTest, v)
    ensures v.JObject? ==> r == Value(key in v.fields)
  {
    match v
    case JObject(fields) => Value(key in fields)
    case JArray(items) => Value(JString(key) in items)
    case JString(text) => Value(Contains(text, key))
    case JScalar(_) => Raises(MemberTest, v)
  }

  function Min(a: int, b: int): int {
    if a <= b then a else b
  }

  /** Python's `xs[:n]`: the first `n` elements, or for a negative `n` all
      but the last `-n` (nothing when `-n` reaches the length). */
  function Head<T>(xs: seq<T>, n: int): (r: seq<T>)
    ensures |r| <= |xs| && r == xs[..|r|]
    ensures n >= 0 ==> |r| == Min(n, |xs|)
    ensures n < 0 ==> |r| + Min(-n, |xs|) == |xs|
  {
    if n >= |xs| then xs
    else if n >= 0 then xs[..n]
    else if |xs| + n >= 0 then xs[..|xs| + n]
    else []
  }

  /** `v[:n]` iterated as a list of results: a list gives its first
      elements; a string gives characters, and the `.get` on the first of
      them raises unless the slice is empty; slicing an object or a scalar
      raises. */
  function SliceItems(v: Json, n: int): (r: Eval<seq<Json>>)
    ensures v.JArray? ==> r == Value(Head(v.items, n))
    ensures r.Value? ==> v.JArray? || r.value == []
    ensures (v.JObject? || v.JScalar?) ==> r == Raises(Slicing, v)
    ensures v.JString? && r.Raises? ==> r.op == GetCall && r.culprit.JString? && |r.culprit.text| == 1
    ensures r.Value? && n >= 0 ==> |r.value| <= n
  {
    match v
    case JArray(items) => Value(Head(items, n))
    case JString(text) => if Head(text, n) == [] then Value([]) else Raises(GetCall, JString(Head(text, n)[..1]))
    case _ => Raises(Slicing, v)
  }

  /** `data[key][:n]` under the guard `key in data`: an absent key gives no
      results; a present one is indexed, which only an object allows. */
  function ListUnder(data: Json, key: string, n: int): (r: Eval<seq<Json>>)
    ensures data.JObject? && key !in data.fields ==> r == Value([])
    ensures data.JObject? && key in data.fields ==> r == SliceItems(data.fields[key], n)
    ensures r.Value? && n >= 0 ==> |r.value| <= n
  {
    match Member(data, key)
    case Raises(op, v) => Raises(op, v)
    case Value(present) =>
      if !present then Value([])
      else if data.JObject? then SliceItems(data.fields[key], n)
      else Raises(Subscript, data)
  }

  // ---------------------------------------------------------------------
  // The three engines
  // ---------------------------------------------------------------------

  /** Where an engine's result records keep their title and URL (the snippet
      is always under `snippet`). */
  datatype Schema = Schema(titleKey: string, urlKey: string)

  const SerpSchema := Schema("title", "link")
  const GoogleSchema := Schema("title", "link")
  const BingSchema := Schema("name", "url")

  /** The result records of a decoded body, at most `n` of them (Python's
      `[:n]`, so a negative `n` drops records from the end): SerpAPI's
      `organic_results` (search.py:91-92), Google's `items`
      (search.py:129-130), and Bing's `webPages.value`, which needs both keys
      (search.py:161-162). A missing key gives no records. */
  function ResultItems(engine: string, data: Json, n: int): (r: Eval<seq<Json>>)
    requires engine in {"serp", "google", "bing"}
    ensures engine == "serp" && data.JObject? && "organic_results" !in data.fields ==> r == Value([])
    ensures engine == "google" && data.JObject? && "items" !in data.fields ==> r == Value([])
    ensures engine == "bing" && data.JObject? && "webPages" !in data.fields ==> r == Value([])
    ensures engine == "bing" && data.JObject? && "webPages" in data.fields && data.fields["webPages"].JObject?
      ==> r == ListUnder(data.fields["webPages"], "value", n)
    ensures engine == "serp" && data.JObject? && "organic_results" in data.fields
      ==> r == SliceItems(data.fields["organic_results"], n)
    ensures engine == "google" && data.JObject? && "items" in data.fields
      ==> r == SliceItems(data.fields["items"], n)
    ensures r.Value? && n >= 0 ==> |r.value| <= n
  {
    if engine == "serp" then ListUnder(data, "organic_results", n)
    else if engine == "google" then ListUnder(data, "items", n)
    else
      match Member(data, "webPages")
      case Raises(op, v) => Raises(op, v)
      case Value(present) =>
        if !present then Value([])
        else if !data.JObject? then Raises(Subscript, data)
        else ListUnder(data.fields["webPages"], "value", n)
  }

  /** One formatted search result. */
  datatype Entry = Entry(title: string, snippet: string, url: string)

  /** `record.get(key, default)` as the f-string renders it: the default
      when the key is absent, the text of a string, the `str` text of a
      scalar, and `show` of a list or an object. */
  function FieldText(fields: map<string, Json>, key: string, default: string, show: Json -> string): (r: string)
    ensures key !in fields ==> r == default
    ensures key in fields && fields[key].JString? ==> r == fields[key].text
    ensures key in fields && fields[key].JScalar? ==> r == fields[key].literal
    ensures key in fields && (fields[key].JArray? || fields[key].JObject?) ==> r == show(fields[key])
  {
    if key !in fields then default
    else match fields[key]
      case JString(text) => text
      case JScalar(literal) => literal
      case other => show(other)
  }

  /** One record as an entry, with the defaults `No title`,
      `No snippet available` and `#` for missing fields; `None` exactly when
      the record is not an object, since only a `dict` has `.get`. */
  function ToEntry(item: Json, schema: Schema, show: Json -> string): (r: Option<Entry>)
    ensures r.Some? <==> item.JObject?
    ensures r.Some? && schema.titleKey !in item.fields ==> r.value.title == "No title"
    ensures r.Some? && "snippet" !in item.fields ==> r.value.snippet == "No snippet available"
    ensures r.Some? && schema.urlKey !in item.fields ==> r.value.url == "#"
    ensures r.Some? && schema.titleKey in item.fields && item.fields[schema.titleKey].JString?
      ==> r.value.title == item.fields[schema.titleKey].text
    ensures r.Some? && "snippet" in item.fields && item.fields["snippet"].JString?
      ==> r.value.snippet == item.fields["snippet"].text
    ensures r.Some? && schema.urlKey in item.fields && item.fields[schema.urlKey].JString?
      ==> r.value.url == item.fields[schema.urlKey].text
  {
    if !item.JObject? then None
    else
      Some(Entry(
        FieldText(item.fields, schema.titleKey, "No title", show),
        FieldText(item.fields, "snippet", "No snippet available", show),
        FieldText(item.fields, schema.urlKey, "#", show)))
  }

  /** The entries of the records in order, or the first record that is not
      an object, on which the mapping raises. */
  function Entries(items: seq<Json>, schema: Schema, show: Json -> string): (r: Eval<seq<Entry>>)
    ensures r.Value? ==> |r.value| == |items| && forall i :: 0 <= i < |items| ==> ToEntry(items[i], schema, show) == Some(r.value[i])
    ensures r.Raises? <==> exists i :: 0 <= i < |items| && !items[i].JObject?
    ensures r.Raises? ==>
      exists i :: 0 <= i < |items| && items[i] == r.culprit && !items[i].JObject? && forall j :: 0 <= j < i ==> items[j].JObject?
    ensures r.Raises? ==> r.op == GetCall
    decreases |items|
  {
    if items == [] then Value([])
    else
      var init := items[..|items| - 1];
      var last := items[|items| - 1];
      assert forall i :: 0 <= i < |init| ==> items[i] == init[i];
      match Entries(init, schema, show)
      case Raises(op, v) => Raises(op, v)
      case Value(prefix) =>
        match ToEntry(last, schema, show)
        case None => Raises(GetCall, last)
        case Some(e) => Value(prefix + [e])
  }

  /** The loop of `_search_with_serp`, `_search_with_google` and
      `_search_with_bing` (search.py:92-97, 130-135, 162-167): each record in
      turn is mapped and appended to `results`. */
  method CollectResults(items: seq<Json>, schema: Schema, show: Json -> string) returns (r: Eval<seq<Entry>>)
    ensures r == Entries(items, schema, show)
  {
    var results: seq<Entry> := [];
    for i := 0 to |items|
      invariant Entries(items[..i], schema, show) == Value(results)
    {
      assert items[..i + 1][..i] == items[..i];
      var entry := ToEntry(items[i], schema, show);
      if entry.None? {
        assert Entries(items[..i + 1], schema, show) == Raises(GetCall, items[i]);
        PrefixRaises(items, schema, show, i + 1);
        return Raises(GetCall, items[i]);
      }
      results := results + [entry.value];
    }
    assert items[..|items|] == items;
    return Value(results);
  }

  /** Once a prefix raises, the mapping of the whole list raises on the same
      record: later records are never reached. */
  lemma {:induction false} PrefixRaises(items: seq<Json>, schema: Schema, show: Json -> string, k: nat)
    requires k <= |items| && Entries(items[..k], schema, show).Raises?
    ensures Entries(items, schema, show) == Entries(items[..k], schema, show)
    decreases |items| - k
  {
    if k < |items| {
      assert items[..k + 1][..k] == items[..k];
      PrefixRaises(items, schema, show, k + 1);
    } else {
      assert items[..k] == items;
    }
  }

  // ---------------------------------------------------------------------
  // _format_results (search.py:171-191)
  // ---------------------------------------------------------------------

  function NoResults(query: string): string {
    "No results found for query: " + query
  }

  function Header(query: string): string {
    "Search results for: " + query + "\n\n"
  }

  function TitleLine(i: nat, e: Entry): string {
    NatToString(i) + ". " + e.title + "\n"
  }

  function SnippetLine(e: Entry): string {
    "   " + e.snippet + "\n"
  }

  function UrlLine(e: Entry): string {
    "   URL: " + e.url + "\n\n"
  }

  /** The three lines of entry number `i`, and the blank line after them. */
  function Block(i: nat, e: Entry): string {
    TitleLine(i, e) + SnippetLine(e) + UrlLine(e)
  }

  /** The blocks of the entries, numbered from 1 in list order. */
  function Blocks(results: seq<Entry>): (r: seq<string>)
    ensures |r| == |results| && forall i :: 0 <= i < |results| ==> r[i] == Block(i + 1, results[i])
  {
    seq(|results|, i requires 0 <= i < |results| => Block(i + 1, results[i]))
  }

  /** The text `_format_results` returns. */
  function Formatted(query: string, results: seq<Entry>): (r: string)
    ensures results == [] ==> r == NoResults(query)
    ensures results != [] ==> |Header(query)| <= |r| && r[..|Header(query)|] == Header(query)
  {
    if results == [] then NoResults(query) else Header(query) + Join(Blocks(results), "")
  }

  /** A non-empty result list is rendered as the header followed by the
      listing, and entry `k` stands in the listing as block number `k + 1`,
      right after the blocks of the entries before it. */
  lemma EntryListed(query: string, results: seq<Entry>, k: nat)
    requires k < |results|
    ensures var listing := Join(Blocks(results), "");
      var start := Offset(Blocks(results), "", k);
      var block := Blocks(results)[k];
      && Formatted(query, results) == Header(query) + listing
      && start + |block| <= |listing|
      && listing[start..start + |block|] == block
      && block == Block(k + 1, results[k])
  {
    JoinAt(Blocks(results), "", k);
  }

  /** Gluing one more part, piece by piece, onto a joined listing. */
  lemma GlueStep(head: string, parts: seq<string>, i: nat, a: string, b: string, c: string)
    requires i < |parts| && parts[i] == a + b + c
    ensures head + Join(parts[..i], "") + a + b + c == head + Join(parts[..i + 1], "")
  {
    assert parts[..i + 1][..i] == parts[..i];
    if i == 0 {
      assert parts[..0] == [];
    }
    assert Join(parts[..i + 1], "") == Join(parts[..i], "") + parts[i];
  }

  /** `_format_results`: the header once, then each entry's block built
      line by line onto `output`. */
  method FormatResults(query: string, results: seq<Entry>) returns (output: string)
    ensures output == Formatted(query, results)
  {
    if |results| == 0 {
      return NoResults(query);
    }
    output := Header(query);
    assert Blocks(results)[..0] == [];
    for i := 0 to |results|
      invariant output == Header(query) + Join(Blocks(results)[..i], "")
    {
      output := output + TitleLine(i + 1, results[i]);
      output := output + SnippetLine(results[i]);
      output := output + UrlLine(results[i]);
      GlueStep(Header(query), Blocks(results), i, TitleLine(i + 1, results[i]), SnippetLine(results[i]), UrlLine(results[i]));
    }
    assert Blocks(results)[..|results|] == Blocks(results);
  }

  // ---------------------------------------------------------------------
  // run (search.py:44-67)
  // ---------------------------------------------------------------------

  const GoogleCseMissing := "GOOGLE_CSE_ID environment variable is required for Google search"

  function SearchError(message: string): string {
    "Search error: " + message
  }

  function Unsupported(engine: string): string {
    "Error: Unsupported search engine '" + engine + "'"
  }

  function SchemaOf(engine: string): Schema {
    if engine == "serp" then SerpSchema else if engine == "google" then GoogleSchema else BingSchema
  }

  /** What a search on a supported engine ends in: the entries to format,
      or the message of the exception raised on the way. */
  datatype Outcome = Found(results: seq<Entry>) | Fault(message: string)

  /** The search on a supported engine (search.py:56-61 and the
      `_search_with_*` methods): the Google CSE check, the request, the
      selection of the result records and their mapping. A successful search
      returns the entries of the selected records, one per record and in
      their order, at most `max_results` of them when that is not negative;
      an exception on the way, including one raised while selecting or
      mapping the records, ends it with that exception's message. */
  function Search(engine: string, maxResults: int, query: string, backend: Backend): (o: Outcome)
    requires engine in {"serp", "google", "bing"}
    ensures engine == "google" && backend.cseId == "" ==> o == Fault(GoogleCseMissing)
    ensures (engine != "google" || backend.cseId != "") && backend.fetch(engine, query, maxResults).Failed?
      ==> o == Fault(backend.fetch(engine, query, maxResults).message)
    ensures o.Found? ==>
      var response := backend.fetch(engine, query, maxResults);
      && response.Fetched?
      && ResultItems(engine, response.body, maxResults).Value?
      && Entries(ResultItems(engine, response.body, maxResults).value, SchemaOf(engine), backend.show) == Value(o.results)
    ensures (engine != "google" || backend.cseId != "") && backend.fetch(engine, query, maxResults).Fetched? ==>
      var items := ResultItems(engine, backend.fetch(engine, query, maxResults).body, maxResults);
      && (items.Raises? ==> o == Fault(backend.describe(items.op, items.culprit)))
      && (items.Value? && Entries(items.value, SchemaOf(engine), backend.show).Raises? ==>
            o == Fault(backend.describe(GetCall, Entries(items.value, SchemaOf(engine), backend.show).culprit)))
      && (items.Value? && Entries(items.value, SchemaOf(engine), backend.show).Value? ==>
            o == Found(Entries(items.value, SchemaOf(engine), backend.show).value))
    ensures o.Found? && maxResults >= 0 ==> |o.results| <= maxResults
  {
    if engine == "google" && backend.cseId == "" then Fault(GoogleCseMissing)
    else
      match backend.fetch(engine, query, maxResults)
      case Failed(message) => Fault(message)
      case Fetched(data) =>
        match ResultItems(engine, data, maxResults)
        case Raises(op, v) => Fault(backend.describe(op, v))
        case Value(items) =>
          match Entries(items, SchemaOf(engine), backend.show)
          case Raises(op, v) => Fault(backend.describe(op, v))
          case Value(results) => Found(results)
  }

  /** No formatted listing, empty or not, reads as a `Search error:`. */
  lemma FormattedIsNoError(query: string, results: seq<Entry>)
    ensures !StartsWith(Formatted(query, results), SearchError(""))
  {
    var r := Formatted(query, results);
    if results == [] {
      assert r[0] == 'N';
    } else {
      assert r[..|Header(query)|] == Header(query);
      assert r[7] == 'r';
    }
  }

  /** The search's outcome as `run` returns it: every raised exception
      becomes `Search error: <message>` (search.py:66-67), and the entries
      are formatted (search.py:65). */
  function Searched(engine: string, maxResults: int, query: string, backend: Backend): (r: string)
    requires engine in {"serp", "google", "bing"}
    ensures Search(engine, maxResults, query, backend).Fault? ==>
      r == SearchError(Search(engine, maxResults, query, backend).message)
    ensures Search(engine, maxResults, query, backend).Found? ==>
      r == Formatted(query, Search(engine, maxResults, query, backend).results)
    ensures StartsWith(r, SearchError("")) <==> Search(engine, maxResults, query, backend).Fault?
  {
    match Search(engine, maxResults, query, backend)
    case Fault(message) =>
      assert SearchError(message)[..|SearchError("")|] == SearchError("");
      SearchError(message)
    case Found(results) =>
      FormattedIsNoError(query, results);
      Formatted(query, results)
  }

  /** What `run` returns for an input: the unsupported-engine message, or
      the search on the stripped query. */
  function SearchOutput(engine: string, maxResults: int, input: string, backend: Backend): (r: string)
    ensures engine !in {"serp", "google", "bing"} ==> r == Unsupported(engine)
    ensures engine in {"serp", "google", "bing"} ==> r == Searched(engine, maxResults, StripWs(input), backend)
  {
    if engine == "serp" || engine == "google" || engine == "bing" then Searched(engine, maxResults, StripWs(input), backend)
    else Unsupported(engine)
  }

  /** The tool sees only the stripped query: surrounding whitespace on the
      input changes nothing. */
  lemma QueryStripped(engine: string, maxResults: int, input: string, backend: Backend)
    ensures SearchOutput(engine, maxResults, input, backend) == SearchOutput(engine, maxResults, StripWs(input), backend)
  {
    StripWsIdempotent(input);
  }

  /** The key an engine's results sit under at the top of the body. */
  function TopKey(engine: string): string {
    if engine == "serp" then "organic_results" else if engine == "google" then "items" else "webPages"
  }

  /** A decoded object without the engine's top-level key yields no results,
      so `run` reports that nothing was found for the query. */
  lemma MissingKeyNoResults(engine: string, maxResults: int, input: string, backend: Backend)
    requires engine in {"serp", "google", "bing"}
    requires engine != "google" || backend.cseId != ""
    requires var data := backend.fetch(engine, StripWs(input), maxResults);
      data.Fetched? && data.body.JObject? && TopKey(engine) !in data.body.fields
    ensures SearchOutput(engine, maxResults, input, backend) == NoResults(StripWs(input))
  {
    var query := StripWs(input);
    assert ResultItems(engine, backend.fetch(engine, query, maxResults).body, maxResults) == Value([]);
    assert Entries([], SchemaOf(engine), backend.show) == Value([]);
  }

  /** A body that decoded to a scalar fails the first membership test
      (`"organic_results" in data`, `"items" in data`, `"webPages" in data`),
      and `run` reports that `TypeError`. */
  lemma ScalarBodyFails(engine: string, maxResults: int, input: string, backend: Backend)
    requires engine in {"serp", "google", "bing"}
    requires engine != "google" || backend.cseId != ""
    requires var data := backend.fetch(engine, StripWs(input), maxResults);
      data.Fetched? && data.body.JScalar?
    ensures var body := backend.fetch(engine, StripWs(input), maxResults).body;
      SearchOutput(engine, maxResults, input, backend) == SearchError(backend.describe(MemberTest, body))
  {
  }

  /** A SerpAPI or Google object whose results key holds a scalar or an
      object fails at the slice `data[key][:max_results]`, and `run` reports
      that error for that value. */
  lemma UnsliceableResultsFail(engine: string, maxResults: int, input: string, backend: Backend)
    requires engine in {"serp", "google"}
    requires engine != "google" || backend.cseId != ""
    requires var data := backend.fetch(engine, StripWs(input), maxResults);
      && data.Fetched? && data.body.JObject? && TopKey(engine) in data.body.fields
      && (data.body.fields[TopKey(engine)].JScalar? || data.body.fields[TopKey(engine)].JObject?)
    ensures var data := backend.fetch(engine, StripWs(input), maxResults).body;
      SearchOutput(engine, maxResults, input, backend) == SearchError(backend.describe(Slicing, data.fields[TopKey(engine)]))
  {
  }

  /** `run` never raises: its text is one of the four kinds the source
      produces. */
  lemma OutputKinds(engine: string, maxResults: int, input: string, backend: Backend)
    ensures var r := SearchOutput(engine, maxResults, input, backend);
      var query := StripWs(input);
      || r == Unsupported(engine)
      || (exists m :: r == SearchError(m))
      || r == NoResults(query)
      || (|Header(query)| <= |r| && r[..|Header(query)|] == Header(query))
  {
    if engine in {"serp", "google", "bing"} {
      var query := StripWs(input);
      match Search(engine, maxResults, query, backend)
      case Fault(m) =>
        assert Searched(engine, maxResults, query, backend) == SearchError(m);
      case Found(results) =>
    }
  }

  /** The tool object: the engine name and the result limit it was built
      with. */
  class WebSearch {
    var searchEngine: string
    var maxResults: int

    constructor(searchEngine: string, maxResults: int)
      ensures this.searchEngine == searchEngine && this.maxResults == maxResults
    {
      this.searchEngine := searchEngine;
      this.maxResults := maxResults;
    }

    /** `run`: strip the query, dispatch on the engine, map and format. */
    method Run(inputText: string, backend: Backend) returns (output: string)
      ensures output == SearchOutput(searchEngine, maxResults, inputText, backend)
    {
      var query := StripWs(inputText);
      var engine := searchEngine;
      if !(engine == "serp" || engine == "google" || engine == "bing") {
        return Unsupported(engine);
      }
      if engine == "google" && backend.cseId == "" {
        return SearchError(GoogleCseMissing);
      }
      var response := backend.fetch(engine, query, maxResults);
      if response.Failed? {
        return SearchError(response.message);
      }
      var items := ResultItems(engine, response.body, maxResults);
      if items.Raises? {
        return SearchError(backend.describe(items.op, items.culprit));
      }
      var results := CollectResults(items.value, SchemaOf(engine), backend.show);
      if results.Raises? {
        return SearchError(backend.describe(results.op, results.culprit));
      }
      output := FormatResults(query, results.value);
    }
  }
}

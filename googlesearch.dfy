/** The `googlesearch` plugin: it validates its parameters (`query`, and
    `type`, normalised into a set of search types), opens one page, and
    for the "all" and "videos" types navigates to the result page and
    turns every result block into a `{link, title, description}` object.
    The DOM is an oracle: the blocks found on a page, each either readable
    or raising a panic, which the plugin recovers into an error. */
module GoogleSearch {
  import opened Values
  import opened Browser

  const PluginName := "googlesearch"

  /** The accepted search types, after lowercasing. */
  const SearchTypes: set<string> := {"all", "images", "news", "videos"}

  /** `unicode.ToLower` as far as it decides membership in the known
      types: ASCII capitals, and the only two other letters whose lowercase
      is ASCII, U+0130 (dotted capital I) and U+212A (Kelvin sign). Every
      other letter keeps or gains a non-ASCII form, which no known type
      contains, so it is left as it is. */
  function LowerChar(c: char): char
  {
    if 'A' <= c <= 'Z' then (c as int + 32) as char
    else if c == '\U{0130}' then 'i'
    else if c == '\U{212A}' then 'k'
    else c
  }

  function Lower(s: string): (r: string)
    ensures |r| == |s|
    ensures forall i :: 0 <= i < |s| ==> r[i] == LowerChar(s[i])
  {
    seq(|s|, i requires 0 <= i < |s| => LowerChar(s[i]))
  }

  /** One element of the `type` array: its lowered form, or the error the
      plugin reports for it. */
  function CheckType(t: Json): (r: Result<string, string>)
    ensures r.Ok? <==> t.JString? && Lower(t.s) in SearchTypes
    ensures r.Ok? ==> r.value == Lower(t.s)
    ensures !t.JString? ==> r == Err("'type' parameter must only contain strings")
    ensures t.JString? && r.Err? ==> r.error == "invalid search type: " + t.s
  {
    match t
    case JString(s) =>
      var lowered := Lower(s);
      if lowered in SearchTypes then Ok(lowered) else Err("invalid search type: " + s)
    case _ => Err("'type' parameter must only contain strings")
  }

  /** The `type` array checked in order, as the loop over it does: the set
      of lowered types, or the error of the first element that fails. */
  function ParseTypes(items: seq<Json>): Result<set<string>, string>
  {
    if items == [] then Ok({})
    else
      match ParseTypes(items[..|items| - 1])
      case Err(e) => Err(e)
      case Ok(acc) =>
        match CheckType(items[|items| - 1])
        case Err(e) => Err(e)
        case Ok(t) => Ok(acc + {t})
  }

  /** The loop over `type` that fills `searchTypesMap`. */
  method CollectTypes(items: seq<Json>) returns (r: Result<set<string>, string>)
    ensures r == ParseTypes(items)
  {
    var found: set<string> := {};
    var i := 0;
    while i < |items|
      invariant 0 <= i <= |items|
      invariant ParseTypes(items[..i]) == Ok(found)
    {
      assert items[..i + 1][..i] == items[..i];
      var checked := CheckType(items[i]);
      if checked.Err? {
        r := Err(checked.error);
        assert ParseTypes(items[..i + 1]) == r;
        PrefixErrorSticks(items, i + 1);
        return;
      }
      found := found + {checked.value};
      i := i + 1;
    }
    assert items[..i] == items;
    r := Ok(found);
  }

  /** Once a prefix of `type` fails, the whole array fails the same way. */
  lemma {:induction false} PrefixErrorSticks(items: seq<Json>, n: nat)
    requires n <= |items|
    requires ParseTypes(items[..n]).Err?
    ensures ParseTypes(items) == ParseTypes(items[..n])
    decreases |items| - n
  {
    if n == |items| {
      assert items[..n] == items;
    } else {
      assert items[..n + 1][..n] == items[..n];
      PrefixErrorSticks(items, n + 1);
    }
  }

  /** `type` is accepted exactly when every element is, and then the set
      holds precisely the lowered elements, duplicates collapsed. */
  lemma {:induction false} ParseTypesOk(items: seq<Json>)
    ensures ParseTypes(items).Ok? <==> forall j :: 0 <= j < |items| ==> CheckType(items[j]).Ok?
    ensures ParseTypes(items).Ok? ==>
      forall t :: t in ParseTypes(items).value <==> exists j :: 0 <= j < |items| && CheckType(items[j]) == Ok(t)
  {
    if items != [] {
      var init := items[..|items| - 1];
      ParseTypesOk(init);
      assert forall j :: 0 <= j < |init| ==> init[j] == items[j];
    }
  }

  /** The first element that fails decides the error, whatever follows. */
  lemma {:induction false} FirstBadDecides(items: seq<Json>, i: nat)
    requires i < |items|
    requires CheckType(items[i]).Err?
    requires forall j :: 0 <= j < i ==> CheckType(items[j]).Ok?
    ensures ParseTypes(items) == Err(CheckType(items[i]).error)
  {
    var prefix := items[..i];
    ParseTypesOk(prefix);
    assert forall j :: 0 <= j < |prefix| ==> prefix[j] == items[j];
    assert items[..i + 1][..i] == prefix;
    assert ParseTypes(items[..i + 1]) == Err(CheckType(items[i]).error);
    PrefixErrorSticks(items, i + 1);
  }

  /** "İMAGES" (with a dotted capital I) lowers to "images" and is
      accepted; the error for an unknown type quotes it as given. */
  lemma DottedCapitalAccepted()
    ensures CheckType(JString("\U{0130}MAGES")) == Ok("images")
    ensures CheckType(JString("Pictures")) == Err("invalid search type: " + "Pictures")
  {
    assert Lower("\U{0130}MAGES") == "images";
    assert Lower("Pictures") == "pictures";
    assert |"pictures"| == 8;
  }

  /** Accepted types are lowercase members of the four known types. */
  lemma ParsedTypesAllowed(items: seq<Json>)
    requires ParseTypes(items).Ok?
    ensures ParseTypes(items).value <= SearchTypes
    ensures forall t :: t in ParseTypes(items).value ==> Lower(t) == t
  {
    ParseTypesOk(items);
  }

  /** The validated parameters: the query text and the requested types. */
  datatype Query = Query(text: string, types: set<string>)

  /** Parameter validation of `Run`, before any page exists. */
  function Validate(params: Params): (r: Result<Query, string>)
    ensures r.Ok? <==> "query" in params && params["query"].JString? &&
                       ("type" in params ==> params["type"].JArray? && ParseTypes(params["type"].items).Ok?)
    ensures r.Ok? ==> r.value.text == params["query"].s
    ensures r.Ok? && "type" !in params ==> r.value.types == {"all"}
    ensures r.Ok? && "type" in params ==> r.value.types == ParseTypes(params["type"].items).value
  {
    if "query" !in params then Err("missing 'query' parameter")
    else if !params["query"].JString? then Err("'query' parameter must be a string")
    else
      var q := params["query"].s;
      if "type" !in params then Ok(Query(q, {"all"}))
      else if !params["type"].JArray? then Err("'type' parameter must be an array of strings")
      else
        match ParseTypes(params["type"].items)
        case Err(e) => Err(e)
        case Ok(ts) => Ok(Query(q, ts))
  }

  /** The error cases of validation, and the default type set. */
  lemma ValidationCases(params: Params)
    ensures "query" !in params ==> Validate(params) == Err("missing 'query' parameter")
    ensures "query" in params && !params["query"].JString? ==>
      Validate(params) == Err("'query' parameter must be a string")
    ensures "query" in params && params["query"].JString? && "type" !in params ==>
      Validate(params) == Ok(Query(params["query"].s, {"all"}))
    ensures "query" in params && params["query"].JString? && "type" in params && !params["type"].JArray? ==>
      Validate(params) == Err("'type' parameter must be an array of strings")
    ensures Validate(params).Ok? ==> Validate(params).value.types <= SearchTypes
  {
    if Validate(params).Ok? && "type" in params {
      ParsedTypesAllowed(params["type"].items);
    }
  }

  /** One result block as the DOM oracle reports it: the `href` of its link
      (`nil` when absent), the text of its `h3`, the texts of its spans;
      or the panic raised while reading it. */
  datatype Block =
    | Block(link: Option<string>, title: string, spans: seq<string>)
    | BrokenBlock(panic: string)

  /** The panic Go raises for `spans[len(spans)-1]` on an empty slice. */
  const EmptySpansPanic := "runtime error: index out of range [-1]"

  function LinkJson(link: Option<string>): Json
  {
    match link
    case None => JNull
    case Some(s) => JString(s)
  }

  /** The result object of one block, or the panic it raises. */
  function BlockResult(b: Block): Result<Json, string>
  {
    match b
    case BrokenBlock(p) => Err(p)
    case Block(link, title, spans) =>
      if spans == [] then Err(EmptySpansPanic)
      else Ok(JObject(map["link" := LinkJson(link), "title" := JString(title),
                          "description" := JString(spans[|spans| - 1])]))
  }

  /** The loop over the blocks of a result page, appending one object per
      block until a block panics. */
  function BlockResults(blocks: seq<Block>): Result<seq<Json>, string>
  {
    if blocks == [] then Ok([])
    else
      match BlockResults(blocks[..|blocks| - 1])
      case Err(p) => Err(p)
      case Ok(acc) =>
        match BlockResult(blocks[|blocks| - 1])
        case Err(p) => Err(p)
        case Ok(o) => Ok(acc + [o])
  }

  /** Results come one per block and in page order. */
  lemma {:induction false} BlockResultsInOrder(blocks: seq<Block>)
    requires BlockResults(blocks).Ok?
    ensures |BlockResults(blocks).value| == |blocks|
    ensures forall i :: 0 <= i < |blocks| ==> BlockResult(blocks[i]) == Ok(BlockResults(blocks).value[i])
  {
    if blocks != [] {
      var init := blocks[..|blocks| - 1];
      BlockResultsInOrder(init);
      assert forall i :: 0 <= i < |init| ==> init[i] == blocks[i];
    }
  }

  /** The loop of one section, `searchResults = append(...)`. */
  method ScrapeBlocks(blocks: seq<Block>) returns (r: Result<seq<Json>, string>)
    ensures r == BlockResults(blocks)
  {
    var results: seq<Json> := [];
    var i := 0;
    while i < |blocks|
      invariant 0 <= i <= |blocks|
      invariant BlockResults(blocks[..i]) == Ok(results)
    {
      assert blocks[..i + 1][..i] == blocks[..i];
      var one := BlockResult(blocks[i]);
      if one.Err? {
        r := Err(one.error);
        assert BlockResults(blocks[..i + 1]) == r;
        BlockPanicSticks(blocks, i + 1);
        return;
      }
      results := results + [one.value];
      i := i + 1;
    }
    assert blocks[..i] == blocks;
    r := Ok(results);
  }

  lemma {:induction false} BlockPanicSticks(blocks: seq<Block>, n: nat)
    requires n <= |blocks|
    requires BlockResults(blocks[..n]).Err?
    ensures BlockResults(blocks) == BlockResults(blocks[..n])
    decreases |blocks| - n
  {
    if n == |blocks| {
      assert blocks[..n] == blocks;
    } else {
      assert blocks[..n + 1][..n] == blocks[..n];
      BlockPanicSticks(blocks, n + 1);
    }
  }

  /** What the browser does for this plugin: whether a page can be opened,
      navigation failures per URL, the blocks found on a loaded page (or
      the panic of waiting for it), and `url.QueryEscape`. */
  datatype SearchBrowser = SearchBrowser(
    newPage: Option<string>,
    navigate: string -> Option<string>,
    blocks: string -> Result<seq<Block>, string>,
    escape: string -> string)

  /** The result-page URL built with `url.Values.Encode` (keys sorted). */
  function SearchUrl(b: SearchBrowser, query: string, videos: bool): string
  {
    "https://www.google.com/search?q=" + b.escape(query) + (if videos then "&tbm=vid" else "")
  }

  /** Both sections search the same query; the videos page only adds
      `tbm=vid`, which `Encode` places after `q` since it sorts the keys. */
  lemma VideosUrlExtendsAll(b: SearchBrowser, query: string)
    ensures SearchUrl(b, query, true) == SearchUrl(b, query, false) + "&tbm=vid"
  {
  }

  /** One section ("all" or "videos"): navigate, wait, scrape. */
  function Section(b: SearchBrowser, url: string, section: string): Result<seq<Json>, string>
  {
    match b.navigate(url)
    case Some(e) => Err("failed to navigate to '" + section + "' page: " + e)
    case None =>
      match b.blocks(url)
      case Err(p) => Err("failed to complete: " + p)
      case Ok(blocks) =>
        match BlockResults(blocks)
        case Err(p) => Err("failed to complete: " + p)
        case Ok(rs) => Ok(rs)
  }

  /** The output once the page exists: "all" first, then "videos", each
      only when requested; the first failing section ends the call. */
  function Shape(q: Query, b: SearchBrowser): Result<Params, string>
  {
    var all := if "all" in q.types then Section(b, SearchUrl(b, q.text, false), "all") else Ok([]);
    if all.Err? then Err(all.error)
    else
      var videos := if "videos" in q.types then Section(b, SearchUrl(b, q.text, true), "videos") else Ok([]);
      if videos.Err? then Err(videos.error)
      else
        var out: Params := map[];
        var out := if "all" in q.types then out["all" := JArray(all.value)] else out;
        var out := if "videos" in q.types then out["videos" := JArray(videos.value)] else out;
        Ok(out)
  }

  /** `GoogleSearch.Run` as a function of its parameters and the browser. */
  function Search(params: Params, b: SearchBrowser): Result<Params, string>
  {
    match Validate(params)
    case Err(e) => Err(e)
    case Ok(q) =>
      if b.newPage.Some? then Err("failed to create stealth page: " + b.newPage.value)
      else Shape(q, b)
  }

  /** The output has "all" exactly when "all" was requested and "videos"
      exactly when "videos" was; "images" and "news" produce nothing. */
  lemma OutputSections(params: Params, b: SearchBrowser)
    requires Search(params, b).Ok?
    ensures Validate(params).Ok?
    ensures Search(params, b).value.Keys == Validate(params).value.types * {"all", "videos"}
  {
  }

  /** An empty `type` array is valid and yields an empty output. */
  lemma EmptyTypesEmptyOutput(params: Params, b: SearchBrowser)
    requires "query" in params && params["query"].JString?
    requires "type" in params && params["type"] == JArray([])
    requires b.newPage.None?
    ensures Search(params, b) == Ok(map[])
  {
  }

  /** `GoogleSearch.Run`: validates, then opens a page that every exit
      path closes again. */
  method Run(params: Params, session: Session, b: SearchBrowser) returns (r: Result<Params, string>)
    requires session.Valid()
    modifies session
    ensures session.Valid()
    ensures r == Search(params, b)
    ensures session.open == old(session.open)
    ensures Validate(params).Err? ==> session.created == old(session.created)
  {
    if "query" !in params {
      return Err("missing 'query' parameter");
    }
    if !params["query"].JString? {
      return Err("'query' parameter must be a string");
    }
    var text := params["query"].s;
    var types: set<string>;
    if "type" in params {
      if !params["type"].JArray? {
        return Err("'type' parameter must be an array of strings");
      }
      var parsed := CollectTypes(params["type"].items);
      if parsed.Err? {
        return Err(parsed.error);
      }
      types := parsed.value;
    } else {
      types := {"all"};
    }
    var q := Query(text, types);
    assert Validate(params) == Ok(q);

    var page := session.OpenPage(b.newPage);
    if page.Err? {
      return Err("failed to create stealth page: " + page.error);
    }
    var all: seq<Json> := [];
    if "all" in types {
      var section, url := "all", SearchUrl(b, text, false);
      var nav := b.navigate(url);
      if nav.Some? {
        session.ClosePage(page.value);
        return Err("failed to navigate to '" + section + "' page: " + nav.value);
      }
      var blocks := b.blocks(url);
      if blocks.Err? {
        session.ClosePage(page.value);
        return Err("failed to complete: " + blocks.error);
      }
      var results := ScrapeBlocks(blocks.value);
      if results.Err? {
        session.ClosePage(page.value);
        return Err("failed to complete: " + results.error);
      }
      assert Section(b, url, section) == results;
      all := results.value;
    }
    var videos: seq<Json> := [];
    if "videos" in types {
      var section, url := "videos", SearchUrl(b, text, true);
      var nav := b.navigate(url);
      if nav.Some? {
        session.ClosePage(page.value);
        return Err("failed to navigate to '" + section + "' page: " + nav.value);
      }
      var blocks := b.blocks(url);
      if blocks.Err? {
        session.ClosePage(page.value);
        return Err("failed to complete: " + blocks.error);
      }
      var results := ScrapeBlocks(blocks.value);
      if results.Err? {
        session.ClosePage(page.value);
        return Err("failed to complete: " + results.error);
      }
      assert Section(b, url, section) == results;
      videos := results.value;
    }
    var output: Params := map[];
    if "all" in types {
      output := output["all" := JArray(all)];
    }
    if "videos" in types {
      output := output["videos" := JArray(videos)];
    }
    session.ClosePage(page.value);
    r := Ok(output);
  }
}

/**
 * URL path and query handling (`workers/src/url_handler.py`, and its copy in
 * `workers/src/api_entry.py`). `urlparse` is represented by its two outputs:
 * the raw path and the query's name/value pairs as `parse_qs` splits and
 * percent-decodes them. `unquote` is a parameter.
 */
module UrlHandler {
  import opened Strings

  /** `s.replace(" ", "_").strip("/")`. */
  function SanitizeString(s: string): (r: string)
    ensures ' ' !in r
    ensures r == [] || (r[0] != '/' && r[|r| - 1] != '/')
  {
    Strip(ReplaceChar(s, ' ', '_'), '/')
  }

  lemma ReplaceAbsent(s: string, a: char, b: char)
    requires a !in s
    ensures ReplaceChar(s, a, b) == s
  {
    var r := ReplaceChar(s, a, b);
    assert forall i :: 0 <= i < |s| ==> r[i] == s[i] by {
      forall i | 0 <= i < |s| ensures r[i] == s[i] {
        assert s[i] in s;
      }
    }
  }

  /** Sanitizing twice is sanitizing once. */
  lemma SanitizeIdempotent(s: string)
    ensures SanitizeString(SanitizeString(s)) == SanitizeString(s)
  {
    var r := SanitizeString(s);
    ReplaceAbsent(r, ' ', '_');
    StripFixed(r, '/');
  }

  /**
   * `parse_qs(query)` reduced to the first value of each name: pairs with an
   * empty value are dropped (`keep_blank_values` is off), and of the rest the
   * earliest pair for a name wins.
   */
  function FirstValues(pairs: seq<(string, string)>): (m: map<string, string>)
    ensures forall k :: k in m ==> m[k] != ""
  {
    if pairs == [] then map[]
    else
      var rest := FirstValues(pairs[1..]);
      if pairs[0].1 == "" then rest else rest[pairs[0].0 := pairs[0].1]
  }

  /** The first non-blank value given for a name is the one kept. */
  lemma {:induction false} FirstValueKept(pairs: seq<(string, string)>, i: nat)
    requires i < |pairs| && pairs[i].1 != ""
    requires forall j :: 0 <= j < i ==> pairs[j].0 != pairs[i].0 || pairs[j].1 == ""
    ensures pairs[i].0 in FirstValues(pairs) && FirstValues(pairs)[pairs[i].0] == pairs[i].1
  {
    if i > 0 {
      FirstValueKept(pairs[1..], i - 1);
    }
  }

  /** A name that never has a non-blank value is absent. */
  lemma {:induction false} BlankOnlyAbsent(pairs: seq<(string, string)>, k: string)
    requires forall j :: 0 <= j < |pairs| ==> pairs[j].0 != k || pairs[j].1 == ""
    ensures k !in FirstValues(pairs)
  {
    if pairs != [] {
      BlankOnlyAbsent(pairs[1..], k);
    }
  }

  /** `{k: sanitize_string(unquote(v[0])) for k, v in parse_qs(query).items()}`. */
  function QueryParams(pairs: seq<(string, string)>, unquote: string -> string): (params: map<string, string>)
    ensures params.Keys == FirstValues(pairs).Keys
    ensures forall k :: k in params ==> params[k] == SanitizeString(unquote(FirstValues(pairs)[k]))
  {
    var first := FirstValues(pairs);
    map k | k in first :: SanitizeString(unquote(first[k]))
  }

  /** Python's `xs[1:-1]`. */
  function Inner(xs: seq<string>): seq<string> {
    if |xs| >= 2 then xs[1..|xs| - 1] else []
  }

  /**
   * The download classification of url_handler.py: a "download/…/token" path
   * becomes "download_token", any other "download/…" path "download", each
   * with the file name written into the parameters; other paths are left alone.
   */
  function Classify(urlPath: string, params: map<string, string>): (r: (string, map<string, string>))
    ensures r.0 in {"download", "download_token"} || r.0 == urlPath
    ensures r.1.Keys - {"file_name"} == params.Keys - {"file_name"}
    ensures forall k :: k in r.1 && k != "file_name" ==> k in params && r.1[k] == params[k]
  {
    if StartsWith(urlPath, "download/") && EndsWith(urlPath, "/token") then
      ("download_token", params["file_name" := Join(Inner(Split(urlPath, '/')), '/')])
    else if StartsWith(urlPath, "download/") then
      ("download", params["file_name" := Join(Split(urlPath, '/')[1..], '/')])
    else (urlPath, params)
  }

  /** `get_url_path_and_params` of url_handler.py. */
  function GetUrlPathAndParams(path: string, query: seq<(string, string)>, unquote: string -> string)
    : (r: (string, map<string, string>))
    ensures r.0 == [] || (r.0[0] != '/' && r.0[|r.0| - 1] != '/')
    ensures forall k :: k in r.1 && k != "file_name" ==>
      k in FirstValues(query) && r.1[k] == SanitizeString(unquote(FirstValues(query)[k]))
    ensures forall k :: k in FirstValues(query) ==> k in r.1
  {
    Classify(Strip(unquote(path), '/'), QueryParams(query, unquote))
  }

  lemma SplitDownload(m: string)
    ensures Split("download/" + m, '/') == ["download"] + Split(m, '/')
  {
    assert "download/" + m == "download" + ['/'] + m;
    SplitConcat("download", m, '/');
    SplitNoSep("download", '/');
  }

  lemma SplitDownloadToken(m: string)
    ensures Split("download/" + m + "/token", '/') == ["download"] + Split(m, '/') + ["token"]
  {
    assert "download/" + m + "/token" == "download/" + (m + ['/'] + "token");
    SplitDownload(m + ['/'] + "token");
    SplitConcat(m, "token", '/');
    SplitNoSep("token", '/');
  }

  /**
   * "download/<m>/token" is the token route, and its file name is the middle
   * `m` itself, overriding any `file_name` query parameter.
   */
  lemma ClassifyToken(m: string, params: map<string, string>)
    ensures Classify("download/" + m + "/token", params) == ("download_token", params["file_name" := m])
  {
    var p := "download/" + m + "/token";
    assert p[..9] == "download/";
    assert p[|p| - 6..] == "/token";
    SplitDownloadToken(m);
    var parts := Split(p, '/');
    assert Inner(parts) == Split(m, '/');
    JoinSplit(m, '/');
  }

  /**
   * Any other "download/<rest>" path is the download route, and its file name
   * is everything after the first segment, unsanitized.
   */
  lemma ClassifyDownload(rest: string, params: map<string, string>)
    requires !EndsWith("download/" + rest, "/token")
    ensures Classify("download/" + rest, params) == ("download", params["file_name" := rest])
  {
    var p := "download/" + rest;
    assert p[..9] == "download/";
    SplitDownload(rest);
    assert Split(p, '/')[1..] == Split(rest, '/');
    JoinSplit(rest, '/');
  }

  /** Paths outside "download/" pass through with the parameters untouched. */
  lemma ClassifyOther(urlPath: string, params: map<string, string>)
    requires !StartsWith(urlPath, "download/")
    ensures Classify(urlPath, params) == (urlPath, params)
  {
  }

  /**
   * The copy in api_entry.py: identical except that the token route is also
   * called "download", so issuing and redeeming are told apart only by the
   * `token` parameter.
   */
  function EntryGetUrlPathAndParams(path: string, query: seq<(string, string)>, unquote: string -> string)
    : (r: (string, map<string, string>))
    ensures r.0 == "download" || r.0 == Strip(unquote(path), '/')
  {
    var urlPath := Strip(unquote(path), '/');
    var params := QueryParams(query, unquote);
    if StartsWith(urlPath, "download/") && EndsWith(urlPath, "/token") then
      ("download", params["file_name" := Join(Inner(Split(urlPath, '/')), '/')])
    else if StartsWith(urlPath, "download/") then
      ("download", params["file_name" := Join(Split(urlPath, '/')[1..], '/')])
    else (urlPath, params)
  }

  /** The two copies differ only in the name of the token route. */
  lemma CopiesDiffer(path: string, query: seq<(string, string)>, unquote: string -> string)
    ensures var urlPath := Strip(unquote(path), '/');
      var r := GetUrlPathAndParams(path, query, unquote);
      EntryGetUrlPathAndParams(path, query, unquote)
        == if StartsWith(urlPath, "download/") && EndsWith(urlPath, "/token") then ("download", r.1) else r
  {
  }
}

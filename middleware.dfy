/** query_optimizer/middleware.py: `QueryCaptureMiddleware`, which records
    every watched query executed while a request is handled. */
module Middleware {
  import opened Wrappers
  import opened Text
  import opened Settings
  import opened Models
  import opened Store
  import opened Capture
  import Utils

  // ---------------------------------------------------------------------
  // Construction: __init__ and check_config
  // ---------------------------------------------------------------------

  /** The `ValueError`s (and the `TypeError` of the list concatenation) that
      construction can raise. */
  datatype ConfigError =
    | ConfigNotSet           // QUERY_OPTIMIZER_CONFIG missing or empty
    | ExcludedPathsNotList   // `excluded_paths + [...]` fails
    | WatchedModelsNotList
    | ThresholdNotNumber

  /** The prefixes the middleware always excludes, after the configured ones. */
  const BuiltinExcludedPaths: seq<string> := ["/admin/", "/static/", "/media/"]

  const DefaultThreshold: Value := Float(0.5)

  /** The middleware's configuration, fixed at construction. `watchedModels`
      is the configured list, or empty when the setting is a falsy non-list
      (which the source also treats as "watch everything"). */
  datatype QueryCaptureMiddleware = QueryCaptureMiddleware(
    watchedModels: seq<string>,
    excludedPaths: seq<string>,
    slowQueryThreshold: Value)

  /** `QueryCaptureMiddleware.__init__`, including `check_config`. */
  function Init(config: Option<Config>): (r: Result<QueryCaptureMiddleware, ConfigError>)
    ensures (config.None? || config.value == map[]) <==> r == Failure(ConfigNotSet)
    ensures r.Success? ==>
      var c := config.value;
      && Get(c, "excluded_paths", StrList([])).StrList?
      && r.value.excludedPaths == Get(c, "excluded_paths", StrList([])).items + BuiltinExcludedPaths
      && r.value.slowQueryThreshold == Get(c, "slow_query_threshold", DefaultThreshold)
      && (Truthy(r.value.slowQueryThreshold) ==> IsNumber(r.value.slowQueryThreshold))
      && (Get(c, "watched_models", StrList([])).StrList? ==> r.value.watchedModels == Get(c, "watched_models", StrList([])).items)
      && (!Get(c, "watched_models", StrList([])).StrList? ==> r.value.watchedModels == [] && !Truthy(Get(c, "watched_models", StrList([]))))
    ensures config.Some? && config.value != map[] ==>
      var ex := Get(config.value, "excluded_paths", StrList([]));
      var wm := Get(config.value, "watched_models", StrList([]));
      var t := Get(config.value, "slow_query_threshold", DefaultThreshold);
      && (r == Failure(ExcludedPathsNotList) <==> !ex.StrList?)
      && (r == Failure(WatchedModelsNotList) <==> ex.StrList? && Truthy(wm) && !wm.StrList?)
      && (r == Failure(ThresholdNotNumber) <==>
            ex.StrList? && !(Truthy(wm) && !wm.StrList?) && Truthy(t) && !IsNumber(t))
      && (r.Success? <==>
            ex.StrList? && !(Truthy(wm) && !wm.StrList?) && !(Truthy(t) && !IsNumber(t)))
  {
    if config.None? || config.value == map[] then Failure(ConfigNotSet)
    else
      var c := config.value;
      var watched := Get(c, "watched_models", StrList([]));
      var excluded := Get(c, "excluded_paths", StrList([]));
      if !excluded.StrList? then Failure(ExcludedPathsNotList)
      else
        var threshold := Get(c, "slow_query_threshold", DefaultThreshold);
        if Truthy(watched) && !watched.StrList? then Failure(WatchedModelsNotList)
        else if Truthy(threshold) && !IsNumber(threshold) then Failure(ThresholdNotNumber)
        else
          Success(QueryCaptureMiddleware(
            if watched.StrList? then watched.items else [],
            excluded.items + BuiltinExcludedPaths,
            threshold))
  }

  /** The built-in prefixes always end the effective exclusion list. */
  lemma BuiltinsNeverDropped(config: Option<Config>)
    requires Init(config).Success?
    ensures var paths := Init(config).value.excludedPaths;
      |paths| >= 3 && paths[|paths| - 3..] == BuiltinExcludedPaths
  {
    var paths := Init(config).value.excludedPaths;
    var configured := Get(config.value, "excluded_paths", StrList([])).items;
    assert paths == configured + BuiltinExcludedPaths;
    assert paths[|paths| - 3..] == paths[|configured|..];
  }

  /** `check_config` accepts only an `int` or `float` when the threshold is
      truthy, so a `Decimal` threshold is accepted only when it is zero;
      it then compares, and every query slower than zero is slow. */
  lemma DecimalThresholdOnlyWhenZero(q: real)
    ensures var config := map["slow_query_threshold" := Decimal(q)];
      && (Init(Some(config)).Success? <==> q == 0.0)
      && (q != 0.0 ==> Init(Some(config)) == Failure(ThresholdNotNumber))
      && (Init(Some(config)).Success? ==>
            forall duration: real :: GreaterThan(duration, Init(Some(config)).value.slowQueryThreshold) == Some(duration > 0.0))
  {
  }

  // ---------------------------------------------------------------------
  // urlparse(path).path
  // ---------------------------------------------------------------------

  /** `s.split(c, 1)[0]`: `s` up to its first `c`. */
  function BeforeChar(s: string, c: char): (r: string)
    ensures r <= s
    ensures c !in r
    ensures |r| < |s| ==> s[|r|] == c
  {
    if |s| == 0 then s
    else if s[0] == c then []
    else [s[0]] + BeforeChar(s[1..], c)
  }

  lemma {:induction false} BeforeCharShift(a: string, b: string, c: char)
    requires c !in a
    ensures BeforeChar(a + b, c) == a + BeforeChar(b, c)
  {
    if |a| > 0 {
      assert (a + b)[1..] == a[1..] + b;
      BeforeCharShift(a[1..], b, c);
    } else {
      assert a + b == b;
    }
  }

  lemma BeforeAbsentChar(s: string, c: char)
    requires c !in s
    ensures BeforeChar(s, c) == s
  {
  }

  /** The characters `urlsplit` deletes wherever they occur. */
  predicate Unsafe(c: char) {
    c == '\t' || c == '\r' || c == '\n'
  }

  function RemoveUnsafe(s: string): (r: string)
    ensures |r| <= |s|
  {
    if |s| == 0 then []
    else (if Unsafe(s[0]) then [] else [s[0]]) + RemoveUnsafe(s[1..])
  }

  /** Exactly the removed characters are gone. */
  lemma {:induction false} RemoveUnsafeRemoves(s: string)
    ensures forall c :: c in RemoveUnsafe(s) <==> c in s && !Unsafe(c)
  {
    if |s| > 0 {
      RemoveUnsafeRemoves(s[1..]);
      assert s == [s[0]] + s[1..];
    }
  }

  lemma {:induction false} RemoveUnsafeConcat(a: string, b: string)
    ensures RemoveUnsafe(a + b) == RemoveUnsafe(a) + RemoveUnsafe(b)
  {
    if |a| > 0 {
      assert (a + b)[1..] == a[1..] + b;
      RemoveUnsafeConcat(a[1..], b);
    } else {
      assert a + b == b;
    }
  }

  lemma {:induction false} RemoveUnsafeKeepsSafe(s: string)
    requires forall c :: c in s ==> !Unsafe(c)
    ensures RemoveUnsafe(s) == s
  {
    if |s| > 0 {
      RemoveUnsafeKeepsSafe(s[1..]);
    }
  }

  /** `s.lstrip(...)` of the C0 control characters and space. */
  function LStripControl(s: string): (r: string)
    ensures |r| <= |s| && r == s[|s| - |r|..]
    ensures |r| > 0 ==> r[0] > ' '
  {
    if |s| > 0 && s[0] <= ' ' then LStripControl(s[1..]) else s
  }

  /** The first index from `i` on that holds '/', '?' or '#', or the end. */
  function NetlocEnd(s: string, i: nat): (d: nat)
    requires i <= |s|
    ensures i <= d <= |s|
    ensures forall k :: i <= k < d ==> s[k] != '/' && s[k] != '?' && s[k] != '#'
    ensures d < |s| ==> s[d] == '/' || s[d] == '?' || s[d] == '#'
    decreases |s| - i
  {
    if i == |s| || s[i] == '/' || s[i] == '?' || s[i] == '#' then i else NetlocEnd(s, i + 1)
  }

  lemma {:induction false} NetlocToEnd(s: string, i: nat)
    requires i <= |s|
    requires forall k :: i <= k < |s| ==> s[k] != '/' && s[k] != '?' && s[k] != '#'
    ensures NetlocEnd(s, i) == |s|
    decreases |s| - i
  {
    if i < |s| {
      NetlocToEnd(s, i + 1);
    }
  }

  /** A leading `//` starts a network location. */
  predicate HasNetloc(url: string) {
    |url| >= 2 && url[0] == '/' && url[1] == '/'
  }

  /** `_splitnetloc(url, 2)[0]` */
  function Netloc(url: string): string
    requires HasNetloc(url)
  {
    url[2..NetlocEnd(url, 2)]
  }

  /** The network location is not part of the path. */
  function AfterNetloc(url: string): string {
    if HasNetloc(url) then url[NetlocEnd(url, 2)..] else url
  }

  predicate IsAscii(s: string) {
    forall c :: c in s ==> c < 128 as char
  }

  /** The checks `urlsplit` makes of a network location: a '[' without a
      ']' (or the reverse) is an invalid IPv6 URL; a bracketed host
      (`_check_bracketed_netloc`) and a non-ASCII one (`_checknetloc`) are
      judged by `netlocOk`. */
  predicate NetlocValid(netloc: string, netlocOk: string -> bool) {
    && ('[' in netloc <==> ']' in netloc)
    && (('[' in netloc || !IsAscii(netloc)) ==> netlocOk(netloc))
  }

  predicate IsAsciiLetter(c: char) {
    'a' <= c <= 'z' || 'A' <= c <= 'Z'
  }

  /** `scheme_chars` */
  predicate SchemeChar(c: char) {
    IsAsciiLetter(c) || '0' <= c <= '9' || c == '+' || c == '-' || c == '.'
  }

  /** The index of the ':' that ends a scheme: the first ':' when it is not
      at the start, the URL starts with an ASCII letter and everything
      before the ':' is a scheme character. */
  function SchemeEnd(url: string): (i: Option<nat>)
    ensures i.Some? ==> 0 < i.value < |url| && url[i.value] == ':' && IsAsciiLetter(url[0])
    ensures |url| > 0 && !IsAsciiLetter(url[0]) ==> i.None?
  {
    match FindCharFrom(url, ':', 0)
    case None => None
    case Some(i) =>
      if i > 0 && IsAsciiLetter(url[0]) && forall k :: 0 <= k < i ==> SchemeChar(url[k]) then Some(i) else None
  }

  /** `uses_params`: the schemes whose last path segment may carry `;` parameters. */
  const ParamSchemes: seq<string> := ["", "ftp", "hdl", "prospero", "http", "imap", "https", "shttp",
    "rtsp", "rtsps", "rtspu", "sip", "sips", "mms", "sftp", "tel"]

  /** `name in names`, one name at a time. */
  predicate Listed(name: string, names: seq<string>)
    decreases |names|
  {
    |names| > 0 && (name == names[0] || Listed(name, names[1..]))
  }

  function LastIndexOf(s: string, c: char): (r: Option<nat>)
    ensures r.Some? ==> r.value < |s| && s[r.value] == c && forall j :: r.value < j < |s| ==> s[j] != c
    ensures r.None? ==> c !in s
  {
    if |s| == 0 then None
    else if s[|s| - 1] == c then Some(|s| - 1)
    else
      assert s == s[..|s| - 1] + [s[|s| - 1]];
      LastIndexOf(s[..|s| - 1], c)
  }

  /** `s.find(c, i)` */
  function FindCharFrom(s: string, c: char, i: nat): (r: Option<nat>)
    ensures r.Some? ==> i <= r.value < |s| && s[r.value] == c
    ensures r.Some? ==> forall k :: i <= k < r.value ==> s[k] != c
    ensures r.None? ==> forall k :: i <= k < |s| ==> s[k] != c
    decreases |s| - i
  {
    if i >= |s| then None
    else if s[i] == c then Some(i)
    else FindCharFrom(s, c, i + 1)
  }

  /** `_splitparams`: a `;` in the last path segment starts the parameters. */
  function StripParams(url: string): (path: string)
    ensures path <= url
    ensures ';' !in url ==> path == url
  {
    if ';' !in url then url
    else
      match LastIndexOf(url, '/')
      case Some(slash) =>
        (match FindCharFrom(url, ';', slash)
         case None => url
         case Some(i) => url[..i])
      case None =>
        var first := FindCharFrom(url, ';', 0);
        if first.Some? then url[..first.value] else url
  }

  /** A prefix that ends with '/' and holds no ';' survives `_splitparams`:
      the parameters start after the last '/', which is inside or after it. */
  lemma StripParamsKeepsPrefix(pre: string, rest: string)
    requires |pre| > 0 && pre[|pre| - 1] == '/' && ';' !in pre
    ensures StartsWith(StripParams(pre + rest), pre)
  {
    var url := pre + rest;
    assert url[..|pre|] == pre;
    if ';' in url {
      var slash := LastIndexOf(url, '/');
      assert url[|pre| - 1] == '/';
      assert slash.Some? && slash.value >= |pre| - 1;
      var i := FindCharFrom(url, ';', slash.value);
      if i.Some? {
        assert url[|pre| - 1] != ';';
        assert url[..i.value][..|pre|] == pre;
      }
    }
  }

  /** The path `urlsplit` finds in `url`, the scheme removed, with its
      parameters cut when `params`; None when the network location is
      refused. */
  function PathOf(url: string, params: bool, netlocOk: string -> bool): Option<string> {
    if HasNetloc(url) && !NetlocValid(Netloc(url), netlocOk) then None
    else
      var path := BeforeChar(BeforeChar(AfterNetloc(url), '#'), '?');
      Some(if params then StripParams(path) else path)
  }

  /** `urlparse(p).path`, or None when `urlsplit` raises `ValueError`. */
  function UrlPath(p: string, netlocOk: string -> bool): Option<string> {
    var cleaned := LStripControl(RemoveUnsafe(p));
    match SchemeEnd(cleaned)
    case None => PathOf(cleaned, true, netlocOk)
    case Some(i) => PathOf(cleaned[i + 1..], Listed(Lower(cleaned[..i]), ParamSchemes), netlocOk)
  }

  /** A URL that, once cleaned, starts with '/' has no scheme. */
  lemma UrlPathAtSlash(p: string, cleaned: string, netlocOk: string -> bool)
    requires cleaned == LStripControl(RemoveUnsafe(p)) && |cleaned| > 0 && cleaned[0] == '/'
    ensures UrlPath(p, netlocOk) == PathOf(cleaned, true, netlocOk)
  {
    assert !IsAsciiLetter(cleaned[0]);
  }

  /** Without a network location nothing is refused. */
  lemma PathWithoutNetloc(url: string, netlocOk: string -> bool)
    requires !HasNetloc(url)
    ensures PathOf(url, true, netlocOk) == Some(StripParams(BeforeChar(BeforeChar(url, '#'), '?')))
  {
  }

  /** An ordinary request path: it starts with one '/' and holds none of the
      characters `urlparse` treats specially. */
  predicate PlainPath(p: string) {
    && |p| > 0 && p[0] == '/' && !(|p| > 1 && p[1] == '/')
    && forall c :: c in p ==> c != '#' && c != '?' && c != ';' && !Unsafe(c)
  }

  /** Removal and stripping keep a string that starts with '/' and holds no
      removed character. */
  lemma {:induction false} CleanedUnchanged(s: string)
    requires |s| > 0 && s[0] == '/'
    requires forall c :: c in s ==> !Unsafe(c)
    ensures LStripControl(RemoveUnsafe(s)) == s
  {
    RemoveUnsafeKeepsSafe(s);
    assert LStripControl(s) == s;
  }

  /** `urlparse` keeps an ordinary path as it is. */
  lemma UrlPathOfPlainPath(p: string, netlocOk: string -> bool)
    requires PlainPath(p)
    ensures UrlPath(p, netlocOk) == Some(p)
  {
    CleanedUnchanged(p);
    UrlPathAtSlash(p, p, netlocOk);
    PathWithoutNetloc(p, netlocOk);
    BeforeAbsentChar(p, '#');
    BeforeAbsentChar(p, '?');
  }

  lemma RemoveUnsafeQueryPath(p: string, query: string)
    requires PlainPath(p)
    ensures RemoveUnsafe(p + "?" + query) == p + ("?" + RemoveUnsafe(query))
  {
    RemoveUnsafeConcat(p + "?", query);
    RemoveUnsafeConcat(p, "?");
    RemoveUnsafeKeepsSafe(p);
    assert RemoveUnsafe("?") == "?";
  }

  lemma CleanedQueryPath(p: string, query: string)
    requires PlainPath(p)
    ensures var cleaned := LStripControl(RemoveUnsafe(p + "?" + query));
      cleaned == p + ("?" + RemoveUnsafe(query)) && !HasNetloc(cleaned)
  {
    RemoveUnsafeQueryPath(p, query);
    var tail := "?" + RemoveUnsafe(query);
    var cleaned := p + tail;
    assert cleaned[0] == '/';
    assert LStripControl(cleaned) == cleaned;
    assert cleaned[1] != '/' by {
      if |p| == 1 { assert cleaned[1] == tail[0]; } else { assert cleaned[1] == p[1]; }
    }
  }

  /** Cutting at '#' and then at '?' leaves an ordinary path alone. */
  lemma QueryCut(p: string, query: string)
    requires PlainPath(p)
    ensures BeforeChar(BeforeChar(p + ("?" + RemoveUnsafe(query)), '#'), '?') == p
  {
    var tail := "?" + RemoveUnsafe(query);
    BeforeCharShift(p, tail, '#');
    var cut := BeforeChar(tail, '#');
    assert cut == "?" + BeforeChar(RemoveUnsafe(query), '#');
    BeforeCharShift(p, cut, '?');
    assert BeforeChar(cut, '?') == [];
    assert p + [] == p;
  }

  /** `urlparse` drops the query string after an ordinary path. */
  lemma UrlPathDropsQuery(p: string, query: string, netlocOk: string -> bool)
    requires PlainPath(p)
    ensures UrlPath(p + "?" + query, netlocOk) == Some(p)
  {
    CleanedQueryPath(p, query);
    var cleaned := p + ("?" + RemoveUnsafe(query));
    UrlPathAtSlash(p + "?" + query, cleaned, netlocOk);
    PathWithoutNetloc(cleaned, netlocOk);
    QueryCut(p, query);
  }

  /** A prefix that starts with one '/', ends with '/' and holds none of
      the special characters starts the parsed path of every URL it starts. */
  lemma UrlPathKeepsPrefix(pre: string, rest: string, netlocOk: string -> bool)
    requires |pre| >= 2 && pre[0] == '/' && pre[1] != '/' && pre[|pre| - 1] == '/'
    requires forall c :: c in pre ==> c != '#' && c != '?' && c != ';' && !Unsafe(c)
    ensures UrlPath(pre + rest, netlocOk).Some?
    ensures StartsWith(UrlPath(pre + rest, netlocOk).value, pre)
  {
    var r := RemoveUnsafe(rest);
    RemoveUnsafeConcat(pre, rest);
    RemoveUnsafeKeepsSafe(pre);
    var cleaned := pre + r;
    assert cleaned[0] == '/' && cleaned[1] != '/';
    assert LStripControl(cleaned) == cleaned;
    UrlPathAtSlash(pre + rest, cleaned, netlocOk);
    PathWithoutNetloc(cleaned, netlocOk);
    BeforeCharShift(pre, r, '#');
    var b := BeforeChar(r, '#');
    BeforeCharShift(pre, b, '?');
    StripParamsKeepsPrefix(pre, BeforeChar(b, '?'));
  }

  /** The network location of "//[" + host is "[" + host. */
  lemma BracketNetloc(host: string)
    requires forall c :: c in host ==> c != '/' && c != '?' && c != '#'
    ensures HasNetloc("//[" + host) && Netloc("//[" + host) == "[" + host
  {
    var p := "//[" + host;
    assert forall k :: 2 <= k < |p| ==> p[k] == '[' || p[k] in host;
    NetlocToEnd(p, 2);
  }

  /** `urlsplit` raises for a network location with an unmatched '['. */
  lemma UnmatchedBracketRaises(host: string, netlocOk: string -> bool)
    requires forall c :: c in host ==> c != ']' && c != '/' && c != '?' && c != '#' && !Unsafe(c)
    ensures UrlPath("//[" + host, netlocOk).None?
  {
    var p := "//[" + host;
    CleanedUnchanged(p);
    UrlPathAtSlash(p, p, netlocOk);
    BracketNetloc(host);
    assert !NetlocValid("[" + host, netlocOk);
  }

  // ---------------------------------------------------------------------
  // The pure helpers of the middleware
  // ---------------------------------------------------------------------

  /** `should_capture`: no excluded prefix starts the parsed path; None
      when `urlparse` raises. */
  function ShouldCapture(mw: QueryCaptureMiddleware, request: Request, netlocOk: string -> bool): (capture: Option<bool>)
    ensures capture.None? <==> UrlPath(request.path, netlocOk).None?
    ensures capture.Some? ==> (!capture.value <==>
      exists i :: 0 <= i < |mw.excludedPaths| && StartsWith(UrlPath(request.path, netlocOk).value, mw.excludedPaths[i]))
  {
    match UrlPath(request.path, netlocOk)
    case None => None
    case Some(path) => Some(!Utils.AnyPrefix(path, mw.excludedPaths))
  }

  /** For an ordinary path, the exclusion test is a plain prefix test. */
  lemma ShouldCaptureOrdinaryPath(mw: QueryCaptureMiddleware, request: Request, netlocOk: string -> bool)
    requires PlainPath(request.path)
    ensures ShouldCapture(mw, request, netlocOk) == Some(!Utils.AnyPrefix(request.path, mw.excludedPaths))
  {
    UrlPathOfPlainPath(request.path, netlocOk);
  }

  /** Whatever is configured, paths under the built-in prefixes are never
      captured, whatever follows the prefix. */
  lemma BuiltinPrefixesNeverCaptured(config: Option<Config>, request: Request, k: nat, netlocOk: string -> bool)
    requires Init(config).Success?
    requires k < 3 && StartsWith(request.path, BuiltinExcludedPaths[k])
    ensures ShouldCapture(Init(config).value, request, netlocOk) == Some(false)
  {
    var mw := Init(config).value;
    BuiltinsNeverDropped(config);
    var j := |mw.excludedPaths| - 3 + k;
    assert mw.excludedPaths[j] == BuiltinExcludedPaths[k];
    ExcludedByPrefix(mw, request, netlocOk, j, k);
  }

  lemma ExcludedByPrefix(mw: QueryCaptureMiddleware, request: Request, netlocOk: string -> bool, j: nat, k: nat)
    requires k < 3 && j < |mw.excludedPaths| && mw.excludedPaths[j] == BuiltinExcludedPaths[k]
    requires StartsWith(request.path, BuiltinExcludedPaths[k])
    ensures ShouldCapture(mw, request, netlocOk) == Some(false)
  {
    var pre := BuiltinExcludedPaths[k];
    var rest := request.path[|pre|..];
    assert request.path == pre + rest;
    BuiltinPrefixShape(k);
    UrlPathKeepsPrefix(pre, rest, netlocOk);
  }

  /** Each built-in prefix starts with one '/', ends with '/' and holds none
      of the characters `urlparse` treats specially. */
  lemma BuiltinPrefixShape(k: nat)
    requires k < 3
    ensures var pre := BuiltinExcludedPaths[k];
      && |pre| >= 2 && pre[0] == '/' && pre[1] != '/' && pre[|pre| - 1] == '/'
      && forall c :: c in pre ==> c != '#' && c != '?' && c != ';' && !Unsafe(c)
  {
    var pre := BuiltinExcludedPaths[k];
    assert pre == "/admin/" || pre == "/static/" || pre == "/media/";
  }

  /** `get_view_name`: the routed function's `__name__`, else a non-empty
      `view_name`, else `url_name`; '' when the request was not routed. */
  function GetViewName(request: Request): (name: Option<string>)
    ensures request.resolverMatch.None? ==> name == Some("")
    ensures request.resolverMatch.Some? && request.resolverMatch.value.funcName.Some? ==>
      name == request.resolverMatch.value.funcName
    ensures request.resolverMatch.Some? && request.resolverMatch.value.funcName.None? ==>
      var m := request.resolverMatch.value;
      name == if m.viewName != "" then Some(m.viewName) else m.urlName
  {
    match request.resolverMatch
    case None => Some("")
    case Some(m) =>
      if m.funcName.Some? then m.funcName
      else if m.viewName != "" then Some(m.viewName)
      else m.urlName
  }

  /** `any(model.lower() in sql_lower for model in models)` */
  function AnyModelIn(sqlLower: string, models: seq<string>): (b: bool)
    ensures b <==> exists i :: 0 <= i < |models| && Contains(sqlLower, Lower(models[i]))
  {
    if |models| == 0 then false
    else if Contains(sqlLower, Lower(models[0])) then true
    else
      var rest := AnyModelIn(sqlLower, models[1..]);
      assert rest <==> exists i :: 1 <= i < |models| && Contains(sqlLower, Lower(models[i])) by {
        if rest {
          var i :| 0 <= i < |models[1..]| && Contains(sqlLower, Lower(models[1..][i]));
          assert models[i + 1] == models[1..][i];
        }
        if exists i :: 1 <= i < |models| && Contains(sqlLower, Lower(models[i])) {
          var i :| 1 <= i < |models| && Contains(sqlLower, Lower(models[i]));
          assert models[1..][i - 1] == models[i];
        }
      }
      rest
  }

  /** `is_watched_model_query`: every query when nothing is watched, otherwise
      those whose lower-cased SQL contains a lower-cased watched name. */
  function IsWatchedModelQuery(mw: QueryCaptureMiddleware, sql: string): (watched: bool)
    ensures |mw.watchedModels| == 0 ==> watched
    ensures |mw.watchedModels| > 0 ==>
      (watched <==> exists i :: 0 <= i < |mw.watchedModels| && Contains(Lower(sql), Lower(mw.watchedModels[i])))
  {
    |mw.watchedModels| == 0 || AnyModelIn(Lower(sql), mw.watchedModels)
  }

  /** Watching `"Order"` keeps a query on an order table and drops one on
      the session table. */
  lemma WatchedModelExample()
    ensures var mw := QueryCaptureMiddleware(["Order"], BuiltinExcludedPaths, DefaultThreshold);
      IsWatchedModelQuery(mw, "FROM Order") && !IsWatchedModelQuery(mw, "FROM Session")
  {
    var mw := QueryCaptureMiddleware(["Order"], BuiltinExcludedPaths, DefaultThreshold);
    assert Lower("Order") == "order";
    assert Lower("FROM Order") == "from order";
    assert OccursAt("from order", "order", 5);
    assert Lower("FROM Session") == "from session";
    var other := "from session";
    forall k | 0 <= k <= 7 ensures !OccursAt(other, "order", k) {
      var w := other[k..k + 5];
      assert w[0] == other[k] && w[1] == other[k + 1];
    }
  }

  // ---------------------------------------------------------------------
  // The capture loop of __call__
  // ---------------------------------------------------------------------

  /** The `try` block for one entry: the `create` arguments, or None when
      evaluating them raises (an unparsable `time`, a threshold that does not
      compare, a request without `content_type`). `parse` is `float()`. */
  function Attempt(mw: QueryCaptureMiddleware, request: Request, response: Response, stack: string,
                   parse: string -> Option<real>, e: LogEntry): Option<RecordData>
  {
    match parse(e.time)
    case None => None
    case Some(duration) =>
      match GreaterThan(duration, mw.slowQueryThreshold)
      case None => None
      case Some(isSlow) =>
        match request.contentType
        case Missing => None
        case Has(contentType) =>
          Some(RecordData(
            e.sql, duration, isSlow, GetViewName(request), Some(request.path), stack,
            request.queryParams, request.requestMethod, contentType, Some(StatusOr200(response))))
  }

  /** The body of the loop for one entry, up to the `create` call: None
      when the entry is not watched or its `try` block raises. */
  function Tried(mw: QueryCaptureMiddleware, request: Request, response: Response, stack: string,
                 parse: string -> Option<real>): LogEntry -> Option<RecordData>
  {
    (e: LogEntry) => if IsWatchedModelQuery(mw, e.sql) then Attempt(mw, request, response, stack, parse, e) else None
  }

  /** The records one request leaves, given the queries it executed. */
  function MiddlewareRecords(mw: QueryCaptureMiddleware, request: Request, response: Response, stack: string,
                             parse: string -> Option<real>, entries: seq<LogEntry>): seq<RecordData>
  {
    Collect(entries, Stored(Tried(mw, request, response, stack, parse)))
  }

  /** Every record a request leaves carries `is_slow == (duration > threshold)`
      for the middleware's own threshold, the request's context and the
      response status, fits its columns, and comes from a watched entry. */
  lemma RecordsAreClassified(mw: QueryCaptureMiddleware, request: Request, response: Response, stack: string,
                             parse: string -> Option<real>, entries: seq<LogEntry>, d: RecordData)
    requires d in MiddlewareRecords(mw, request, response, stack, parse, entries)
    ensures GreaterThan(d.duration, mw.slowQueryThreshold) == Some(d.isSlow)
    ensures mw.slowQueryThreshold.Float? ==> d.isSlow == (d.duration > mw.slowQueryThreshold.x)
    ensures d.viewName == GetViewName(request) && d.urlPath == Some(request.path)
    ensures d.responseStatusCode == Some(StatusOr200(response))
    ensures FitsColumns(d)
    ensures exists i :: (0 <= i < |entries| && entries[i].sql == d.query
      && IsWatchedModelQuery(mw, entries[i].sql) && parse(entries[i].time) == Some(d.duration))
  {
    var f := Stored(Tried(mw, request, response, stack, parse));
    CollectedComeFromEntries(entries, f, d);
    var i :| 0 <= i < |entries| && f(entries[i]) == Some(d);
    assert IsWatchedModelQuery(mw, entries[i].sql);
    assert Attempt(mw, request, response, stack, parse, entries[i]) == Some(d);
  }

  /** A threshold that does not compare with a float (a falsy one passes
      `check_config`) makes every comparison raise, so nothing is recorded. */
  lemma {:induction false} IncomparableThresholdRecordsNothing(mw: QueryCaptureMiddleware, request: Request,
      response: Response, stack: string, parse: string -> Option<real>, entries: seq<LogEntry>)
    requires !Comparable(mw.slowQueryThreshold)
    ensures MiddlewareRecords(mw, request, response, stack, parse, entries) == []
  {
    if |entries| > 0 {
      IncomparableThresholdRecordsNothing(mw, request, response, stack, parse, entries[1..]);
      assert Attempt(mw, request, response, stack, parse, entries[0]) == None;
    }
  }

  /** `request.content_type` is read inside the `try`: a request without it
      records nothing. */
  lemma {:induction false} MissingContentTypeRecordsNothing(mw: QueryCaptureMiddleware, request: Request,
      response: Response, stack: string, parse: string -> Option<real>, entries: seq<LogEntry>)
    requires request.contentType.Missing?
    ensures MiddlewareRecords(mw, request, response, stack, parse, entries) == []
  {
    if |entries| > 0 {
      MissingContentTypeRecordsNothing(mw, request, response, stack, parse, entries[1..]);
      assert Attempt(mw, request, response, stack, parse, entries[0]) == None;
    }
  }

  /** `QueryCaptureMiddleware.__call__`. `handler` is `get_response`;
      `stack` is the formatted call stack; `parse` is `float()`;
      `netlocOk` judges the network locations `urlparse` validates with
      other modules; `insert` is what one `create` call adds to
      `connection.queries`. */
  method Call(mw: QueryCaptureMiddleware, request: Request, handler: HandlerRun, stack: string,
              parse: string -> Option<real>, netlocOk: string -> bool, insert: RecordData -> seq<LogEntry>,
              log: QueryLog, ledger: QueryLedger) returns (outcome: Outcome)
    requires ledger.Valid()
    modifies log, ledger
    ensures ledger.Valid()
    ensures ledger.analyses == old(ledger.analyses)
    ensures old(ledger.records) <= ledger.records
    // `should_capture` runs before the view: when `urlparse` raises, the
    // view never runs.
    ensures ShouldCapture(mw, request, netlocOk).None? ==>
      outcome == Raised("ValueError") && log.entries == old(log.entries) && ledger.records == old(ledger.records)
    ensures ShouldCapture(mw, request, netlocOk).Some? ==>
      outcome == handler.outcome &&
      log.entries == old(log.entries) + handler.executed +
        if ShouldCapture(mw, request, netlocOk) == Some(true) && outcome.Returned?
        then Inserts(Collect(handler.executed, Tried(mw, request, outcome.response, stack, parse)), insert)
        else []
    ensures DataOf(ledger.records) == DataOf(old(ledger.records)) +
      if ShouldCapture(mw, request, netlocOk) == Some(true) && outcome.Returned?
      then MiddlewareRecords(mw, request, outcome.response, stack, parse, handler.executed)
      else []
  {
    var capture := ShouldCapture(mw, request, netlocOk);
    if capture.None? {
      outcome := Raised("ValueError");
      return;
    }
    if !capture.value {
      outcome := log.Run(handler);
      return;
    }
    outcome := CaptureRequest(mw, request, handler, stack, parse, insert, log, ledger);
  }

  /** The part of `__call__` after `should_capture` said yes. */
  method CaptureRequest(mw: QueryCaptureMiddleware, request: Request, handler: HandlerRun, stack: string,
                        parse: string -> Option<real>, insert: RecordData -> seq<LogEntry>,
                        log: QueryLog, ledger: QueryLedger) returns (outcome: Outcome)
    requires ledger.Valid()
    modifies log, ledger
    ensures ledger.Valid()
    ensures ledger.analyses == old(ledger.analyses)
    ensures old(ledger.records) <= ledger.records
    ensures outcome == handler.outcome
    ensures log.entries == old(log.entries) + handler.executed +
      if outcome.Returned?
      then Inserts(Collect(handler.executed, Tried(mw, request, outcome.response, stack, parse)), insert)
      else []
    ensures DataOf(ledger.records) == DataOf(old(ledger.records)) +
      if outcome.Returned? then MiddlewareRecords(mw, request, outcome.response, stack, parse, handler.executed) else []
  {
    var initialQueryCount := |log.entries|;
    outcome := log.Run(handler);
    if outcome.Raised? {
      return;
    }
    var queries := log.entries[initialQueryCount..];
    assert queries == handler.executed;
    CaptureEach(queries, Tried(mw, request, outcome.response, stack, parse), insert, log, ledger);
  }
}

/** query_optimizer/utils.py: the path-prefix exclusion test. */
module Utils {
  import opened Wrappers
  import opened Text

  /** The prefixes excluded when `QUERY_OPTIMIZER_EXCLUDED_PATHS` is not set. */
  const DefaultExcludedPaths: seq<string> := ["/admin/", "/static/", "/media/"]

  /** `any(path.startswith(p) for p in prefixes)` */
  function AnyPrefix(path: string, prefixes: seq<string>): (b: bool)
    ensures b <==> exists i :: 0 <= i < |prefixes| && StartsWith(path, prefixes[i])
  {
    if |prefixes| == 0 then false
    else if StartsWith(path, prefixes[0]) then true
    else
      var rest := AnyPrefix(path, prefixes[1..]);
      assert rest ==> exists i :: 0 <= i < |prefixes| && StartsWith(path, prefixes[i]) by {
        if rest {
          var i :| 0 <= i < |prefixes[1..]| && StartsWith(path, prefixes[1..][i]);
          assert prefixes[i + 1] == prefixes[1..][i];
        }
      }
      assert (exists i :: 0 <= i < |prefixes| && StartsWith(path, prefixes[i])) ==> rest by {
        if exists i :: 0 <= i < |prefixes| && StartsWith(path, prefixes[i]) {
          var i :| 0 <= i < |prefixes| && StartsWith(path, prefixes[i]);
          assert i > 0;
          assert prefixes[1..][i - 1] == prefixes[i];
        }
      }
      rest
  }

  /** The prefix list used: the setting when present (it replaces the
      defaults), the defaults otherwise. */
  function ExcludedPaths(setting: Option<seq<string>>): (prefixes: seq<string>)
    ensures setting.None? ==> prefixes == DefaultExcludedPaths
    ensures setting.Some? ==> prefixes == setting.value
  {
    setting.GetOr(DefaultExcludedPaths)
  }

  /** `is_excluded_path(path)`: does the raw path start with an excluded prefix? */
  function IsExcludedPath(path: string, setting: Option<seq<string>>): (excluded: bool)
    ensures excluded <==> exists i :: 0 <= i < |ExcludedPaths(setting)| && StartsWith(path, ExcludedPaths(setting)[i])
  {
    AnyPrefix(path, ExcludedPaths(setting))
  }

  /** An empty configured list excludes nothing. */
  lemma EmptySettingExcludesNothing(path: string)
    ensures !IsExcludedPath(path, Some([]))
  {
  }

  /** The test is on raw prefixes: without its trailing slash `/admin` is
      not excluded by the defaults, while anything under `/admin/` is. */
  lemma RawPrefixTest(rest: string)
    ensures !IsExcludedPath("/admin", None)
    ensures IsExcludedPath("/admin/" + rest, None)
  {
    assert ("/admin/" + rest)[..7] == "/admin/";
    assert StartsWith("/admin/" + rest, DefaultExcludedPaths[0]);
  }
}

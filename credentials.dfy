/** The key store and credential resolution of prompting.py (`resolve_api_key`): a
    `.env`-style file read line by line into a dictionary, overlaid with the process
    environment, then searched under provider-specific names. The file and the environment
    are passed in as snapshots: `envFile` is the file's text, `None` when it does not exist. */
module Credentials {
  import opened Wrappers
  import opened Text

  /** Python truthiness of an optional string: present and non-empty. */
  predicate Truthy(s: Option<string>) {
    s.Some? && s.value != ""
  }

  /** Python's `a or b` on two optional strings. */
  function Or(a: Option<string>, b: Option<string>): (r: Option<string>)
    ensures Truthy(a) ==> r == a
    ensures !Truthy(a) ==> r == b
  {
    if Truthy(a) then a else b
  }

  /** `dict.get`. */
  function Get(m: map<string, string>, k: string): (r: Option<string>)
    ensures r.Some? <==> k in m
    ensures r.Some? ==> r.value == m[k]
  {
    if k in m then Some(m[k]) else None
  }

  /** The lines of the key file: `read().splitlines()`, or none when the file is missing. */
  function LinesOf(envFile: Option<string>): seq<string> {
    if envFile.Some? then SplitLines(envFile.value) else []
  }

  /** `s.split("=", 1) == [k, v]`: `s` is `k`, an `=` and `v`, and `k` holds no `=`. */
  ghost predicate SplitsAtFirst(s: string, k: string, v: string) {
    s == k + "=" + v && '=' !in k
  }

  /** A line of the key file read as an assignment: blank lines, lines starting with `#` and
      lines without `=` (all after stripping) are not assignments; otherwise the stripped line
      is split at its first `=` and both halves are stripped. */
  function Assignment(line: string): (a: Option<(string, string)>)
    ensures a.Some? <==> Strip(line) != [] && Strip(line)[0] != '#' && '=' in Strip(line)
    ensures a.Some? ==> Clean(a.value.0) && Clean(a.value.1)
  {
    var s := Strip(line);
    if s == [] || s[0] == '#' || '=' !in s then None
    else
      var i := IndexOf(s, '=');
      Some((Strip(s[..i]), Strip(s[i + 1..])))
  }

  /** The key and value of an assignment are the stripped halves of the stripped line around
      its first `=`, as `split("=", 1)` cuts it. */
  lemma AssignmentSplit(line: string)
    ensures Assignment(line).Some? ==>
      exists k, v :: SplitsAtFirst(Strip(line), k, v) && Assignment(line).value == (Strip(k), Strip(v))
  {
    var s := Strip(line);
    if Assignment(line).Some? {
      var i := IndexOf(s, '=');
      var k, v := s[..i], s[i + 1..];
      assert s == k + "=" + v;
      assert SplitsAtFirst(s, k, v);
      assert Assignment(line).value == (Strip(k), Strip(v));
    }
  }

  predicate Assigns(line: string, key: string) {
    Assignment(line).Some? && Assignment(line).value.0 == key
  }

  /** The dictionary `env` after the loop of `resolve_api_key` has read `lines`. */
  function StoreOf(lines: seq<string>): map<string, string> {
    if lines == [] then map[]
    else
      var env := StoreOf(lines[..|lines| - 1]);
      match Assignment(lines[|lines| - 1])
      case None => env
      case Some((k, v)) => env[k := v]
  }

  /** The value of the last line of `lines` that assigns `key`, found by reading backwards. */
  function LastValue(lines: seq<string>, key: string): Option<string> {
    if lines == [] then None
    else if Assigns(lines[|lines| - 1], key) then Some(Assignment(lines[|lines| - 1]).value.1)
    else LastValue(lines[..|lines| - 1], key)
  }

  /** Nothing is found exactly when no line assigns the key, and what is found is the value
      of some line that does. */
  lemma {:induction false} LastValueFound(lines: seq<string>, key: string)
    ensures LastValue(lines, key).None? <==> forall i :: 0 <= i < |lines| ==> !Assigns(lines[i], key)
    ensures LastValue(lines, key).Some? ==>
      exists i :: 0 <= i < |lines| && Assigns(lines[i], key) && LastValue(lines, key).value == Assignment(lines[i]).value.1
  {
    if lines != [] && !Assigns(lines[|lines| - 1], key) {
      var init := lines[..|lines| - 1];
      LastValueFound(init, key);
      var r := LastValue(init, key);
      if r.Some? {
        var i :| 0 <= i < |init| && Assigns(init[i], key) && r.value == Assignment(init[i]).value.1;
        assert init[i] == lines[i];
      } else {
        forall i | 0 <= i < |lines| ensures !Assigns(lines[i], key) {
          if i < |lines| - 1 { assert lines[i] == init[i]; }
        }
      }
    }
  }

  /** A later assignment of the same key overrides an earlier one: the dictionary holds, for
      every key, exactly the value of the last line assigning it. */
  lemma {:induction false} StoreHoldsLastValue(lines: seq<string>, key: string)
    ensures key in StoreOf(lines) <==> LastValue(lines, key).Some?
    ensures key in StoreOf(lines) ==> StoreOf(lines)[key] == LastValue(lines, key).value
  {
    if lines != [] {
      StoreHoldsLastValue(lines[..|lines| - 1], key);
    }
  }

  /** The `LastValue` of a key is the value on the last line that assigns it. */
  lemma {:induction false} LastValueAt(lines: seq<string>, key: string, i: nat)
    requires i < |lines| && Assigns(lines[i], key)
    requires forall j :: i < j < |lines| ==> !Assigns(lines[j], key)
    ensures LastValue(lines, key) == Some(Assignment(lines[i]).value.1)
  {
    if i < |lines| - 1 {
      LastValueAt(lines[..|lines| - 1], key, i);
    }
  }

  /** What `env.get(name)` yields after `env.update(os.environ)`: the environment wins over
      the file. */
  function SourceValue(envFile: Option<string>, environ: map<string, string>, name: string): Option<string> {
    if name in environ then Some(environ[name]) else LastValue(LinesOf(envFile), name)
  }

  /** Looking a name up in the merged store is reading the environment first and the last
      assignment in the file second. */
  lemma MergedLookup(envFile: Option<string>, environ: map<string, string>, name: string)
    ensures Get(StoreOf(LinesOf(envFile)) + environ, name) == SourceValue(envFile, environ, name)
  {
    StoreHoldsLastValue(LinesOf(envFile), name);
  }

  /** The provider-specific lookup at the end of `resolve_api_key`, over the merged store. */
  function ProviderKey(provider: string, env: map<string, string>): Option<string> {
    if provider == "gemini" then Or(Get(env, "GEMINI_API_KEY"), Get(env, "API_KEY"))
    else if provider == "openai" then Get(env, "OPENAI_API_KEY")
    else if provider == "grok" then Or(Get(env, "GROK_API_KEY"), Get(env, "XAI_API_KEY"))
    else None
  }

  /** `resolve_api_key(provider, provided_key, env_path)`. An explicit non-empty key wins;
      otherwise gemini reads `GEMINI_API_KEY` and then `API_KEY`, openai only
      `OPENAI_API_KEY`, grok `GROK_API_KEY` and then `XAI_API_KEY`, each name read from the
      environment first and from the last assignment in the file second; any other provider
      gets nothing. A present but empty value under a primary name falls through to the
      alias, and an empty value is returned as it is when nothing better exists. */
  function ResolvedKey(provider: string, provided: Option<string>, envFile: Option<string>,
                       environ: map<string, string>): (r: Option<string>)
    ensures Truthy(provided) ==> r == provided
    ensures !Truthy(provided) && provider == "gemini" ==>
      r == Or(SourceValue(envFile, environ, "GEMINI_API_KEY"), SourceValue(envFile, environ, "API_KEY"))
    ensures !Truthy(provided) && provider == "openai" ==>
      r == SourceValue(envFile, environ, "OPENAI_API_KEY")
    ensures !Truthy(provided) && provider == "grok" ==>
      r == Or(SourceValue(envFile, environ, "GROK_API_KEY"), SourceValue(envFile, environ, "XAI_API_KEY"))
    ensures !Truthy(provided) && provider !in {"gemini", "openai", "grok"} ==> r == None
  {
    if Truthy(provided) then provided
    else
      var env := StoreOf(LinesOf(envFile)) + environ;
      MergedLookup(envFile, environ, "GEMINI_API_KEY");
      MergedLookup(envFile, environ, "API_KEY");
      MergedLookup(envFile, environ, "OPENAI_API_KEY");
      MergedLookup(envFile, environ, "GROK_API_KEY");
      MergedLookup(envFile, environ, "XAI_API_KEY");
      ProviderKey(provider, env)
  }

  /** One more line read by the loop of `resolve_api_key`. */
  lemma StoreStep(lines: seq<string>, i: nat)
    requires i < |lines|
    ensures StoreOf(lines[..i + 1]) ==
      match Assignment(lines[i])
      case None => StoreOf(lines[..i])
      case Some((k, v)) => StoreOf(lines[..i])[k := v]
  {
    assert lines[..i + 1][..i] == lines[..i];
  }

  /** prompting.py `resolve_api_key`: the file loop fills `env`, the environment is laid over
      it, and the provider's names are looked up. */
  method ResolveApiKey(provider: string, providedKey: Option<string>, envFile: Option<string>,
                       environ: map<string, string>) returns (key: Option<string>)
    ensures key == ResolvedKey(provider, providedKey, envFile, environ)
  {
    if Truthy(providedKey) {
      return providedKey;
    }
    var env: map<string, string> := map[];
    if envFile.Some? {
      var lines := SplitLines(envFile.value);
      for i := 0 to |lines|
        invariant env == StoreOf(lines[..i])
      {
        StoreStep(lines, i);
        var stripped := Strip(lines[i]);
        if stripped == [] || stripped[0] == '#' || '=' !in stripped {
          assert Assignment(lines[i]) == None;
          continue;
        }
        var eq := IndexOf(stripped, '=');
        assert Assignment(lines[i]) == Some((Strip(stripped[..eq]), Strip(stripped[eq + 1..])));
        env := env[Strip(stripped[..eq]) := Strip(stripped[eq + 1..])];
      }
      assert lines[..|lines|] == lines;
    }
    assert env == StoreOf(LinesOf(envFile));
    env := env + environ;
    if provider == "gemini" {
      key := Or(Get(env, "GEMINI_API_KEY"), Get(env, "API_KEY"));
    } else if provider == "openai" {
      key := Get(env, "OPENAI_API_KEY");
    } else if provider == "grok" {
      key := Or(Get(env, "GROK_API_KEY"), Get(env, "XAI_API_KEY"));
    } else {
      key := None;
    }
  }

  /** A line `key=value` written with a clean key (no `=`, not a comment) and a clean value
      is read back as exactly that assignment. */
  lemma AssignmentOfPair(key: string, value: string)
    requires Clean(key) && Clean(value) && '=' !in key && (key == [] || key[0] != '#')
    ensures Assignment(key + "=" + value) == Some((key, value))
  {
    var s := key + "=" + value;
    assert s[0] == (if key == [] then '=' else key[0]);
    assert s[|s| - 1] == (if value == [] then '=' else value[|value| - 1]);
    assert Clean(s);
    assert s[|key|] == '=';
    assert IndexOf(s, '=') == |key| by {
      assert forall k :: 0 <= k < |key| ==> s[k] == key[k];
    }
    assert s[..|key|] == key;
    assert s[|key| + 1..] == value;
  }
}

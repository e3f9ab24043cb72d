/** The key file maintenance of main.py: `update_env_file` (an in-place upsert of one
    `KEY=VALUE` line), `update_api_key` and `load_api_key`. The file is passed in as its text
    (`None` when it does not exist) and the text to be written is returned. */
module EnvFile {
  import opened Wrappers
  import opened Text
  import opened Credentials

  /** `env_key_map` of main.py: one primary name per provider and no aliases. */
  const KeyNames: map<string, string> := map[
    "gemini" := "GEMINI_API_KEY",
    "openai" := "OPENAI_API_KEY",
    "grok" := "GROK_API_KEY"
  ]

  /** A key that `update_env_file` can write and read back: stripped, without `=`, line
      breaks or a leading `#`. */
  predicate ValidKey(k: string) {
    Clean(k) && NoLineBreaks(k) && '=' !in k && (k == [] || k[0] != '#')
  }

  /** A value that survives the round trip: stripped and without line breaks. */
  predicate ValidValue(v: string) {
    Clean(v) && NoLineBreaks(v)
  }

  lemma KeyNamesValid()
    ensures KeyNames.Keys == {"gemini", "openai", "grok"}
    ensures forall p :: p in KeyNames ==> ValidKey(KeyNames[p]) && KeyNames[p] != ""
  {
  }

  /** The value of the FIRST line of `lines` that assigns `key` (the loop of `load_api_key`). */
  function ScanKey(lines: seq<string>, key: string): Option<string> {
    if lines == [] then None
    else if Assigns(lines[0], key) then Some(Assignment(lines[0]).value.1)
    else ScanKey(lines[1..], key)
  }

  /** The scan finds nothing exactly when no line assigns the key, and what it finds is the
      value of some line that does. */
  lemma {:induction false} ScanKeyFound(lines: seq<string>, key: string)
    ensures ScanKey(lines, key).None? <==> forall i :: 0 <= i < |lines| ==> !Assigns(lines[i], key)
    ensures ScanKey(lines, key).Some? ==>
      exists i :: 0 <= i < |lines| && Assigns(lines[i], key) && ScanKey(lines, key).value == Assignment(lines[i]).value.1
  {
    if lines != [] && !Assigns(lines[0], key) {
      ScanKeyFound(lines[1..], key);
      var r := ScanKey(lines[1..], key);
      if r.Some? {
        var i :| 0 <= i < |lines| - 1 && Assigns(lines[1..][i], key) && r.value == Assignment(lines[1..][i]).value.1;
        assert lines[1..][i] == lines[i + 1];
      } else {
        forall i | 0 <= i < |lines| ensures !Assigns(lines[i], key) {
          if i > 0 { assert lines[i] == lines[1..][i - 1]; }
        }
      }
    }
  }

  /** `load_api_key` returns the value of the first line that assigns the key, however many
      follow it. */
  lemma {:induction false} ScanKeyFirst(lines: seq<string>, key: string, i: nat)
    requires i < |lines| && Assigns(lines[i], key)
    requires forall j :: 0 <= j < i ==> !Assigns(lines[j], key)
    ensures ScanKey(lines, key) == Some(Assignment(lines[i]).value.1)
  {
    if i > 0 {
      ScanKeyFirst(lines[1..], key, i - 1);
    }
  }

  /** One more line read by the loop of `load_api_key`. */
  lemma ScanStep(lines: seq<string>, key: string, i: nat)
    requires i < |lines|
    ensures ScanKey(lines[i..], key) ==
      if Assigns(lines[i], key) then Some(Assignment(lines[i]).value.1) else ScanKey(lines[i + 1..], key)
  {
    assert lines[i..][1..] == lines[i + 1..];
  }

  /** What `load_api_key(provider)` returns for the file `envFile`. */
  function StoredKey(provider: string, envFile: Option<string>): string {
    if provider !in KeyNames || envFile.None? then ""
    else ScanKey(SplitLines(envFile.value), KeyNames[provider]).GetOr("")
  }

  /** main.py `load_api_key`: "" for an unknown provider or a missing file, otherwise the
      stripped value of the first line assigning the provider's name, or "" without one. */
  method LoadApiKey(provider: string, envFile: Option<string>) returns (apiKey: string)
    ensures apiKey == StoredKey(provider, envFile)
  {
    var keyName := Get(KeyNames, provider);
    if keyName.None? {
      return "";
    }
    if envFile.None? {
      return "";
    }
    var lines := SplitLines(envFile.value);
    for i := 0 to |lines|
      invariant ScanKey(lines[i..], keyName.value) == ScanKey(lines, keyName.value)
    {
      ScanStep(lines, keyName.value, i);
      var stripped := Strip(lines[i]);
      if stripped == [] || stripped[0] == '#' || '=' !in stripped {
        assert Assignment(lines[i]) == None;
        continue;
      }
      var eq := IndexOf(stripped, '=');
      assert Assignment(lines[i]) == Some((Strip(stripped[..eq]), Strip(stripped[eq + 1..])));
      if Strip(stripped[..eq]) == keyName.value {
        return Strip(stripped[eq + 1..]);
      }
    }
    return "";
  }

  /** One line after the upsert: an assignment of `key` becomes `key=value`, any other line
      (blank, comment, without `=`, or assigning another key) is kept verbatim. */
  function ReplaceLine(line: string, key: string, value: string): string {
    if Assigns(line, key) then key + "=" + value else line
  }

  /** The loop of `update_env_file`: every line replaced in place. */
  function Replaced(lines: seq<string>, key: string, value: string): (r: seq<string>)
    ensures |r| == |lines|
    ensures forall i :: 0 <= i < |lines| ==> r[i] == ReplaceLine(lines[i], key, value)
  {
    if lines == [] then []
    else Replaced(lines[..|lines| - 1], key, value) + [ReplaceLine(lines[|lines| - 1], key, value)]
  }

  predicate HasAssignment(lines: seq<string>, key: string) {
    exists i :: 0 <= i < |lines| && Assigns(lines[i], key)
  }

  /** A line added at the end is an assignment of `key` or leaves the answer as it was. */
  lemma HasAssignmentSnoc(xs: seq<string>, x: string, key: string)
    ensures HasAssignment(xs + [x], key) <==> HasAssignment(xs, key) || Assigns(x, key)
  {
    var ys := xs + [x];
    assert ys[|xs|] == x;
    if HasAssignment(ys, key) && !Assigns(x, key) {
      var j :| 0 <= j < |ys| && Assigns(ys[j], key);
      assert ys[j] == xs[j];
    }
    if HasAssignment(xs, key) {
      var j :| 0 <= j < |xs| && Assigns(xs[j], key);
      assert ys[j] == xs[j];
    }
  }

  /** One more line copied or replaced by the loop of `update_env_file`. */
  lemma ExtendPrefix(lines: seq<string>, key: string, value: string, i: nat)
    requires i < |lines|
    ensures Replaced(lines[..i + 1], key, value) == Replaced(lines[..i], key, value) + [ReplaceLine(lines[i], key, value)]
    ensures HasAssignment(lines[..i + 1], key) <==> HasAssignment(lines[..i], key) || Assigns(lines[i], key)
  {
    assert lines[..i + 1] == lines[..i] + [lines[i]];
    HasAssignmentSnoc(lines[..i], lines[i], key);
  }

  /** The lines `update_env_file(key, value)` writes: assignments of `key` replaced in place;
      without one, `key=value` appended as the last line, after one blank separator line
      when the old last line was not already blank. */
  function UpdatedLines(lines: seq<string>, key: string, value: string): seq<string> {
    var replaced := Replaced(lines, key, value);
    if HasAssignment(lines, key) then replaced
    else
      var separated := if replaced != [] && replaced[|replaced| - 1] != "" then replaced + [""] else replaced;
      separated + [key + "=" + value]
  }

  /** `"\n".join(new_lines) + "\n"`. */
  function Render(lines: seq<string>): string {
    Join(lines, "\n") + "\n"
  }

  /** The text `update_env_file(key, value)` writes over the file `envFile`. */
  function UpdatedFile(envFile: Option<string>, key: string, value: string): string {
    Render(UpdatedLines(LinesOf(envFile), key, value))
  }

  /** main.py `update_env_file`: one pass that copies or replaces every line and records
      whether the key was seen, then the append when it was not. */
  method UpdateEnvFile(envFile: Option<string>, key: string, value: string) returns (text: string)
    ensures text == UpdatedFile(envFile, key, value)
  {
    var lines: seq<string> := [];
    if envFile.Some? {
      lines := SplitLines(envFile.value);
    }
    var updated := false;
    var newLines: seq<string> := [];
    for i := 0 to |lines|
      invariant newLines == Replaced(lines[..i], key, value)
      invariant updated <==> HasAssignment(lines[..i], key)
    {
      ExtendPrefix(lines, key, value, i);
      var line := lines[i];
      var stripped := Strip(line);
      if stripped == [] || stripped[0] == '#' || '=' !in stripped {
        assert !Assigns(line, key);
        newLines := newLines + [line];
        continue;
      }
      var eq := IndexOf(stripped, '=');
      if Strip(stripped[..eq]) == key {
        assert Assigns(line, key);
        newLines := newLines + [key + "=" + value];
        updated := true;
      } else {
        assert !Assigns(line, key);
        newLines := newLines + [line];
      }
    }
    assert lines[..|lines|] == lines;
    if !updated {
      if newLines != [] && newLines[|newLines| - 1] != "" {
        newLines := newLines + [""];
      }
      newLines := newLines + [key + "=" + value];
    }
    text := Join(newLines, "\n") + "\n";
  }

  /** main.py `update_api_key`: the file is rewritten (the new text returned) only for a known
      provider and a non-empty key; otherwise nothing is written. */
  method UpdateApiKey(provider: string, apiKey: string, envFile: Option<string>) returns (written: Option<string>)
    ensures written.Some? <==> provider in KeyNames && apiKey != ""
    ensures written.Some? ==> written.value == UpdatedFile(envFile, KeyNames[provider], apiKey)
  {
    var keyName := Get(KeyNames, provider);
    if keyName.Some? && apiKey != "" {
      var text := UpdateEnvFile(envFile, keyName.value, apiKey);
      written := Some(text);
    } else {
      written := None;
    }
  }

  /** Where every old line ends up: lines that do not assign `key` (blank lines, comments,
      lines without `=`, other keys) stay verbatim at their index, assignments of `key` become
      `key=value` at their index; with an assignment the line count is kept, without one the
      old lines are followed by an optional blank line and `key=value`. */
  lemma UpdateLayout(lines: seq<string>, key: string, value: string)
    ensures forall i :: 0 <= i < |lines| && !Assigns(lines[i], key) ==> UpdatedLines(lines, key, value)[i] == lines[i]
    ensures forall i :: 0 <= i < |lines| && Assigns(lines[i], key) ==> UpdatedLines(lines, key, value)[i] == key + "=" + value
    ensures HasAssignment(lines, key) ==> |UpdatedLines(lines, key, value)| == |lines|
    ensures !HasAssignment(lines, key) ==>
      UpdatedLines(lines, key, value) ==
        lines + (if lines != [] && lines[|lines| - 1] != "" then [""] else []) + [key + "=" + value]
  {
    if !HasAssignment(lines, key) {
      assert Replaced(lines, key, value) == lines;
    }
  }

  /** A `key=value` line written by the upsert assigns `key` and carries `value`. */
  lemma PairAssigns(key: string, value: string)
    requires ValidKey(key) && ValidValue(value)
    ensures Assigns(key + "=" + value, key)
    ensures Assignment(key + "=" + value).value.1 == value
  {
    AssignmentOfPair(key, value);
  }

  /** Every line the upsert writes is either `key=value` or a line that does not assign `key`. */
  lemma UpdatedLineAt(lines: seq<string>, key: string, value: string, j: nat)
    requires j < |UpdatedLines(lines, key, value)|
    ensures UpdatedLines(lines, key, value)[j] == key + "=" + value || !Assigns(UpdatedLines(lines, key, value)[j], key)
  {
    UpdateLayout(lines, key, value);
    if j >= |lines| {
      assert Assignment("") == None;
    }
  }

  /** After the upsert the key is assigned, and every line assigning it is `key=value`. */
  lemma UpdatedAssignments(lines: seq<string>, key: string, value: string)
    requires ValidKey(key) && ValidValue(value)
    ensures HasAssignment(UpdatedLines(lines, key, value), key)
    ensures forall i :: 0 <= i < |UpdatedLines(lines, key, value)| && Assigns(UpdatedLines(lines, key, value)[i], key) ==>
      UpdatedLines(lines, key, value)[i] == key + "=" + value
  {
    var u := UpdatedLines(lines, key, value);
    PairAssigns(key, value);
    forall j | 0 <= j < |u| ensures u[j] == key + "=" + value || !Assigns(u[j], key) {
      UpdatedLineAt(lines, key, value, j);
    }
    UpdateLayout(lines, key, value);
    if HasAssignment(lines, key) {
      var i :| 0 <= i < |lines| && Assigns(lines[i], key);
      assert u[i] == key + "=" + value;
    } else {
      assert u[|u| - 1] == key + "=" + value;
    }
  }

  /** Round trip on lines: after `update_env_file(k, v)` the scan of `load_api_key` for `k`
      finds `v`. */
  lemma UpdateThenScan(lines: seq<string>, key: string, value: string)
    requires ValidKey(key) && ValidValue(value)
    ensures ScanKey(UpdatedLines(lines, key, value), key) == Some(value)
  {
    UpdatedAssignments(lines, key, value);
    PairAssigns(key, value);
    ScanKeyFound(UpdatedLines(lines, key, value), key);
  }

  /** Round trip on lines for `resolve_api_key`, which keeps the LAST assignment: it finds `v`
      too, since every assignment of `k` now carries `v`. */
  lemma UpdateThenLastValue(lines: seq<string>, key: string, value: string)
    requires ValidKey(key) && ValidValue(value)
    ensures LastValue(UpdatedLines(lines, key, value), key) == Some(value)
  {
    UpdatedAssignments(lines, key, value);
    PairAssigns(key, value);
    LastValueFound(UpdatedLines(lines, key, value), key);
  }

  /** `load_api_key` and `resolve_api_key` read a file differently when it assigns a key
      twice: the first shows the first value, the second uses the last one. An upsert
      removes the difference (`UpdateThenScan`, `UpdateThenLastValue`). */
  lemma DuplicateAssignments(key: string, first: string, last: string)
    requires ValidKey(key) && ValidValue(first) && ValidValue(last)
    ensures ScanKey([key + "=" + first, key + "=" + last], key) == Some(first)
    ensures LastValue([key + "=" + first, key + "=" + last], key) == Some(last)
  {
    var lines := [key + "=" + first, key + "=" + last];
    PairAssigns(key, first);
    PairAssigns(key, last);
    ScanKeyFirst(lines, key, 0);
    LastValueAt(lines, key, 1);
  }

  /** Applying the same upsert twice gives the lines of applying it once. */
  lemma UpdateIdempotent(lines: seq<string>, key: string, value: string)
    requires ValidKey(key) && ValidValue(value)
    ensures UpdatedLines(UpdatedLines(lines, key, value), key, value) == UpdatedLines(lines, key, value)
  {
    var u := UpdatedLines(lines, key, value);
    UpdatedAssignments(lines, key, value);
    forall j | 0 <= j < |u| ensures ReplaceLine(u[j], key, value) == u[j] {
      UpdatedLineAt(lines, key, value, j);
    }
    assert Replaced(u, key, value) == u;
  }

  /** No line the upsert writes holds a line break, and it always writes at least one line. */
  lemma UpdatedLinesWithoutBreaks(lines: seq<string>, key: string, value: string)
    requires ValidKey(key) && ValidValue(value)
    requires forall k :: 0 <= k < |lines| ==> NoLineBreaks(lines[k])
    ensures UpdatedLines(lines, key, value) != []
    ensures forall k :: 0 <= k < |UpdatedLines(lines, key, value)| ==> NoLineBreaks(UpdatedLines(lines, key, value)[k])
  {
    var pair := key + "=" + value;
    assert NoLineBreaks(pair) by {
      forall k | 0 <= k < |pair| ensures !IsLineBreak(pair[k]) {
        if k < |key| { assert pair[k] == key[k]; }
        else if k > |key| { assert pair[k] == value[k - |key| - 1]; }
      }
    }
    var u := UpdatedLines(lines, key, value);
    UpdateLayout(lines, key, value);
    if HasAssignment(lines, key) {
      forall k | 0 <= k < |u| ensures NoLineBreaks(u[k]) {
        if Assigns(lines[k], key) { assert u[k] == pair; } else { assert u[k] == lines[k]; }
      }
    } else {
      var sep: seq<string> := if lines != [] && lines[|lines| - 1] != "" then [""] else [];
      assert u == lines + sep + [pair];
      forall k | 0 <= k < |u| ensures NoLineBreaks(u[k]) {
        if k < |lines| { assert u[k] == lines[k]; }
        else if k < |lines| + |sep| { assert u[k] == ""; }
        else { assert u[k] == pair; }
      }
    }
  }

  /** The text written by `update_env_file` reads back, through `splitlines()`, as exactly the
      upserted lines. */
  lemma ReadBackUpdatedFile(envFile: Option<string>, key: string, value: string)
    requires ValidKey(key) && ValidValue(value)
    ensures LinesOf(Some(UpdatedFile(envFile, key, value))) == UpdatedLines(LinesOf(envFile), key, value)
  {
    var lines := LinesOf(envFile);
    if envFile.Some? {
      SplitLinesHaveNoBreaks(envFile.value);
    }
    UpdatedLinesWithoutBreaks(lines, key, value);
    SplitJoined(UpdatedLines(lines, key, value));
  }

  /** Idempotence on the file: writing the same key and value twice leaves the text of the
      first write. */
  lemma UpdateFileIdempotent(envFile: Option<string>, key: string, value: string)
    requires ValidKey(key) && ValidValue(value)
    ensures UpdatedFile(Some(UpdatedFile(envFile, key, value)), key, value) == UpdatedFile(envFile, key, value)
  {
    ReadBackUpdatedFile(envFile, key, value);
    UpdateIdempotent(LinesOf(envFile), key, value);
  }

  /** Round trip through the file: after `update_api_key(provider, k)` has written,
      `load_api_key(provider)` returns `k`. */
  lemma LoadAfterUpdate(provider: string, apiKey: string, envFile: Option<string>)
    requires provider in KeyNames && apiKey != "" && ValidValue(apiKey)
    ensures StoredKey(provider, Some(UpdatedFile(envFile, KeyNames[provider], apiKey))) == apiKey
  {
    KeyNamesValid();
    ReadBackUpdatedFile(envFile, KeyNames[provider], apiKey);
    UpdateThenScan(LinesOf(envFile), KeyNames[provider], apiKey);
  }

  /** Round trip into generation: after `update_api_key(provider, k)` has written,
      `resolve_api_key` without an explicit key yields `k`, unless the process environment
      defines the provider's name, which then wins. */
  lemma ResolveAfterUpdate(provider: string, apiKey: string, envFile: Option<string>,
                           environ: map<string, string>, provided: Option<string>)
    requires provider in KeyNames && apiKey != "" && ValidValue(apiKey)
    requires KeyNames[provider] !in environ && !Truthy(provided)
    ensures ResolvedKey(provider, provided, Some(UpdatedFile(envFile, KeyNames[provider], apiKey)), environ) == Some(apiKey)
  {
    KeyNamesValid();
    ReadBackUpdatedFile(envFile, KeyNames[provider], apiKey);
    UpdateThenLastValue(LinesOf(envFile), KeyNames[provider], apiKey);
  }
}

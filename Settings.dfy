/**
 * The `key=value` settings file and the configuration read from it.
 * The file is given as its sequence of lines; a missing file is the empty
 * sequence.
 */
module Settings {
  import opened Wrappers
  import opened Text
  import opened Dict

  /**
   * What one line contributes: nothing when it holds no '='; otherwise the
   * line is stripped and split at its first '=', and the stripped text before
   * it is the key, the stripped remainder (which may itself hold '=') the
   * value.
   */
  function ParseLine(line: string): (r: Option<(string, string)>)
    ensures r.None? <==> '=' !in line
  {
    if '=' !in line then None
    else
      NonSpaceSurvivesTrim(line, '=');
      var s := Trim(line);
      var i := FirstIndex(s, '=');
      Some((Trim(s[..i]), Trim(s[i + 1..])))
  }

  /** A parsed key holds no '=' and neither key nor value has whitespace at its ends. */
  lemma ParsedKeyHasNoEquals(line: string)
    requires '=' in line
    ensures '=' !in ParseLine(line).value.0
    ensures Stripped(ParseLine(line).value.0) && Stripped(ParseLine(line).value.1)
  {
    NonSpaceSurvivesTrim(line, '=');
    var s := Trim(line);
    var i := FirstIndex(s, '=');
    TrimKeepsOnlyOwnChars(s[..i], '=');
    TrimSpec(s[..i]);
    TrimSpec(s[i + 1..]);
  }

  /** The dictionary built from the lines, read top to bottom. */
  function SettingsOf(lines: seq<string>): map<string, string>
  {
    Assign(lines, ParseLine)
  }

  /**
   * Reads the settings lines into a dictionary one line at a time: a line
   * with '=' is stripped, split once at its first '=', and both halves are
   * stripped before the assignment.
   */
  method LoadTxtSettings(lines: seq<string>) returns (data: map<string, string>)
    ensures data == SettingsOf(lines)
  {
    data := map[];
    for n := 0 to |lines|
      invariant data == SettingsOf(lines[..n])
    {
      SettingsOfExtend(lines, n);
      var line := lines[n];
      if '=' in line {
        NonSpaceSurvivesTrim(line, '=');
        var s := Trim(line);
        var i := FirstIndex(s, '=');
        data := data[Trim(s[..i]) := Trim(s[i + 1..])];
      }
    }
    assert lines[..|lines|] == lines;
  }

  /** Reading one more line assigns what that line parses to, if anything. */
  lemma SettingsOfExtend(lines: seq<string>, n: nat)
    requires n < |lines|
    ensures SettingsOf(lines[..n + 1]) ==
      match ParseLine(lines[n])
      case None => SettingsOf(lines[..n])
      case Some((k, v)) => SettingsOf(lines[..n])[k := v]
  {
    assert lines[..n + 1] == lines[..n] + [lines[n]];
    AssignSnoc(lines[..n], ParseLine, lines[n]);
  }

  /** True when the line assigns key k. */
  predicate SetsKey(line: string, k: string)
  {
    '=' in line && ParseLine(line).value.0 == k
  }

  /**
   * A key is in the settings exactly when some line assigns it; a line
   * without '=' assigns nothing.
   */
  lemma SettingsKeys(lines: seq<string>, k: string)
    ensures k in SettingsOf(lines) <==> exists i :: 0 <= i < |lines| && SetsKey(lines[i], k)
  {
    AssignKeys(lines, ParseLine, k);
  }

  /**
   * A key's value is the one given by the last line that assigns it: a
   * later line overwrites the value of every earlier line with the same key.
   */
  lemma SettingsLastLineWins(lines: seq<string>, k: string, i: nat)
    requires i < |lines| && SetsKey(lines[i], k)
    requires forall j :: i < j < |lines| ==> !SetsKey(lines[j], k)
    ensures k in SettingsOf(lines) && SettingsOf(lines)[k] == ParseLine(lines[i]).value.1
  {
    AssignLastWins(lines, ParseLine, k, i);
  }

  /** A line without '=' leaves the settings as they were. */
  lemma LineWithoutEqualsIgnored(lines: seq<string>, line: string)
    requires '=' !in line
    ensures SettingsOf(lines + [line]) == SettingsOf(lines)
  {
    var all := lines + [line];
    SettingsOfExtend(all, |lines|);
    assert all[..|lines| + 1] == all;
    assert all[..|lines|] == lines;
  }

  /**
   * Only the first '=' splits: the line " api = v=1 " (with its line break)
   * sets key "api" to "v=1".
   */
  lemma ValueKeepsLaterEquals()
    ensures ParseLine(" api = v=1 \n") == Some(("api", "v=1"))
  {
    var s := "api = v=1";
    ExampleLineStripped();
    FirstIndexUnique(s, '=', 4);
    assert s[..4] == "api ";
    assert s[5..] == " v=1";
    ExampleKeyStripped();
    ExampleValueStripped();
  }

  lemma ExampleLineStripped()
    ensures Trim(" api = v=1 \n") == "api = v=1"
  {
    var line := " api = v=1 \n";
    assert line[1..10] == "api = v=1";
    assert IsSpace(line[10]) && IsSpace(line[11]);
    TrimIs(line, 1, 10);
  }

  lemma ExampleKeyStripped()
    ensures Trim("api ") == "api"
  {
    var s := "api ";
    assert s[0..3] == "api";
    TrimIs(s, 0, 3);
  }

  lemma ExampleValueStripped()
    ensures Trim(" v=1") == "v=1"
  {
    var s := " v=1";
    assert s[1..4] == "v=1";
    TrimIs(s, 1, 4);
  }

  /**
   * The configuration the uploader runs with: credentials and the polling
   * parameters, already converted to integers.
   */
  datatype Config = Config(
    accessToken: string,
    userId: string,
    pollInterval: int,
    timeout: int)
}

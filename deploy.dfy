/**
 * The deployment script (server/scripts/deploy-with-env.ts) over a file system modelled as a
 * map from path to contents: the `KEY="value"` list, the `.env` line filter, the `.gitignore`
 * patch, the build and deploy steps, and the restore in the `finally` block.
 */
module Deploy {
  import opened Wrappers
  import opened Text

  /** A path the script touches: `server/.env`, `server/.gitignore`, or any other file. */
  datatype Path = EnvFile | GitignoreFile | OtherFile(name: string)

  type Files = map<Path, string>

  const EnvPath := EnvFile
  const GitignorePath := GitignoreFile

  const ForbiddenKeys: seq<string> := ["PORT", "GOOGLE_APPLICATION_CREDENTIALS"]

  const BuildCommand := "pnpm run build"
  const DeployCommand := "firebase deploy --only functions"

  /** `${key}="${value}"` */
  function Assignment(entry: (string, string)): (r: string)
    ensures |r| == |entry.0| + |entry.1| + 3
  {
    entry.0 + "=\"" + entry.1 + "\""
  }

  /** `envVars`: the parsed entries as `KEY="value"`, separated by single spaces. It holds
   *  every entry's assignment, and there is nothing to upload exactly when the `.env` file has
   *  no entries. */
  function EnvVars(entries: seq<(string, string)>): (r: string)
    ensures r == "" <==> entries == []
    ensures forall k :: 0 <= k < |entries| ==> Contains(r, Assignment(entries[k]))
  {
    var parts := seq(|entries|, i requires 0 <= i < |entries| => Assignment(entries[i]));
    JoinHasParts(parts, " ");
    assert forall k :: 0 <= k < |entries| ==> parts[k] == Assignment(entries[k]);
    Join(parts, " ")
  }

  /** The key of a trimmed line: the text before its first '=', trimmed. */
  function LineKey(trimmed: string): string {
    Trim(Split(trimmed, "=")[0])
  }

  /** The line filter: blank lines and comments stay, and so does every line whose key is not
   *  a local-only key. */
  predicate KeepLine(line: string) {
    var trimmed := Trim(line);
    trimmed == "" || StartsWith(trimmed, "#") || LineKey(trimmed) !in ForbiddenKeys
  }

  /** Helper for `ForbiddenAssignmentDropped`, kept apart so that its case split over the two
   *  keys stays out of the larger proof: each local-only key is non-empty, starts and ends with
   *  a letter and holds no '='. */
  lemma ForbiddenKeyShape(key: string)
    requires key in ForbiddenKeys
    ensures key != [] && !IsSpace(key[0]) && key[0] != '#' && !IsSpace(key[|key| - 1]) && '=' !in key
  {
    assert key == "PORT" || key == "GOOGLE_APPLICATION_CREDENTIALS";
  }

  /** The text before the first '=' of `key=value`, for a key without '='. */
  lemma SplitAssignment(key: string, value: string)
    requires '=' !in key
    ensures Split(key + "=" + value, "=")[0] == key
  {
    var line := key + "=" + value;
    assert OccursAt(line, "=", |key|) by {
      assert line[|key|..|key| + 1] == "=";
    }
    forall j | 0 <= j < |key| ensures !OccursAt(line, "=", j) {
      assert line[j] == key[j];
    }
    SplitHead(line, "=");
    assert line[..|key|] == key;
  }

  /** A line that sets a local-only key is dropped. */
  lemma ForbiddenAssignmentDropped(key: string, value: string)
    requires key in ForbiddenKeys
    requires value == [] || !IsSpace(value[|value| - 1])
    ensures !KeepLine(key + "=" + value)
  {
    ForbiddenKeyShape(key);
    SplitAssignment(key, value);
    var line := key + "=" + value;
    assert line[0] == key[0] && line[|line| - 1] == (if value == [] then '=' else value[|value| - 1]);
    assert Trim(line) == line;
    assert !StartsWith(line, "#") by {
      assert line[0] != '#';
    }
    assert Trim(key) == key;
  }

  function FilterLines(lines: seq<string>): (r: seq<string>)
    ensures forall x :: x in r <==> x in lines && KeepLine(x)
    ensures |r| <= |lines|
  {
    if lines == [] then []
    else (if KeepLine(lines[0]) then [lines[0]] else []) + FilterLines(lines[1..])
  }

  /** The filter keeps the remaining lines in their order. */
  lemma {:induction false} FilterLinesConcat(xs: seq<string>, ys: seq<string>)
    ensures FilterLines(xs + ys) == FilterLines(xs) + FilterLines(ys)
  {
    if xs == [] {
      assert xs + ys == ys;
    } else {
      assert (xs + ys)[0] == xs[0] && (xs + ys)[1..] == xs[1..] + ys;
      FilterLinesConcat(xs[1..], ys);
    }
  }

  lemma {:induction false} FilterLinesAllKept(lines: seq<string>)
    requires forall k :: 0 <= k < |lines| ==> KeepLine(lines[k])
    ensures FilterLines(lines) == lines
  {
    if lines != [] {
      FilterLinesAllKept(lines[1..]);
    }
  }

  /** `filteredEnvContent` */
  function FilteredEnv(content: string): string {
    Join(FilterLines(Split(content, "\n")), "\n")
  }

  /** A `.env` without local-only keys is written back unchanged. */
  lemma FilteredEnvUnchanged(content: string)
    requires forall k :: 0 <= k < |Split(content, "\n")| ==> KeepLine(Split(content, "\n")[k])
    ensures FilteredEnv(content) == content
  {
    FilterLinesAllKept(Split(content, "\n"));
    JoinSplit(content, "\n");
  }

  /** No kept line sets a local-only key. */
  lemma FilteredEnvDropsForbidden(content: string, line: string)
    requires line in FilterLines(Split(content, "\n"))
    ensures var trimmed := Trim(line); trimmed == "" || StartsWith(trimmed, "#") || LineKey(trimmed) !in ForbiddenKeys
  {
  }

  /** The `.gitignore` written before the build: unchanged when it already un-ignores `.env`,
   *  extended by a line "!.env" otherwise, and created as "!.env\n" when missing. */
  function PatchedGitignore(files: Files): (r: string)
    ensures Contains(r, "!.env")
  {
    if GitignorePath in files then
      if Contains(files[GitignorePath], "!.env") then files[GitignorePath]
      else
        ContainsMiddle(files[GitignorePath] + "\n", "!.env", "");
        assert files[GitignorePath] + "\n" + "!.env" + "" == files[GitignorePath] + "\n!.env";
        files[GitignorePath] + "\n!.env"
    else
      ContainsMiddle("", "!.env", "\n");
      assert "" + "!.env" + "\n" == "!.env\n";
      "!.env\n"
  }

  /** `files` with `.env` and `.gitignore` holding the given contents. */
  function Replaced(files: Files, env: string, gitignore: string): (r: Files)
    ensures r.Keys == files.Keys + {EnvPath, GitignorePath}
    ensures r[EnvPath] == env && r[GitignorePath] == gitignore
    ensures forall p :: p in files && p != EnvPath && p != GitignorePath ==> r[p] == files[p]
  {
    files[EnvPath := env][GitignorePath := gitignore]
  }

  /** The files while the build and deploy run. */
  function Prepared(files: Files): (r: Files)
    requires EnvPath in files
    ensures r.Keys == files.Keys + {GitignorePath}
    ensures r[EnvPath] == FilteredEnv(files[EnvPath]) && r[GitignorePath] == PatchedGitignore(files)
    ensures forall p :: p in files && p != EnvPath && p != GitignorePath ==> r[p] == files[p]
  {
    Replaced(files, FilteredEnv(files[EnvPath]), PatchedGitignore(files))
  }

  /** `/\n!.env/g` and `/!.env/g`, whose '.' matches any character but a line terminator. */
  const NewlineUnignore: seq<Atom> := [Lit('\n'), Lit('!'), AnyChar, Lit('e'), Lit('n'), Lit('v')]
  const Unignore: seq<Atom> := [Lit('!'), AnyChar, Lit('e'), Lit('n'), Lit('v')]

  /** The un-ignore removal of the `finally` block: it only removes text. */
  function CleanedGitignore(current: string): (r: string)
    ensures |r| <= |current|
  {
    RemoveAll(RemoveAll(current, NewlineUnignore), Unignore)
  }

  /** A `.gitignore` without an un-ignore line is restored as it is. */
  lemma CleanedGitignoreKeepsOthers(current: string)
    requires forall i :: 0 <= i <= |current| ==> !MatchesAt(current, Unignore, i)
    ensures CleanedGitignore(current) == current
  {
    forall i | 0 <= i <= |current| ensures !MatchesAt(current, NewlineUnignore, i) {
      if MatchesAt(current, NewlineUnignore, i) {
        assert MatchesAt(current, Unignore, i + 1) by {
          forall j | 0 <= j < |Unignore| ensures AtomMatches(Unignore[j], current[i + 1 + j]) {
            assert Unignore[j] == NewlineUnignore[j + 1];
          }
        }
      }
    }
  }

  /** The `finally` block: the original `.env` back when it was non-empty, and the original
   *  `.gitignore` back when it was non-empty, else the current one with the un-ignore lines
   *  removed. */
  function Restored(current: Files, originalEnv: string, originalGitignore: string): (r: Files)
    ensures r.Keys == current.Keys
    ensures EnvPath in current ==> r[EnvPath] == (if originalEnv != "" then originalEnv else current[EnvPath])
    ensures GitignorePath in current ==>
      r[GitignorePath] == (if originalGitignore != "" then originalGitignore else CleanedGitignore(current[GitignorePath]))
    ensures forall p :: p in current && p != EnvPath && p != GitignorePath ==> r[p] == current[p]
  {
    var withEnv := if originalEnv != "" && EnvPath in current then current[EnvPath := originalEnv] else current;
    if GitignorePath in withEnv then
      withEnv[GitignorePath := if originalGitignore != "" then originalGitignore else CleanedGitignore(withEnv[GitignorePath])]
    else withEnv
  }

  function OriginalGitignore(files: Files): string {
    if GitignorePath in files then files[GitignorePath] else ""
  }

  /** With a non-empty `.env` and `.gitignore`, preparing and restoring gives back exactly the
   *  files there were. */
  lemma RestoreUndoesPrepare(files: Files)
    requires EnvPath in files && files[EnvPath] != ""
    requires GitignorePath in files && files[GitignorePath] != ""
    ensures Restored(Prepared(files), files[EnvPath], OriginalGitignore(files)) == files
  {
  }

  /** A `.gitignore` that did not exist is left behind holding a single line break. */
  lemma CreatedGitignoreLeftBehind(files: Files)
    requires EnvPath in files && GitignorePath !in files
    ensures Restored(Prepared(files), files[EnvPath], OriginalGitignore(files))[GitignorePath] == "\n"
  {
    var created := "!.env\n";
    assert created[0] == '!' && NewlineUnignore[0] == Lit('\n');
    assert !MatchesAt(created, NewlineUnignore, 0);
    assert RemoveAll(created, NewlineUnignore) == created by {
      forall i | 0 <= i <= |created|
        ensures !MatchesAt(created, NewlineUnignore, i)
      {
        if i > 0 && i + 6 <= |created| {
          assert false;
        }
      }
    }
    assert MatchesAt(created, Unignore, 0);
    assert created[5..] == "\n";
    assert RemoveAll("\n", Unignore) == "\n";
  }

  /** The state of one run of the script: the files, the exit code once it has exited, and
   *  the shell commands started, in order. */
  class Script {
    var files: Files
    var exitCode: Option<int>
    var commands: seq<string>

    constructor (initial: Files)
      ensures files == initial && exitCode.None? && commands == []
    {
      files := initial;
      exitCode := None;
      commands := [];
    }

    /** The steps up to the build: read and filter `.env`, patch `.gitignore`. */
    method Prepare() returns (originalEnvContent: string, originalGitignoreContent: string)
      requires EnvPath in files
      modifies this`files
      ensures files == Prepared(old(files))
      ensures originalEnvContent == old(files)[EnvPath] && originalGitignoreContent == OriginalGitignore(old(files))
    {
      var before := files;
      originalEnvContent := "";
      originalGitignoreContent := "";
      if EnvPath in files {
        originalEnvContent := files[EnvPath];
      }
      var filteredEnvContent := FilteredEnv(originalEnvContent);
      files := files[EnvPath := filteredEnvContent];
      var gitignore: string;
      if GitignorePath in files {
        originalGitignoreContent := files[GitignorePath];
        gitignore := originalGitignoreContent;
        if !Contains(originalGitignoreContent, "!.env") {
          gitignore := originalGitignoreContent + "\n!.env";
        }
      } else {
        gitignore := "!.env\n";
      }
      files := files[GitignorePath := gitignore];
      assert gitignore == PatchedGitignore(before);
      assert files == before[EnvPath := filteredEnvContent][GitignorePath := gitignore];
    }

    /** The build and deploy commands; `buildOk` and `deployOk` are their outcomes. */
    method BuildAndDeploy(buildOk: bool, deployOk: bool) returns (ok: bool)
      modifies this`commands
      ensures ok == (buildOk && deployOk)
      ensures commands == old(commands) + (if buildOk then [BuildCommand, DeployCommand] else [BuildCommand])
    {
      commands := commands + [BuildCommand];
      if !buildOk {
        return false;
      }
      commands := commands + [DeployCommand];
      ok := deployOk;
    }

    /** The script as written. `entries` is what the `.env` parser reads from the file. A
     *  failed build or deploy exits in the `catch` block, so the `finally` restore never
     *  runs. */
    method RunAsWritten(entries: seq<(string, string)>, buildOk: bool, deployOk: bool)
      requires exitCode.None?
      modifies this
      ensures EnvPath !in old(files) ==> files == old(files) && exitCode == Some(1) && commands == old(commands)
      ensures EnvPath in old(files) && entries == [] ==> files == old(files) && exitCode == Some(0) && commands == old(commands)
      ensures EnvPath in old(files) && entries != [] && buildOk && deployOk ==>
        && files == Restored(Prepared(old(files)), old(files)[EnvPath], OriginalGitignore(old(files)))
        && exitCode == Some(0)
      ensures EnvPath in old(files) && entries != [] && !(buildOk && deployOk) ==>
        files == Prepared(old(files)) && exitCode == Some(1)
    {
      if EnvPath !in files {
        exitCode := Some(1);
        return;
      }
      var envVars := EnvVars(entries);
      if envVars == "" {
        exitCode := Some(0);
        return;
      }
      var originalEnvContent, originalGitignoreContent := Prepare();
      var ok := BuildAndDeploy(buildOk, deployOk);
      if !ok {
        exitCode := Some(1);
        return;
      }
      files := Restored(files, originalEnvContent, originalGitignoreContent);
      exitCode := Some(0);
    }

    /** The script with the restore run before the failure exit, as its `finally` block
     *  intends. */
    method RunRestoring(entries: seq<(string, string)>, buildOk: bool, deployOk: bool)
      requires exitCode.None?
      modifies this
      ensures EnvPath !in old(files) ==> files == old(files) && exitCode == Some(1) && commands == old(commands)
      ensures EnvPath in old(files) && entries == [] ==> files == old(files) && exitCode == Some(0) && commands == old(commands)
      ensures EnvPath in old(files) && entries != [] ==>
        && files == Restored(Prepared(old(files)), old(files)[EnvPath], OriginalGitignore(old(files)))
        && exitCode == Some(if buildOk && deployOk then 0 else 1)
    {
      if EnvPath !in files {
        exitCode := Some(1);
        return;
      }
      var envVars := EnvVars(entries);
      if envVars == "" {
        exitCode := Some(0);
        return;
      }
      ghost var initial := files;
      var originalEnvContent, originalGitignoreContent := Prepare();
      ghost var prepared := files;
      var ok := BuildAndDeploy(buildOk, deployOk);
      assert files == prepared;
      files := Restored(files, originalEnvContent, originalGitignoreContent);
      assert files == Restored(Prepared(initial), initial[EnvPath], OriginalGitignore(initial));
      exitCode := Some(if ok then 0 else 1);
    }
  }

  /** A failed deploy as written leaves the patched `.gitignore` in place: a `.gitignore`
   *  that does not yet un-ignore `.env` (such as one whose only line is ".env") keeps the
   *  added "!.env" line, so the next commit would include the secrets file. */
  lemma FailedRunLeavesFilesChanged(files: Files)
    requires EnvPath in files && GitignorePath in files
    requires !Contains(files[GitignorePath], "!.env")
    ensures Prepared(files)[GitignorePath] == files[GitignorePath] + "\n!.env"
    ensures Prepared(files) != files
  {
    assert |Prepared(files)[GitignorePath]| != |files[GitignorePath]|;
  }
}

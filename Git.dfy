/** The command lines that `gitPull` and `gitPush` hand to the shell
    (sync-git-plugin/src/git.ts). Running the command, and the log line
    printed before it, are not part of this model: each entry point returns
    the string it would execute. */
module Git {
  import opened JsValues

  /** The option object after the merge: every property may be `undefined`. */
  datatype GitOption = GitOption(
    rootPath: Option<string>,  // local repository root; the command first changes into it
    remote: Option<string>,
    branch: Option<string>,
    force: Option<bool>        // read by gitPush only
  )

  /** What a caller passes: each key left out or given (possibly as `undefined`).
      `GitPullOption` declares no `force`, and gitPull never reads it. */
  datatype CallerOption = CallerOption(
    rootPath: Key<string>,
    remote: Key<string>,
    branch: Key<string>,
    force: Key<bool>
  )

  /** `DEFAULT_GIT_OPTION`: the module's own directory (`__dirname`, passed in
      as `moduleDir`), remote "origin", branch "master", and no `force` key. */
  function DefaultOption(moduleDir: string): (d: GitOption)
  {
    GitOption(Some(moduleDir), Some("origin"), Some("master"), None)
  }

  /** A call with no argument (`gitPull()`, `gitPush()`): the parameter is
      `DEFAULT_GIT_OPTION` itself, which is then merged over itself. Modelled
      here as a caller with every key left out; `NoOptionIsDefaultObject`
      shows this gives the same commands as passing the defaults' own keys. */
  const NoOption := CallerOption(Omitted, Omitted, Omitted, Omitted)

  /** `Object.assign({}, defaults, caller)`. */
  function Merge(defaults: GitOption, caller: CallerOption): (m: GitOption)
  {
    GitOption(
      Assign(defaults.rootPath, caller.rootPath),
      Assign(defaults.remote, caller.remote),
      Assign(defaults.branch, caller.branch),
      Assign(defaults.force, caller.force))
  }

  /** Merging over the defaults with no key of the caller's gives the defaults:
      the argument-less call sees `DEFAULT_GIT_OPTION` unchanged. */
  lemma MergeNoOptionIsDefault(moduleDir: string)
    ensures Merge(DefaultOption(moduleDir), NoOption) == DefaultOption(moduleDir)
  {
  }

  /** `getCommonCommandBefore`: change into the repository root first, when one is set. */
  function CommandBefore(option: GitOption): (command: string)
  {
    var command := "";
    if StringTruthy(option.rootPath) then command + "cd " + option.rootPath.value + " && " else command
  }

  /** `getCommonCommandAfter`: the trailing segment, empty whatever the options.
      The source calls it without an argument, so it gets `DEFAULT_GIT_OPTION`. */
  function CommandAfter(option: GitOption): (command: string)
  {
    ""
  }

  /** The body of both commands, `git pull ${remote} ${branch}`. */
  function PullBody(option: GitOption): (body: string)
  {
    "git pull " + Render(option.remote) + " " + Render(option.branch)
  }

  // ---------------------------------------------------------------------
  // Reference definition: the command as the words it is made of, joined
  // by single spaces.

  /** Words joined by single spaces. */
  function Join(words: seq<string>): (line: string)
  {
    if |words| == 0 then ""
    else if |words| == 1 then words[0]
    else words[0] + " " + Join(words[1..])
  }

  lemma {:induction false} JoinAppend(a: seq<string>, b: seq<string>)
    requires |a| > 0 && |b| > 0
    ensures Join(a + b) == Join(a) + " " + Join(b)
  {
    if |a| == 1 {
      assert (a + b)[1..] == b;
    } else {
      assert (a + b)[1..] == a[1..] + b;
      JoinAppend(a[1..], b);
    }
  }

  /** The words that change into the repository root, if any. */
  function CdWords(option: GitOption): (words: seq<string>)
  {
    if StringTruthy(option.rootPath) then ["cd", option.rootPath.value, "&&"] else []
  }

  /** The words of the pull command. */
  function PullWords(option: GitOption): (words: seq<string>)
  {
    CdWords(option) + ["git", "pull", Render(option.remote), Render(option.branch)]
  }

  /** gitPush says `git pull` as well (git.ts:53), then `--force` when forced. */
  function PushWords(option: GitOption): (words: seq<string>)
  {
    PullWords(option) + (if BoolTruthy(option.force) then ["--force"] else [])
  }

  /** The command gitPull executes for a caller's options. */
  function PullCommand(moduleDir: string, caller: CallerOption): (command: string)
  {
    Join(PullWords(Merge(DefaultOption(moduleDir), caller)))
  }

  /** The command gitPush executes for a caller's options. */
  function PushCommand(moduleDir: string, caller: CallerOption): (command: string)
  {
    Join(PushWords(Merge(DefaultOption(moduleDir), caller)))
  }

  /** Joining a word in front of at least one more word puts one space between. */
  lemma JoinCons(w: string, ws: seq<string>)
    requires |ws| > 0
    ensures Join([w] + ws) == w + " " + Join(ws)
  {
  }

  /** The body words joined are the body the source builds. */
  lemma JoinBodyWords(option: GitOption)
    ensures Join(["git", "pull", Render(option.remote), Render(option.branch)]) == PullBody(option)
  {
    var r, b := Render(option.remote), Render(option.branch);
    JoinCons(r, [b]);
    JoinCons("pull", [r, b]);
    JoinCons("git", ["pull", r, b]);
    assert ["git", "pull", r, b] == ["git"] + ["pull", r, b];
    assert ["pull", r, b] == ["pull"] + [r, b];
    assert [r, b] == [r] + [b];
  }

  /** The pull words joined are exactly prefix + `git pull <remote> <branch>`. */
  lemma PullWordsJoined(option: GitOption)
    ensures Join(PullWords(option)) == CommandBefore(option) + PullBody(option)
  {
    var body := ["git", "pull", Render(option.remote), Render(option.branch)];
    JoinBodyWords(option);
    if StringTruthy(option.rootPath) {
      var root := option.rootPath.value;
      var cd := ["cd", root, "&&"];
      JoinAppend(cd, body);
      JoinCons(root, ["&&"]);
      JoinCons("cd", [root, "&&"]);
      assert cd == ["cd"] + [root, "&&"];
      assert [root, "&&"] == [root] + ["&&"];
    } else {
      assert PullWords(option) == body;
    }
  }

  /** With `--force` after the pull words, the push words joined are the
      pull command followed by " --force". */
  lemma PushWordsJoined(option: GitOption)
    ensures Join(PushWords(option))
      == CommandBefore(option) + PullBody(option) + (if BoolTruthy(option.force) then " --force" else "")
  {
    PullWordsJoined(option);
    if BoolTruthy(option.force) {
      JoinAppend(PullWords(option), ["--force"]);
    } else {
      assert PushWords(option) == PullWords(option);
    }
  }

  // ---------------------------------------------------------------------
  // The two entry points, as the same sequence of assignments the source
  // runs before `execSync`.

  /** `gitPull(option)`: the command it executes. */
  method GitPull(moduleDir: string, caller: CallerOption) returns (gitCommand: string)
    ensures gitCommand == PullCommand(moduleDir, caller)
  {
    var option := Merge(DefaultOption(moduleDir), caller);
    gitCommand := "git pull " + Render(option.remote) + " " + Render(option.branch);
    gitCommand := CommandBefore(option) + gitCommand + CommandAfter(DefaultOption(moduleDir));
    PullWordsJoined(option);
  }

  /** `gitPush(option)`: the command it executes. */
  method GitPush(moduleDir: string, caller: CallerOption) returns (gitCommand: string)
    ensures gitCommand == PushCommand(moduleDir, caller)
  {
    var option := Merge(DefaultOption(moduleDir), caller);
    gitCommand := "git pull " + Render(option.remote) + " " + Render(option.branch);
    if BoolTruthy(option.force) {
      gitCommand := gitCommand + " --force";
    }
    gitCommand := CommandBefore(option) + gitCommand + CommandAfter(DefaultOption(moduleDir));
    PushWordsJoined(option);
  }

  // ---------------------------------------------------------------------
  // Properties of the commands.

  /** The pull command is the directory prefix, then `git pull <remote> <branch>`,
      then the (empty) trailing segment; a remote or branch key given as
      `undefined` is spelled "undefined". */
  lemma PullCommandShape(moduleDir: string, caller: CallerOption)
    ensures var option := Merge(DefaultOption(moduleDir), caller);
      PullCommand(moduleDir, caller)
        == CommandBefore(option) + "git pull " + Render(option.remote) + " " + Render(option.branch)
        + CommandAfter(DefaultOption(moduleDir))
  {
    PullWordsJoined(Merge(DefaultOption(moduleDir), caller));
  }

  /** The argument-less `gitPull()` changes into the module directory and
      pulls master from origin. */
  lemma DefaultPullCommand(moduleDir: string)
    requires moduleDir != ""
    ensures PullCommand(moduleDir, NoOption) == "cd " + moduleDir + " && git pull origin master"
  {
    PullWordsJoined(DefaultOption(moduleDir));
  }

  /** The argument-less `gitPush()` runs the very same command: no force by
      default, and `git pull` rather than `git push`. */
  lemma DefaultPushCommand(moduleDir: string)
    requires moduleDir != ""
    ensures PushCommand(moduleDir, NoOption) == "cd " + moduleDir + " && git pull origin master"
  {
    PushWordsJoined(DefaultOption(moduleDir));
  }

  /** Passing `DEFAULT_GIT_OPTION`'s own keys explicitly gives the same
      commands as leaving every key out. */
  lemma NoOptionIsDefaultObject(moduleDir: string)
    ensures var explicit := CallerOption(Given(Some(moduleDir)), Given(Some("origin")), Given(Some("master")), Omitted);
      PullCommand(moduleDir, explicit) == PullCommand(moduleDir, NoOption)
      && PushCommand(moduleDir, explicit) == PushCommand(moduleDir, NoOption)
  {
  }

  /** Keys the caller supplies win the merge and appear verbatim in the
      command: the caller's root path in the `cd` prefix, the caller's
      remote and branch after `git pull`. */
  lemma CallerKeysWin(moduleDir: string, caller: CallerOption, root: string, remote: string, branch: string)
    requires caller.rootPath == Given(Some(root)) && root != ""
    requires caller.remote == Given(Some(remote)) && caller.branch == Given(Some(branch))
    ensures PullCommand(moduleDir, caller) == "cd " + root + " && git pull " + remote + " " + branch
  {
    PullWordsJoined(Merge(DefaultOption(moduleDir), caller));
  }

  /** Keys may be mixed: with the root path left out, the command changes into
      the module directory, and each of remote and branch is the caller's
      string when the caller gives one and the default when the key is left out. */
  lemma OmittedKeysTakeDefaults(moduleDir: string, caller: CallerOption)
    requires moduleDir != "" && caller.rootPath.Omitted?
    requires caller.remote.Omitted? || caller.remote.value.Some?
    requires caller.branch.Omitted? || caller.branch.value.Some?
    ensures PullCommand(moduleDir, caller)
         == "cd " + moduleDir + " && git pull "
          + (if caller.remote.Given? then caller.remote.value.value else "origin") + " "
          + (if caller.branch.Given? then caller.branch.value.value else "master")
  {
    PullWordsJoined(Merge(DefaultOption(moduleDir), caller));
  }

  /** A caller that gives only the remote pulls the default branch into the
      module directory from that remote. */
  lemma OnlyRemoteGiven(moduleDir: string)
    requires moduleDir != ""
    ensures PullCommand(moduleDir, NoOption.(remote := Given(Some("up"))))
         == "cd " + moduleDir + " && git pull up master"
  {
    OmittedKeysTakeDefaults(moduleDir, NoOption.(remote := Given(Some("up"))));
  }

  /** A root path key given as `undefined` wins the merge and drops the `cd` prefix. */
  lemma UndefinedRootPathDropsPrefix(moduleDir: string)
    ensures PullCommand(moduleDir, NoOption.(rootPath := Given(None))) == "git pull origin master"
  {
    var option := Merge(DefaultOption(moduleDir), NoOption.(rootPath := Given(None)));
    PullWordsJoined(option);
    assert CommandBefore(option) == "";
  }

  /** A remote key given as `undefined` wins the merge and is spelled "undefined". */
  lemma UndefinedRemoteIsSpelledOut(moduleDir: string)
    requires moduleDir != ""
    ensures PullCommand(moduleDir, NoOption.(remote := Given(None)))
         == "cd " + moduleDir + " && git pull undefined master"
  {
    var option := Merge(DefaultOption(moduleDir), NoOption.(remote := Given(None)));
    PullWordsJoined(option);
    assert PullBody(option) == "git pull undefined master";
  }

  /** A forced push ends with " --force", and what comes before the flag is
      the pull command for the same options: the directory prefix goes in
      front, never after the flag. */
  lemma ForcedPushEndsWithFlag(moduleDir: string, caller: CallerOption)
    requires caller.force == Given(Some(true))
    ensures var c := PushCommand(moduleDir, caller);
      |c| >= 8 && c[|c| - 8..] == " --force" && c[..|c| - 8] == PullCommand(moduleDir, caller)
  {
    var option := Merge(DefaultOption(moduleDir), caller);
    PushWordsJoined(option);
    PullWordsJoined(option);
  }

  /** Push and pull give the same command exactly when force is not truthy
      after the merge (left out, `undefined` or `false`). */
  lemma PushIsPullUnlessForced(moduleDir: string, caller: CallerOption)
    ensures PushCommand(moduleDir, caller) == PullCommand(moduleDir, caller)
        <==> caller.force != Given(Some(true))
  {
    var option := Merge(DefaultOption(moduleDir), caller);
    PushWordsJoined(option);
    PullWordsJoined(option);
    if caller.force == Given(Some(true)) {
      assert |PushCommand(moduleDir, caller)| == |PullCommand(moduleDir, caller)| + 8;
    }
  }

  /** Forcing adds exactly the eight characters " --force" to the command. */
  lemma ForceAddsEightCharacters(moduleDir: string, caller: CallerOption)
    ensures |PushCommand(moduleDir, caller.(force := Given(Some(true))))|
         == |PushCommand(moduleDir, caller.(force := Omitted))| + 8
  {
    PushWordsJoined(Merge(DefaultOption(moduleDir), caller.(force := Given(Some(true)))));
    PushWordsJoined(Merge(DefaultOption(moduleDir), caller.(force := Omitted)));
  }
}

# sync-git-plugin: git command lines and OS classification

A model of the two pure pieces of the sync-git-plugin's core:

- **Git command lines** (`sync-git-plugin/src/git.ts`). `gitPull` and `gitPush`
  merge the caller's options over `DEFAULT_GIT_OPTION` with `Object.assign`,
  build `git pull <remote> <branch>`, append ` --force` (push only) when `force`
  is truthy, and put `cd <rootPath> && ` in front when `rootPath` is a
  non-empty string. The model's `Git.GitPull` and `Git.GitPush` run that same
  sequence of assignments and return the string instead of executing it.
  They are proved equal to a reference definition, `Git.PullCommand` and
  `Git.PushCommand`, which spell the command as its shell words joined by
  single spaces. The command properties are proved as lemmas about those two
  functions.
- **OS classification** (`sync-git-plugin/src/core.ts`). `Core.CurOsType` maps
  the name the host reports (`OS.type()`, passed in as a string) to
  `OsType`. `Core.IsOsType` compares a type with that classification.

JavaScript details that matter here are written out in `JsValues`:

- A property may hold `undefined` (`Option.None`).
- A caller's key may be left out, or be present with the value `undefined`
  (`Key`). `Object.assign` copies a present key even when its value is
  `undefined`, so such a key still overrides the default.
- `if (x)` on a `string | undefined` value is true only for a non-empty
  string, and on a `boolean | undefined` value only for `true`.
- `${x}` spells `undefined` as the text "undefined".

`__dirname` is the parameter `moduleDir`. A no-argument call (`gitPull()`, as
`main.ts` makes) is `Git.NoOption`, with every key left out.

What the code does, and the model with it:

- `gitPush` emits `git pull`, not `git push` (git.ts:53).
- `gitPush` runs no `git add` and no `git commit`, and takes no commit message.
- `DEFAULT_GIT_OPTION` has no `force` key (git.ts:11-15), so the
  no-argument push adds no flag.
- `getCommonCommandBefore` makes no test of the operating system (git.ts:28-34).
- The commands do not quote the root path, remote or branch.

## Model

| member | source | states |
|---|---|---|
| `Git.MergeNoOptionIsDefault` | sync-git-plugin/src/git.ts:42-43 | an argument-less call sees exactly the defaults after the merge |
| `Git.NoOptionIsDefaultObject` | sync-git-plugin/src/git.ts:11-15 | passing the defaults' own keys (module directory, "origin", "master", no force) gives the same pull and push commands as a call with every key left out |
| `Git.CallerKeysWin` | sync-git-plugin/src/git.ts:43-45 | when the caller supplies a non-empty rootPath and defined remote and branch, the merge takes the caller's values and the pull command is exactly "cd " + root + " && git pull " + remote + " " + branch |
| `Git.OmittedKeysTakeDefaults` | sync-git-plugin/src/git.ts:11-15 | for a caller that leaves rootPath out and gives remote and branch as strings or leaves them out, the pull command changes into the module directory and uses, key by key, the caller's value if given and "origin" / "master" otherwise |
| `Git.OnlyRemoteGiven` | sync-git-plugin/src/git.ts:43-44 | a caller that gives only remote "up" gets "cd <module dir> && git pull up master" |
| `Git.PullWordsJoined` | sync-git-plugin/src/git.ts:44-45 | the pull command's words ("cd", root, "&&" when rootPath is a non-empty string, none otherwise; then "git", "pull", remote, branch), joined by spaces, are exactly `getCommonCommandBefore`'s prefix ("cd " + rootPath + " && " or "") followed by the pull body |
| `Git.PushWordsJoined` | sync-git-plugin/src/git.ts:53-57 | the push words joined are the directory prefix, the pull body, then " --force" exactly when force is true |
| `Git.GitPull` | sync-git-plugin/src/git.ts:42-47 | the assignment sequence of gitPull (merge, body, prefix + body + suffix) yields the reference pull command for the caller's options |
| `Git.GitPush` | sync-git-plugin/src/git.ts:51-59 | the assignment sequence of gitPush (merge, body, conditional " --force", prefix + body + suffix) yields the reference push command for the caller's options |
| `Git.PullCommandShape` | sync-git-plugin/src/git.ts:44-45 | the pull command is prefix + "git pull " + remote + " " + branch + the empty suffix, so the whole command is prefix + body |
| `Git.DefaultPullCommand` | sync-git-plugin/src/git.ts:42-45 | with no options, the pull command is "cd <module dir> && git pull origin master" |
| `Git.DefaultPushCommand` | sync-git-plugin/src/git.ts:51-57 | with no options, the push command is the same "cd <module dir> && git pull origin master": no force flag and no push |
| `Git.UndefinedRootPathDropsPrefix` | sync-git-plugin/src/git.ts:30 | a rootPath key given as undefined overrides the module directory and removes the cd prefix |
| `Git.UndefinedRemoteIsSpelledOut` | sync-git-plugin/src/git.ts:43-44 | a remote key given as undefined overrides "origin" and appears in the command as "undefined" |
| `Git.ForcedPushEndsWithFlag` | sync-git-plugin/src/git.ts:53-57 | a push with force true ends with " --force", and everything before the flag is the pull command for the same options, so the prefix is never placed after the flag |
| `Git.PushIsPullUnlessForced` | sync-git-plugin/src/git.ts:53-57 | push and pull give the same command if and only if force is not true (left out, undefined or false) |
| `Git.ForceAddsEightCharacters` | sync-git-plugin/src/git.ts:54-56 | forcing makes the push command exactly 8 characters longer than the unforced push for the same options |
| `Core.CurOsType` | sync-git-plugin/src/core.ts:13-25 | "Linux", "Windows_NT" and "Darwin" classify as Linux, Win and MacOS, each if and only if the name is exactly that string; the result is Unknown exactly when the name is none of the three |
| `Core.CurOsTypeIsTableLookup` | sync-git-plugin/src/core.ts:15-24 | the if-chain agrees with a lookup in the table of the three recognised names, with Unknown for any name not in the table |
| `Core.ClassifyRoundTrip` | sync-git-plugin/src/core.ts:15-23 | the three names and the three known types correspond one to one: classifying a type's name gives the type back, and a name classified as known is that type's name |
| `Core.OtherCasingIsUnknown` | sync-git-plugin/src/core.ts:24 | illustration on four names: "linux", "LINUX", "windows_nt" and "darwin" classify as Unknown (the all-names statement is the last clause of `Core.CurOsType`) |
| `Core.ExactlyOneOsType` | sync-git-plugin/src/core.ts:28-30 | for a given system name, `isOsType` holds of its classification and of no other type |

## Left out

- Running the commands (`execSync`, git.ts:47 and git.ts:59) and `execCommand` (core.ts:33-41) are left out: they start external processes. The entry points return the command string instead.
- The `console.log` lines (git.ts:46 and git.ts:58) are left out: they only log.
- `OS.type()` (core.ts:14) is left out because it asks the host. Its result is the `osName` parameter.
- `__dirname` is the `moduleDir` parameter; no value for it is assumed. The lemmas `Git.DefaultPullCommand`, `Git.DefaultPushCommand`, `Git.UndefinedRemoteIsSpelledOut`, `Git.OmittedKeysTakeDefaults` and `Git.OnlyRemoteGiven` require it to be non-empty, as a module directory always is.
- `curTimestamp` (core.ts:44-46) is left out because it reads the wall clock.
- The TypeScript enum's numeric values (`Win` = 0, …) are not modelled. Only equality between types is used, and a datatype gives the same equality.
- `sync-git-plugin/src/main.ts` is not part of this model. It holds the host plugin's lifecycle, commands, settings tab and status bar, an interval timer that only logs, and settings kept in host storage.
- The JavaScript runtime does not enforce the TypeScript types, but the model does. For example, a non-boolean `force` is not modelled.

# ipfspod, modelled in Dafny

`ipfspod` is a command-line script that keeps a podcast as a directory of plain files and
publishes its RSS feed on IPFS. It has three subcommands:

- `ipfspod new <name>` makes the channel directory. It obtains an IPNS key, either the one given
  with `--key` or a fresh one from `ipfs key gen` named after the directory. It writes the channel
  descriptor `channel.json` (title, description, link, copyright, language, managing editor,
  time-to-live, key), the packaged feed template `feed_template.xml.jinja` and an empty episode
  log `episodes.json`.
- `ipfspod add <channel> <title> ...` reads the descriptor, uploads every `-f` file with
  `ipfs add -Q`, builds the episode record and appends it to the log as one line of JSON.
- `ipfspod publish <channel> [-n]` reads the descriptor and every line of the log, renders the
  template into `latest_feed.xml` and, unless it is a dry run, adds the feed to IPFS and runs
  `ipfs name publish` with its hash.

The model has two layers.

- Each subcommand is a pure step function over a `State`: the directories, the text files by
  normalised absolute path, and the `ipfs` commands issued so far (`Subcommands.RunNew`,
  `RunAdd`, `RunPublish`). The lemmas in `Properties` state what each subcommand guarantees.
- The class `Host.Machine` holds the same state as fields. Its methods `New`, `Add` (with its
  upload loop `UploadFiles` and its `Append`) and `Publish` change the fields step by step, in
  the order the script does. Each is proved to end in exactly the state and result of the
  matching step function, and to keep the file system well formed.

The environment stands in for everything the script only calls out to. It holds:

- the working directory;
- the `ipfs` tool, as its stripped output, with `None` for a non-zero exit status;
- `stat` plus content sniffing of attached files;
- `json.loads`;
- Jinja2 rendering;
- the packaged template text.

`CliTest` replays the project's integration test against the machine.

The supporting modules model the library behaviour the script depends on, up to the differences listed under "## Left out":

- `Paths`: `pathlib` path parts, `.name`, `.absolute()`, and lexical resolution of "..".
- `Strings`: one-character `str.replace`, `str.title`, `str.splitlines`.
- `JsonText`: `json.dumps` with its default separators and `ensure_ascii`.

In these details the model follows the code, which its option names and help texts do not make
obvious:

- `publish` names the key after the channel directory (`home.name`). It does not use the `key`
  stored in `channel.json`. `Properties.PublishKeyIsDirectoryName` states which name it is.
- Every `x or default` treats an empty string like a missing option. So `--title ""` gets the
  derived title, and `--language ""` falls back to "en".
- The key is generated under the name of the absolute path, not under the argument as typed.
  Once the directory is made, the two names agree (`Properties.NewDirectoryName`).
- The author of an episode is looked up in the descriptor only when `-a` is not given. That
  lookup can fail, and the model keeps the failure (a missing key, or a descriptor that is not
  an object).
- The length of a `-e` enclosure stays the string that was typed. The length of an uploaded
  file is an integer.

## Model

| member | source | states |
|---|---|---|
| Paths.Absolute | ipfspod/__main__.py:74 | `Path(arg).absolute()`: the parts of the argument after the working directory, or alone when the argument starts with "/"; its properties are `ComponentsOfJoin` and `PublishKeyIsDirectoryName` |
| Paths.Normal | ipfspod/__main__.py:74-75 | the directory `mkdir` and the file operations reach, with ".." resolved lexically; a path without ".." is its own normal form (`PublishKeyIsDirectoryName`, `NewDirectoryName`) |
| Paths.NormalOfNormal | ipfspod/__main__.py:74-75 | a path of plain parts, without "." or "..", reaches itself |
| Paths.PathName | ipfspod/__main__.py:72 | `Path(arg).name`: the last part, or "" when there is none; stated by `PathNameOfJoin` |
| Paths.Components | ipfspod/__main__.py:72 | every part `pathlib` keeps is non-empty, not "." and holds no "/" |
| Paths.ComponentsOfJoin | ipfspod/__main__.py:72 | appending "/name" to a path string appends exactly `name` to its parts |
| Paths.PathNameOfJoin | ipfspod/__main__.py:72 | `Path(dir + "/" + name).name` is `name` for any plain name |
| Strings.Replace | ipfspod/__main__.py:73 | `replace("_", " ")` keeps the length and swaps exactly the "_" characters |
| Strings.Title | ipfspod/__main__.py:73 | `str.title` keeps the length; its meaning is stated by `TitleAt`, `TitleKeepsUncased` and `TitleIdempotent` |
| Strings.TitleFrom | ipfspod/__main__.py:73 | `str.title` scanning from a state "the previous character was cased", keeping the length; stated by `TitleAt` |
| Strings.TitleAt | ipfspod/__main__.py:73 | in `str.title`, a character after a cased one is lowered, any other is raised |
| Strings.TitleKeepsUncased | ipfspod/__main__.py:73 | `str.title` leaves every uncased character where it is |
| Strings.TitleIdempotent | ipfspod/__main__.py:73 | title-casing a title-cased string changes nothing |
| Records.DefaultTitle | ipfspod/__main__.py:72-73 | the title derived from the channel name: its last part with "_" read as a space, title-cased; stated by `DefaultTitleShape` and `DefaultTitleOfPath` |
| Records.ResolveChannel | ipfspod/__main__.py:83-92 | the descriptor `new` writes from its options and the key; stated by `ResolvedFields`, `ResolveIsFixpoint` and `DemoChannel` |
| Records.ChannelJson | ipfspod/__main__.py:83-92 | the descriptor as the dict `json.dumps` writes, keys in the order built; read back by `AuthorFromDescriptor` |
| Records.DefaultTitleShape | ipfspod/__main__.py:72-73 | the derived title has the length of the name's last component, no "_" and no "/", a space for each "_", and each other uncased character kept |
| Records.DefaultTitleOfPath | ipfspod/__main__.py:72-73 | a channel made as `dir/name` takes its title from `name` alone |
| Records.ResolvedFields | ipfspod/__main__.py:83-92 | each descriptor field is the given non-empty option, else its default (the title, the gateway link under the key, "CC-BY 4.0 Intl.", "en", "anonymous") |
| Records.ResolveIsFixpoint | ipfspod/__main__.py:83-92 | giving every resolved field explicitly resolves to the same descriptor: defaults fill only what is missing |
| Records.DemoChannel | ipfspod/__main__.py:47-92 | `ipfspod new demo` with the parser's defaults gives title "Demo", language "en", editor "anonymous", ttl 1800 and the gateway link |
| Subcommands.RunNew | ipfspod/__main__.py:62-104 | `ipfspod new` as one step: refuse an existing path, fail when the parent is missing or a file, make the directory, obtain the key, write the three files; stated by the `New...` lemmas below |
| Subcommands.Populate | ipfspod/__main__.py:100-104 | the three writes of `new`; stated by `PopulateFiles` |
| Subcommands.UnderFile | ipfspod/__main__.py:75 | some directory on the way to the path is a regular file |
| Subcommands.Missing | ipfspod/__main__.py:75 | the error `mkdir` or `read_text` raises for a missing path: NotADirectoryError when a file stands on the way, FileNotFoundError otherwise |
| Subcommands.ReadText | ipfspod/__main__.py:154 | `read_text()`: the text of a file, IsADirectoryError on a directory, and `Missing` otherwise; stated by `ReadUnderFile` |
| Properties.AncestorsAreDirs | ipfspod/__main__.py:75 | in a well-formed file system every ancestor of a directory is a directory |
| Properties.UnderFileIsMissing | ipfspod/__main__.py:75 | a path with a file on the way names neither a file nor a directory, and its parent is no directory |
| Properties.ReadUnderFile | ipfspod/__main__.py:154 | reading a path with a file on the way raises NotADirectoryError |
| Properties.NewUnderFile | ipfspod/__main__.py:74-75 | `new` under a path where a file stands in place of a directory raises NotADirectoryError and changes nothing |
| Properties.NewRefusesExisting | ipfspod/__main__.py:74-75 | `new` on an existing directory or file fails with FileExists and changes nothing |
| Properties.NewDirectoryName | ipfspod/__main__.py:72-79 | once the directory is made, the name of the absolute path is the name of the argument |
| Properties.NewKeyCommands | ipfspod/__main__.py:74-92 | with `--key` no command is issued and that key is stored; otherwise exactly one `ipfs key gen` named after the channel is issued, and its answer is the key or the failure |
| Properties.NewCreatesChannel | ipfspod/__main__.py:100-104 | a successful `new` adds exactly the descriptor (its JSON text), the template and an empty log, and keeps every other file |
| Properties.PopulateFiles | ipfspod/__main__.py:100-104 | the three files of a new channel are written over a state that holds none of them, and nothing else changes |
| Properties.NewKeepsWellFormed | ipfspod/__main__.py:74-104 | `new` keeps every file and directory inside an existing directory |
| Host.Machine.constructor | ipfspod/__main__.py:74 | the working directory that `absolute()` reads, in a machine whose file system holds only it and its ancestors, with no files and no commands, well formed |
| Host.Machine.New | ipfspod/__main__.py:62-104 | the in-place `new` ends in the state and result of the `new` step and keeps the file system well formed |
| Subcommands.Uploads | ipfspod/__main__.py:157-167 | the upload loop over a list of files, ending at the first failure; stated by `UploadsOutcome` |
| Subcommands.UploadOne | ipfspod/__main__.py:159-167 | one turn of the loop: `ipfs add -Q`, then `stat` and type sniffing, then one more enclosure |
| Properties.UploadsOutcome | ipfspod/__main__.py:157-167 | the upload loop issues one `ipfs add` per file, in order; on success the i-th enclosure carries the i-th answer, the size and the type; on failure every earlier file succeeded, the loop stopped at the failing file and the error names it |
| Properties.UploadsSucceeded | ipfspod/__main__.py:157-167 | when the loop succeeds it issued one `ipfs add` per file, in order, and the i-th enclosure carries the i-th answer, size and type |
| Properties.UploadsFailed | ipfspod/__main__.py:157-167 | when the loop fails it stopped at some file: every earlier file uploaded, the commands end with that file's `ipfs add`, and the error names it |
| Properties.FailsAtLast | ipfspod/__main__.py:158-167 | when every file but the last uploaded, a failing loop failed at the last file, after one `ipfs add` per file |
| Host.Machine.UploadFiles | ipfspod/__main__.py:157-167 | the loop ends in the command history and result of the upload step |
| Properties.UploadsStop | ipfspod/__main__.py:158-167 | once one turn of the loop fails, the loop's outcome is that failure |
| Records.MakeEpisode | ipfspod/__main__.py:170-188 | the episode record from the arguments, the uploaded enclosures, the author, the date and the identifier; stated by `EpisodeFields` |
| Records.EpisodeJson | ipfspod/__main__.py:170-188 | the episode as the dict `json.dumps` writes, keys in the order built; stated by `TriplesWrittenVerbatim` |
| Records.EnclosureJson | ipfspod/__main__.py:179 | one enclosure as the dict of "hash", "len" and "type"; stated by `TriplesWrittenVerbatim` |
| Records.EpisodeFields | ipfspod/__main__.py:170-188 | the episode's fields are the arguments, the description falls back to the title, and the enclosures are the `-e` triples and then the uploads, in order |
| Records.TriplesWrittenVerbatim | ipfspod/__main__.py:177-181 | each `-e` triple is written as three strings, under "hash", "len" and "type" |
| Records.Lookup | ipfspod/__main__.py:174 | `channel[key]`: the last value under the key, KeyError when there is none, TypeError when the value is not an object |
| Records.ResolveAuthor | ipfspod/__main__.py:174 | `args.author or channel["managing_editor"]`, consulting the descriptor only when no author is given; stated by `AuthorFromDescriptor` |
| Records.LastValue | ipfspod/__main__.py:174 | a key's value is that of its last occurrence in the decoded object; there is none exactly when the key is absent |
| Records.AuthorFromDescriptor | ipfspod/__main__.py:174 | without `-a`, an episode of a channel made by `new` gets the channel's managing editor as its author |
| Subcommands.ReadJson | ipfspod/__main__.py:154 | `json.loads(path.read_text())`, with the read errors and malformed JSON as failures |
| Subcommands.RunAdd | ipfspod/__main__.py:144-192 | `ipfspod add` as one step: read the descriptor, upload, build the episode, append its line; stated by the `Add...` lemmas below |
| Subcommands.AddUploaded | ipfspod/__main__.py:170-192 | the rest of `add` once the files are uploaded: resolve the author, build the episode, append its line |
| Subcommands.Appended | ipfspod/__main__.py:191-192 | `open(path, "a").write(line + "\n")`; stated by `AddAppendsOneLine` |
| Properties.AddDescriptorFailure | ipfspod/__main__.py:153-154 | an `add` whose descriptor cannot be read or parsed fails with that error before any upload, and changes nothing |
| Properties.AddEpisode | ipfspod/__main__.py:153-188 | the episode a successful `add` writes: title, link, categories and source as given, the description and author fallbacks, and per-upload hash, size and type |
| Properties.AddAppendsOneLine | ipfspod/__main__.py:190-192 | a successful `add` appends exactly one line, the episode's JSON with no line break, keeps every other file and directory, and issues only the upload commands |
| Properties.AddExtendsLog | ipfspod/__main__.py:190-192 | a log holding the lines of some records holds, after `add`, the lines of those records and the new episode |
| Properties.AddFailureWritesNothing | ipfspod/__main__.py:153-192 | a failed `add` writes nothing and has issued only a prefix of its upload commands |
| Properties.AddKeepsWellFormed | ipfspod/__main__.py:153-192 | `add` keeps the file system well formed |
| Host.Machine.Append | ipfspod/__main__.py:191-192 | appending writes the old text (or nothing) followed by the line and "\n", and changes no other file |
| Host.Machine.Add | ipfspod/__main__.py:144-192 | the in-place `add` ends in the state and result of the `add` step and keeps the file system well formed |
| JsonText.Dumps | ipfspod/__main__.py:192 | `json.dumps` writes only printable ASCII |
| JsonText.DumpsIsOneLine | ipfspod/__main__.py:192 | the text `json.dumps` writes holds no character `str.splitlines` breaks at |
| Strings.LinesAppend | ipfspod/__main__.py:191-192 | writing one more record adds one line after the existing text |
| Strings.SplitLines | ipfspod/__main__.py:227 | `str.splitlines` yields lines with no break in them, and none exactly for the empty text |
| Strings.SplitLinesOfLines | ipfspod/__main__.py:225-228 | splitting text written record by record gives back exactly those records, when none holds a break |
| Subcommands.ReadEpisodes | ipfspod/__main__.py:225-228 | the log read, split into lines and each line parsed; stated by `ReadBack` and `PublishRendersLog` |
| Subcommands.ParseLines | ipfspod/__main__.py:225-228 | parsing succeeds exactly when every line parses, and then yields each line's value in order |
| Properties.ParseAll | ipfspod/__main__.py:225-228 | the dumped records parse back to themselves when `json.loads` inverts `json.dumps` on them |
| Properties.ReadBack | ipfspod/__main__.py:225-228 | the log written by `add` reads back as exactly the records appended, in order |
| Subcommands.RunPublish | ipfspod/__main__.py:213-247 | `ipfspod publish` as one step: read the descriptor and the log, render, write the feed, then the two commands; stated by the `Publish...` lemmas below |
| Subcommands.PublishFeed | ipfspod/__main__.py:238-247 | the end of `publish` once the feed is written; stated by `PublishFeedCommands` and `PublishFeedKeepsFiles` |
| Properties.PublishRendersLog | ipfspod/__main__.py:222-236 | a dry-run publish of a log holding the lines of some records renders the feed from exactly those records |
| Properties.PublishReadFailure | ipfspod/__main__.py:222-228 | a publish whose descriptor or log cannot be read or parsed, or whose log holds a line that is not JSON, fails and changes nothing |
| Properties.PublishMalformedLine | ipfspod/__main__.py:225-228 | once the descriptor is read, a log line that is not JSON makes publish fail with MalformedJson naming the log, changing nothing |
| Properties.PublishWritesFeed | ipfspod/__main__.py:233-236 | once everything is read, the rendered feed is the only file written, with or without a dry run |
| Properties.DryRunIssuesNothing | ipfspod/__main__.py:238 | a dry run issues no command |
| Properties.PublishCommands | ipfspod/__main__.py:238-247 | a full publish issues one `ipfs add` of the feed and then, if it succeeds, one `ipfs name publish` of its hash; it succeeds only when both succeed |
| Properties.PublishFeedCommands | ipfspod/__main__.py:238-247 | the same, for the step after the feed is written |
| Properties.PublishFeedKeepsFiles | ipfspod/__main__.py:238-247 | the commands at the end of publish change no file and no directory |
| Properties.PublishKeyIsDirectoryName | ipfspod/__main__.py:246 | the publish key is the name of the channel directory (unless the argument ends in "..") |
| Properties.PublishKeepsWellFormed | ipfspod/__main__.py:222-247 | `publish` keeps the file system well formed |
| Host.Machine.Publish | ipfspod/__main__.py:213-247 | the in-place `publish` ends in the state and result of the `publish` step and keeps the file system well formed |
| Host.Machine.PublishFile | ipfspod/__main__.py:238-247 | the commands after the feed is written end as the end of the `publish` step says |
| CliTest.NewFoo | ipfspod/test_main.py:15-27 | `new foo` leaves the directory, the descriptor, the template and an empty log, with the key from `ipfs key gen foo` |
| CliTest.AddFive | ipfspod/test_main.py:30-48 | after the five `add` commands the log holds their five records, with the titles, description, enclosure, author and link the test looks for |
| CliTest.PublishFoo | ipfspod/test_main.py:50-51 | `publish foo -n` writes the feed rendered from the descriptor and every record of the log |
| CliTest.TestCli | ipfspod/test_main.py:9-58 | the whole test: the session's files, the five episodes' fields, and the feed rendered from those five records |

## Left out

- Argument parsing and dispatch (`argparse`) are not modelled. Each subcommand takes its
  parsed arguments as a record, with the parser's defaults written out in `Records.Bare`.
- The `print` and `pprint` output of `new` is not modelled.
- Jinja2 rendering, its autoescaping and the template loader are one abstract function of the
  template text, the descriptor, the records and the date. A template that is a directory
  or unreadable is not distinguished from a missing one.
- `json.loads` is an abstract function. It is assumed to read back what `json.dumps` wrote only
  where a lemma or method requires it.
- JSON floats are not modelled. The script builds no float from its arguments, but it copies the
  descriptor's `managing_editor` into an episode as it is, so a hand-edited descriptor holding a
  float there is outside the model.
- `ipfs` is an oracle over the commands issued so far. The hash `ipfs add` answers is not tied
  to the file's contents, and the `ipfs` key store is not modelled.
- `stat` and `filetype.guess_mime` are the oracle `probe`. An attached file is not part of the
  modelled file system.
- The UTC date and the random 256-bit identifier are parameters. The identifier is not claimed
  to be unique, and its base64 form is not modelled.
- Strings.Title: only ASCII letters are cased. Python's Unicode case mapping is not modelled.
- JsonText.Dumps: strings are sequences of code points, so lone surrogates in a string are not
  modelled.
- Symbolic links are not modelled, and ".." is resolved lexically. The POSIX "//" root is
  treated as "/".
- Writes do not fail for lack of permission or space. `read_text` does not fail on encoding.
- `touch` of `episodes.json` always yields an empty log, because `new` only runs in a fresh
  directory.
- Concurrent runs of the script on the same channel are not modelled.
- CliTest.TestCli: the test checks that words appear in the rendered feed. Rendering is
  abstract, so the model states instead that the feed is rendered from records holding those
  words.
- CliTest.TestCli: the test's size checks on the descriptor and the template, and its
  `ipfs key list` check, are not stated.
- CliTest.TestCli: the test passes the absolute path of `foo` in a temporary directory. The
  model passes "foo" from a working directory that plays that temporary directory.

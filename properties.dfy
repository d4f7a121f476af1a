/** What the subcommands of `ipfspod` guarantee, proved of their step functions. */
module Properties {
  import opened Wrappers
  import opened Paths
  import opened Strings
  import opened JsonText
  import opened Records
  import opened Subcommands

  /** The lines of the episode log for the given records. */
  function DumpsAll(vs: seq<Json>): seq<string>
  {
    seq(|vs|, k requires 0 <= k < |vs| => Dumps(vs[k]))
  }

  // ---- the file system ----

  /** Every ancestor of a directory is a directory. */
  lemma {:induction false} AncestorsAreDirs(env: Env, s: State, d: seq<string>, i: nat)
    requires WellFormed(env, s) && d in s.dirs && i <= |d|
    ensures d[..i] in s.dirs
    decreases |d|
  {
    if i < |d| {
      AncestorsAreDirs(env, s, Parent(d), i);
      assert Parent(d)[..i] == d[..i];
    } else {
      assert d[..i] == d;
    }
  }

  /** A path with a file on the way to it names nothing, and its parent is no directory. */
  lemma UnderFileIsMissing(env: Env, s: State, path: seq<string>)
    requires WellFormed(env, s) && UnderFile(s, path)
    ensures path != [] && path !in s.dirs && path !in s.files && Parent(path) !in s.dirs
  {
    var i :| 0 < i < |path| && path[..i] in s.files;
    if path in s.dirs {
      AncestorsAreDirs(env, s, path, i);
    }
    if Parent(path) in s.dirs {
      assert Parent(path)[..i] == path[..i];
      AncestorsAreDirs(env, s, Parent(path), i);
    }
  }

  /** Reading a path with a file on the way raises NotADirectoryError. */
  lemma ReadUnderFile(env: Env, s: State, path: seq<string>)
    requires WellFormed(env, s) && UnderFile(s, path)
    ensures ReadText(s, path) == Failure(NotADirectory(path))
  {
    UnderFileIsMissing(env, s, path);
  }

  // ---- ipfspod new ----

  lemma NewKeepsWellFormed(env: Env, s: State, args: NewArgs)
    requires WellFormed(env, s)
    ensures WellFormed(env, RunNew(env, s, args).0)
  {
    var home := Home(env, args.channelName);
    var s' := RunNew(env, s, args).0;
    if home !in s.dirs && home !in s.files && home != [] && Parent(home) in s.dirs {
      forall p | p in s'.files
        ensures p != [] && p !in s'.dirs && Parent(p) in s'.dirs
      {
        if p !in s.files {
          assert Parent(p) == home;
          assert p !in s.dirs;
        }
      }
    }
  }

  /** `new` never touches an existing directory or file: it fails and changes nothing. */
  lemma NewRefusesExisting(env: Env, s: State, args: NewArgs)
    requires var home := Home(env, args.channelName); home in s.dirs || home in s.files
    ensures RunNew(env, s, args) == (s, Failure(FileExists(Home(env, args.channelName))))
  {
  }

  /** `new` under a path where a file stands in place of a directory raises NotADirectoryError
      and changes nothing. */
  lemma NewUnderFile(env: Env, s: State, args: NewArgs)
    requires WellFormed(env, s) && UnderFile(s, Home(env, args.channelName))
    ensures RunNew(env, s, args) == (s, Failure(NotADirectory(Home(env, args.channelName))))
  {
    UnderFileIsMissing(env, s, Home(env, args.channelName));
  }

  /** Once the directory is made, the name of the absolute path is the last component of the
      channel name: the name the title is derived from and the key is generated under. */
  lemma NewDirectoryName(env: Env, s: State, args: NewArgs)
    requires WellFormed(env, s)
    requires Home(env, args.channelName) !in s.dirs
    ensures BaseName(Absolute(env.cwd, args.channelName)) == PathName(args.channelName)
  {
    var cs := Components(args.channelName);
    if cs == [] {
      assert env.cwd + cs == env.cwd;
      NormalOfNormal(env.cwd);
      NormalOfNormal([]);
      assert false;
    }
  }

  /** With `--key`, no command is issued and that key is stored; otherwise exactly one
      `ipfs key gen` is issued, named after the channel, and its answer is the key. */
  lemma NewKeyCommands(env: Env, s: State, args: NewArgs)
    requires WellFormed(env, s)
    requires var home := Home(env, args.channelName);
      home !in s.dirs && home !in s.files && home != [] && Parent(home) in s.dirs
    ensures var (s', r) := RunNew(env, s, args);
      && s'.dirs == s.dirs + {Home(env, args.channelName)}
      && (Given(args.key) ==> s'.trace == s.trace && r == Success(ResolveChannel(args, args.key.value)))
      && (!Given(args.key) ==>
            var cmd := KeyGen(PathName(args.channelName));
            && s'.trace == s.trace + [cmd]
            && match env.ipfs(s.trace, cmd)
               case None => r == Failure(CommandFailed(cmd)) && s'.files == s.files
               case Some(key) => r == Success(ResolveChannel(args, key)))
  {
    NewDirectoryName(env, s, args);
  }

  /** A successful `new` adds the descriptor, the template and an empty episode log in the new
      directory and leaves every other file as it was. */
  lemma NewCreatesChannel(env: Env, s: State, args: NewArgs)
    requires WellFormed(env, s)
    requires RunNew(env, s, args).1.Success?
    ensures var (s', r) := RunNew(env, s, args);
      var home := Home(env, args.channelName);
      && home !in s.dirs
      && s'.files.Keys == s.files.Keys + {home + [ChannelFile], home + [TemplateFile], home + [EpisodesFile]}
      && s'.files[home + [ChannelFile]] == Dumps(ChannelJson(r.value))
      && s'.files[home + [TemplateFile]] == env.template
      && s'.files[home + [EpisodesFile]] == ""
      && (forall p :: p in s.files ==> s'.files[p] == s.files[p])
  {
    var raw := Absolute(env.cwd, args.channelName);
    var home := Home(env, args.channelName);
    assert Parent(home + [ChannelFile]) == home;
    assert Parent(home + [TemplateFile]) == home;
    assert Parent(home + [EpisodesFile]) == home;
    var made := s.(dirs := s.dirs + {home});
    if Given(args.key) {
      PopulateFiles(env, made, home, ResolveChannel(args, args.key.value));
    } else {
      var cmd := KeyGen(BaseName(raw));
      var answer := env.ipfs(made.trace, cmd);
      PopulateFiles(env, made.(trace := made.trace + [cmd]), home, ResolveChannel(args, answer.value));
    }
  }

  /** The three files of a new channel are written over a state that holds none of them. */
  lemma PopulateFiles(env: Env, s: State, home: seq<string>, c: Channel)
    requires home + [ChannelFile] !in s.files && home + [TemplateFile] !in s.files
    requires home + [EpisodesFile] !in s.files
    ensures var s' := Populate(env, s, home, c);
      && s'.files.Keys == s.files.Keys + {home + [ChannelFile], home + [TemplateFile], home + [EpisodesFile]}
      && s'.files[home + [ChannelFile]] == Dumps(ChannelJson(c))
      && s'.files[home + [TemplateFile]] == env.template
      && s'.files[home + [EpisodesFile]] == ""
      && (forall p :: p in s.files ==> s'.files[p] == s.files[p])
      && s'.dirs == s.dirs && s'.trace == s.trace
  {
    assert (home + [ChannelFile])[|home|] == ChannelFile;
    assert (home + [TemplateFile])[|home|] == TemplateFile;
    assert (home + [EpisodesFile])[|home|] == EpisodesFile;
  }

  // ---- ipfspod add ----

  /** The upload loop issues one `ipfs add` per file, in order, and stops at the first failure;
      when it succeeds, the i-th enclosure carries the hash `ipfs` answered for the i-th file
      and the size and type reported for it. */
  lemma {:induction false} UploadsOutcome(env: Env, trace: seq<Command>, names: seq<string>)
    ensures var (t, r) := Uploads(env, trace, names);
      && (r.Success? ==>
            && t == trace + AddCommands(names)
            && |r.value| == |names|
            && forall i :: 0 <= i < |names| ==>
                 && env.ipfs(trace + AddCommands(names[..i]), AddFile(names[i])) == Some(r.value[i].hash)
                 && r.value[i].length.Measured?
                 && env.probe(names[i]) == Some(MediaFile(r.value[i].length.bytes, r.value[i].mime)))
      && (r.Failure? ==>
            exists k :: && 0 <= k < |names|
                        && Uploads(env, trace, names[..k]).1.Success?
                        && t == trace + AddCommands(names[..k + 1])
                        && (r.error == CommandFailed(AddFile(names[k])) || r.error == MediaUnreadable(names[k])))
  {
    if Uploads(env, trace, names).1.Success? {
      UploadsSucceeded(env, trace, names);
    } else {
      UploadsFailed(env, trace, names);
    }
  }

  /** The success half of `UploadsOutcome`. */
  lemma {:induction false} UploadsSucceeded(env: Env, trace: seq<Command>, names: seq<string>)
    requires Uploads(env, trace, names).1.Success?
    ensures var (t, r) := Uploads(env, trace, names);
      && t == trace + AddCommands(names)
      && |r.value| == |names|
      && forall i :: 0 <= i < |names| ==>
           && env.ipfs(trace + AddCommands(names[..i]), AddFile(names[i])) == Some(r.value[i].hash)
           && r.value[i].length.Measured?
           && env.probe(names[i]) == Some(MediaFile(r.value[i].length.bytes, r.value[i].mime))
  {
    if names != [] {
      var n := |names| - 1;
      var init := names[..n];
      var (t0, r0) := Uploads(env, trace, init);
      UploadsSucceeded(env, trace, init);
      assert AddCommands(names) == AddCommands(init) + [AddFile(names[n])];
      var (t, r) := Uploads(env, trace, names);
      forall i | 0 <= i < |names|
        ensures env.ipfs(trace + AddCommands(names[..i]), AddFile(names[i])) == Some(r.value[i].hash)
        ensures r.value[i].length.Measured?
        ensures env.probe(names[i]) == Some(MediaFile(r.value[i].length.bytes, r.value[i].mime))
      {
        if i < n {
          assert names[..i] == init[..i];
          assert r.value[i] == r0.value[i];
        } else {
          assert names[..i] == init;
        }
      }
    }
  }

  /** The upload loop over `names` stopped at its `k`-th file: the files before it uploaded, the
      commands end with that file's `ipfs add`, and the error names it. */
  ghost predicate StoppedAt(env: Env, trace: seq<Command>, names: seq<string>, k: int)
  {
    && 0 <= k < |names|
    && Uploads(env, trace, names[..k]).1.Success?
    && Uploads(env, trace, names).0 == trace + AddCommands(names[..k + 1])
    && Uploads(env, trace, names).1.Failure?
    && (|| Uploads(env, trace, names).1.error == CommandFailed(AddFile(names[k]))
        || Uploads(env, trace, names).1.error == MediaUnreadable(names[k]))
  }

  /** The failure half of `UploadsOutcome`: the loop stopped at the first file that failed. */
  lemma {:induction false} UploadsFailed(env: Env, trace: seq<Command>, names: seq<string>)
    requires Uploads(env, trace, names).1.Failure?
    ensures exists k :: StoppedAt(env, trace, names, k)
  {
    var n := |names| - 1;
    var init := names[..n];
    if Uploads(env, trace, init).1.Failure? {
      UploadsFailed(env, trace, init);
      var k :| StoppedAt(env, trace, init, k);
      assert Uploads(env, trace, names) == Uploads(env, trace, init);
      assert init[..k] == names[..k];
      assert init[..k + 1] == names[..k + 1];
      assert StoppedAt(env, trace, names, k);
    } else {
      FailsAtLast(env, trace, names);
      assert names[..n + 1] == names;
      assert StoppedAt(env, trace, names, n);
    }
  }

  /** When every file but the last uploads, a failing loop failed at the last one. */
  lemma FailsAtLast(env: Env, trace: seq<Command>, names: seq<string>)
    requires names != [] && Uploads(env, trace, names[..|names| - 1]).1.Success?
    requires Uploads(env, trace, names).1.Failure?
    ensures var (t, r) := Uploads(env, trace, names);
      var last := names[|names| - 1];
      && t == trace + AddCommands(names)
      && (r.error == CommandFailed(AddFile(last)) || r.error == MediaUnreadable(last))
  {
    var init := names[..|names| - 1];
    UploadsSucceeded(env, trace, init);
    assert AddCommands(names) == AddCommands(init) + [AddFile(names[|names| - 1])];
  }

  /** Once a turn of the upload loop fails, the loop's outcome is that failure. */
  lemma {:induction false} UploadsStop(env: Env, t0: seq<Command>, names: seq<string>, k: nat)
    requires 0 < k <= |names|
    requires Uploads(env, t0, names[..k]).1.Failure?
    ensures Uploads(env, t0, names) == Uploads(env, t0, names[..k])
    decreases |names| - k
  {
    if k < |names| {
      assert names[..k + 1][..k] == names[..k];
      UploadsStop(env, t0, names, k + 1);
    } else {
      assert names[..k] == names;
    }
  }

  lemma AddKeepsWellFormed(env: Env, s: State, args: AddArgs, date: string, hash: string)
    requires WellFormed(env, s)
    ensures WellFormed(env, RunAdd(env, s, args, date, hash).0)
  {
    var home := Home(env, args.channel);
    var log := home + [EpisodesFile];
    var s' := RunAdd(env, s, args, date, hash).0;
    if s'.files != s.files {
      assert Parent(home + [ChannelFile]) == home;
      assert Parent(log) == home;
      WriteKeepsWellFormed(env, s, log, s'.files[log]);
      assert s'.files == s.files[log := s'.files[log]];
    }
  }

  /** A successful `add` appends exactly one line, the episode's JSON, to the episode log,
      which keeps its earlier text as a prefix; the line holds no line break; every other file
      and every directory stay as they were; and the only commands issued are one `ipfs add`
      per attached file, in order. */
  lemma AddAppendsOneLine(env: Env, s: State, args: AddArgs, date: string, hash: string)
    requires RunAdd(env, s, args, date, hash).1.Success?
    ensures var (s', r) := RunAdd(env, s, args, date, hash);
      var log := Home(env, args.channel) + [EpisodesFile];
      var line := Dumps(EpisodeJson(r.value));
      && s'.files == s.files[log := TextOr(s, log) + line + "\n"]
      && HasNoLineBreak(line)
      && s'.dirs == s.dirs
      && s'.trace == s.trace + AddCommands(args.files)
  {
    UploadsOutcome(env, s.trace, args.files);
    DumpsIsOneLine(EpisodeJson(RunAdd(env, s, args, date, hash).1.value));
  }

  /** A failed `add` writes nothing; it may have issued some of its `ipfs add` commands. */
  lemma AddFailureWritesNothing(env: Env, s: State, args: AddArgs, date: string, hash: string)
    requires RunAdd(env, s, args, date, hash).1.Failure?
    ensures var s' := RunAdd(env, s, args, date, hash).0;
      && s'.files == s.files && s'.dirs == s.dirs
      && exists k :: 0 <= k <= |args.files| && s'.trace == s.trace + AddCommands(args.files[..k])
  {
    UploadsOutcome(env, s.trace, args.files);
    var s' := RunAdd(env, s, args, date, hash).0;
    if s'.trace == s.trace {
      assert s'.trace == s.trace + AddCommands(args.files[..0]);
    } else if s'.trace == s.trace + AddCommands(args.files) {
      assert args.files[..|args.files|] == args.files;
    }
  }

  /** An `add` whose descriptor cannot be read or parsed fails with that error before any
      upload: nothing is written and no command is issued. */
  lemma AddDescriptorFailure(env: Env, s: State, args: AddArgs, date: string, hash: string)
    requires ReadJson(env, s, Home(env, args.channel) + [ChannelFile]).Failure?
    ensures RunAdd(env, s, args, date, hash)
         == (s, Failure(ReadJson(env, s, Home(env, args.channel) + [ChannelFile]).error))
  {
  }

  /** The episode a successful `add` writes: title, link, categories and source as given;
      description and author fall back to the title and to the descriptor's managing editor; the enclosures are the `-e` triples in the order given,
      then one per attached file in the order given, each with the hash `ipfs` answered for it and
      the size and type reported for it. */
  lemma AddEpisode(env: Env, s: State, args: AddArgs, date: string, hash: string)
    requires RunAdd(env, s, args, date, hash).1.Success?
    ensures var e := RunAdd(env, s, args, date, hash).1.value;
      var channel := env.loads(s.files[Home(env, args.channel) + [ChannelFile]]).value;
      && e.title == args.title
      && e.description == Or(args.description, args.title)
      && e.link == args.link && e.categories == args.categories && e.source == args.source
      && ResolveAuthor(args.author, channel) == Success(e.author)
      && e.date == date && e.hash == hash
      && |e.enclosures| == |args.enclosures| + |args.files|
      && (forall i :: 0 <= i < |args.enclosures| ==> e.enclosures[i] == FromTriple(args.enclosures[i]))
      && (forall i :: 0 <= i < |args.files| ==>
            var u := e.enclosures[|args.enclosures| + i];
            && env.ipfs(s.trace + AddCommands(args.files[..i]), AddFile(args.files[i])) == Some(u.hash)
            && u.length.Measured?
            && env.probe(args.files[i]) == Some(MediaFile(u.length.bytes, u.mime)))
  {
    var home := Home(env, args.channel);
    var channel := ReadJson(env, s, home + [ChannelFile]).value;
    var up := Uploads(env, s.trace, args.files);
    assert RunAdd(env, s, args, date, hash) == AddUploaded(s.(trace := up.0), home, channel, up.1, args, date, hash);
    var e := AddUploadedEpisode(s.(trace := up.0), home, channel, up.1, args, date, hash);
    UploadsOutcome(env, s.trace, args.files);
    EpisodeFields(args, up.1.value, e.author, date, hash);
  }

  /** The episode a successful `add` builds once the files are uploaded. */
  lemma AddUploadedEpisode(s: State, home: seq<string>, channel: Json, uploaded: Result<seq<Enclosure>, Failure>,
                           args: AddArgs, date: string, hash: string) returns (e: Episode)
    requires AddUploaded(s, home, channel, uploaded, args, date, hash).1.Success?
    ensures e == AddUploaded(s, home, channel, uploaded, args, date, hash).1.value
    ensures uploaded.Success? && ResolveAuthor(args.author, channel) == Success(e.author)
    ensures e == MakeEpisode(args, uploaded.value, e.author, date, hash)
  {
    e := AddUploaded(s, home, channel, uploaded, args, date, hash).1.value;
  }

  /** If the log holds the lines of some records, a successful `add` leaves it holding the lines
      of those records followed by the new episode. */
  lemma AddExtendsLog(env: Env, s: State, args: AddArgs, date: string, hash: string, vs: seq<Json>)
    requires RunAdd(env, s, args, date, hash).1.Success?
    requires TextOr(s, Home(env, args.channel) + [EpisodesFile]) == Lines(DumpsAll(vs))
    ensures var (s', r) := RunAdd(env, s, args, date, hash);
      s'.files[Home(env, args.channel) + [EpisodesFile]] == Lines(DumpsAll(vs + [EpisodeJson(r.value)]))
  {
    var e := RunAdd(env, s, args, date, hash).1.value;
    AddAppendsOneLine(env, s, args, date, hash);
    LinesAppend(DumpsAll(vs), Dumps(EpisodeJson(e)));
    assert DumpsAll(vs + [EpisodeJson(e)]) == DumpsAll(vs) + [Dumps(EpisodeJson(e))];
  }

  // ---- ipfspod publish ----

  /** Reading the log back: the lines of JSON records, split and parsed, are those records in
      order, when `json.loads` reads back what `json.dumps` wrote. */
  lemma {:induction false} ReadBack(loads: string -> Option<Json>, vs: seq<Json>)
    requires forall k :: 0 <= k < |vs| ==> loads(Dumps(vs[k])) == Some(vs[k])
    ensures ParseLines(loads, SplitLines(Lines(DumpsAll(vs)))) == Some(vs)
  {
    var lines := DumpsAll(vs);
    forall k | 0 <= k < |lines|
      ensures HasNoLineBreak(lines[k])
    {
      DumpsIsOneLine(vs[k]);
    }
    SplitLinesOfLines(lines);
    ParseAll(loads, vs);
  }

  lemma {:induction false} ParseAll(loads: string -> Option<Json>, vs: seq<Json>)
    requires forall k :: 0 <= k < |vs| ==> loads(Dumps(vs[k])) == Some(vs[k])
    ensures ParseLines(loads, DumpsAll(vs)) == Some(vs)
  {
    if vs != [] {
      assert DumpsAll(vs)[1..] == DumpsAll(vs[1..]);
      ParseAll(loads, vs[1..]);
      assert [vs[0]] + vs[1..] == vs;
    }
  }

  lemma PublishKeepsWellFormed(env: Env, s: State, channelArg: string, dryRun: bool, now: string)
    requires WellFormed(env, s)
    ensures WellFormed(env, RunPublish(env, s, channelArg, dryRun, now).0)
  {
    var raw := Absolute(env.cwd, channelArg);
    var home := Home(env, channelArg);
    match ReadJson(env, s, home + [ChannelFile])
    case Failure(_) =>
    case Success(channel) =>
      match ReadEpisodes(env, s, home + [EpisodesFile])
      case Failure(_) =>
      case Success(episodes) =>
        var template := home + [TemplateFile];
        var out := home + [FeedFile];
        if template in s.files && out !in s.dirs {
          var feed := env.render(s.files[template], channel, episodes, now);
          assert Parent(home + [ChannelFile]) == home;
          assert Parent(out) == home;
          WriteKeepsWellFormed(env, s, out, feed);
          PublishFeedKeepsFiles(env, s.(files := s.files[out := feed]), raw, feed, dryRun);
        }
  }

  /** The commands at the end of `publish` change no file and no directory. */
  lemma PublishFeedKeepsFiles(env: Env, s: State, raw: seq<string>, feed: string, dryRun: bool)
    ensures PublishFeed(env, s, raw, feed, dryRun).0 == s.(trace := PublishFeed(env, s, raw, feed, dryRun).0.trace)
  {
  }

  /** Writing a file that is not a directory, in a directory that exists, keeps the state
      well formed. */
  lemma WriteKeepsWellFormed(env: Env, s: State, path: seq<string>, text: string)
    requires WellFormed(env, s)
    requires path != [] && path !in s.dirs && Parent(path) in s.dirs
    ensures WellFormed(env, s.(files := s.files[path := text]))
  {
  }

  /** A dry run issues no command. */
  lemma DryRunIssuesNothing(env: Env, s: State, channelArg: string, now: string)
    ensures RunPublish(env, s, channelArg, true, now).0.trace == s.trace
  {
  }

  /** A publish whose descriptor cannot be read or parsed, whose log cannot be read, or whose
      log holds a line that is not JSON fails before writing anything or issuing any command. */
  lemma PublishReadFailure(env: Env, s: State, channelArg: string, dryRun: bool, now: string)
    requires var home := Home(env, channelArg);
      || ReadJson(env, s, home + [ChannelFile]).Failure?
      || ReadText(s, home + [EpisodesFile]).Failure?
      || (home + [EpisodesFile] in s.files
          && exists k :: 0 <= k < |SplitLines(s.files[home + [EpisodesFile]])|
                         && env.loads(SplitLines(s.files[home + [EpisodesFile]])[k]).None?)
    ensures RunPublish(env, s, channelArg, dryRun, now).0 == s
    ensures RunPublish(env, s, channelArg, dryRun, now).1.Failure?
  {
  }

  /** Once the descriptor is read, a log line that is not JSON makes publish fail with
      MalformedJson naming the log. */
  lemma PublishMalformedLine(env: Env, s: State, channelArg: string, dryRun: bool, now: string)
    requires var home := Home(env, channelArg);
      && ReadJson(env, s, home + [ChannelFile]).Success?
      && home + [EpisodesFile] in s.files
      && exists k :: 0 <= k < |SplitLines(s.files[home + [EpisodesFile]])|
                     && env.loads(SplitLines(s.files[home + [EpisodesFile]])[k]).None?
    ensures RunPublish(env, s, channelArg, dryRun, now)
         == (s, Failure(MalformedJson(Home(env, channelArg) + [EpisodesFile])))
  {
  }

  /** Publishing always writes the rendered feed, before any command: once the descriptor, the
      log and the template are read, the feed file is the only file that changes, with or
      without a dry run and whatever `ipfs` answers afterwards. */
  lemma PublishWritesFeed(env: Env, s: State, channelArg: string, dryRun: bool, now: string)
    requires var home := Home(env, channelArg);
      && home + [ChannelFile] in s.files && env.loads(s.files[home + [ChannelFile]]).Some?
      && home + [EpisodesFile] in s.files
      && ParseLines(env.loads, SplitLines(s.files[home + [EpisodesFile]])).Some?
      && home + [TemplateFile] in s.files
      && home + [FeedFile] !in s.dirs
    ensures var home := Home(env, channelArg);
      var feed := env.render(s.files[home + [TemplateFile]],
                             env.loads(s.files[home + [ChannelFile]]).value,
                             ParseLines(env.loads, SplitLines(s.files[home + [EpisodesFile]])).value,
                             now);
      var (s', r) := RunPublish(env, s, channelArg, dryRun, now);
      && s'.files == s.files[home + [FeedFile] := feed]
      && s'.dirs == s.dirs
      && (r.Success? ==> r.value == feed)
  {
  }

  /** Once the descriptor, the log and the template are read, a full publish issues exactly one
      `ipfs add` of the feed file and then, if that succeeds, exactly one `ipfs name publish`
      under the key named after the channel directory, with the hash `ipfs add` answered; it
      succeeds only when both commands succeed. */
  lemma PublishCommands(env: Env, s: State, channelArg: string, now: string)
    requires var home := Home(env, channelArg);
      && home + [ChannelFile] in s.files && env.loads(s.files[home + [ChannelFile]]).Some?
      && home + [EpisodesFile] in s.files
      && ParseLines(env.loads, SplitLines(s.files[home + [EpisodesFile]])).Some?
      && home + [TemplateFile] in s.files
      && home + [FeedFile] !in s.dirs
    ensures var raw := Absolute(env.cwd, channelArg);
      var add := AddFile(PosixString(raw + [FeedFile]));
      var (s', r) := RunPublish(env, s, channelArg, false, now);
      match env.ipfs(s.trace, add)
      case None => s'.trace == s.trace + [add] && r == Failure(CommandFailed(add))
      case Some(cid) =>
        var publish := NamePublish(BaseName(raw), cid);
        && s'.trace == s.trace + [add, publish]
        && (r.Success? <==> env.ipfs(s.trace + [add], publish).Some?)
  {
    var raw := Absolute(env.cwd, channelArg);
    var home := Home(env, channelArg);
    match ReadJson(env, s, home + [ChannelFile])
    case Failure(_) =>
    case Success(channel) =>
      match ReadEpisodes(env, s, home + [EpisodesFile])
      case Failure(_) =>
      case Success(episodes) =>
        var template := home + [TemplateFile];
        var out := home + [FeedFile];
        if template in s.files && out !in s.dirs {
          var feed := env.render(s.files[template], channel, episodes, now);
          PublishFeedCommands(env, s.(files := s.files[out := feed]), raw, feed);
        }
  }

  /** The commands at the end of a full publish, once the feed is written. */
  lemma PublishFeedCommands(env: Env, s: State, raw: seq<string>, feed: string)
    ensures var add := AddFile(PosixString(raw + [FeedFile]));
      var (s', r) := PublishFeed(env, s, raw, feed, false);
      match env.ipfs(s.trace, add)
      case None => s'.trace == s.trace + [add] && r == Failure(CommandFailed(add))
      case Some(cid) =>
        var publish := NamePublish(BaseName(raw), cid);
        && s'.trace == s.trace + [add, publish]
        && (r.Success? <==> env.ipfs(s.trace + [add], publish).Some?)
  {
  }

  /** Publishing reads back exactly the episodes that were appended, in order: when the log
      holds the lines of `vs` and `json.loads` reads those lines back, the feed is rendered from
      `vs`, and a dry run ends there. */
  lemma PublishRendersLog(env: Env, s: State, channelArg: string, now: string, vs: seq<Json>)
    requires forall k :: 0 <= k < |vs| ==> env.loads(Dumps(vs[k])) == Some(vs[k])
    requires var home := Home(env, channelArg);
      && home + [ChannelFile] in s.files && env.loads(s.files[home + [ChannelFile]]).Some?
      && home + [EpisodesFile] in s.files && s.files[home + [EpisodesFile]] == Lines(DumpsAll(vs))
      && home + [TemplateFile] in s.files
      && home + [FeedFile] !in s.dirs
    ensures var home := Home(env, channelArg);
      RunPublish(env, s, channelArg, true, now).1
      == Success(env.render(s.files[home + [TemplateFile]], env.loads(s.files[home + [ChannelFile]]).value, vs, now))
  {
    ReadBack(env.loads, vs);
  }

  lemma {:induction false} NormalFromLast(done: seq<string>, parts: seq<string>, last: string)
    requires last != ".."
    ensures NormalFrom(done, parts + [last]) == NormalFrom(done, parts) + [last]
    decreases |parts|
  {
    if parts == [] {
      assert NormalFrom(done + [last], []) == done + [last];
    } else {
      assert (parts + [last])[1..] == parts[1..] + [last];
      var next := if parts[0] == ".." then (if done == [] then [] else done[..|done| - 1]) else done + [parts[0]];
      NormalFromLast(next, parts[1..], last);
    }
  }

  /** The name publish key is the name of the directory the channel lives in, unless the
      channel argument ends in "..". It does not come from the descriptor's `key`. */
  lemma PublishKeyIsDirectoryName(env: Env, channelArg: string)
    requires var raw := Absolute(env.cwd, channelArg); raw == [] || raw[|raw| - 1] != ".."
    ensures BaseName(Absolute(env.cwd, channelArg)) == BaseName(Home(env, channelArg))
  {
    var raw := Absolute(env.cwd, channelArg);
    if raw != [] {
      var n := |raw| - 1;
      assert raw == raw[..n] + [raw[n]];
      NormalFromLast([], raw[..n], raw[n]);
    }
  }
}

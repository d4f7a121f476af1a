/** The machine `ipfspod` runs on, as an object whose file system and `ipfs` command history
    the three subcommands change step by step. Each method is proved to do what the step
    function of the same subcommand says. */
module Host {
  import opened Wrappers
  import opened Paths
  import opened JsonText
  import opened Records
  import opened Subcommands
  import opened Properties

  class Machine {
    const env: Env
    var dirs: set<seq<string>>
    var files: map<seq<string>, string>
    var trace: seq<Command>

    ghost function Snapshot(): State
      reads this
    {
      State(dirs, files, trace)
    }

    ghost predicate Valid()
      reads this
    {
      WellFormed(env, Snapshot())
    }

    /** A machine whose file system holds the working directory and its ancestors only. */
    constructor (env: Env)
      requires IsNormal(env.cwd)
      ensures this.env == env && Valid()
      ensures files == map[] && trace == []
      ensures dirs == set k | 0 <= k <= |env.cwd| :: env.cwd[..k]
    {
      this.env := env;
      dirs := set k | 0 <= k <= |env.cwd| :: env.cwd[..k];
      files := map[];
      trace := [];
      new;
      assert env.cwd[..|env.cwd|] == env.cwd;
      assert env.cwd[..0] == [];
      forall d | d in dirs && d != []
        ensures Parent(d) in dirs
      {
        var k :| 0 <= k <= |env.cwd| && d == env.cwd[..k];
        assert Parent(d) == env.cwd[..k - 1];
      }
    }

    /** `ipfspod new`. */
    method New(args: NewArgs) returns (r: Result<Channel, Failure>)
      requires Valid()
      modifies this
      ensures Valid()
      ensures (Snapshot(), r) == RunNew(env, old(Snapshot()), args)
    {
      NewKeepsWellFormed(env, Snapshot(), args);
      var raw := Absolute(env.cwd, args.channelName);
      var home := Home(env, args.channelName);
      if home in dirs || home in files {
        return Failure(FileExists(home));
      }
      if home == [] || Parent(home) !in dirs {
        return Failure(Missing(State(dirs, files, trace), home));
      }
      dirs := dirs + {home};
      var key: string;
      if Given(args.key) {
        key := args.key.value;
      } else {
        var cmd := KeyGen(BaseName(raw));
        var answer := env.ipfs(trace, cmd);
        trace := trace + [cmd];
        if answer.None? {
          return Failure(CommandFailed(cmd));
        }
        key := answer.value;
      }
      var channel := ResolveChannel(args, key);
      files := files[home + [ChannelFile] := Dumps(ChannelJson(channel))];
      files := files[home + [TemplateFile] := env.template];
      files := files[home + [EpisodesFile] := ""];
      r := Success(channel);
    }

    /** The `for filename in args.file` loop of `ipfspod add`. */
    method UploadFiles(names: seq<string>) returns (r: Result<seq<Enclosure>, Failure>)
      modifies this`trace
      ensures (trace, r) == Uploads(env, old(trace), names)
    {
      var enclosures := [];
      var i := 0;
      while i < |names|
        invariant 0 <= i <= |names|
        invariant (trace, Success(enclosures)) == Uploads(env, old(trace), names[..i])
      {
        assert names[..i + 1][..i] == names[..i];
        var cmd := AddFile(names[i]);
        var answer := env.ipfs(trace, cmd);
        trace := trace + [cmd];
        if answer.None? {
          r := Failure(CommandFailed(cmd));
          UploadsStop(env, old(trace), names, i + 1);
          return;
        }
        var info := env.probe(names[i]);
        if info.None? {
          r := Failure(MediaUnreadable(names[i]));
          UploadsStop(env, old(trace), names, i + 1);
          return;
        }
        enclosures := enclosures + [Enclosure(answer.value, Measured(info.value.size), info.value.mime)];
        i := i + 1;
      }
      assert names[..i] == names;
      r := Success(enclosures);
    }

    /** `open(path, "a").write(line + "\n")`. */
    method Append(path: seq<string>, line: string)
      modifies this`files
      ensures files == old(files)[path := TextOr(old(Snapshot()), path) + line + "\n"]
    {
      var text := if path in files then files[path] else "";
      files := files[path := text + line + "\n"];
    }

    /** `ipfspod add`, at time `date` with random identifier `hash`. */
    method Add(args: AddArgs, date: string, hash: string) returns (r: Result<Episode, Failure>)
      requires Valid()
      modifies this
      ensures Valid()
      ensures (Snapshot(), r) == RunAdd(env, old(Snapshot()), args, date, hash)
    {
      AddKeepsWellFormed(env, Snapshot(), args, date, hash);
      var home := Home(env, args.channel);
      var channel := ReadJson(env, State(dirs, files, trace), home + [ChannelFile]);
      if channel.Failure? {
        return Failure(channel.error);
      }
      ghost var read := Snapshot();
      var uploaded := UploadFiles(args.files);
      assert RunAdd(env, read, args, date, hash) == AddUploaded(Snapshot(), home, channel.value, uploaded, args, date, hash);
      if uploaded.Failure? {
        return Failure(uploaded.error);
      }
      var author := ResolveAuthor(args.author, channel.value);
      if author.Failure? {
        return Failure(author.error);
      }
      var episode := MakeEpisode(args, uploaded.value, author.value, date, hash);
      var log := home + [EpisodesFile];
      if log in dirs {
        return Failure(IsADirectory(log));
      }
      Append(log, Dumps(EpisodeJson(episode)));
      r := Success(episode);
    }

    /** `ipfspod publish`, at time `now`. */
    method Publish(channelArg: string, dryRun: bool, now: string) returns (r: Result<string, Failure>)
      requires Valid()
      modifies this
      ensures Valid()
      ensures (Snapshot(), r) == RunPublish(env, old(Snapshot()), channelArg, dryRun, now)
    {
      PublishKeepsWellFormed(env, Snapshot(), channelArg, dryRun, now);
      var raw := Absolute(env.cwd, channelArg);
      var home := Home(env, channelArg);
      var channel := ReadJson(env, State(dirs, files, trace), home + [ChannelFile]);
      if channel.Failure? {
        return Failure(channel.error);
      }
      var episodes := ReadEpisodes(env, State(dirs, files, trace), home + [EpisodesFile]);
      if episodes.Failure? {
        return Failure(episodes.error);
      }
      var template := home + [TemplateFile];
      if template !in files {
        return Failure(TemplateNotFound(TemplateFile));
      }
      var feed := env.render(files[template], channel.value, episodes.value, now);
      var out := home + [FeedFile];
      if out in dirs {
        return Failure(IsADirectory(out));
      }
      files := files[out := feed];
      assert RunPublish(env, old(Snapshot()), channelArg, dryRun, now) == PublishFeed(env, Snapshot(), raw, feed, dryRun);
      r := PublishFile(raw, feed, dryRun);
    }

    /** The end of `ipfspod publish`, once the feed is written. */
    method PublishFile(raw: seq<string>, feed: string, dryRun: bool) returns (r: Result<string, Failure>)
      modifies this`trace
      ensures (Snapshot(), r) == PublishFeed(env, old(Snapshot()), raw, feed, dryRun)
    {
      if !dryRun {
        var add := AddFile(PosixString(raw + [FeedFile]));
        var cid := env.ipfs(trace, add);
        trace := trace + [add];
        if cid.None? {
          return Failure(CommandFailed(add));
        }
        var publish := NamePublish(BaseName(raw), cid.value);
        var status := env.ipfs(trace, publish);
        trace := trace + [publish];
        if status.None? {
          return Failure(CommandFailed(publish));
        }
      }
      r := Success(feed);
    }
  }
}

/** The three subcommands of `ipfspod` as steps from one state of the machine to the next.
    The state is the file system (directories and text files, by normalised absolute path) and
    the list of `ipfs` commands issued so far; everything the script only calls out to is part
    of the environment. */
module Subcommands {
  import opened Wrappers
  import opened Paths
  import opened Strings
  import opened JsonText
  import opened Records

  const ChannelFile := "channel.json"
  const TemplateFile := "feed_template.xml.jinja"
  const EpisodesFile := "episodes.json"
  const FeedFile := "latest_feed.xml"

  /** What `stat` and `filetype.guess_mime` report of a file given with `-f`. */
  datatype MediaFile = MediaFile(size: nat, mime: Option<string>)

  /** What the script calls out to: the working directory; the `ipfs` tool, as its stripped
      standard output (None for a non-zero exit status) given the commands issued before and the
      command itself; `stat` and content sniffing of a media file (None when the file cannot be
      read); `json.loads` (None for malformed text); Jinja2 rendering of a template text with a
      channel, episodes and a date; and the feed template packaged with the program. */
  datatype Env = Env(
    cwd: seq<string>,
    ipfs: (seq<Command>, Command) -> Option<string>,
    probe: string -> Option<MediaFile>,
    loads: string -> Option<Json>,
    render: (string, Json, seq<Json>, string) -> string,
    template: string)

  datatype State = State(dirs: set<seq<string>>, files: map<seq<string>, string>, trace: seq<Command>)

  /** A file system the program can run in: the root and the working directory exist, every
      directory's parent exists, and every file sits in an existing directory. */
  predicate WellFormed(env: Env, s: State)
  {
    && IsNormal(env.cwd) && env.cwd in s.dirs && [] in s.dirs
    && (forall d :: d in s.dirs && d != [] ==> Parent(d) in s.dirs)
    && (forall p :: p in s.files ==> p != [] && p !in s.dirs && Parent(p) in s.dirs)
  }

  /** Some directory on the way to `path` is a regular file, where the lookup stops. */
  predicate UnderFile(s: State, path: seq<string>)
  {
    exists i :: 0 < i < |path| && path[..i] in s.files
  }

  /** What a missing `path`, or a missing parent of it, raises: NotADirectoryError when a file
      stands on the way, FileNotFoundError otherwise. */
  function Missing(s: State, path: seq<string>): Failure
  {
    if UnderFile(s, path) then NotADirectory(path) else FileNotFound(path)
  }

  /** `path.read_text()`. */
  function ReadText(s: State, path: seq<string>): Result<string, Failure>
  {
    if path in s.files then Success(s.files[path])
    else if path in s.dirs then Failure(IsADirectory(path))
    else Failure(Missing(s, path))
  }

  /** The directory a channel argument names, `Path(arg).absolute()`, and the one it reaches. */
  function Home(env: Env, arg: string): seq<string>
  {
    Normal(Absolute(env.cwd, arg))
  }

  /** `ipfspod new`: make the directory, obtain the key (generating one named after the
      directory unless `--key` is given), then write the descriptor, the template and an empty
      episode log. */
  function RunNew(env: Env, s: State, args: NewArgs): (State, Result<Channel, Failure>)
  {
    var raw := Absolute(env.cwd, args.channelName);
    var home := Home(env, args.channelName);
    if home in s.dirs || home in s.files then (s, Failure(FileExists(home)))
    else if home == [] || Parent(home) !in s.dirs then (s, Failure(Missing(s, home)))
    else
      var made := s.(dirs := s.dirs + {home});
      if Given(args.key) then (Populate(env, made, home, ResolveChannel(args, args.key.value)), Success(ResolveChannel(args, args.key.value)))
      else
        var cmd := KeyGen(BaseName(raw));
        var answer := env.ipfs(made.trace, cmd);
        var issued := made.(trace := made.trace + [cmd]);
        if answer.None? then (issued, Failure(CommandFailed(cmd)))
        else (Populate(env, issued, home, ResolveChannel(args, answer.value)), Success(ResolveChannel(args, answer.value)))
  }

  /** The three files of a new channel directory. */
  function Populate(env: Env, s: State, home: seq<string>, c: Channel): State
  {
    s.(files := s.files[home + [ChannelFile] := Dumps(ChannelJson(c))]
                       [home + [TemplateFile] := env.template]
                       [home + [EpisodesFile] := ""])
  }

  function AddCommands(names: seq<string>): seq<Command>
  {
    seq(|names|, k requires 0 <= k < |names| => AddFile(names[k]))
  }

  /** The upload loop of `ipfspod add` over the first `|names|` files: each one is added to IPFS,
      then measured and sniffed; the first failure ends the loop. */
  function Uploads(env: Env, trace: seq<Command>, names: seq<string>): (seq<Command>, Result<seq<Enclosure>, Failure>)
  {
    if names == [] then (trace, Success([]))
    else
      var before := Uploads(env, trace, names[..|names| - 1]);
      if before.1.Failure? then before
      else UploadOne(env, before.0, before.1.value, names[|names| - 1])
  }

  /** One turn of the upload loop. */
  function UploadOne(env: Env, trace: seq<Command>, done: seq<Enclosure>, name: string): (seq<Command>, Result<seq<Enclosure>, Failure>)
  {
    var cmd := AddFile(name);
    var answer := env.ipfs(trace, cmd);
    if answer.None? then (trace + [cmd], Failure(CommandFailed(cmd)))
    else
      match env.probe(name)
      case None => (trace + [cmd], Failure(MediaUnreadable(name)))
      case Some(m) => (trace + [cmd], Success(done + [Enclosure(answer.value, Measured(m.size), m.mime)]))
  }

  /** `json.loads(path.read_text())`. */
  function ReadJson(env: Env, s: State, path: seq<string>): Result<Json, Failure>
  {
    match ReadText(s, path)
    case Failure(e) => Failure(e)
    case Success(text) =>
      match env.loads(text)
      case None => Failure(MalformedJson(path))
      case Some(v) => Success(v)
  }

  /** `ipfspod add`: read the descriptor, upload the files, build the episode and append it to
      the episode log as one JSON line. */
  function RunAdd(env: Env, s: State, args: AddArgs, date: string, hash: string): (State, Result<Episode, Failure>)
  {
    var home := Home(env, args.channel);
    match ReadJson(env, s, home + [ChannelFile])
    case Failure(e) => (s, Failure(e))
    case Success(channel) =>
      var up := Uploads(env, s.trace, args.files);
      AddUploaded(s.(trace := up.0), home, channel, up.1, args, date, hash)
  }

  /** The rest of `ipfspod add` once the files are uploaded: resolve the author, build the
      episode, append its line. */
  function AddUploaded(s: State, home: seq<string>, channel: Json, uploaded: Result<seq<Enclosure>, Failure>,
                       args: AddArgs, date: string, hash: string): (State, Result<Episode, Failure>)
  {
    if uploaded.Failure? then (s, Failure(uploaded.error))
    else
      match ResolveAuthor(args.author, channel)
      case Failure(e) => (s, Failure(e))
      case Success(author) =>
        var episode := MakeEpisode(args, uploaded.value, author, date, hash);
        var log := home + [EpisodesFile];
        if log in s.dirs then (s, Failure(IsADirectory(log)))
        else (Appended(s, log, Dumps(EpisodeJson(episode))), Success(episode))
  }

  /** The text of a file, or "" when there is none yet: what `open(path, "a")` appends to. */
  function TextOr(s: State, path: seq<string>): string
  {
    if path in s.files then s.files[path] else ""
  }

  /** `open(path, "a").write(line + "\n")`. */
  function Appended(s: State, path: seq<string>, line: string): State
  {
    s.(files := s.files[path := TextOr(s, path) + line + "\n"])
  }

  /** `[json.loads(line) for line in lines]`; None when some line is not JSON. */
  function ParseLines(loads: string -> Option<Json>, lines: seq<string>): (r: Option<seq<Json>>)
    ensures r.Some? ==> |r.value| == |lines| && forall k :: 0 <= k < |lines| ==> loads(lines[k]) == Some(r.value[k])
    ensures r.None? ==> exists k :: 0 <= k < |lines| && loads(lines[k]).None?
  {
    if lines == [] then Some([])
    else
      match loads(lines[0])
      case None => None
      case Some(v) =>
        match ParseLines(loads, lines[1..])
        case None => None
        case Some(vs) => Some([v] + vs)
  }

  /** The episode log, split into lines and each line parsed. */
  function ReadEpisodes(env: Env, s: State, path: seq<string>): Result<seq<Json>, Failure>
  {
    match ReadText(s, path)
    case Failure(e) => Failure(e)
    case Success(text) =>
      match ParseLines(env.loads, SplitLines(text))
      case None => Failure(MalformedJson(path))
      case Some(episodes) => Success(episodes)
  }

  /** `ipfspod publish`: read the descriptor and every line of the episode log, render the
      template, write the feed, and unless it is a dry run add the feed to IPFS and publish
      its hash under the key named after the channel directory. Returns the feed text. */
  function RunPublish(env: Env, s: State, channelArg: string, dryRun: bool, now: string): (State, Result<string, Failure>)
  {
    var raw := Absolute(env.cwd, channelArg);
    var home := Home(env, channelArg);
    match ReadJson(env, s, home + [ChannelFile])
    case Failure(e) => (s, Failure(e))
    case Success(channel) =>
      match ReadEpisodes(env, s, home + [EpisodesFile])
      case Failure(e) => (s, Failure(e))
      case Success(episodes) =>
        var template := home + [TemplateFile];
        if template !in s.files then (s, Failure(TemplateNotFound(TemplateFile)))
        else
          var feed := env.render(s.files[template], channel, episodes, now);
          var out := home + [FeedFile];
          if out in s.dirs then (s, Failure(IsADirectory(out)))
          else PublishFeed(env, s.(files := s.files[out := feed]), raw, feed, dryRun)
  }

  /** The end of `ipfspod publish`, once the feed is written: unless it is a dry run,
      `ipfs add -Q` the feed file, then `ipfs name publish` its hash under the key named after
      the channel directory. */
  function PublishFeed(env: Env, s: State, raw: seq<string>, feed: string, dryRun: bool): (State, Result<string, Failure>)
  {
    if dryRun then (s, Success(feed))
    else
      var add := AddFile(PosixString(raw + [FeedFile]));
      var cid := env.ipfs(s.trace, add);
      var added := s.(trace := s.trace + [add]);
      if cid.None? then (added, Failure(CommandFailed(add)))
      else
        var publish := NamePublish(BaseName(raw), cid.value);
        var published := added.(trace := added.trace + [publish]);
        if env.ipfs(added.trace, publish).None? then (published, Failure(CommandFailed(publish)))
        else (published, Success(feed))
  }
}

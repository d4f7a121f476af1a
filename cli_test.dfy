/** The command-line session of the project's integration test, run against the model: a
    channel is created, five episodes are added and a dry-run publish renders them. What the
    test asserts of the files and of the feed's inputs is proved here for every environment
    in which `ipfs key gen` succeeds and `json.loads` reads back what `json.dumps` writes of the
    descriptor and of episodes whose author is a string, as every episode of the test is. */
module CliTest {
  import opened Wrappers
  import opened Paths
  import opened Strings
  import opened JsonText
  import opened Records
  import opened Subcommands
  import opened Properties
  import opened Host

  /** The test's channel directory, "foo" in the working directory. */
  function FooHome(m: Machine): seq<string>
  {
    m.env.cwd + ["foo"]
  }

  /** The state the test relies on between two commands: the channel made by `new` is in
      place, its log holds the lines of `written`, and no command has run since `key gen`. */
  ghost predicate Session(m: Machine, channel: Channel, trace: seq<Command>, written: seq<Json>)
    reads m
  {
    var home := FooHome(m);
    && m.Valid()
    && Home(m.env, "foo") == home
    && home in m.dirs && home + [FeedFile] !in m.dirs
    && m.trace == trace
    && home + [ChannelFile] in m.files && m.files[home + [ChannelFile]] == Dumps(ChannelJson(channel))
    && home + [TemplateFile] in m.files && m.files[home + [TemplateFile]] == m.env.template
    && home + [EpisodesFile] in m.files && m.files[home + [EpisodesFile]] == Lines(DumpsAll(written))
    && m.env.loads(Dumps(ChannelJson(channel))) == Some(ChannelJson(channel))
  }

  /** `ipfspod new foo`. */
  method NewFoo(m: Machine) returns (channel: Channel)
    requires m.Valid()
    requires FooHome(m) !in m.dirs && FooHome(m) !in m.files
    requires m.env.ipfs(m.trace, KeyGen("foo")).Some?
    requires forall c {:trigger m.env.loads(Dumps(ChannelJson(c)))} ::
      m.env.loads(Dumps(ChannelJson(c))) == Some(ChannelJson(c))
    modifies m
    ensures Session(m, channel, old(m.trace) + [KeyGen("foo")], [])
    ensures channel == ResolveChannel(Bare("foo"), m.env.ipfs(old(m.trace), KeyGen("foo")).value)
    ensures channel.managingEditor == "anonymous"
  {
    var home := FooHome(m);
    FooIsHome(m.env);
    NewKeyCommands(m.env, m.Snapshot(), Bare("foo"));
    NewCreatesChannel(m.env, m.Snapshot(), Bare("foo"));
    var made := m.New(Bare("foo"));
    channel := made.value;
    assert Parent(home + [FeedFile]) == home;
  }

  /** "foo" names the directory "foo" in the working directory, under the name "foo". */
  lemma FooIsHome(env: Env)
    requires IsNormal(env.cwd)
    ensures Home(env, "foo") == env.cwd + ["foo"] && Parent(env.cwd + ["foo"]) == env.cwd
    ensures Absolute(env.cwd, "foo") == env.cwd + ["foo"] && PathName("foo") == "foo"
  {
    assert Components("foo") == ["foo"] by {
      assert IndexOf("foo", '/') == 3;
      assert "foo"[..3] == "foo";
    }
    assert IsNormal(env.cwd + ["foo"]);
    NormalOfNormal(env.cwd + ["foo"]);
  }

  /** One `ipfspod add foo ...` without attached files. */
  method AddToFoo(m: Machine, channel: Channel, trace: seq<Command>, written: seq<Json>,
                  args: AddArgs, date: string, hash: string) returns (episode: Episode)
    requires Session(m, channel, trace, written)
    requires args.channel == "foo" && args.files == []
    modifies m
    ensures episode.title == args.title && episode.description == Or(args.description, args.title)
    ensures episode.link == args.link && episode.author == JString(Or(args.author, channel.managingEditor))
    ensures episode.enclosures == FromTriples(args.enclosures)
    ensures episode.date == date && episode.hash == hash
    ensures Session(m, channel, trace, written + [EpisodeJson(episode)])
  {
    var home := FooHome(m);
    AuthorFromDescriptor(args.author, channel);
    AddAppendsOneLine(m.env, m.Snapshot(), args, date, hash);
    AddExtendsLog(m.env, m.Snapshot(), args, date, hash, written);
    assert (home + [ChannelFile])[|home|] != (home + [EpisodesFile])[|home|];
    assert (home + [TemplateFile])[|home|] != (home + [EpisodesFile])[|home|];
    var added := m.Add(args, date, hash);
    episode := added.value;
    EpisodeFields(args, [], JString(Or(args.author, channel.managingEditor)), date, hash);
  }

  /** `ipfspod publish foo -n`. */
  method PublishFoo(m: Machine, channel: Channel, trace: seq<Command>, episodes: seq<Episode>, now: string)
    returns (feed: string)
    requires Session(m, channel, trace, JsonLines(episodes))
    requires forall k :: 0 <= k < |episodes| ==>
      m.env.loads(Dumps(EpisodeJson(episodes[k]))) == Some(EpisodeJson(episodes[k]))
    modifies m
    ensures feed == m.env.render(m.env.template, ChannelJson(channel), JsonLines(episodes), now)
    ensures FooHome(m) + [FeedFile] in m.files && m.files[FooHome(m) + [FeedFile]] == feed
    ensures Session(m, channel, trace, JsonLines(episodes))
  {
    var home := FooHome(m);
    assert (home + [FeedFile])[|home|] != (home + [ChannelFile])[|home|];
    assert (home + [FeedFile])[|home|] != (home + [TemplateFile])[|home|];
    assert (home + [FeedFile])[|home|] != (home + [EpisodesFile])[|home|];
    var written := JsonLines(episodes);
    PublishRendersLog(m.env, m.Snapshot(), "foo", now, written);
    PublishWritesFeed(m.env, m.Snapshot(), "foo", true, now);
    var published := m.Publish("foo", true, now);
    feed := published.value;
  }

  /** The records written for the given episodes. */
  function JsonLines(episodes: seq<Episode>): seq<Json>
  {
    seq(|episodes|, k requires 0 <= k < |episodes| => EpisodeJson(episodes[k]))
  }

  function Episode0(title: string): AddArgs
  {
    AddArgs("foo", title, None, None, None, [], [], [], None)
  }

  /** `ipfspod add foo CIRCLE`: the description and the author fall back to the title and
      to the channel's managing editor. */
  method AddCircle(m: Machine, channel: Channel, trace: seq<Command>, written: seq<Json>, date: string, id: string)
    returns (e: Episode)
    requires Session(m, channel, trace, written)
    modifies m
    ensures Session(m, channel, trace, written + [EpisodeJson(e)])
    ensures e.title == "CIRCLE" && e.description == "CIRCLE" && e.author == JString(channel.managingEditor)
    ensures e.date == date && e.hash == id
  {
    e := AddToFoo(m, channel, trace, written, Episode0("CIRCLE"), date, id);
  }

  /** `ipfspod add foo OVAL -d DISK`. */
  method AddDisk(m: Machine, channel: Channel, trace: seq<Command>, written: seq<Json>, date: string, id: string)
    returns (e: Episode)
    requires Session(m, channel, trace, written)
    modifies m
    ensures Session(m, channel, trace, written + [EpisodeJson(e)])
    ensures e.title == "OVAL" && e.description == "DISK" && e.author.JString?
    ensures e.date == date && e.hash == id
  {
    e := AddToFoo(m, channel, trace, written, Episode0("OVAL").(description := Some("DISK")), date, id);
  }

  /** `ipfspod add foo OVAL -e ELLIPSE 192 application/x-helix`: the stated length is kept as
      text. */
  method AddEllipse(m: Machine, channel: Channel, trace: seq<Command>, written: seq<Json>, date: string, id: string)
    returns (e: Episode)
    requires Session(m, channel, trace, written)
    modifies m
    ensures Session(m, channel, trace, written + [EpisodeJson(e)])
    ensures e.enclosures == [Enclosure("ELLIPSE", Stated("192"), Some("application/x-helix"))]
    ensures e.author.JString?
    ensures e.date == date && e.hash == id
  {
    var triples := [Triple("ELLIPSE", "192", "application/x-helix")];
    e := AddToFoo(m, channel, trace, written, Episode0("OVAL").(enclosures := triples), date, id);
    assert FromTriples(triples)[0] == FromTriple(triples[0]);
  }

  /** `ipfspod add foo OVAL -a SPHERE`: a given author is used as it is. */
  method AddSphere(m: Machine, channel: Channel, trace: seq<Command>, written: seq<Json>, date: string, id: string)
    returns (e: Episode)
    requires Session(m, channel, trace, written)
    modifies m
    ensures Session(m, channel, trace, written + [EpisodeJson(e)])
    ensures e.author == JString("SPHERE")
    ensures e.date == date && e.hash == id
  {
    e := AddToFoo(m, channel, trace, written, Episode0("OVAL").(author := Some("SPHERE")), date, id);
  }

  /** `ipfspod add foo OVAL -l POINT`. */
  method AddPoint(m: Machine, channel: Channel, trace: seq<Command>, written: seq<Json>, date: string, id: string)
    returns (e: Episode)
    requires Session(m, channel, trace, written)
    modifies m
    ensures Session(m, channel, trace, written + [EpisodeJson(e)])
    ensures e.link == Some("POINT") && e.author.JString?
    ensures e.date == date && e.hash == id
  {
    e := AddToFoo(m, channel, trace, written, Episode0("OVAL").(link := Some("POINT")), date, id);
  }

  /** The last three `ipfspod add foo OVAL ...` commands of the test. */
  method AddLastThree(m: Machine, channel: Channel, trace: seq<Command>, written: seq<Json>, date: string, ids: seq<string>)
    returns (rest: seq<Episode>)
    requires Session(m, channel, trace, written)
    requires |ids| == 3
    modifies m
    ensures Session(m, channel, trace, written + JsonLines(rest))
    ensures |rest| == 3
    ensures rest[0].enclosures == [Enclosure("ELLIPSE", Stated("192"), Some("application/x-helix"))]
    ensures rest[1].author == JString("SPHERE")
    ensures rest[2].link == Some("POINT")
    ensures forall k :: 0 <= k < 3 ==> rest[k].author.JString?
  {
    var log := written;
    var e2 := AddEllipse(m, channel, trace, log, date, ids[0]);
    log := log + [EpisodeJson(e2)];
    var e3 := AddSphere(m, channel, trace, log, date, ids[1]);
    log := log + [EpisodeJson(e3)];
    var e4 := AddPoint(m, channel, trace, log, date, ids[2]);
    rest := [e2, e3, e4];
    RecordsOfThree(written, e2, e3, e4);
  }

  /** The five `ipfspod add foo ...` commands of the test. */
  method AddFive(m: Machine, channel: Channel, trace: seq<Command>, date: string, ids: seq<string>)
    returns (episodes: seq<Episode>)
    requires Session(m, channel, trace, [])
    requires |ids| == 5
    modifies m
    ensures Session(m, channel, trace, JsonLines(episodes))
    ensures |episodes| == 5
    ensures episodes[0].title == "CIRCLE" && episodes[0].description == "CIRCLE"
    ensures episodes[0].author == JString(channel.managingEditor)
    ensures episodes[1].title == "OVAL" && episodes[1].description == "DISK"
    ensures episodes[2].enclosures == [Enclosure("ELLIPSE", Stated("192"), Some("application/x-helix"))]
    ensures episodes[3].author == JString("SPHERE")
    ensures episodes[4].link == Some("POINT")
    ensures forall k :: 0 <= k < 5 ==> episodes[k].author.JString?
  {
    var e0 := AddCircle(m, channel, trace, [], date, ids[0]);
    var e1 := AddDisk(m, channel, trace, [] + [EpisodeJson(e0)], date, ids[1]);
    RecordsOfTwo(e0, e1);
    var rest := AddLastThree(m, channel, trace, JsonLines([e0, e1]), date, ids[2..]);
    episodes := [e0, e1] + rest;
    JsonLinesConcat([e0, e1], rest);
  }

  lemma JsonLinesConcat(a: seq<Episode>, b: seq<Episode>)
    ensures JsonLines(a + b) == JsonLines(a) + JsonLines(b)
  {
  }

  /** One more episode adds its record after the others. */
  lemma JsonLinesSnoc(es: seq<Episode>, e: Episode)
    ensures JsonLines(es + [e]) == JsonLines(es) + [EpisodeJson(e)]
  {
  }

  /** The records of two episodes, written one after the other. */
  lemma RecordsOfTwo(e0: Episode, e1: Episode)
    ensures [] + [EpisodeJson(e0)] + [EpisodeJson(e1)] == JsonLines([e0, e1])
  {
    JsonLinesSnoc([], e0);
    JsonLinesSnoc([e0], e1);
    assert [] + [e0] == [e0] && [e0] + [e1] == [e0, e1];
  }

  /** The records of three more episodes, written one after the other. */
  lemma RecordsOfThree(written: seq<Json>, e2: Episode, e3: Episode, e4: Episode)
    ensures written + [EpisodeJson(e2)] + [EpisodeJson(e3)] + [EpisodeJson(e4)] == written + JsonLines([e2, e3, e4])
  {
    JsonLinesSnoc([], e2);
    JsonLinesSnoc([e2], e3);
    JsonLinesSnoc([e2, e3], e4);
    assert [] + [e2] == [e2] && [e2] + [e3] == [e2, e3] && [e2, e3] + [e4] == [e2, e3, e4];
  }

  /** The integration test: `new foo`; `add foo CIRCLE`; `add foo OVAL -d DISK`;
      `add foo OVAL -e ELLIPSE 192 application/x-helix`; `add foo OVAL -a SPHERE`;
      `add foo OVAL -l POINT`; `publish foo -n`. */
  method TestCli(m: Machine, date: string, ids: seq<string>, now: string)
    returns (channel: Channel, episodes: seq<Episode>, feed: string)
    requires m.Valid()
    requires |ids| == 5
    requires FooHome(m) !in m.dirs && FooHome(m) !in m.files
    requires m.env.ipfs(m.trace, KeyGen("foo")).Some?
    requires forall c {:trigger m.env.loads(Dumps(ChannelJson(c)))} ::
      m.env.loads(Dumps(ChannelJson(c))) == Some(ChannelJson(c))
    requires forall e: Episode {:trigger m.env.loads(Dumps(EpisodeJson(e)))} ::
      e.author.JString? ==> m.env.loads(Dumps(EpisodeJson(e))) == Some(EpisodeJson(e))
    modifies m
    ensures Session(m, channel, old(m.trace) + [KeyGen("foo")], JsonLines(episodes))
    ensures channel == ResolveChannel(Bare("foo"), m.env.ipfs(old(m.trace), KeyGen("foo")).value)
    ensures feed == m.env.render(m.env.template, ChannelJson(channel), JsonLines(episodes), now)
    ensures FooHome(m) + [FeedFile] in m.files && m.files[FooHome(m) + [FeedFile]] == feed
    ensures |episodes| == 5
    ensures episodes[0].title == "CIRCLE" && episodes[0].description == "CIRCLE"
    ensures episodes[0].author == JString("anonymous")
    ensures episodes[1].title == "OVAL" && episodes[1].description == "DISK"
    ensures episodes[2].enclosures == [Enclosure("ELLIPSE", Stated("192"), Some("application/x-helix"))]
    ensures episodes[3].author == JString("SPHERE")
    ensures episodes[4].link == Some("POINT")
  {
    channel := NewFoo(m);
    var trace := m.trace;
    episodes := AddFive(m, channel, trace, date, ids);
    feed := PublishFoo(m, channel, trace, episodes, now);
  }
}

/** The records `ipfspod` builds: the channel descriptor written by `ipfspod new`, the episode
    appended by `ipfspod add`, their JSON form, and the commands and errors of the program. */
module Records {
  import opened Wrappers
  import opened Paths
  import opened Strings
  import opened JsonText

  const LinkPrefix := "http://localhost:8080/ipns/"
  const DefaultCopyright := "CC-BY 4.0 Intl."
  const DefaultLanguage := "en"
  const DefaultEditor := "anonymous"
  const DefaultTtl := 1800

  /** An `ipfs` command line the program runs:
      `ipfs key gen <name>`, `ipfs add -Q <path>`, `ipfs name publish --key <key> <cid>`. */
  datatype Command =
    | KeyGen(name: string)
    | AddFile(path: string)
    | NamePublish(key: string, cid: string)

  /** The Python exceptions that end a command. */
  datatype Failure =
    | FileExists(path: seq<string>)       // FileExistsError from mkdir
    | FileNotFound(path: seq<string>)     // FileNotFoundError: a missing file or parent directory
    | IsADirectory(path: seq<string>)     // IsADirectoryError: a file operation on a directory
    | NotADirectory(path: seq<string>)    // NotADirectoryError: a file stands where a directory should
    | MediaUnreadable(name: string)       // stat() or content sniffing of an attached file failed
    | MalformedJson(path: seq<string>)    // json.JSONDecodeError while reading a file
    | NotAnObject                         // TypeError: the channel descriptor is not a JSON object
    | MissingKey(key: string)             // KeyError
    | CommandFailed(command: Command)     // CalledProcessError: ipfs exited with a non-zero status
    | TemplateNotFound(name: string)      // jinja2.TemplateNotFound

  /** The arguments of `ipfspod new`; None is an option not given. */
  datatype NewArgs = NewArgs(
    channelName: string,
    title: Option<string>,
    description: Option<string>,
    link: Option<string>,
    copyright: Option<string>,
    language: Option<string>,
    managingEditor: Option<string>,
    ttl: int,
    key: Option<string>)

  /** The arguments of `ipfspod new <name>` with no option: the parser's defaults. */
  function Bare(channelName: string): NewArgs
  {
    NewArgs(channelName, None, None, None, None, Some(DefaultLanguage), Some(DefaultEditor), DefaultTtl, None)
  }

  /** The channel descriptor, `channel.json`. */
  datatype Channel = Channel(
    title: string,
    description: string,
    link: string,
    copyright: string,
    language: string,
    managingEditor: string,
    ttl: int,
    key: string)

  /** An option is used by `option or default` only when it is given and not empty. */
  predicate Given(option: Option<string>)
  {
    option.Some? && option.value != ""
  }

  /** Python's `option or fallback` on an optional string. */
  function Or(option: Option<string>, fallback: string): string
  {
    if Given(option) then option.value else fallback
  }

  /** The title made from a channel name: its last path component, with "_" read as a space,
      title-cased. */
  function DefaultTitle(channelName: string): string
  {
    Title(Replace(PathName(channelName), '_', ' '))
  }

  /** The descriptor `ipfspod new` writes, once the publishing key is known. */
  function ResolveChannel(args: NewArgs, key: string): Channel
  {
    var title := Or(args.title, DefaultTitle(args.channelName));
    Channel(
      title,
      Or(args.description, title),
      Or(args.link, LinkPrefix + key),
      Or(args.copyright, DefaultCopyright),
      Or(args.language, DefaultLanguage),
      Or(args.managingEditor, DefaultEditor),
      args.ttl,
      key)
  }

  /** The derived title keeps the length of the name's last component, holds no "_" and no
      "/", and at each position holds that component's character title-cased. */
  lemma DefaultTitleShape(channelName: string)
    ensures var name := PathName(channelName);
      var t := DefaultTitle(channelName);
      && |t| == |name|
      && '_' !in t && '/' !in t
      && forall i :: 0 <= i < |t| ==>
           t[i] == Title(Replace(name, '_', ' '))[i]
           && (name[i] == '_' ==> t[i] == ' ')
           && (!IsCased(name[i]) && name[i] != '_' ==> t[i] == name[i])
  {
    var name := PathName(channelName);
    var spaced := Replace(name, '_', ' ');
    var t := DefaultTitle(channelName);
    var cs := Components(channelName);
    assert name == "" || name == cs[|cs| - 1];
    assert '/' !in name;
    forall i | 0 <= i < |t|
      ensures t[i] != '_' && t[i] != '/'
      ensures name[i] == '_' ==> t[i] == ' '
      ensures !IsCased(name[i]) && name[i] != '_' ==> t[i] == name[i]
    {
      TitleAt(spaced, i);
      assert name[i] != '/';
    }
  }

  /** A channel created as `dir/name` takes its title from `name` alone. */
  lemma DefaultTitleOfPath(dir: string, name: string)
    requires IsComponent(name)
    ensures DefaultTitle(dir + "/" + name) == Title(Replace(name, '_', ' '))
  {
    PathNameOfJoin(dir, name);
  }

  /** Each field of the descriptor: a given, non-empty option is kept as it is; otherwise the
      default applies. */
  lemma ResolvedFields(args: NewArgs, key: string)
    ensures var c := ResolveChannel(args, key);
      && c.title == (if Given(args.title) then args.title.value else DefaultTitle(args.channelName))
      && c.description == (if Given(args.description) then args.description.value else c.title)
      && c.link == (if Given(args.link) then args.link.value else LinkPrefix + key)
      && c.copyright == (if Given(args.copyright) then args.copyright.value else DefaultCopyright)
      && c.language == (if Given(args.language) then args.language.value else DefaultLanguage)
      && c.managingEditor == (if Given(args.managingEditor) then args.managingEditor.value else DefaultEditor)
      && c.ttl == args.ttl
      && c.key == key
  {
  }

  /** The arguments that give every field of `c` explicitly. */
  function Explicit(channelName: string, c: Channel): NewArgs
  {
    NewArgs(channelName, Some(c.title), Some(c.description), Some(c.link), Some(c.copyright),
            Some(c.language), Some(c.managingEditor), c.ttl, Some(c.key))
  }

  /** Defaults fill only what is missing: giving every resolved field explicitly resolves to the
      same descriptor. */
  lemma ResolveIsFixpoint(args: NewArgs, key: string)
    ensures var c := ResolveChannel(args, key);
      ResolveChannel(Explicit(args.channelName, c), key) == c
  {
  }

  /** `ipfspod new demo`: title "Demo", language "en", time-to-live 1800, and a link into the
      local gateway under the key. */
  lemma DemoChannel(key: string)
    ensures ResolveChannel(Bare("demo"), key)
         == Channel("Demo", "Demo", LinkPrefix + key, DefaultCopyright, "en", "anonymous", 1800, key)
  {
    var name := "demo";
    assert IndexOf(name, '/') == 4 by {
      assert forall j :: 0 <= j < 4 ==> name[j] != '/';
    }
    assert name[..4] == name;
    assert PathName(name) == name;
    assert Replace(name, '_', ' ') == name;
    forall i | 0 <= i < 4
      ensures Title(name)[i] == "Demo"[i]
    {
      TitleAt(name, i);
    }
  }

  /** One `-e HASH LENGTH MIMETYPE` triple, as the parser gives it: three strings. */
  datatype Triple = Triple(hash: string, length: string, mime: string)

  /** An enclosure's length: the text given with `-e`, or the byte count of an uploaded file. */
  datatype Length = Stated(text: string) | Measured(bytes: nat)

  /** An attached file: its IPFS hash, its length and its MIME type (which content sniffing
      may fail to find). */
  datatype Enclosure = Enclosure(hash: string, length: Length, mime: Option<string>)

  /** The arguments of `ipfspod add`. */
  datatype AddArgs = AddArgs(
    channel: string,
    title: string,
    description: Option<string>,
    link: Option<string>,
    author: Option<string>,
    categories: seq<string>,
    files: seq<string>,
    enclosures: seq<Triple>,
    source: Option<string>)

  /** One line of `episodes.json`. The author is copied from the channel descriptor when not
      given, so it is whatever JSON value the descriptor holds. */
  datatype Episode = Episode(
    title: string,
    description: string,
    link: Option<string>,
    author: Json,
    categories: seq<string>,
    date: string,
    enclosures: seq<Enclosure>,
    hash: string,
    source: Option<string>)

  function FromTriple(t: Triple): Enclosure
  {
    Enclosure(t.hash, Stated(t.length), Some(t.mime))
  }

  function FromTriples(ts: seq<Triple>): seq<Enclosure>
  {
    seq(|ts|, k requires 0 <= k < |ts| => FromTriple(ts[k]))
  }

  /** The episode record of `ipfspod add`, given the enclosures of the uploaded files, the
      resolved author, the date text and the random identifier. */
  function MakeEpisode(args: AddArgs, uploaded: seq<Enclosure>, author: Json, date: string, hash: string): Episode
  {
    Episode(
      args.title,
      Or(args.description, args.title),
      args.link,
      author,
      args.categories,
      date,
      FromTriples(args.enclosures) + uploaded,
      hash,
      args.source)
  }

  /** The enclosures are the `-e` triples in the order given, then the uploaded files in the
      order given; the other fields are the arguments, the description falling back to the title. */
  lemma EpisodeFields(args: AddArgs, uploaded: seq<Enclosure>, author: Json, date: string, hash: string)
    ensures var e := MakeEpisode(args, uploaded, author, date, hash);
      && e.title == args.title
      && e.description == (if Given(args.description) then args.description.value else args.title)
      && e.link == args.link && e.author == author && e.categories == args.categories
      && e.date == date && e.hash == hash && e.source == args.source
      && |e.enclosures| == |args.enclosures| + |uploaded|
      && (forall i :: 0 <= i < |args.enclosures| ==>
            e.enclosures[i] == Enclosure(args.enclosures[i].hash, Stated(args.enclosures[i].length), Some(args.enclosures[i].mime)))
      && (forall i :: 0 <= i < |uploaded| ==> e.enclosures[|args.enclosures| + i] == uploaded[i])
  {
  }

  /** The value of the last member named `key`, as a Python dict built from JSON keeps it. */
  function LastValue(members: seq<Member>, key: string): (r: Option<Json>)
    ensures r.None? <==> forall k :: 0 <= k < |members| ==> members[k].key != key
    ensures r.Some? ==> exists k :: 0 <= k < |members| && members[k] == Member(key, r.value)
                          && forall j :: k < j < |members| ==> members[j].key != key
  {
    if members == [] then None
    else if members[|members| - 1].key == key then Some(members[|members| - 1].value)
    else LastValue(members[..|members| - 1], key)
  }

  /** `value[key]` on a decoded JSON value. */
  function Lookup(value: Json, key: string): Result<Json, Failure>
  {
    match value
    case JObject(members) =>
      (match LastValue(members, key)
       case Some(v) => Success(v)
       case None => Failure(MissingKey(key)))
    case _ => Failure(NotAnObject)
  }

  /** `args.author or channel['managing_editor']`: the descriptor is consulted only when no
      author is given. */
  function ResolveAuthor(author: Option<string>, channel: Json): Result<Json, Failure>
  {
    if Given(author) then Success(JString(author.value)) else Lookup(channel, "managing_editor")
  }

  function OptionalText(o: Option<string>): Json
  {
    match o
    case Some(s) => JString(s)
    case None => JNull
  }

  /** The descriptor as `json.dumps` sees the dict: keys in the order they are built. */
  function ChannelJson(c: Channel): Json
  {
    JObject([
      Member("title", JString(c.title)),
      Member("description", JString(c.description)),
      Member("link", JString(c.link)),
      Member("copyright", JString(c.copyright)),
      Member("language", JString(c.language)),
      Member("managing_editor", JString(c.managingEditor)),
      Member("ttl", JInt(c.ttl)),
      Member("key", JString(c.key))])
  }

  function LengthJson(l: Length): Json
  {
    match l
    case Stated(text) => JString(text)
    case Measured(bytes) => JInt(bytes)
  }

  function EnclosureJson(e: Enclosure): Json
  {
    JObject([Member("hash", JString(e.hash)), Member("len", LengthJson(e.length)), Member("type", OptionalText(e.mime))])
  }

  function EpisodeJson(e: Episode): Json
  {
    JObject([
      Member("title", JString(e.title)),
      Member("description", JString(e.description)),
      Member("link", OptionalText(e.link)),
      Member("author", e.author),
      Member("categories", JArray(seq(|e.categories|, k requires 0 <= k < |e.categories| => JString(e.categories[k])))),
      Member("date", JString(e.date)),
      Member("enclosures", JArray(seq(|e.enclosures|, k requires 0 <= k < |e.enclosures| => EnclosureJson(e.enclosures[k])))),
      Member("hash", JString(e.hash)),
      Member("source", OptionalText(e.source))])
  }

  /** An episode added without `-a` to a channel made by `ipfspod new` gets the channel's
      managing editor as its author. */
  lemma AuthorFromDescriptor(author: Option<string>, c: Channel)
    ensures ResolveAuthor(author, ChannelJson(c)) == Success(JString(Or(author, c.managingEditor)))
  {
    if !Given(author) {
      var ms := ChannelJson(c).members;
      var r := LastValue(ms, "managing_editor");
      assert ms[5].key == "managing_editor";
      var k :| 0 <= k < |ms| && ms[k] == Member("managing_editor", r.value)
               && forall j :: k < j < |ms| ==> ms[j].key != "managing_editor";
      assert k == 5;
    }
  }

  /** Every `-e` triple is written to the episode's line verbatim, as three strings, in its place. */
  lemma TriplesWrittenVerbatim(args: AddArgs, uploaded: seq<Enclosure>, author: Json, date: string, hash: string, i: nat)
    requires i < |args.enclosures|
    ensures var e := MakeEpisode(args, uploaded, author, date, hash);
      var t := args.enclosures[i];
      && EpisodeJson(e).members[6].key == "enclosures"
      && EpisodeJson(e).members[6].value.items[i]
         == JObject([Member("hash", JString(t.hash)), Member("len", JString(t.length)), Member("type", JString(t.mime))])
  {
  }
}

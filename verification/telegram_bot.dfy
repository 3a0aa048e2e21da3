/**
  * The Telegram side of the gateway (mtg/bot/telegram/telegram.py).
  *
  * Every handler reads the update it is given and the bot's configuration and
  * answers with effects: replies in the chat, texts for the mesh, texts for APRS
  * and requests to the radio.  The URL shorteners, the photo download, the clock
  * and the radio's own data are inputs.
  */
module TelegramBot {
  import opened Wrappers
  import opened Strs
  import opened Mesh
  import opened Database
  import Filter
  import MeshBot
  import RichConnection
  import Message

  /** `telegram.constants.MAX_MESSAGE_LENGTH` */
  const MaxMessageLength := 4096

  /** The `Telegram` and `WebApp` settings the handlers read. */
  datatype ChatConfig = ChatConfig(room: int, notificationsRoom: int, admin: int, botInRooms: bool,
                                   shortener: string, externalUrl: string,
                                   mapLinkEnabled: bool, mapLink: string)

  /** What `shorten_pls` and `shorten_tly` answer for a URL: the "short_url" of the
      service's JSON reply, or None when it has none. */
  datatype Shorteners = Shorteners(pls: string -> Option<string>, tly: string -> Option<string>)

  datatype TgUser = TgUser(id: int, firstName: string, lastName: Option<string>)
  datatype Sticker = Sticker(setName: Option<string>, emoji: Option<string>)
  /** A photo size: its byte size and the base name of its file path on Telegram's side. */
  datatype Photo = Photo(fileSize: int, fileName: string)
  /** The message replied to: whether it is a topic message, and the name of the topic
      it created, if it is a topic's opening message. */
  datatype Reply = Reply(isTopicMessage: bool, topicCreated: Option<string>)
  datatype ChatMessage = ChatMessage(text: Option<string>, sticker: Option<Sticker>, photo: seq<Photo>,
                                     isTopicMessage: bool, replyTo: Option<Reply>)
  datatype Update = Update(chat: int, user: TgUser, message: Option<ChatMessage>)

  datatype Effect =
    | Say(chat: int, text: string)
    | SayMarkdown(chat: int, text: string)
    | MeshSend(text: string)
    | AprsSend(addressee: string, text: string)
    | RebootRadio
    | ResetRadioDb
    | TraceRoute(dest: string, hopLimit: int)

  // ---------------------------------------------------------------- check_room

  /** The `check_room` decorator: the handler runs unless the chat is one of the two
      rooms while the bot is not to answer there, or the user is banned. */
  predicate CheckRoom(cfg: ChatConfig, filters: seq<FilterRecord>, u: Update) {
    !((u.chat == cfg.notificationsRoom || u.chat == cfg.room) && !cfg.botInRooms)
    && !Filter.Banned(filters, Filter.Telegram, IntToString(u.user.id))
  }

  function Guarded(cfg: ChatConfig, filters: seq<FilterRecord>, u: Update, effects: seq<Effect>): (r: seq<Effect>)
    ensures r == [] || (r == effects && CheckRoom(cfg, filters, u))
  {
    if CheckRoom(cfg, filters, u) then effects else []
  }

  /** A banned user gets nothing from any decorated handler, and neither does anybody
      in the rooms while BotInRooms is off. */
  lemma GuardSkips(cfg: ChatConfig, filters: seq<FilterRecord>, u: Update, effects: seq<Effect>)
    requires Filter.Banned(filters, Filter.Telegram, IntToString(u.user.id))
      || ((u.chat == cfg.room || u.chat == cfg.notificationsRoom) && !cfg.botInRooms)
    ensures Guarded(cfg, filters, u, effects) == []
  {
  }

  // ---------------------------------------------------------------- shortening

  /** `shorten_p(long_url)` */
  function ShortenP(service: string, sh: Shorteners, url: string): (r: Option<string>)
    ensures service != "pls" && service != "tly" ==> r == Some(url)
    ensures service == "pls" ==> r == sh.pls(url)
    ensures service == "tly" ==> r == sh.tly(url)
  {
    if service == "pls" then sh.pls(url)
    else if service == "tly" then sh.tly(url)
    else Some(url)
  }

  /** `re.match('https?://.+', part)` */
  predicate IsUrl(part: string) {
    (StartsWith(part, "http://") && |part| > 7 && part[7] != '\n')
    || (StartsWith(part, "https://") && |part| > 8 && part[8] != '\n')
  }

  /** A token of the text after shortening: a URL becomes its short form, anything
      else stays, and what is empty or None is dropped by the rejoin. */
  function TokenAfter(service: string, sh: Shorteners): string -> Option<string> {
    (part: string) =>
      var x := if IsUrl(part) then ShortenP(service, sh, part) else Some(part);
      if x.Some? && x.value != "" then x else None
  }

  /** `shorten_in_text(message)` */
  function ShortenedText(service: string, sh: Shorteners, message: string): string {
    Join(FilterMap(Split(message, ' '), TokenAfter(service, sh)), " ")
  }

  /** Text whose words are all non-empty and no URL comes back unchanged. */
  lemma NoUrlsUnchanged(service: string, sh: Shorteners, message: string)
    requires forall i :: 0 <= i < |Split(message, ' ')| ==>
      Split(message, ' ')[i] != "" && !IsUrl(Split(message, ' ')[i])
    ensures ShortenedText(service, sh, message) == message
  {
    FilterMapKeepsAll(Split(message, ' '), TokenAfter(service, sh));
    SplitJoin(message, ' ');
    assert [' '] == " ";
  }

  /** `w` is `part` itself, or its short form when `part` is a URL. */
  predicate WordOf(service: string, sh: Shorteners, part: string, w: string) {
    if IsUrl(part) then ShortenP(service, sh, part) == Some(w) else part == w
  }

  /** Every word of the result is a non-URL word of the text or the short form of one
      of its URLs, and none is empty. */
  lemma ShortenedWords(service: string, sh: Shorteners, message: string)
    ensures forall w :: w in FilterMap(Split(message, ' '), TokenAfter(service, sh)) ==>
      w != "" && exists i :: 0 <= i < |Split(message, ' ')| && WordOf(service, sh, Split(message, ' ')[i], w)
  {
    FilterMapMembers(Split(message, ' '), TokenAfter(service, sh));
  }

  /** With no shortener configured a URL stays as it is. */
  lemma NoServiceKeepsUrls(service: string, sh: Shorteners, message: string)
    requires service != "pls" && service != "tly"
    requires forall i :: 0 <= i < |Split(message, ' ')| ==> Split(message, ' ')[i] != ""
    ensures ShortenedText(service, sh, message) == message
  {
    FilterMapKeepsAll(Split(message, ' '), TokenAfter(service, sh));
    SplitJoin(message, ' ');
    assert [' '] == " ";
  }

  // ---------------------------------------------------------------- echo

  /** The sender: the first name, then a space and the last name when there is one. */
  function FullUser(user: TgUser): (r: string)
    ensures StartsWith(r, user.firstName)
    ensures user.lastName.None? ==> r == user.firstName
    ensures user.lastName.Some? ==> |r| == |user.firstName| + 1 + |user.lastName.value| && EndsWith(r, user.lastName.value)
  {
    if user.lastName.None? then user.firstName
    else
      var r := user.firstName + " " + user.lastName.value;
      assert r[..|user.firstName|] == user.firstName;
      assert r[|r| - |user.lastName.value|..] == user.lastName.value;
      r
  }

  /** `sorted(photo, key=file_size, reverse=True)[0]`: the first of the largest sizes
      (the sort is stable). */
  function Largest(photos: seq<Photo>): (p: Photo)
    requires |photos| > 0
    ensures p in photos
    ensures forall j :: 0 <= j < |photos| ==> photos[j].fileSize <= p.fileSize
    ensures exists i :: 0 <= i < |photos| && photos[i] == p && forall j :: 0 <= j < i ==> photos[j].fileSize < p.fileSize
  {
    photos[LargestAmong(photos, |photos|)]
  }

  /** The index of the first of the largest among the first `n` photos. */
  function LargestAmong(photos: seq<Photo>, n: nat): (i: nat)
    requires 0 < n <= |photos|
    ensures i < n
    ensures forall j :: 0 <= j < n ==> photos[j].fileSize <= photos[i].fileSize
    ensures forall j :: 0 <= j < i ==> photos[j].fileSize < photos[i].fileSize
    decreases n
  {
    if n == 1 then 0
    else
      var m := LargestAmong(photos, n - 1);
      if photos[n - 1].fileSize > photos[m].fileSize then n - 1 else m
  }

  function TextPart(service: string, sh: Shorteners, m: ChatMessage): string {
    if m.text.Some? && m.text.value != "" then ShortenedText(service, sh, m.text.value) else ""
  }

  function StickerPart(m: ChatMessage): string {
    if m.sticker.Some? then "sent sticker " + Shown(m.sticker.value.setName) + ": " + Shown(m.sticker.value.emoji)
    else ""
  }

  /** The link to the downloaded copy of the largest photo, under the day's directory. */
  function PhotoPart(cfg: ChatConfig, sh: Shorteners, day: string, m: ChatMessage): string {
    if |m.photo| > 0 then
      var longUrl := cfg.externalUrl + "/static/t/" + day + "/" + Largest(m.photo).fileName;
      "sent image: " + Shown(ShortenP(cfg.shortener, sh, longUrl))
    else ""
  }

  /** The message body: the shortened text, then the sticker, then the image link. */
  function Body(cfg: ChatConfig, sh: Shorteners, day: string, u: Update): string {
    if u.message.None? then ""
    else
      var m := u.message.value;
      TextPart(cfg.shortener, sh, m) + StickerPart(m) + PhotoPart(cfg, sh, day, m)
  }

  /** A topic message that does not reply to anything: reading the topic it was
      created in raises. */
  predicate TopicUnreadable(u: Update) {
    u.message.Some? && u.message.value.isTopicMessage && u.message.value.replyTo.None?
  }

  /** A topic message from a topic other than "General". */
  predicate OtherTopic(u: Update) {
    u.message.Some? && u.message.value.isTopicMessage && u.message.value.replyTo.Some?
    && u.message.value.replyTo.value.topicCreated.Some? && u.message.value.replyTo.value.topicCreated.value != "General"
  }

  /** A reply to a topic message. */
  predicate ReplyInTopic(u: Update) {
    u.message.Some? && u.message.value.replyTo.Some? && u.message.value.replyTo.value.isTopicMessage
  }

  /** The end of `echo`: nothing for an empty body, else the APRS relay of an
      "APRS-" text and the mesh text "<user>: <body>". */
  function Delivered(aprs: bool, user: string, body: string): (r: Result<seq<Effect>>)
    ensures r.Ok? ==> |r.value| <= 2
    ensures r.Ok? && r.value != [] ==> r.value[|r.value| - 1] == MeshSend(user + ": " + body)
    ensures (r.Ok? && r.value != []) <==> body != "" && (StartsWith(body, "APRS-") ==> aprs)
    ensures body != "" && !StartsWith(body, "APRS-") ==> r == Ok([MeshSend(user + ": " + body)])
    ensures StartsWith(body, "APRS-") && !aprs ==> r == Err(AttributeError("'NoneType' object has no attribute 'send_text'"))
    ensures StartsWith(body, "APRS-") && aprs ==>
      r.Ok? && |r.value| == 2
      && r.value[0] == AprsSend(MeshBot.AddresseeAsWritten(body), user + ": " + MeshBot.AprsBody(body))
  {
    var line := MeshSend(user + ": " + body);
    if body == "" then Ok([])
    else if !StartsWith(body, "APRS-") then Ok([line])
    else if !aprs then Err(AttributeError("'NoneType' object has no attribute 'send_text'"))
    else Ok([AprsSend(MeshBot.AddresseeAsWritten(body), user + ": " + MeshBot.AprsBody(body)), line])
  }

  /** `echo(update, _)`: what reaches the mesh and APRS, or the exception raised. */
  function Echoed(cfg: ChatConfig, filters: seq<FilterRecord>, aprs: bool, sh: Shorteners, day: string, u: Update)
    : (r: Result<seq<Effect>>)
    ensures u.chat != cfg.room ==> r == Ok([])
    ensures Filter.Banned(filters, Filter.Telegram, IntToString(u.user.id)) ==> r == Ok([])
    ensures r.Ok? ==> |r.value| <= 2
    ensures r.Ok? && r.value != [] ==>
      r.value[|r.value| - 1] == MeshSend(FullUser(u.user) + ": " + Body(cfg, sh, day, u))
  {
    if u.chat != cfg.room then Ok([])
    else if Filter.Banned(filters, Filter.Telegram, IntToString(u.user.id)) then Ok([])
    else if TopicUnreadable(u) then Err(AttributeError("'NoneType' object has no attribute 'forum_topic_created'"))
    else if OtherTopic(u) || ReplyInTopic(u) then Ok([])
    else Delivered(aprs, FullUser(u.user), Body(cfg, sh, day, u))
  }

  /** A message from the room reaches the mesh exactly when its sender is not banned,
      it is outside any topic but "General", it has a body, and APRS is set up for an
      APRS text. */
  lemma EchoForwards(cfg: ChatConfig, filters: seq<FilterRecord>, aprs: bool, sh: Shorteners, day: string, u: Update)
    ensures var r := Echoed(cfg, filters, aprs, sh, day, u);
      (r.Ok? && r.value != []) <==>
        (u.chat == cfg.room && !Filter.Banned(filters, Filter.Telegram, IntToString(u.user.id))
         && !TopicUnreadable(u) && !OtherTopic(u) && !ReplyInTopic(u)
         && Body(cfg, sh, day, u) != "" && (StartsWith(Body(cfg, sh, day, u), "APRS-") ==> aprs))
    ensures var r := Echoed(cfg, filters, aprs, sh, day, u);
      r.Ok? && |r.value| == 2 ==>
        r.value[0] == AprsSend(MeshBot.AddresseeAsWritten(Body(cfg, sh, day, u)),
                               FullUser(u.user) + ": " + MeshBot.AprsBody(Body(cfg, sh, day, u)))
  {
  }

  /** A plain text from the room, with no sticker or photo, reaches the mesh as
      "<user>: <shortened text>". */
  lemma EchoPlainText(cfg: ChatConfig, filters: seq<FilterRecord>, aprs: bool, sh: Shorteners, day: string,
                      u: Update, text: string)
    requires u.chat == cfg.room && !Filter.Banned(filters, Filter.Telegram, IntToString(u.user.id))
    requires u.message == Some(ChatMessage(Some(text), None, [], false, None))
    requires text != "" && ShortenedText(cfg.shortener, sh, text) != ""
    requires !StartsWith(ShortenedText(cfg.shortener, sh, text), "APRS-")
    ensures Echoed(cfg, filters, aprs, sh, day, u) == Ok([MeshSend(FullUser(u.user) + ": " + ShortenedText(cfg.shortener, sh, text))])
  {
    assert Body(cfg, sh, day, u) == ShortenedText(cfg.shortener, sh, text) + "" + "";
    assert ShortenedText(cfg.shortener, sh, text) + "" + "" == ShortenedText(cfg.shortener, sh, text);
  }

  // ---------------------------------------------------------------- the admin commands

  /** `bg_route(dest, hop_limit)` */
  function BgRoute(dest: string, hopLimit: int): (r: seq<Effect>)
    ensures r == [] <==> dest == ""
    ensures r != [] ==> r == [TraceRoute(dest, hopLimit)]
  {
    if |dest| == 0 then [] else [TraceRoute(dest, hopLimit)]
  }

  /** An admin command's effects after the admin check. */
  function AdminOnly(cfg: ChatConfig, filters: seq<FilterRecord>, u: Update, effects: seq<Effect>): (r: seq<Effect>)
    ensures r != [] ==> u.chat == cfg.admin && CheckRoom(cfg, filters, u)
    ensures u.chat == cfg.admin && CheckRoom(cfg, filters, u) ==> r == effects
  {
    Guarded(cfg, filters, u, if u.chat != cfg.admin then [] else effects)
  }

  /** `/reboot` */
  function RebootCommand(cfg: ChatConfig, filters: seq<FilterRecord>, u: Update): (r: seq<Effect>)
    ensures r != [] <==> u.chat == cfg.admin && CheckRoom(cfg, filters, u)
    ensures RebootRadio in r <==> r != []
  {
    AdminOnly(cfg, filters, u, [Say(u.chat, "Requesting reboot..."), RebootRadio])
  }

  /** `/reset_db` */
  function ResetDbCommand(cfg: ChatConfig, filters: seq<FilterRecord>, u: Update): (r: seq<Effect>)
    ensures r != [] <==> u.chat == cfg.admin && CheckRoom(cfg, filters, u)
    ensures ResetRadioDb in r <==> r != []
  {
    AdminOnly(cfg, filters, u, [Say(u.chat, "Requesting node DB reset..."), ResetRadioDb])
  }

  /** The characters `lstrip('/traceroute ')` removes. */
  const TracerouteChars: set<char> := {'/', 't', 'r', 'a', 'c', 'e', 'o', 'u', ' '}

  /** The destination as `traceroute` reads it: `text.lstrip('/traceroute ')`. */
  function TraceDestAsWritten(text: string): string {
    LStrip(text, TracerouteChars)
  }

  /** Everything after the first space: the command's argument. */
  function TraceDest(text: string): (r: string)
    ensures ' ' !in text ==> r == ""
    ensures |r| <= |text|
    decreases |text|
  {
    if |text| == 0 then ""
    else if text[0] == ' ' then text[1..]
    else TraceDest(text[1..])
  }

  /** The argument of "<command> <argument>" is `<argument>`, whatever it holds. */
  lemma {:induction false} TraceDestOf(command: string, arg: string)
    requires ' ' !in command
    ensures TraceDest(command + " " + arg) == arg
    decreases |command|
  {
    if |command| > 0 {
      assert (command + " " + arg)[1..] == command[1..] + " " + arg;
      TraceDestOf(command[1..], arg);
    }
  }

  /** Every character of "/traceroute " followed by such letters is stripped. */
  lemma TraceRun(lost: string)
    requires forall i :: 0 <= i < |lost| ==> lost[i] in TracerouteChars
    ensures forall i :: 0 <= i < |"/traceroute " + lost| ==> ("/traceroute " + lost)[i] in TracerouteChars
  {
    var p := "/traceroute " + lost;
    forall i | 0 <= i < |p| ensures p[i] in TracerouteChars {
      if i >= 12 {
        assert p[i] == lost[i - 12];
      }
    }
  }

  /** A destination that starts with letters among a, c, e, o, r, t, u (a hex id typed
      without its "!", say "ace1") loses them as written. */
  lemma TraceDestStripsLetters(lost: string, rest: string)
    requires forall i :: 0 <= i < |lost| ==> lost[i] in TracerouteChars
    requires |rest| > 0 && rest[0] !in TracerouteChars
    requires ' ' !in lost
    ensures TraceDestAsWritten("/traceroute " + (lost + rest)) == rest
    ensures TraceDest("/traceroute " + (lost + rest)) == lost + rest
  {
    TraceRun(lost);
    assert "/traceroute " + (lost + rest) == ("/traceroute " + lost) + rest;
    StripRun("/traceroute " + lost, rest, TracerouteChars);
    assert "/traceroute " + (lost + rest) == "/traceroute" + " " + (lost + rest);
    TraceDestOf("/traceroute", lost + rest);
  }

  /** A node id such as "!a1b2c3d4" or a decimal node number survives as written. */
  lemma TraceDestNodeId(dest: string)
    requires |dest| > 0 && dest[0] !in TracerouteChars
    ensures TraceDestAsWritten("/traceroute " + dest) == dest
    ensures TraceDest("/traceroute " + dest) == dest
  {
    TraceDestStripsLetters("", dest);
    assert "" + dest == dest;
  }

  /** `/traceroute <dest>`; the hop limit is the radio's LoRa setting. */
  function TracerouteCommand(cfg: ChatConfig, filters: seq<FilterRecord>, u: Update, text: string, hopLimit: int)
    : (r: seq<Effect>)
    ensures r != [] <==> u.chat == cfg.admin && CheckRoom(cfg, filters, u)
    ensures r != [] ==> r == [Say(u.chat, "Sending traceroute... See bot logs")] + BgRoute(TraceDestAsWritten(text), hopLimit)
  {
    AdminOnly(cfg, filters, u, [Say(u.chat, "Sending traceroute... See bot logs")] + BgRoute(TraceDestAsWritten(text), hopLimit))
  }

  /** A node of `nodes_with_position` whose user id is set gets a traceroute. */
  function RouteOf(hopLimit: int): NodeInfo -> Option<Effect> {
    (n: NodeInfo) =>
      var id := RichConnection.UserId(n);
      if id.Some? && id.value != "" then Some(TraceRoute(id.value, hopLimit)) else None
  }

  function RouteTraces(nodes: seq<NodeInfo>, hopLimit: int): seq<Effect> {
    FilterMap(nodes, RouteOf(hopLimit))
  }

  /** `/routes` */
  function RoutesCommand(cfg: ChatConfig, filters: seq<FilterRecord>, u: Update, nodes: seq<NodeInfo>, hopLimit: int)
    : (r: seq<Effect>)
    ensures r != [] ==> u.chat == cfg.admin && CheckRoom(cfg, filters, u)
    ensures u.chat == cfg.admin && CheckRoom(cfg, filters, u) ==> r == RouteTraces(nodes, hopLimit)
  {
    AdminOnly(cfg, filters, u, RouteTraces(nodes, hopLimit))
  }

  /** `/routes` traces exactly the nodes with a non-empty user id. */
  lemma RoutesTraceIdentified(nodes: seq<NodeInfo>, hopLimit: int)
    ensures forall e :: e in RouteTraces(nodes, hopLimit) <==>
      exists i :: 0 <= i < |nodes| && RichConnection.UserId(nodes[i]).Some?
        && RichConnection.UserId(nodes[i]).value != "" && e == TraceRoute(RichConnection.UserId(nodes[i]).value, hopLimit)
  {
    FilterMapMembers(nodes, RouteOf(hopLimit));
  }

  // ---------------------------------------------------------------- the other commands

  /** `/start` */
  function StartCommand(cfg: ChatConfig, filters: seq<FilterRecord>, u: Update): (r: seq<Effect>)
    ensures r != [] <==> CheckRoom(cfg, filters, u)
    ensures r != [] ==> r == [Say(u.chat, "I'm a bot, please talk to me!")]
  {
    Guarded(cfg, filters, u, [Say(u.chat, "I'm a bot, please talk to me!")])
  }

  /** `/ch`: the primary channel's URL. */
  function ChannelCommand(cfg: ChatConfig, filters: seq<FilterRecord>, u: Update, url: string): (r: seq<Effect>)
    ensures r != [] <==> CheckRoom(cfg, filters, u)
    ensures r != [] ==> r == [Say(u.chat, url)]
  {
    Guarded(cfg, filters, u, [Say(u.chat, url)])
  }

  /** `/map` */
  function MapCommand(cfg: ChatConfig, filters: seq<FilterRecord>, u: Update): (r: seq<Effect>)
    ensures r != [] <==> CheckRoom(cfg, filters, u)
    ensures r != [] && cfg.mapLinkEnabled ==> r == [Say(u.chat, cfg.mapLink)]
    ensures r != [] && !cfg.mapLinkEnabled ==> r == [Say(u.chat, "Map link not enabled")]
  {
    Guarded(cfg, filters, u, [Say(u.chat, if cfg.mapLinkEnabled then cfg.mapLink else "Map link not enabled")])
  }

  /** `/uptime`: `radio` is the firmware version and reboot count when the interface
      has both its own info and its metadata. */
  function UptimeCommand(cfg: ChatConfig, filters: seq<FilterRecord>, u: Update, version: string,
                         radio: Option<(string, int)>, meshlib: string, started: string): (r: seq<Effect>)
    ensures r != [] <==> CheckRoom(cfg, filters, u)
    ensures r != [] ==> |r| == 1 && r[0].Say? && StartsWith(r[0].text, "Bot v" + version + "/FW: v")
  {
    var firmware := if radio.Some? then radio.value.0 else "unknown";
    var reboots := if radio.Some? then IntToString(radio.value.1) else "unknown";
    var head := "Bot v" + version + "/FW: v";
    var text := head + firmware + "/Meshlib: v" + meshlib + "/Reboots: " + reboots + "." + "Started " + started;
    assert text[..|head|] == head;
    Guarded(cfg, filters, u, [Say(u.chat, text)])
  }

  /** `/nodes`: the formatted table in one message, or split when it is too long. */
  function NodesCommand(cfg: ChatConfig, filters: seq<FilterRecord>, u: Update, formatted: string): (r: seq<Effect>)
    ensures |formatted| < MaxMessageLength && CheckRoom(cfg, filters, u) ==> r == [SayMarkdown(u.chat, formatted)]
    ensures forall e :: e in r ==> e.SayMarkdown? && e.chat == u.chat
    ensures !CheckRoom(cfg, filters, u) ==> r == []
    ensures |formatted| >= MaxMessageLength && CheckRoom(cfg, filters, u) ==>
      var texts := Message.Emitted(Message.Parts(formatted, MaxMessageLength), MaxMessageLength);
      |r| == |texts| && forall i :: 0 <= i < |r| ==> r[i] == SayMarkdown(u.chat, texts[i])
  {
    if |formatted| < MaxMessageLength then Guarded(cfg, filters, u, [SayMarkdown(u.chat, formatted)])
    else
      var texts := Message.Emitted(Message.Parts(formatted, MaxMessageLength), MaxMessageLength);
      Guarded(cfg, filters, u, seq(|texts|, i requires 0 <= i < |texts| => SayMarkdown(u.chat, texts[i])))
  }

  /** No message `/nodes` sends is longer than Telegram allows. */
  lemma NodesWithinLimit(cfg: ChatConfig, filters: seq<FilterRecord>, u: Update, formatted: string)
    ensures forall e :: e in NodesCommand(cfg, filters, u, formatted) ==> |e.text| <= MaxMessageLength
  {
    Message.CallsWithinLimit(Message.Parts(formatted, MaxMessageLength), MaxMessageLength);
  }

  // ---------------------------------------------------------------- the bot object

  class TelegramBot {
    const config: ChatConfig
    /** The ban list `set_filter` installs. */
    var filters: seq<FilterRecord>
    /** `self.aprs is not None` */
    var aprs: bool

    constructor (config: ChatConfig, filters: seq<FilterRecord>)
      ensures this.config == config && this.filters == filters && !aprs
    {
      this.config := config;
      this.filters := filters;
      aprs := false;
    }

    /** `set_aprs(aprs)` */
    method SetAprs()
      modifies this
      ensures aprs && filters == old(filters)
    {
      aprs := true;
    }

    /** `set_filter(filter_class)` */
    method SetFilter(filters: seq<FilterRecord>)
      modifies this
      ensures this.filters == filters && aprs == old(aprs)
    {
      this.filters := filters;
    }

    /** `shorten_in_text(message)`: the URLs found in a first pass are replaced in a
        second one, then the non-empty words are joined again. */
    method ShortenInText(message: string, sh: Shorteners) returns (r: string)
      ensures r == ShortenedText(config.shortener, sh, message)
    {
      var splits := Split(message, ' ');
      var replacements: map<nat, Option<string>> := map[];
      for pos := 0 to |splits|
        invariant forall k: nat :: k in replacements <==> k < pos && IsUrl(splits[k])
        invariant forall k :: k in replacements ==> replacements[k] == ShortenP(config.shortener, sh, splits[k])
      {
        if IsUrl(splits[pos]) {
          replacements := replacements[pos := ShortenP(config.shortener, sh, splits[pos])];
        }
      }
      var parts: seq<Option<string>> := seq(|splits|, i requires 0 <= i < |splits| => Some(splits[i]));
      for pos := 0 to |splits|
        invariant |parts| == |splits|
        invariant forall k :: 0 <= k < |splits| ==>
          parts[k] == if k < pos && k in replacements then replacements[k] else Some(splits[k])
      {
        if pos in replacements {
          parts := parts[pos := replacements[pos]];
        }
      }
      var kept: seq<string> := [];
      for i := 0 to |parts|
        invariant kept == FilterMap(splits[..i], TokenAfter(config.shortener, sh))
      {
        assert splits[..i + 1][..i] == splits[..i] && splits[..i + 1][i] == splits[i];
        if parts[i].Some? && parts[i].value != "" {
          kept := kept + [parts[i].value];
        }
      }
      assert splits[..|splits|] == splits;
      r := Join(kept, " ");
    }

    /** The body `echo` builds with `+=`: text, sticker, image. */
    method BuildBody(u: Update, sh: Shorteners, day: string) returns (message: string)
      ensures message == Body(config, sh, day, u)
    {
      message := "";
      if u.message.None? {
        return;
      }
      var m := u.message.value;
      if m.text.Some? && m.text.value != "" {
        var short := ShortenInText(m.text.value, sh);
        message := message + short;
      }
      assert message == TextPart(config.shortener, sh, m);
      if m.sticker.Some? {
        var sticker := "sent sticker " + Shown(m.sticker.value.setName) + ": " + Shown(m.sticker.value.emoji);
        message := message + sticker;
      }
      assert message == TextPart(config.shortener, sh, m) + StickerPart(m);
      if |m.photo| > 0 {
        var photo := Largest(m.photo);
        var longUrl := config.externalUrl + "/static/t/" + day + "/" + photo.fileName;
        var image := "sent image: " + Shown(ShortenP(config.shortener, sh, longUrl));
        message := message + image;
      }
    }

    /** `echo(update, _)` */
    method Echo(u: Update, sh: Shorteners, day: string) returns (r: Result<seq<Effect>>)
      ensures r == Echoed(config, filters, aprs, sh, day, u)
    {
      if u.chat != config.room {
        return Ok([]);
      }
      if Filter.Banned(filters, Filter.Telegram, IntToString(u.user.id)) {
        return Ok([]);
      }
      if u.message.Some? && u.message.value.isTopicMessage {
        if u.message.value.replyTo.None? {
          return Err(AttributeError("'NoneType' object has no attribute 'forum_topic_created'"));
        }
        var topic := u.message.value.replyTo.value.topicCreated;
        if topic.Some? && topic.value != "General" {
          return Ok([]);
        }
      }
      if u.message.Some? && u.message.value.replyTo.Some? && u.message.value.replyTo.value.isTopicMessage {
        return Ok([]);
      }
      var fullUser := u.user.firstName;
      if u.user.lastName.Some? {
        fullUser := fullUser + " " + u.user.lastName.value;
      }
      assert fullUser == FullUser(u.user);
      var message := BuildBody(u, sh, day);
      r := Deliver(fullUser, message);
    }

    /** The APRS relay and the mesh text. */
    method Deliver(user: string, message: string) returns (r: Result<seq<Effect>>)
      ensures r == Delivered(aprs, user, message)
    {
      if message == "" {
        return Ok([]);
      }
      var line := MeshSend(user + ": " + message);
      if !StartsWith(message, "APRS-") {
        return Ok([line]);
      }
      if !aprs {
        return Err(AttributeError("'NoneType' object has no attribute 'send_text'"));
      }
      var relay := AprsSend(MeshBot.AddresseeAsWritten(message), user + ": " + MeshBot.AprsBody(message));
      return Ok([relay, line]);
    }

    /** `routes(update, _context)`: a traceroute for every node with a user id. */
    method Routes(u: Update, nodes: seq<NodeInfo>, hopLimit: int) returns (effects: seq<Effect>)
      ensures effects == RoutesCommand(config, filters, u, nodes, hopLimit)
    {
      if !CheckRoom(config, filters, u) || u.chat != config.admin {
        return [];
      }
      effects := [];
      for i := 0 to |nodes|
        invariant effects == RouteTraces(nodes[..i], hopLimit)
      {
        assert nodes[..i + 1][..i] == nodes[..i] && nodes[..i + 1][i] == nodes[i];
        var id := RichConnection.UserId(nodes[i]);
        if id.Some? && id.value != "" {
          effects := effects + BgRoute(id.value, hopLimit);
        }
      }
      assert nodes[..|nodes|] == nodes;
    }
  }
}

# Meshtastic–Telegram gateway, modelled in Dafny

This project models the decision and formatting core of the Meshtastic–Telegram
gateway (mtg). The gateway relays traffic between a Meshtastic radio mesh,
Telegram chat rooms, MQTT and APRS-IS. Each source file of the core has one
Dafny module:

- `message.dfy` (`Message`): `split_message` packs the non-empty lines of a text into parts and slices them for the callback. `split_user_message` prefixes wrapped pieces with the sender and an `[i/n]` counter.
- `degrees.dfy` (`Degrees`): `deg_to_cardinal`, the 16-point compass.
- `memcache.dfy` (`Memcache`): the expiring cache as a class over a map, plus one reaper sweep.
- `config.dfy` (`Config`): `enforce_type`, the two-level `config.Section.Key` access and the basic interpolation `configparser` applies to every value read.
- `filter.dfy` (`Filter`): the ban filters and their connection types.
- `mqtt_handler.dfy` (`MqttHandler`): the MQTT status-topic handler.
- `transport.dfy` (`Transport`): the AES-CTR counter block, the topics, the hardware ids, the destination rule and the drop rules for incoming MQTT packets.
- `mesh_connection.dfy` (`MeshConnection`): the per-node MQTT status table, the node-table views, the `send_text` size rule, `format_nodes` and the command FIFO.
- `rich_connection.dfy` (`RichConnection`): the last-position fallback and the position synthesis.
- `aprs.dfy` (`Aprs`): APRS message packets, acceptance, acknowledgement and de-duplication, and position reports.
- `prefixes.dfy` (`Prefixes`): the ITU call-sign prefix lookups.
- `database.dfy` (`Database`): node records, locations, tracks and name normalisation over in-memory tables.
- `webapp.dfy` (`WebApp`): the tail query, the track and data views, and the air-raid alert routing.
- `mesh_bot.dfy` (`MeshBot`): `on_receive`, the command dispatch, `/distance` and the new-node notice.
- `telegram_bot.dfy` (`TelegramBot`): the room checks, URL shortening in text, `echo` and the admin commands.
- `reaction.dfy` (`Reaction`): the Telegram reaction-list parser, `from_raw` and `check_update`.
- `firmware.dfy` (`Firmware`): the firmware-release listing.

Shared modules:

- `wrappers.dfy` holds `Option`, `Result` and the Python exceptions.
- `strs.dfy` holds the string and number helpers with their round-trip lemmas.
- `sorting.dfy` models Python's stable `sorted`.
- `mesh.dfy` holds the node-table dictionaries and packets.

Where the source changes state in place, the model does too. The following are
classes with `modifies` clauses:

- the memcache and the configuration;
- the MQTT handler;
- the Meshtastic and rich connections;
- the APRS streamer;
- the database;
- the two bots;
- the air-raid view.

Each method is proved against a specification function, or states its new state
outright. The lemmas are stated about those functions.

The operations follow the code as written, including the four slips listed under
"## Findings". For each slip the corrected definition sits beside the as-written
one, with the intended property proved about it and a lemma saying where the two
agree.
Calls the gateway makes to the outside world (radio, Telegram, APRS-IS, the
CSV log) are returned as lists of effects, in the order the source makes them.

## Model

| member | source | states |
|---|---|---|
| Message.Slices | mtg/utils/message.py:35-36 | a part not shorter than the limit is cut into `len // chunk_len + 1` slices |
| Message.PackParts | mtg/utils/message.py:15-26 | the packing loop yields the finished parts followed by the part being filled, as `PackLines` defines them |
| Message.SliceText | mtg/utils/message.py:35-36 | the slicing loop produces exactly the clamped slices `text[i*c:i*c+c]` |
| Message.EmitParts | mtg/utils/message.py:28-36 | the sending loop hands the callback the texts of the non-empty parts in order: a short part whole, a long one in slices |
| Message.SplitMessage | mtg/utils/message.py:8-36 | the callback calls, in order, each carrying the same keyword arguments; a zero limit raises ZeroDivisionError before any call |
| Message.PackKeepsLines | mtg/utils/message.py:17-26 | the parts, flattened, are exactly the non-empty lines of the message in their original order |
| Message.FlattenParts | mtg/utils/message.py:17-26 | every non-empty line reaches exactly one part, in order; with no lines every part is empty |
| Message.NoLinesEmptyParts | mtg/utils/message.py:17-26 | a message without non-empty lines packs into no finished part and an empty current part |
| Message.NoTextNoCalls | mtg/utils/message.py:18-19 | an empty message, or one made only of newlines, makes no callback call and never divides by zero |
| Message.PackShort | mtg/utils/message.py:20-21 | while the joined text stays under the limit every non-empty line joins the first part |
| Message.ShortMessageOneCall | mtg/utils/message.py:17-33 | a message whose non-empty lines joined by newlines are shorter than the limit gives exactly one call with that text |
| Message.CallsWithinLimit | mtg/utils/message.py:32-36 | with a positive limit no callback text is longer than `chunk_len` |
| Message.SlicesPrefix | mtg/utils/message.py:35-36 | the first k slices concatenate to the first `min(k*c, len)` characters of the part |
| Message.PartCoverage | mtg/utils/message.py:31-36 | the texts sent for one part concatenate back to exactly that part's newline-joined text |
| Message.ExactMultipleEndsEmpty | mtg/utils/message.py:35-36 | a part of length k*c (k >= 1) gives k full slices followed by an empty last call |
| Message.StrippedPieces | mtg/utils/message.py:54 | the kept wrapped pieces are all non-empty after stripping |
| Message.NoRoomAtFirst | mtg/utils/message.py:44-49 | with fuel left and no room beside a one-part counter, the first round raises |
| Message.SplitUserMessage | mtg/utils/message.py:39-59 | round by round (`PartsAt`: one part first, then the previous wrap's piece count), the loop raises ValueError exactly when the first round that does not re-wrap has no room, returns lines exactly when that round settles (with n = that round's count and the lines `"<sender>: [i/n] <piece i>"` of its stripped pieces), and runs out of fuel exactly when every round re-wraps; the first round raises when a one-part counter leaves no room |
| Message.NumberLines | mtg/utils/message.py:59 | one line per part, the i-th being the prefix, `[i/n] ` and the i-th part |
| Message.UserLinesPrefixed | mtg/utils/message.py:42-59 | the i-th line starts with `"<sender>: [i/n] "` for i = 1..n |
| Degrees.DegToCardinal | mtg/geo/degrees.py:9-43 | "UNK" exactly for bearings below 0 or above 360; every other bearing gets one of the sixteen point names |
| Degrees.Sector | mtg/geo/degrees.py:11-42 | the reference sector number, in 0..15, of a bearing in [0, 360] |
| Degrees.CardinalMatchesSector | mtg/geo/degrees.py:9-42 | inside [0, 360] the chain of tests names the point of the reference 22.5-degree sector |
| Degrees.CardinalOfPoint | mtg/geo/degrees.py:11-42 | 22.5·k maps to the k-th point in N, NNE, …, NNW order, k = 0..15 |
| Degrees.SectorOf | mtg/geo/degrees.py:13-42 | a bearing in (22.5k − 11.25, 22.5k + 11.25] maps to point k (mod 16): sectors are open below and closed above |
| Degrees.Boundaries | mtg/geo/degrees.py:9-42 | 0 and 360 are N; 11.25 → N, 33.75 → NNE, 348.75 → NNW, while 11.26 → NNE and 348.76 → N |
| Config.LookupOption | mtg/config/config.py:50 | the raw `config[section][option]` before interpolation: a missing section gives None (KeyError), a present option (lower-cased) gives its text |
| Config.GetOption | mtg/config/config.py:50 | the value read: KeyError when the option is missing; a value without "%" comes back unchanged; every other failure is one of the three interpolation errors |
| Config.Vars | mtg/config/config.py:24 | a reference may name any option of the section, with the section's own value |
| Config.Reference | mtg/config/config.py:24 | a reference `%(name)s` has a non-empty name without ")" and splits the text exactly |
| Config.NoPercentKept | mtg/config/config.py:24 | interpolation leaves a text without "%" unchanged |
| Config.EscapeRoundTrip | mtg/config/config.py:24 | a text with every "%" doubled reads back as the text itself |
| Config.LonePercentRaises | mtg/config/config.py:24 | a "%" followed by neither "%" nor "(" raises InterpolationSyntaxError |
| Config.ReferenceExpanded | mtg/config/config.py:24 | `%(name)s` reads as the value of the option the lower-cased name names |
| Config.MapLinkTemplates | mtg/config/config.py:50 | a map link template "m/%s" cannot be read at all; it must be written "m/%%s" |
| Config.InterpolationFails | mtg/config/config.py:24 | interpolation fails only with one of the three interpolation errors |
| Config.EnforceType | mtg/config/config.py:27-36 | bool is `value.lower() == "true"`, str is the text itself, and only int and float conversions can raise ValueError |
| Config.BoolIgnoresCase | mtg/config/config.py:36 | the bool conversion gives the same answer for a text and its upper-case form |
| Config.IntRoundTrip | mtg/config/config.py:36 | converting the decimal text of an integer with `int` gives the integer back |
| Config.AttrStep | mtg/config/config.py:38-53 | no config → AttributeError; `elements` never grows past two; a value resets it to empty; a first access appends the name and returns the proxy; a failed read raises the read's error with both names kept |
| Config.Config.constructor | mtg/config/config.py:13-16 | a new object has no config and no pending names |
| Config.Config.Read | mtg/config/config.py:18-25 | `read` installs the parsed sections and leaves `elements` alone |
| Config.Config.GetAttr | mtg/config/config.py:38-53 | one attribute access returns and updates `elements` exactly as `AttrStep` says, leaving the config unchanged |
| Config.SectionThenKey | mtg/config/config.py:47-52 | `section.key` returns the proxy then the value read, leaving `elements` empty again, so consecutive lookups do not interfere |
| Config.MissingKeyWedges | mtg/config/config.py:49-52 | a value that cannot be read raises its error and leaves both names in `elements`, so every later access repeats the failing read |
| Memcache.MakeEntry | mtg/utils/memcache.py:58-61 | `set` stores the data with the absolute deadline now + expires when expires > 0, and the given non-positive value (never expires) otherwise |
| Memcache.Reaped | mtg/utils/memcache.py:82-88 | one reaper pass keeps exactly the entries that are not 0 < expires < now, each unchanged |
| Memcache.LookupData | mtg/utils/memcache.py:29-37 | `get` gives the stored data for a present key and None for an absent one |
| Memcache.Memcache.constructor | mtg/utils/memcache.py:18-21 | a new cache is empty |
| Memcache.Memcache.GetEx | mtg/utils/memcache.py:39-47 | `get_ex` returns the whole `{data, expires}` entry of a present key, or None |
| Memcache.Memcache.Get | mtg/utils/memcache.py:29-37 | `get` returns what `LookupData` gives, without looking at the deadline |
| Memcache.Memcache.Set | mtg/utils/memcache.py:49-61 | `set` overwrites the key's entry with `MakeEntry` and leaves every other key unchanged |
| Memcache.Memcache.Delete | mtg/utils/memcache.py:63-71 | `delete` removes a present key; deleting an absent key raises KeyError and changes nothing |
| Memcache.Memcache.ReapOnce | mtg/utils/memcache.py:80-88 | one sweep over the keys at time `now` leaves exactly `Reaped(old cache, now)` |
| Memcache.SetThenGet | mtg/utils/memcache.py:36-61 | what `set` stores is what `get` returns |
| Memcache.PermanentSurvives | mtg/utils/memcache.py:59-86 | an entry stored with a non-positive lifetime survives every reaper pass |
| Memcache.ExpiringEntry | mtg/utils/memcache.py:59-86 | an entry stored with a positive lifetime is removed by exactly the passes that run after its deadline |
| Memcache.ReapIdempotent | mtg/utils/memcache.py:82-88 | a second pass at the same time removes nothing more |
| Memcache.ReapShrinks | mtg/utils/memcache.py:82-88 | reaping never adds keys and always keeps entries that never expire |
| Memcache.ExpiredVisibleUntilReaped | mtg/utils/memcache.py:36-88 | `get` still returns an entry past its deadline, and after a pass past the deadline returns None |
| Filter.ConnectionType | mtg/filter/filter.py:15-68 | the connection type is "" for the base filter, "Telegram", "Meshtastic" and "Callsign" for the three subclasses, and each name belongs to one class only |
| Filter.Banned | mtg/filter/filter.py:22-30 | true only if a record for (connection type, identifier) exists and is active; false when no record exists |
| Filter.SingleRecordDecides | mtg/filter/filter.py:26-30 | with a single record for the pair, `banned` returns exactly its `active` flag |
| Filter.KindsIndependent | mtg/filter/filter.py:26 | the lookup key uses the filter's own connection type: a record for another type changes no answer |
| Filter.GetFilterAppend | mtg/database/sqlite.py:109-122 | `get_filter` is unaffected by records for other (connection, item) pairs |
| MqttHandler.PayloadText | mtg/connection/mqtt/handler.py:28-32 | the payload is its UTF-8 text when it decodes, and the printed bytes otherwise, never rejected |
| MqttHandler.MqttHandler.constructor | mtg/connection/mqtt/handler.py:14-18 | a new handler has the topic, no callback and no filter |
| MqttHandler.MqttHandler.SetNodeCallback | mtg/connection/mqtt/handler.py:42-49 | the callback is set and nothing else changes |
| MqttHandler.MqttHandler.SetFilter | mtg/connection/mqtt/handler.py:51-58 | the filter is set and nothing else changes |
| MqttHandler.MqttHandler.Handler | mtg/connection/mqtt/handler.py:20-40 | a topic not splitting on "!" into two pieces is ignored; a call carries "!" + the text after "!" and the payload, and happens exactly when a callback is set, the topic starts with `"<topic>/2/stat/"` and the filter (if any) does not ban the node |
| MqttHandler.StatusTopicReported | mtg/connection/mqtt/handler.py:33-35 | a status topic naming one node splits into two pieces and yields that node's "!"-id |
| Transport.LittleEndian | mtg/connection/mqtt/transport.py:38-39 | `struct.pack('<Q'/'<I', n)` gives exactly `width` bytes |
| Transport.LittleEndianRoundTrip | mtg/connection/mqtt/transport.py:38-39 | a number that fits is read back unchanged from its little-endian bytes |
| Transport.NonceBytes | mtg/connection/mqtt/transport.py:37-40 | the counter block is 16 bytes long |
| Transport.InitNonce | mtg/connection/mqtt/transport.py:32-40 | filling a zeroed 16-byte buffer gives `NonceBytes` exactly when both numbers fit their fields, and `struct.error` otherwise |
| Transport.NonceLayout | mtg/connection/mqtt/transport.py:37-40 | bytes 0–7 hold the packet id and bytes 8–11 the sender, both little-endian; bytes 12–15 are zero |
| Transport.NonceInjective | mtg/connection/mqtt/transport.py:37-40 | the counter block is determined by, and determines, its two inputs |
| Transport.SubscriptionTopic | mtg/connection/mqtt/transport.py:86-90 | the configured topic if it already ends in "#", otherwise the topic plus "/#"; the result always ends in "#" |
| Transport.SubscriptionTopicIdempotent | mtg/connection/mqtt/transport.py:86-90 | deriving the subscription topic twice changes nothing |
| Transport.HwNodeId | mtg/connection/mqtt/transport.py:92 | the node id has at most 8 characters and no colon |
| Transport.HardwareIds | mtg/connection/mqtt/transport.py:92-94 | hex id "!" + node id, integer id its hex value, long name "MTG " + hex id; a node id that is not hex raises ValueError |
| Transport.Destination | mtg/connection/mqtt/transport.py:204-209 | "-1" sends nothing; the broadcast address targets the broadcast number; otherwise the hex value of the destination, without its "!" when it has one; a non-hex destination raises ValueError |
| Transport.DestinationOfNodeId | mtg/connection/mqtt/transport.py:206-209 | "!" + eight hex digits of n targets node n |
| Transport.DestinationOfOwnId | mtg/connection/mqtt/transport.py:206-209 | sending to the gateway's own hex id targets its own integer id |
| Transport.SendData | mtg/connection/mqtt/transport.py:200-233 | "-1" sends nothing; a destination outside `uint32` raises ValueError at the assignment to `packet.to`, as do unparsable ones; the envelope has the derived destination, hop limit 2, our integer id as sender, our hex id as gateway, the channel, the payload, port, packet id and clock |
| Transport.OnMessage | mtg/connection/mqtt/transport.py:135-188 | "online"/"offline" and non-empty JSON are dropped; a delivered packet has a non-zero sender other than our id, a truthy (decrypted if needed) body, id default 0, rxTime default now, hopLimit default 3 and viaMqtt set |
| Transport.ForeignPacketDelivered | mtg/connection/mqtt/transport.py:140-179 | a plain packet from another node with a body and a recipient is always delivered |
| MeshConnection.Nodes | mtg/connection/meshtastic/meshtastic.py:175-182 | `nodes` is the interface's node table, or `{}` when that is None |
| MeshConnection.WithInfo | mtg/connection/meshtastic/meshtastic.py:184-191 | `nodes_with_info` has one info per node |
| MeshConnection.WithInfoInOrder | mtg/connection/meshtastic/meshtastic.py:184-191 | the i-th info is the i-th node's own, in table order |
| MeshConnection.KeepWhere | mtg/connection/meshtastic/meshtastic.py:200-217 | a filtering comprehension keeps exactly the elements passing the test and is never longer |
| MeshConnection.KeepWhereSubsequence | mtg/connection/meshtastic/meshtastic.py:200-217 | a filtering comprehension keeps the survivors in their original order |
| MeshConnection.KeepWhereTwice | mtg/connection/meshtastic/meshtastic.py:213-217 | filtering by position and then by user is filtering once by both |
| MeshConnection.ViewsNested | mtg/connection/meshtastic/meshtastic.py:184-217 | `nodes_with_user` ⊆ `nodes_with_position` ⊆ `nodes_with_info` as ordered subsequences, and `nodes_with_user` keeps exactly the infos with a truthy position and user |
| MeshConnection.SendText | mtg/connection/meshtastic/meshtastic.py:78-92 | a text shorter than `DATA_PAYLOAD_LEN // 2` is sent in one call; a longer one goes through `split_message` with that limit, so no call exceeds it |
| MeshConnection.CleanTable | mtg/connection/meshtastic/meshtastic.py:232-233 | the cleaned table holds no box-drawing character and no vertical rule |
| MeshConnection.BoldFirst | mtg/connection/meshtastic/meshtastic.py:246 | a data row's first column becomes `**column**` followed by a backtick |
| MeshConnection.FormattedColumns | mtg/connection/meshtastic/meshtastic.py:243-249 | every column of a line yields one entry |
| MeshConnection.FormattedTable | mtg/connection/meshtastic/meshtastic.py:228-263 | an empty or missing table gives "No other nodes"; the only failure is IndexError from a row with fewer than four fields |
| MeshConnection.FormatLine | mtg/connection/meshtastic/meshtastic.py:240-251 | the column loop builds the row `FormatRow` describes |
| MeshConnection.BuildRows | mtg/connection/meshtastic/meshtastic.py:234-253 | the line loop skips empty lines and formats only the first kept line as the header |
| MeshConnection.FilterRows | mtg/connection/meshtastic/meshtastic.py:254-262 | the filter loop succeeds exactly when every row has a fourth field; its result is never used |
| MeshConnection.DataRowShape | mtg/connection/meshtastic/meshtastic.py:243-251 | every data row starts with its bold first column and ends in a backtick |
| MeshConnection.ClosedRow | mtg/connection/meshtastic/meshtastic.py:250-251 | the trailing `rstrip(', ')` never eats into a first entry ending in a backtick |
| MeshConnection.OneRowPerLine | mtg/connection/meshtastic/meshtastic.py:236-253 | `new_nodes` has one row per line that is not empty after cleaning, so every row is returned unfiltered |
| MeshConnection.LineCommands | mtg/connection/meshtastic/meshtastic.py:294-300 | a line starting "reboot" asks for a reboot and one starting "reset_db" for a DB reset, after removing trailing newlines |
| MeshConnection.RebootPerLine | mtg/connection/meshtastic/meshtastic.py:293-297 | the device is rebooted once for every line starting "reboot" |
| MeshConnection.MeshtasticConnection.constructor | mtg/connection/meshtastic/meshtastic.py:39-50 | a new connection has no interface table, no MQTT statuses and `exit` false |
| MeshConnection.MeshtasticConnection.OnMqttNode | mtg/connection/meshtastic/meshtastic.py:137-146 | `mqtt_nodes[n] = p`, every other entry unchanged; a new key goes to the end of the key order |
| MeshConnection.MeshtasticConnection.NodesMqtt | mtg/connection/meshtastic/meshtastic.py:148-155 | exactly the keys of `mqtt_nodes`, each once, in insertion order |
| MeshConnection.MeshtasticConnection.NodeHasMqtt | mtg/connection/meshtastic/meshtastic.py:157-164 | true iff the key is present |
| MeshConnection.MeshtasticConnection.NodeMqttStatus | mtg/connection/meshtastic/meshtastic.py:166-173 | the stored status, or "N/A" |
| MeshConnection.MeshtasticConnection.FormatNodes | mtg/connection/meshtastic/meshtastic.py:220-263 | `format_nodes` returns `FormattedTable` of the printed table |
| MeshConnection.MeshtasticConnection.RunCmdLoop | mtg/connection/meshtastic/meshtastic.py:281-300 | one pass over the FIFO lines asks for the commands `AllCommands` lists, in order |
| MeshConnection.MeshtasticConnection.Shutdown | mtg/connection/meshtastic/meshtastic.py:302-306 | `shutdown` sets `exit` and changes nothing else |
| RichConnection.Candidate | mtg/connection/rich/richconnection.py:35-38 | a random candidate center + r/10000 with r in [0, 1000) lies in [center, center + 0.1) |
| RichConnection.OrElse | mtg/connection/rich/richconnection.py:45-46 | `x or fallback`: a non-zero coordinate is kept, a zero one is replaced |
| RichConnection.Lookup | mtg/connection/rich/richconnection.py:41 | the database lookup of the last coordinates; a node without a user id always fails |
| RichConnection.StoredCoordinatesKept | mtg/connection/rich/richconnection.py:40-47 | non-zero coordinates from the DB are returned unchanged and nothing is written |
| RichConnection.ZeroCoordinatesReplaced | mtg/connection/rich/richconnection.py:45-47 | zero coordinates from the DB are replaced by the random candidates, without a write |
| RichConnection.FallbackStored | mtg/connection/rich/richconnection.py:42-47 | when the lookup raises, the candidates are returned and stored with `set_coordinates`, which writes only for a known node |
| RichConnection.FallbackRemembered | mtg/connection/rich/richconnection.py:42-47 | after the fallback stored non-zero candidates, the next call returns them without drawing again or writing |
| RichConnection.IntegerDigits | mtg/connection/rich/richconnection.py:65-66 | `str(x).replace('.', '')[:9]` has at most 9 characters and no dot |
| RichConnection.Synthesized | mtg/connection/rich/richconnection.py:67-69 | a synthesised position holds the coordinates and altitude 100 |
| RichConnection.Located | mtg/connection/rich/richconnection.py:59-69 | a node with coordinates keeps its position and draws nothing; one without gets a synthesised position with altitude 100 after two draws; the location table only grows |
| RichConnection.Enrich | mtg/connection/rich/richconnection.py:59-77 | enriching a node leaves the state `Located` gives |
| RichConnection.EnrichOne | mtg/connection/rich/richconnection.py:59-77 | the enriched node keeps its other fields, has coordinates (its own when it had them), altitude 100 when synthesised, and `admin1` from the first reverse-geocode result only when there is one |
| RichConnection.Pass | mtg/connection/rich/richconnection.py:58-78 | `nodes_with_position` returns one entry per node in `nodes_with_info` |
| RichConnection.PassEnriches | mtg/connection/rich/richconnection.py:58-78 | the i-th returned node is the i-th input node enriched, and the location table only grows |
| RichConnection.PassStep | mtg/connection/rich/richconnection.py:59-77 | the pass handles the nodes one at a time, in order, threading the state |
| RichConnection.RichConnection.constructor | mtg/connection/rich/richconnection.py:19-26 | the connection keeps the database, the map centre and the interface's node table |
| RichConnection.StoreLastPosition | mtg/connection/rich/richconnection.py:28-47 | `get_set_last_position` on a database: returns and writes exactly what `LastPosition` says for the two candidates, touching no other table |
| RichConnection.RichConnection.GetSetLastPosition | mtg/connection/rich/richconnection.py:28-47 | returns and writes exactly what `LastPosition` says for the two candidates, touching no other table |
| RichConnection.RichConnection.EnrichNode | mtg/connection/rich/richconnection.py:59-77 | one loop iteration does what `Enrich` says to the node and the location table |
| RichConnection.RichConnection.EnrichAll | mtg/connection/rich/richconnection.py:59-77 | the loop over the node infos returns `Pass` of them and leaves the location table as `Pass` does, touching nothing else in the database |
| RichConnection.RichConnection.NodesWithPosition | mtg/connection/rich/richconnection.py:49-78 | returns `Pass` over `nodes_with_info` and leaves each entry of the interface's table under its key with its enriched info |
| Aprs.TextPacket | mtg/connection/aprs/aprs.py:96 | `"<callsign>>APDR15,WIDE1-1,WIDE2-2::<addressee>"`, padded to 9, then `":<message>"` |
| Aprs.TextPacketRoundTrip | mtg/connection/aprs/aprs.py:96 | an addressee of at most 9 characters without trailing space and the message are read back from the packet |
| Aprs.Frac | mtg/connection/aprs/aprs.py:143-148 | `get_imag` is `x − trunc(x)`: in [0, 1) for non-negative x and in (−1, 0] for negative x |
| Aprs.Dec2Sexagesimal | mtg/connection/aprs/aprs.py:150-156 | the degrees are `int(value)`, truncated toward zero |
| Aprs.SexagesimalOfZero | mtg/connection/aprs/aprs.py:150-156 | 0 gives (0, 0, 0) |
| Aprs.SexagesimalBounds | mtg/connection/aprs/aprs.py:150-156 | minutes and seconds are in [0, 60), or (−60, 0] for a negative value, and the triple falls short of the value by less than one second of arc |
| Aprs.SecondsField | mtg/connection/aprs/aprs.py:187-193 | the seconds field is at least two characters |
| Aprs.SecondsFieldAmbiguous | mtg/connection/aprs/aprs.py:187-193 | left-justified zero filling makes 5 seconds and 50 seconds print the same "50" |
| Aprs.LatitudeField | mtg/connection/aprs/aprs.py:186-189 | the latitude field ends in S for a negative latitude and N otherwise |
| Aprs.LongitudeField | mtg/connection/aprs/aprs.py:190-195 | the longitude field is at least 9 characters and ends in W for a negative longitude and E otherwise |
| Aprs.AltitudeField | mtg/connection/aprs/aprs.py:200 | `{altitude:06d}` is at least six characters |
| Aprs.AltitudeRoundTrip | mtg/connection/aprs/aprs.py:167-200 | the zero-padded altitude field reads back as the altitude in feet |
| Aprs.PositiveAltitude | mtg/connection/aprs/aprs.py:167-200 | a non-negative altitude, zero-padded to six digits, reads back as itself |
| Aprs.NegativeAltitude | mtg/connection/aprs/aprs.py:200 | a negative altitude keeps its sign inside the six characters and reads back |
| Aprs.HundredMetres | mtg/connection/aprs/aprs.py:167-200 | 100 m is `int(328.084)` = 328 feet, printed as "000328" |
| Aprs.CallsignExamples | mtg/connection/aprs/aprs.py:177-178 | `<prefix>[0-9][A-Z]{2,3}(-[0-9]{1,2})?$` matches K1ABC and K1ABC-12 (case-insensitively on the prefix) and rejects K1ABCDE and K1A |
| Aprs.LocationPacket | mtg/connection/aprs/aprs.py:196-200 | the report is `"<name>>APRS,TCPIP*:@<timestamp>/"`, the latitude field, "/", the longitude field, "-/A=", the six-character altitude and " Forwarded for <room link>" |
| Aprs.LocationReport | mtg/connection/aprs/aprs.py:158-201 | no fromId sends nothing; an unknown node raises; a report is sent exactly for a node on record whose non-empty cleaned name matches a ham callsign of some loaded prefix, and it carries the packet's latitude, longitude (0 when missing) and altitude in feet |
| Aprs.SendText | mtg/connection/aprs/aprs.py:81-97 | one message packet when FromMeshtastic is set, nothing otherwise |
| Aprs.Process | mtg/connection/aprs/aprs.py:99-131 | the packet is ignored when ToMeshtastic is off, the format is not "message", the text is empty or the addressee is not our callsign; a missing sender raises TypeError |
| Aprs.AckedEvenIfDuplicate | mtg/connection/aprs/aprs.py:115-119 | a non-empty msgNo is acknowledged first with "ack<msgNo>", duplicate or not |
| Aprs.NewMessageForwarded | mtg/connection/aprs/aprs.py:118-130 | a message not in the cache is cached under from+text for 300 s and forwarded as "APRS-<from>: <msg>" to Telegram and then to the mesh |
| Aprs.DuplicateNotForwarded | mtg/connection/aprs/aprs.py:118-119 | a message already in the cache changes nothing and only acknowledgements go out |
| Aprs.RepeatForwardedOnce | mtg/connection/aprs/aprs.py:118-124 | the same packet processed again is not forwarded a second time |
| Aprs.PingAnswered | mtg/connection/aprs/aprs.py:121-122 | "ping" or "test", in any case, gets the reply "passed" |
| Aprs.APRSStreamer.constructor | mtg/connection/aprs/aprs.py:27-40 | a new streamer has an empty memcache, no prefixes and `exit` false |
| Aprs.APRSStreamer.SendPacket | mtg/connection/aprs/aprs.py:81-90 | the packet is sent when FromMeshtastic is set, and nothing is sent otherwise |
| Aprs.APRSStreamer.ProcessPacket | mtg/connection/aprs/aprs.py:99-131 | `process` does what `Process` says to the actions and the memcache |
| Aprs.APRSStreamer.SendLocation | mtg/connection/aprs/aprs.py:158-201 | the prefix loop with its `found` flag gives `LocationReport` |
| Aprs.APRSStreamer.LoadPrefixes | mtg/connection/aprs/aprs.py:210-215 | the prefixes of the callsign's country are loaded when every table is non-empty and the country is known; otherwise an exception and the prefixes unchanged |
| Aprs.APRSStreamer.Shutdown | mtg/connection/aprs/aprs.py:237-242 | `shutdown` sets `exit` |
| Prefixes.IndexOfName | mtg/utils/rf/prefixes/__init__.py:28 | the position of the dictionary entry with the given name, or none when no entry has it |
| Prefixes.Put | mtg/utils/rf/prefixes/__init__.py:28 | `prefixes[name] = value` replaces an existing entry in place and appends a new one at the end |
| Prefixes.GetPrefixes | mtg/utils/rf/prefixes/__init__.py:19-29 | the dictionary of all classes when every class has prefixes; otherwise RuntimeError naming the first class without any |
| Prefixes.DistinctTable | mtg/utils/rf/prefixes/__init__.py:23-29 | with distinct class names the dictionary lists the classes in their order |
| Prefixes.FirstMatchWins | mtg/utils/rf/prefixes/__init__.py:31-55 | None exactly when no country has a prefix of the upper-cased call sign; otherwise the first such country in table order, and its full prefix list |
| Prefixes.LookupsAgree | mtg/utils/rf/prefixes/__init__.py:31-55 | the two lookups are None together |
| Prefixes.CaseInsensitive | mtg/utils/rf/prefixes/__init__.py:40-53 | the call sign's case never changes either answer |
| Prefixes.SharedPrefixGoesToFirst | mtg/utils/rf/prefixes/__init__.py:38-41 | 'SM', listed for both Sweden and Poland, goes to whichever comes first |
| Prefixes.GetCountryByCallsign | mtg/utils/rf/prefixes/__init__.py:31-42 | fails exactly when some class has no prefixes; otherwise the first matching country, or None |
| Prefixes.GetPrefixesByCallsign | mtg/utils/rf/prefixes/__init__.py:44-55 | fails exactly when some class has no prefixes; otherwise the matching country's full prefix list, or None |
| Database.FindNode | mtg/database/sqlite.py:131 | the first record with the primary key, or none when no record has it |
| Database.FindNodeByName | mtg/database/sqlite.py:269 | the first record with the node name, or none when no record has it |
| Database.GetFilter | mtg/database/sqlite.py:108-121 | the first filter record for (connection, identifier), or none when there is no such record |
| Database.Refreshed | mtg/database/sqlite.py:150-155 | a known node's `lastHeard` becomes the new value, and its name becomes the new name, else the old name, else the node id |
| Database.NodeRecordStep | mtg/database/sqlite.py:123-155 | (False, None) and no change without a connection; a known node is refreshed in place and returned with True; an unknown node gets a record, with the heard name, last-heard time and model, exactly when name and model are non-empty; any record returned is on record afterwards |
| Database.KnownNodeUpdatedInPlace | mtg/database/sqlite.py:150-155 | a known node's record is updated in place: the table keeps its length and ids |
| Database.NodeRecordKeepsIdsUnique | mtg/database/sqlite.py:138-155 | creating or refreshing a record never gives two records the same id |
| Database.Stats | mtg/database/sqlite.py:157-167 | `"Locations: <n>. Messages: <m>"` with n and m the numbers of the node's locations and messages; an unknown node dereferences None |
| Database.MessagesOf | mtg/database/sqlite.py:166-167 | the node's messages are exactly the messages stored for it |
| Database.CountsAreOwnRecords | mtg/database/sqlite.py:166-167 | the counts are the sizes of the node's own location and message lists |
| Database.StatsRoundTrip | mtg/database/sqlite.py:157-167 | both numbers read back out of the report |
| Database.FirstNormalized | mtg/database/sqlite.py:169-181 | the first record whose name, cleaned to [A-Za-z0-9-], is non-empty and equals the query; None if nothing matches |
| Database.NodeInfoRecord | mtg/database/sqlite.py:227-235 | the record of a known node, and "node X not found" for an unknown one |
| Database.LocationsOf | mtg/database/sqlite.py:248 | exactly the locations of the node |
| Database.LastCoordinates | mtg/database/sqlite.py:237-253 | "node X not found" for an unknown node and "node X has no stored locations" when it has none |
| Database.LastCoordinatesAreNewest | mtg/database/sqlite.py:248-253 | the coordinates returned are those of a location of the node with the latest datetime |
| Database.TrackNode | mtg/database/sqlite.py:266-269 | a name starting "!" is looked up by node id, any other by node name |
| Database.InWindow | mtg/database/sqlite.py:273-277 | exactly the locations with datetime ≥ the cutoff |
| Database.Track | mtg/database/sqlite.py:279-281 | one `{lat, lng}` per selected location, in the same order |
| Database.TrackIsWindowNewestFirst | mtg/database/sqlite.py:255-282 | [] for an unknown node; else exactly the node's locations with datetime ≥ now − tail, each as often as stored, newest first |
| Database.PacketLocation | mtg/database/sqlite.py:215-225 | the location is stamped now for the node; each of altitude, batteryLevel, latitude and longitude is the packet's value, or 0, 100, 0 and 0 when missing; rxSnr is the packet's, or 0 |
| Database.MeshtasticDB.constructor | mtg/database/sqlite.py:93-97 | a new database has empty tables and no connection |
| Database.MeshtasticDB.SetMeshtastic | mtg/database/sqlite.py:99-106 | the connection is set and no table changes |
| Database.MeshtasticDB.GetNodeRecord | mtg/database/sqlite.py:123-155 | the answer and the node table are what `NodeRecordStep` says, other tables unchanged |
| Database.MeshtasticDB.GetNormalizedNode | mtg/database/sqlite.py:169-181 | the search loop returns `FirstNormalized` |
| Database.MeshtasticDB.StoreMessage | mtg/database/sqlite.py:183-200 | `get_node_record` runs for the sender and one message with the packet's text is appended, linked to the record it returned |
| Database.MeshtasticDB.StoreLocation | mtg/database/sqlite.py:202-225 | a no-op without fromId; otherwise `get_node_record` runs and one `PacketLocation` is appended |
| Database.MeshtasticDB.SetCoordinates | mtg/database/sqlite.py:284-308 | a no-op for an unknown node; otherwise one location with altitude 0, batteryLevel 100 and rxSnr 0 is added |
| Database.SetThenLastCoordinates | mtg/database/sqlite.py:237-308 | after `set_coordinates` with the newest time, `get_last_coordinates` returns the coordinates just set |
| Database.NewestAppendedIsLast | mtg/database/sqlite.py:238-253 | a location appended for a known node, newer than all its earlier locations, is the one whose coordinates `get_last_coordinates` returns |
| MeshBot.StoredPositionIsLast | mtg/database/sqlite.py:203-253 | after `store_location` of a position packet from a node on record (newest time), `get_last_coordinates` returns that packet's latitude and longitude |
| WebApp.GetTail | mtg/webapp/webapp.py:38-55 | the tail is the first `tail` query value when it parses as an integer, else the configured default; the name is the first `name` value, else "" |
| WebApp.TailRoundTrip | mtg/webapp/webapp.py:47-55 | a tail written as an integer in the query is read back as that integer, and the name as given, whatever the default |
| WebApp.TrackView | mtg/webapp/webapp.py:138-145 | an empty name gives an empty track; otherwise the track is the database's track of that node within the tail |
| WebApp.FormatHw | mtg/webapp/webapp.py:160-174 | any model other than TBEAM, TLORA, T_ECHO and DIY is shown unchanged |
| WebApp.FormatHwKnown | mtg/webapp/webapp.py:160-174 | a model is shown unchanged exactly when it is not one of the four known boards (each of those becomes a link) |
| WebApp.MarkerColor | mtg/webapp/webapp.py:185-224 | green exactly when the node's MQTT status is "online", blue exactly when it has another status, red exactly when it has no id or no status |
| WebApp.Coordinates | mtg/webapp/webapp.py:191-198 | the node's own coordinates when both are set; otherwise the database's latest location, and none exactly when that lookup fails |
| WebApp.NodeRow | mtg/webapp/webapp.py:187-234 | a node gives a row exactly when it has coordinates, was heard within the tail and matches the name filter (if any); the row carries its long name, its marker colour, its MQTT status and its SNR, 10.0 when missing |
| WebApp.RowsOfKeptNodes | mtg/webapp/webapp.py:187-235 | the view has at most one row per node, and a row is in it exactly when some node gives that row |
| WebApp.NameFilter | mtg/webapp/webapp.py:213-214 | with a name given, every row belongs to a node of that long name |
| WebApp.DataView | mtg/webapp/webapp.py:176-235 | the loop over the nodes collects exactly the rows of the kept nodes, in node order |
| WebApp.Capitalize | mtg/webapp/webapp.py:278 | capitalising keeps the length of the status |
| WebApp.AlertText | mtg/webapp/webapp.py:275-283 | a missing status raises AttributeError, then a missing creation time TypeError, then an unparsable one ValueError; otherwise the text starts with "Alert: ", the alarm type and the region name and ends with " since " and the local time |
| WebApp.AirRaid | mtg/webapp/webapp.py:268-296 | the request fails exactly when the text cannot be built, with the text's error; an alert is dispatched exactly when the text is built, alerts are enabled and the text is not cached; a dispatch carries the text and region and caches the text for 60 seconds; otherwise the cache is unchanged |
| WebApp.DisabledSilent | mtg/webapp/webapp.py:284-285 | with alerts disabled nothing is sent and the cache is unchanged |
| WebApp.RepeatedAlertSilent | mtg/webapp/webapp.py:286-289 | the same alert received again sends nothing and leaves the cache as the first one left it |
| WebApp.TelegramOnlyForKyiv | mtg/webapp/webapp.py:290-294 | a dispatched alert goes to the Telegram room exactly when the region id is 14 or 31, with the same text |
| WebApp.TranslationExamples | mtg/webapp/webapp.py:255-266 | "Kiev" and "Kyiv City" translate to the names of regions 14 and 31, and "Lviv" is region 27's name unchanged |
| WebApp.RenderAirRaidView.constructor | mtg/webapp/webapp.py:244-266 | the view keeps the enabled switch and the shared cache |
| WebApp.RenderAirRaidView.DispatchRequest | mtg/webapp/webapp.py:268-296 | the request's result and the new cache are those of `AirRaid` on the old cache |
| WebApp.RenderAirRaidView.SlowAlert | mtg/webapp/webapp.py:298-317 | the loop sends the alert to exactly the nodes `AlertTargets` names, in node order |
| WebApp.TargetsMatchPlace | mtg/webapp/webapp.py:304-317 | a node id receives the alert exactly when some node with that id has a non-empty region whose translation is the alerted place |
| MeshBot.SenderId | mtg/bot/meshtastic/meshtastic.py:366-371 | the packet's own "fromId" when present; otherwise "!" and the sender number in hex, padded to eight digits; no sender at all raises TypeError |
| MeshBot.SenderIdRoundTrip | mtg/bot/meshtastic/meshtastic.py:332-371 | the id built from a sender number reads back as that number, with or without its "!", and is nine characters long for a 32-bit number |
| MeshBot.CommandOf | mtg/bot/meshtastic/meshtastic.py:198-227 | each command is chosen exactly when its prefix matches, and no earlier prefix did; /reboot and /reset_db only for the admin; anything else is unknown |
| MeshBot.WeatherDb | mtg/bot/meshtastic/meshtastic.py:250-255 | the tables after /w: the node table of the record lookup, and for a node on record the locations `get_set_last_position` leaves |
| MeshBot.CommandOutcome | mtg/bot/meshtastic/meshtastic.py:198-227 | every command replies only to its sender or asks the radio, leaves the cache alone, only /ping touches the ping table, an unknown command replies "unknown command", /w leaves the tables `WeatherDb` gives (the lookup, then the location `get_set_last_position` stores) and /distance, /ping, /reboot, /reset_db and unknown commands leave them alone |
| MeshBot.Perform | mtg/bot/meshtastic/meshtastic.py:209-227 | whichever command was recognised, its effects only reply to the sender or ask the radio, the cache is untouched, only /ping touches the ping table, an unrecognised one replies "unknown command", /w leaves the tables `WeatherDb` gives and the other commands except /stats leave them alone |
| MeshBot.WeatherOutcome | mtg/bot/meshtastic/meshtastic.py:245-266 | a node not on record is told so; otherwise its last position is fetched (storing the random fallback when there is none) and it gets "disabled" without a key, else the weather at that position or "could not get weather" |
| MeshBot.Candidates | mtg/connection/rich/richconnection.py:35-38 | each fallback coordinate lies within 0.1 degrees above the map centre |
| MeshBot.WeatherAtStoredPosition | mtg/bot/meshtastic/meshtastic.py:255-266 | a node with stored non-zero coordinates gets the weather there, and nothing is written |
| MeshBot.WeatherFallbackRemembered | mtg/bot/meshtastic/meshtastic.py:255-266 | a node without coordinates gets the weather at the stored fallback, and a later /w asks at the same place |
| MeshBot.SameRecordSameCoordinates | mtg/database/sqlite.py:245-251 | the last coordinates depend on the node table only through the node being on record |
| MeshBot.StatsOutcome | mtg/bot/meshtastic/meshtastic.py:186-196 | `/stats` replies only to the sender, changes no table, and raises exactly when the report raises |
| MeshBot.Lines | mtg/bot/meshtastic/meshtastic.py:161-165 | one reply line per listed neighbour |
| MeshBot.DistanceReplies | mtg/bot/meshtastic/meshtastic.py:119-165 | all replies go to the sender, and there are between one and ten of them or none |
| MeshBot.NearestAreClosest | mtg/bot/meshtastic/meshtastic.py:161 | at most ten neighbours are listed, sorted by distance, drawn from the candidates, and every candidate left out is at least as far as every one listed |
| MeshBot.NeighboursExcludeSender | mtg/bot/meshtastic/meshtastic.py:141-159 | every candidate comes from a node with a position, both coordinates and a user whose id is not the sender's |
| MeshBot.MapLinkAsWritten | mtg/bot/meshtastic/meshtastic.py:330-346 | as written: a link without "%d" is never substituted and gets "?name=" (or "&name=") appended, even when it holds "%s" |
| MeshBot.MapLink | mtg/bot/meshtastic/meshtastic.py:330-346 | a link holding "%d" or "%s" gets the node number and id substituted and follows the long name; a link without "%s" behaves as written |
| MeshBot.MapLinkPercentS | mtg/bot/meshtastic/meshtastic.py:333 | the link "m/%s" is not substituted as written, and gives "Al m/!1" when corrected |
| MeshBot.NewNodeNotice | mtg/bot/meshtastic/meshtastic.py:311-353 | the record lookup's change is kept; a known or unlisted node gives nothing; a listed node without user raises; otherwise the name or its error, and then the welcome text (when enabled) and "New node: <id> -> <name>" |
| MeshBot.MapLinkNodeNumber | mtg/bot/meshtastic/meshtastic.py:332-336 | the number substituted into the link is the packet's sender number |
| MeshBot.NoticeOnce | mtg/bot/meshtastic/meshtastic.py:311-322 | once a lookup leaves a record for the node, the next notice sends nothing |
| MeshBot.RemovePrefix | mtg/bot/meshtastic/meshtastic.py:465 | a prefix the string has is removed exactly once, and a string without it is unchanged |
| MeshBot.AprsFirstToken | mtg/bot/meshtastic/meshtastic.py:465-466 | the first word of "APRS-<call>: <text>" is "APRS-<call>:" |
| MeshBot.AddresseeRoundTrip | mtg/bot/meshtastic/meshtastic.py:464-467 | "APRS-<call>: <text>" is addressed to `<call>` |
| MeshBot.StrippedCall | mtg/bot/meshtastic/meshtastic.py:465 | as written, every leading A, P, R, S or "-" of the call sign is stripped with the prefix |
| MeshBot.AddresseeLStrip | mtg/bot/meshtastic/meshtastic.py:465 | a call sign starting with one of those letters is addressed wrongly as written and rightly when corrected |
| MeshBot.AddresseeAgrees | mtg/bot/meshtastic/meshtastic.py:465 | a call sign not starting with A, P, R, S or "-" is read the same as written and corrected |
| MeshBot.SenderName | mtg/bot/meshtastic/meshtastic.py:421-431 | the long name of a node in the interface's table, without touching the database, or AttributeError when its user is missing; a node missing there gets the refreshed record's name when the database knows it, otherwise its id, and the node table becomes the lookup's |
| MeshBot.Forwarded | mtg/bot/meshtastic/meshtastic.py:455-471 | a cached "<name>:<text>" sends nothing and changes nothing; otherwise it is cached for 300 seconds; a plain text sends "<name>: <text>" to the room; an APRS text is first relayed to its addressee as written when APRS is set, and raises when it is not |
| MeshBot.BannedIgnored | mtg/bot/meshtastic/meshtastic.py:372-375 | a banned sender gets nothing and changes nothing |
| MeshBot.HopLimitIgnored | mtg/bot/meshtastic/meshtastic.py:380-384 | past the hop limit only the new-node notice can be sent, and neither cache nor ping table changes |
| MeshBot.NonTextPorts | mtg/bot/meshtastic/meshtastic.py:386-401 | a position is logged when the node log is on, relayed when APRS is set and stored with the current time; a reply gives a pong; any other port does nothing |
| MeshBot.CommandNeverForwards | mtg/bot/meshtastic/meshtastic.py:407-435 | a command never ends in a Telegram message |
| MeshBot.BroadcastForwarded | mtg/bot/meshtastic/meshtastic.py:420-471 | for a sender in the interface's node table with a user entry, a broadcast text reaches the room exactly when it is no command, range test, telemetry or echo of the bot, the sender has a long name, the text is not cached, and an APRS text has APRS set |
| MeshBot.BroadcastForwardedText | mtg/bot/meshtastic/meshtastic.py:453-471 | what reaches the room is "<stripped long name>: <text>" |
| MeshBot.RepeatDropped | mtg/bot/meshtastic/meshtastic.py:455-460 | the same broadcast repeated at the same moment sends nothing the second time |
| MeshBot.MeshtasticBot.constructor | mtg/bot/meshtastic/meshtastic.py:37-55 | a new bot has its database and configuration, an empty cache of its own, no APRS and no pings |
| MeshBot.MeshtasticBot.SetAprs | mtg/bot/meshtastic/meshtastic.py:57-61 | APRS is set and nothing else changes |
| MeshBot.MeshtasticBot.ProcessDistance | mtg/bot/meshtastic/meshtastic.py:119-165 | the loop over the node table sends exactly `DistanceReplies` |
| MeshBot.MeshtasticBot.ProcessCommand | mtg/bot/meshtastic/meshtastic.py:198-266 | the effects, database, cache and ping table are those of `CommandOutcome` on the old state, including the location /w stores |
| MeshBot.MeshtasticBot.NotifyOnNewNode | mtg/bot/meshtastic/meshtastic.py:311-353 | the effects and database are those of `NewNodeNotice` on the old state |
| MeshBot.MeshtasticBot.LookupSenderName | mtg/bot/meshtastic/meshtastic.py:421-431 | the name and database are those of `SenderName` on the old state |
| MeshBot.MeshtasticBot.Forward | mtg/bot/meshtastic/meshtastic.py:455-471 | the effects and cache are those of `Forwarded` on the old cache |
| MeshBot.MeshtasticBot.OnBroadcast | mtg/bot/meshtastic/meshtastic.py:414-471 | the effects and new state are those of `Broadcasted` after the message is stored |
| MeshBot.MeshtasticBot.Route | mtg/bot/meshtastic/meshtastic.py:380-471 | the effects and new state are those of `Routed` on the old state |
| MeshBot.MeshtasticBot.OnReceive | mtg/bot/meshtastic/meshtastic.py:355-471 | the effects and new state are those of `Receive` on the old state |
| TelegramBot.Guarded | mtg/bot/telegram/telegram.py:34-61 | a guarded handler either runs unchanged, when the room check passes, or does nothing |
| TelegramBot.GuardSkips | mtg/bot/telegram/telegram.py:49-59 | a banned user, or a command in the bot's own rooms while the bot is not allowed there, gets nothing |
| TelegramBot.ShortenP | mtg/bot/telegram/telegram.py:134-144 | the "pls" and "tly" services shorten through their own client; any other service leaves the URL as it is |
| TelegramBot.NoUrlsUnchanged | mtg/bot/telegram/telegram.py:146-157 | a text of single-spaced words none of which is a URL comes back unchanged |
| TelegramBot.ShortenedWords | mtg/bot/telegram/telegram.py:146-157 | every word of the result is non-empty and comes from one word of the input, shortened when that word is a URL |
| TelegramBot.NoServiceKeepsUrls | mtg/bot/telegram/telegram.py:139-157 | with no shortening service, a single-spaced text comes back unchanged, URLs included |
| TelegramBot.FullUser | mtg/bot/telegram/telegram.py:186-188 | the first name, followed by a space and the last name when there is one |
| TelegramBot.Largest | mtg/bot/telegram/telegram.py:198 | the photo chosen is one of the photos, no smaller than any other, and the first of the largest |
| TelegramBot.LargestAmong | mtg/bot/telegram/telegram.py:198 | among the first n photos, the index found has the largest size and every earlier photo is strictly smaller |
| TelegramBot.Delivered | mtg/bot/telegram/telegram.py:207-218 | an empty body sends nothing; the last effect is "<user>: <body>" to the mesh, preceded by an APRS relay to the addressee as written for an APRS text; an APRS text without APRS fails |
| TelegramBot.Echoed | mtg/bot/telegram/telegram.py:159-218 | only the main room is echoed and banned users never are; at most two effects, the last being the user's full name and the body sent to the mesh |
| TelegramBot.EchoForwards | mtg/bot/telegram/telegram.py:159-218 | a message reaches the mesh exactly when it is in the room from a user not banned, in the General topic and not a reply inside another topic, with a non-empty body (and APRS set for an APRS text); the APRS relay goes to the addressee as written |
| TelegramBot.EchoPlainText | mtg/bot/telegram/telegram.py:181-218 | a plain text message is sent to the mesh as "<full name>: <text with URLs shortened>" |
| TelegramBot.BgRoute | mtg/bot/telegram/telegram.py:427-439 | an empty destination does nothing; any other gets one traceroute request with the hop limit |
| TelegramBot.AdminOnly | mtg/bot/telegram/telegram.py:280-282 | an admin-only command acts exactly in the admin chat and when the room check passes |
| TelegramBot.RebootCommand | mtg/bot/telegram/telegram.py:271-284 | /reboot asks the radio to reboot exactly in the admin chat when the room check passes |
| TelegramBot.ResetDbCommand | mtg/bot/telegram/telegram.py:286-299 | /reset_db asks the radio to reset its node database exactly in the admin chat when the room check passes |
| TelegramBot.TraceDest | mtg/bot/telegram/telegram.py:316 | the destination is the text after the first space, empty when there is none, and never longer than the text |
| TelegramBot.TraceDestOf | mtg/bot/telegram/telegram.py:316 | "<command> <argument>" gives the argument |
| TelegramBot.TraceDestNodeId | mtg/bot/telegram/telegram.py:316 | a destination such as "!a1b2c3d4" comes out unchanged both as written and when corrected |
| TelegramBot.TraceDestStripsLetters | mtg/bot/telegram/telegram.py:316 | a destination starting with letters of "/traceroute " loses them as written, and is kept whole when corrected |
| TelegramBot.TracerouteCommand | mtg/bot/telegram/telegram.py:301-318 | in the admin chat, when the room check passes, the bot says "Sending traceroute... See bot logs" and traces the destination as written; otherwise nothing |
| TelegramBot.RoutesCommand | mtg/bot/telegram/telegram.py:320-336 | /routes acts only in the admin chat when the room check passes, and there traces exactly `RouteTraces` |
| TelegramBot.RoutesTraceIdentified | mtg/bot/telegram/telegram.py:333-336 | a traceroute goes exactly to each node with a non-empty user id, with the hop limit |
| TelegramBot.StartCommand | mtg/bot/telegram/telegram.py:258-269 | /start answers "I'm a bot, please talk to me!" exactly when the room check passes |
| TelegramBot.ChannelCommand | mtg/bot/telegram/telegram.py:356-367 | the channel URL is sent exactly when the room check passes |
| TelegramBot.MapCommand | mtg/bot/telegram/telegram.py:389-402 | the configured map link when enabled, else "Map link not enabled", exactly when the room check passes |
| TelegramBot.UptimeCommand | mtg/bot/telegram/telegram.py:369-387 | one message starting "Bot v<version>/FW: v" exactly when the room check passes |
| TelegramBot.NodesCommand | mtg/bot/telegram/telegram.py:404-425 | nothing outside the allowed rooms; a node list shorter than 4096 characters is sent whole; a longer one is sent as the split parts, one MarkdownV2 message each, in order |
| TelegramBot.NodesWithinLimit | mtg/bot/telegram/telegram.py:416-425 | no message sent for /nodes is longer than 4096 characters |
| TelegramBot.TelegramBot.constructor | mtg/bot/telegram/telegram.py:69-108 | a new bot has its configuration and ban list, and no APRS |
| TelegramBot.TelegramBot.SetAprs | mtg/bot/telegram/telegram.py:110-114 | APRS is set and the ban list is unchanged |
| TelegramBot.TelegramBot.SetFilter | mtg/bot/telegram/telegram.py:125-132 | the ban list is replaced and APRS is unchanged |
| TelegramBot.TelegramBot.ShortenInText | mtg/bot/telegram/telegram.py:146-157 | the loops over the words give exactly `ShortenedText` |
| TelegramBot.TelegramBot.BuildBody | mtg/bot/telegram/telegram.py:189-205 | the body built from text, sticker and photo is exactly `Body` |
| TelegramBot.TelegramBot.Echo | mtg/bot/telegram/telegram.py:159-218 | the handler's effects are exactly `Echoed` for the bot's configuration, ban list and APRS |
| TelegramBot.TelegramBot.Deliver | mtg/bot/telegram/telegram.py:207-218 | the delivery's effects are exactly `Delivered` |
| TelegramBot.TelegramBot.Routes | mtg/bot/telegram/telegram.py:320-336 | the loop's traceroutes are exactly `RoutesCommand` |
| Reaction.Get | mtg/connection/telegram/reaction.py:68-72 | `get` on an object gives the default when the key is absent, and otherwise the value stored under that key |
| Reaction.ParseItem | mtg/connection/telegram/reaction.py:64-75 | an item that is not an object becomes an unknown reaction of type "unknown" keeping the item; every unknown reaction keeps its item and has a truthy type |
| Reaction.Parsed | mtg/connection/telegram/reaction.py:58-76 | an empty or missing list gives no reactions; a list gives one reaction per item |
| Reaction.ParseReactionList | mtg/connection/telegram/reaction.py:58-76 | the loop gives exactly `Parsed`, its i-th reaction being the parse of the i-th item |
| Reaction.ItemKinds | mtg/connection/telegram/reaction.py:68-73 | an emoji reaction comes exactly from type "emoji" with a truthy "emoji", a custom one exactly from type "custom_emoji" with a truthy id, and both carry the truthiness of "is_big" |
| Reaction.ItemType | mtg/connection/telegram/reaction.py:65-75 | the reaction's type is the item's truthy "type", and "unknown" otherwise or for a non-object |
| Reaction.ListParsed | mtg/connection/telegram/reaction.py:61-76 | a list never fails, and gives the parse of each item in order |
| Reaction.FromRaw | mtg/connection/telegram/reaction.py:91-112 | an empty payload gives None and only an empty one does; an update read from an object carries the parses of its "old_reaction" and "new_reaction" |
| Reaction.CheckUpdate | mtg/connection/telegram/reaction.py:166-169 | the handler takes exactly an `Update` with a reaction attached, and returns that reaction |
| Reaction.HandlerFiresOnPayload | mtg/connection/telegram/reaction.py:95-169 | a decoded payload makes the handler fire exactly when it was not empty; anything but an `Update` never does |
| Firmware.AssetEntries | mtg/utils/gith.py:30-37 | a release lists at most one entry per asset |
| Firmware.FirmwareInfo | mtg/utils/gith.py:19-38 | no releases list nothing |
| Firmware.GetFirmwareInfo | mtg/utils/gith.py:8-38 | the two loops list exactly `FirmwareInfo` of the releases |
| Firmware.FirmwareInfoAppend | mtg/utils/gith.py:20-37 | release order is kept: the listing of two runs of releases is the first's listing followed by the second's |
| Firmware.AssetEntriesAppend | mtg/utils/gith.py:30-37 | asset order is kept within a release in the same way |
| Firmware.OneRelease | mtg/utils/gith.py:21-37 | one release lists its firmware assets when it is eligible, and nothing otherwise |
| Firmware.AssetEntriesMembers | mtg/utils/gith.py:30-37 | an entry is listed for a release exactly when one of its assets is a firmware asset and gives that entry |
| Firmware.FirmwareInfoMembers | mtg/utils/gith.py:19-38 | an entry is listed exactly when some eligible release has a firmware asset giving it, with that release's date, tag and page and the asset's URL |
| Firmware.ListedGiven | mtg/utils/gith.py:19-38 | every listed entry comes from a firmware asset of an eligible release |
| Firmware.GivenListed | mtg/utils/gith.py:19-38 | every firmware asset of an eligible release is listed |
| Firmware.ListedAreV2 | mtg/utils/gith.py:24-26 | every listed entry has a tag starting with "v2" |
| Firmware.NoneEligible | mtg/utils/gith.py:21-29 | releases none of which is eligible list nothing |
| Firmware.ExampleEligible | mtg/utils/gith.py:21-29 | "Meshtastic Firmware v2.1.0" tagged "v2.1.0" is eligible |
| Firmware.ListedExample | mtg/utils/gith.py:30-37 | that release with the single asset "firmware-esp32.bin" lists one entry with the asset's URL |
| Firmware.RevokedExample | mtg/utils/gith.py:27-29 | the same release titled "... - Revoked" lists nothing |
| Mesh.GetNode | mtg/bot/meshtastic/meshtastic.py:128 | `interface.nodes.get(id)` finds a node exactly when the table has an entry under that id, and gives that entry's information |
| Sorting.SortByCorrect | mtg/bot/meshtastic/meshtastic.py:161 | `sorted(..., key=...)` orders by the key and is a permutation of its input |

## Left out

- Network and devices: the radio's serial interface, the Telegram library and its polling threads, the MQTT client loop and publish retries, and the APRS-IS socket. The model returns the calls made on them as effect lists.
- Threads, locks and sleeps: the memcache lock, the reaper's 0.1-second loop (one sweep is modelled, at a given time), the alert thread of the air-raid view and the traceroute threads. Both kinds of thread are modelled as the calls they make.
- The clock, random draws, `strftime`, `humanize.naturaltime`, `str(round(x, 5))` and `str(float)` are inputs.
- Floating point: coordinates, altitudes and SNR are exact reals. `dec2sexagesimal`, `get_imag` and `int(alt * 3.28084)` (Aprs.Dec2Sexagesimal, Aprs.Frac, Aprs.AltitudeFeet) are computed exactly, so a float product that rounds just below an integer, and the decimal representation of the float, are not modelled.
- Foreign libraries become parameters, and the model receives their outcomes:
  - the haversine distance and the reverse geocoder;
  - the AES-CTR decryption and protobuf/JSON conversion of MQTT packets;
  - the MAC address lookup;
  - `textwrap` and UTF-8 decoding;
  - the URL shorteners' HTTP calls;
  - the weather service's HTTP call;
  - the chat bot's reply to a direct message.
- `DATA_PAYLOAD_LEN` comes from the Meshtastic library and is a parameter. Telegram's `MAX_MESSAGE_LENGTH` is its documented value, 4096.
- Telegram photos: the download and the directory it creates are left out. The model keeps the link the message gets, built from the largest photo's file name and the given day.
- `qr_code` (image generation and a temporary file) is left out.
- The module version string, the Meshtastic library version and the firmware metadata shown by `/uptime` are inputs.
- The Pony ORM binding, sessions and SQL are left out; the tables are in-memory sequences. Where the source orders by datetime, ties keep table order.
- The country tables under the prefixes package are constant data. The discovered class order is an input.
- Wiring and setup: logging, `set_logger` and the CSV writer's file handling. The bots' `subscribe`, `on_connection` and `on_node_info` are left out. The monkey-patching in `ensure_reaction_update_support` is too; the model starts from an update with the decoded reaction attached.
- `process_uptime` in the Meshtastic bot is not reachable from the command dispatch, and is not part of this model.
- The text `process_pong` formats (SNR and timing as floats) is left out; the model records the pong call.
- The gateway reads its configuration through `enforce_type`, and a value that fails to convert raises. The bots take the converted values as given.
- A handler that runs before `set_filter` is not modelled: the bots always have a ban list.
- Case mapping (`lower`, `upper`, `capitalize`) and `strip` are modelled for ASCII only.
- Transport.Destination: `int(s, 16)` is modelled without the surrounding whitespace, the underscores and the optional "0x" prefix Python accepts.
- Transport.HardwareIds: the same reading of `int(s, 16)` on the node id.
- MeshBot.NoticeName: the same reading of `int(s, 16)` on the sender id.
- WebApp.GetTail: `int(s)` is modelled without the surrounding whitespace and underscores Python accepts. `Config.EnforceType` does strip the whitespace.
- Config.GetOption: basic interpolation is modelled; the extended interpolation and the raw and fallback arguments of `get` are not used by the source and are left out.
- The telemetry pattern is built from the sender id with `re.match`. The model reads the id literally, so the case of regular-expression metacharacters in an id is left out.
- Reaction payloads: the chat and user objects stay as JSON. JSON numbers are integers, and an object's keys are taken to be distinct.
- The GitHub connection and its token are left out; the releases with their assets are the input.
- Message.SplitUserMessage: the fixed-point loop runs for at most `fuel` rounds, and `OutOfFuel` stands for a loop that has not settled within them. Whether the source's loop always settles is not modelled.
- WebApp.Capitalize: only states that the length is kept. The case mapping is ASCII only and follows Python's `capitalize` in the body.
- WebApp.FormatHw: only states the unknown-model case. The link text of the four known boards is in the body, and `WebApp.FormatHwKnown` states both directions.
- TelegramBot.UptimeCommand: only states the fixed start of the text. The rest is formatted from inputs.

## Findings

| source | as written | input that shows it | evidently intended | confidence | as-written member | corrected member |
|---|---|---|---|---|---|---|
| mtg/bot/meshtastic/meshtastic.py:333 | `('%d' or '%s') in map_link` evaluates to `'%d' in map_link`, so a link holding only "%s" is never substituted | link "m/%s", node "!1", long name "Al": gives "m/%s?name=Al" | a link with either placeholder is substituted: "Al m/!1" | high, not executed | MeshBot.MapLinkAsWritten | MeshBot.MapLink |
| mtg/bot/meshtastic/meshtastic.py:465 | `lstrip('APRS-')` strips any leading run of the characters A, P, R, S and "-", not the prefix | "APRS-PA3XYZ: hi" is addressed to "3XYZ" | the "APRS-" prefix is removed once: "PA3XYZ" | high, not executed | MeshBot.AddresseeAsWritten | MeshBot.Addressee |
| mtg/bot/telegram/telegram.py:215 | the same `lstrip('APRS-')` on the first word of a Telegram message | "APRS-SP1ABC: hi" is addressed to "1ABC" | "SP1ABC" | high, not executed | MeshBot.AddresseeAsWritten | MeshBot.Addressee |
| mtg/bot/telegram/telegram.py:316 | `lstrip('/traceroute ')` strips any leading run of the characters of "/traceroute ", not the command | "/traceroute ace1" traces "1" | the text after the command: "ace1" | high, not executed | TelegramBot.TraceDestAsWritten | TelegramBot.TraceDest |

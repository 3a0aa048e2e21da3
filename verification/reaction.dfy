/**
  * Telegram message-reaction updates (mtg/connection/telegram/reaction.py).
  *
  * The raw payload is a JSON value.  `_parse_reaction_list` turns the list under
  * "old_reaction" or "new_reaction" into typed reactions, `from_raw` reads a whole
  * reaction update, and the handler's `check_update` picks the update up.  The
  * chat and user objects the Telegram library builds from their JSON are kept as
  * that JSON.
  */
module Reaction {
  import opened Wrappers

  /** A decoded JSON value; an object's keys are distinct and kept in order. */
  datatype Json =
    | Null
    | Bool(b: bool)
    | Num(n: int)
    | Str(s: string)
    | List(items: seq<Json>)
    | Object(fields: seq<(string, Json)>)

  /** Python truthiness of the decoded value. */
  predicate Truthy(j: Json) {
    match j
    case Null => false
    case Bool(b) => b
    case Num(n) => n != 0
    case Str(s) => s != ""
    case List(items) => |items| > 0
    case Object(fields) => |fields| > 0
  }

  /** `d.get(key, default)` on an object's fields. */
  function Get(fields: seq<(string, Json)>, key: string, default: Json): (r: Json)
    ensures (forall i :: 0 <= i < |fields| ==> fields[i].0 != key) ==> r == default
    ensures r != default ==> exists i :: 0 <= i < |fields| && fields[i] == (key, r)
    decreases |fields|
  {
    if |fields| == 0 then default
    else if fields[0].0 == key then fields[0].1
    else Get(fields[1..], key, default)
  }

  /** `EmojiReaction`, `CustomEmojiReaction` and `UnknownReaction`; an unknown one
      keeps the given type (or "unknown") and the raw item. */
  datatype Reaction =
    | Emoji(emoji: Json, isBig: bool)
    | CustomEmoji(customEmojiId: Json, isBig: bool)
    | Unknown(kind: Json, raw: Json)

  /** The `type` field of a reaction. */
  function TypeOf(r: Reaction): Json {
    match r
    case Emoji(_, _) => Str("emoji")
    case CustomEmoji(_, _) => Str("custom_emoji")
    case Unknown(kind, _) => kind
  }

  /** The `is_big` field: False for an unknown reaction. */
  function IsBig(r: Reaction): bool {
    match r
    case Emoji(_, big) => big
    case CustomEmoji(_, big) => big
    case Unknown(_, _) => false
  }

  /** One item of the list. */
  function ParseItem(item: Json): (r: Reaction)
    ensures !item.Object? ==> r == Unknown(Str("unknown"), item)
    ensures r.Unknown? ==> r.raw == item && Truthy(r.kind)
  {
    if !item.Object? then Unknown(Str("unknown"), item)
    else
      var kind := Get(item.fields, "type", Null);
      var big := Truthy(Get(item.fields, "is_big", Bool(false)));
      if kind == Str("emoji") && Truthy(Get(item.fields, "emoji", Null)) then
        Emoji(Get(item.fields, "emoji", Null), big)
      else if kind == Str("custom_emoji") && Truthy(Get(item.fields, "custom_emoji_id", Null)) then
        CustomEmoji(Get(item.fields, "custom_emoji_id", Null), big)
      else Unknown(if Truthy(kind) then kind else Str("unknown"), item)
  }

  /** What `for item in data` walks over: a list's items, an object's keys, a
      string's characters; a number or `True` is not iterable. */
  function Iterated(data: Json): Result<seq<Json>> {
    match data
    case List(items) => Ok(items)
    case Object(fields) => Ok(seq(|fields|, i requires 0 <= i < |fields| => Str(fields[i].0)))
    case Str(s) => Ok(seq(|s|, i requires 0 <= i < |s| => Str([s[i]])))
    case Null => Ok([])
    case Bool(b) => if b then Err(TypeError) else Ok([])
    case Num(n) => if n != 0 then Err(TypeError) else Ok([])
  }

  /** `_parse_reaction_list(data)` */
  function Parsed(data: Json): (r: Result<seq<Reaction>>)
    ensures !Truthy(data) ==> r == Ok([])
    ensures data.List? ==> r.Ok? && |r.value| == |data.items|
  {
    if !Truthy(data) then Ok([])
    else match Iterated(data)
      case Err(e) => Err(e)
      case Ok(items) => Ok(seq(|items|, i requires 0 <= i < |items| => ParseItem(items[i])))
  }

  /** `_parse_reaction_list(data)`: the loop appending one reaction per item. */
  method ParseReactionList(data: Json) returns (r: Result<seq<Reaction>>)
    ensures r == Parsed(data)
    ensures r.Ok? ==> forall i :: 0 <= i < |r.value| ==> ParseItem(Iterated(data).value[i]) == r.value[i]
  {
    var reactions: seq<Reaction> := [];
    if !Truthy(data) {
      return Ok(reactions);
    }
    var items := Iterated(data);
    if items.Err? {
      return Err(items.exc);
    }
    for i := 0 to |items.value|
      invariant |reactions| == i
      invariant forall k :: 0 <= k < i ==> reactions[k] == ParseItem(items.value[k])
    {
      var item := items.value[i];
      if !item.Object? {
        reactions := reactions + [Unknown(Str("unknown"), item)];
        continue;
      }
      var kind := Get(item.fields, "type", Null);
      var big := Truthy(Get(item.fields, "is_big", Bool(false)));
      if kind == Str("emoji") && Truthy(Get(item.fields, "emoji", Null)) {
        reactions := reactions + [Emoji(Get(item.fields, "emoji", Null), big)];
      } else if kind == Str("custom_emoji") && Truthy(Get(item.fields, "custom_emoji_id", Null)) {
        reactions := reactions + [CustomEmoji(Get(item.fields, "custom_emoji_id", Null), big)];
      } else {
        reactions := reactions + [Unknown(if Truthy(kind) then kind else Str("unknown"), item)];
      }
    }
    assert reactions == seq(|items.value|, i requires 0 <= i < |items.value| => ParseItem(items.value[i]));
    return Ok(reactions);
  }

  /** An emoji reaction comes exactly from an object of type "emoji" with a truthy
      "emoji"; a custom one exactly from type "custom_emoji" with a truthy id; both
      carry the truthiness of "is_big". */
  lemma ItemKinds(item: Json)
    ensures ParseItem(item).Emoji? <==>
      item.Object? && Get(item.fields, "type", Null) == Str("emoji") && Truthy(Get(item.fields, "emoji", Null))
    ensures ParseItem(item).CustomEmoji? <==>
      item.Object? && Get(item.fields, "type", Null) == Str("custom_emoji")
      && Truthy(Get(item.fields, "custom_emoji_id", Null))
    ensures !ParseItem(item).Unknown? ==> IsBig(ParseItem(item)) == Truthy(Get(item.fields, "is_big", Bool(false)))
  {
  }

  /** The parsed reaction's type is the item's "type" when that is truthy, and
      "unknown" otherwise (and for anything but an object). */
  lemma ItemType(item: Json)
    ensures item.Object? && Truthy(Get(item.fields, "type", Null)) ==>
      TypeOf(ParseItem(item)) == Get(item.fields, "type", Null)
    ensures !item.Object? || !Truthy(Get(item.fields, "type", Null)) ==> TypeOf(ParseItem(item)) == Str("unknown")
  {
  }

  /** A list gives one reaction per item, in order. */
  lemma ListParsed(items: seq<Json>)
    ensures Parsed(List(items)).Ok?
    ensures |Parsed(List(items)).value| == |items|
    ensures forall i :: 0 <= i < |items| ==> Parsed(List(items)).value[i] == ParseItem(items[i])
  {
  }

  // ---------------------------------------------------------------- from_raw

  /** `MessageReactionUpdate`; the chat, user and actor chat are their JSON. */
  datatype ReactionUpdate = ReactionUpdate(chat: Json, messageId: Json, user: Json, actorChat: Json, date: Json,
                                           oldReaction: seq<Reaction>, newReaction: seq<Reaction>)

  /** `MessageReactionUpdate.from_raw(data, bot)`: None for an empty payload; a
      payload that is not an object has no `get`. */
  function FromRaw(data: Json): (r: Result<Option<ReactionUpdate>>)
    ensures !Truthy(data) <==> r == Ok(None)
    ensures r.Ok? && r.value.Some? ==>
      && data.Object?
      && Parsed(Get(data.fields, "old_reaction", Null)) == Ok(r.value.value.oldReaction)
      && Parsed(Get(data.fields, "new_reaction", Null)) == Ok(r.value.value.newReaction)
  {
    if !Truthy(data) then Ok(None)
    else if !data.Object? then Err(AttributeError("object has no attribute 'get'"))
    else
      var f := data.fields;
      match Parsed(Get(f, "old_reaction", Null))
      case Err(e) => Err(e)
      case Ok(before) =>
        match Parsed(Get(f, "new_reaction", Null))
        case Err(e) => Err(e)
        case Ok(after) =>
          Ok(Some(ReactionUpdate(Get(f, "chat", Null), Get(f, "message_id", Null), Get(f, "user", Null),
                                 Get(f, "actor_chat", Null), Get(f, "date", Null), before, after)))
  }

  /** What a handler is offered: an `Update` with the reaction attached by the
      patched decoder (if any), or some other object. */
  datatype Offered = AnUpdate(reaction: Option<ReactionUpdate>) | NotAnUpdate

  /** `MessageReactionHandler.check_update(update)`: the attached reaction, else None. */
  function CheckUpdate(update: Offered): (r: Option<ReactionUpdate>)
    ensures r.Some? <==> update.AnUpdate? && update.reaction.Some?
    ensures r.Some? ==> r == update.reaction
  {
    if update.AnUpdate? && update.reaction.Some? then update.reaction else None
  }

  /** The handler fires for an update carrying a decoded payload exactly when the
      payload was not empty. */
  lemma HandlerFiresOnPayload(data: Json)
    requires FromRaw(data).Ok?
    ensures CheckUpdate(AnUpdate(FromRaw(data).value)).Some? <==> Truthy(data)
    ensures CheckUpdate(NotAnUpdate).None?
  {
  }
}

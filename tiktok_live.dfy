/**
 * The live-feed hook of the viewer: the chat and gift records built from the
 * bridge's events, the bounded chat and gift histories, and the connect and
 * disconnect transitions of the hook's state.
 */
module TikTokLive {
  import opened Wrappers
  import JsBuiltins

  /** A chat comment as the event bridge delivers it (`data` of `onChat`). */
  datatype ChatData = ChatData(
    msgId: string, uniqueId: string, userId: string, comment: string,
    nickname: string, profilePictureUrl: string)

  /** A gift as the event bridge delivers it (`data` of `onGift`). */
  datatype GiftData = GiftData(
    msgId: string, uniqueId: string, userId: string, giftId: int, giftName: string,
    diamondCount: int, nickname: string, profilePictureUrl: string)

  datatype TikTokMessage = TikTokMessage(
    id: string, uniqueId: string, userId: string, comment: string,
    timestamp: int, nickname: string, profilePictureUrl: string)

  datatype TikTokGift = TikTokGift(
    id: string, uniqueId: string, userId: string, giftId: int, giftName: string,
    diamondCount: int, nickname: string, profilePictureUrl: string, timestamp: int)

  /** What `window.tiktok.connect(username)` resolves to. */
  datatype ConnectResult = ConnectResult(success: bool, roomId: Option<string>, error: Option<string>)

  /** The settled promise of the connect call: resolved, or rejected with an error message. */
  datatype ConnectOutcome = Resolved(result: ConnectResult) | Rejected(message: string)

  /** How many old chats and gifts survive one append. */
  const ChatsKept: nat := 99
  const GiftsKept: nat := 19
  const MaxMessages: nat := ChatsKept + 1
  const MaxGifts: nat := GiftsKept + 1
  const DefaultConnectError: string := "Failed to connect"

  /** The fields of the bridge event a message was built from. */
  function ChatDataOf(m: TikTokMessage): ChatData
  {
    ChatData(m.id, m.uniqueId, m.userId, m.comment, m.nickname, m.profilePictureUrl)
  }

  function GiftDataOf(g: TikTokGift): GiftData
  {
    GiftData(g.id, g.uniqueId, g.userId, g.giftId, g.giftName, g.diamondCount, g.nickname, g.profilePictureUrl)
  }

  /** The message record: `msgId` becomes `id`, the clock reading becomes `timestamp`, the rest is copied. */
  function ToMessage(data: ChatData, now: int): (m: TikTokMessage)
    ensures ChatDataOf(m) == data && m.timestamp == now
  {
    TikTokMessage(data.msgId, data.uniqueId, data.userId, data.comment, now, data.nickname, data.profilePictureUrl)
  }

  function ToGift(data: GiftData, now: int): (g: TikTokGift)
    ensures GiftDataOf(g) == data && g.timestamp == now
  {
    TikTokGift(data.msgId, data.uniqueId, data.userId, data.giftId, data.giftName,
               data.diamondCount, data.nickname, data.profilePictureUrl, now)
  }

  /** The last `n` items of `s` (all of them when there are fewer). */
  function Window<T>(s: seq<T>, n: nat): (r: seq<T>)
    ensures |r| == JsBuiltins.Min(n, |s|)
  {
    s[|s| - JsBuiltins.Min(n, |s|)..]
  }

  /** `[...prev.slice(-keep), item]`: the sliding history after one new item. */
  function AppendBounded<T>(prev: seq<T>, item: T, keep: nat): (r: seq<T>)
    requires keep > 0
    ensures r == Window(prev + [item], keep + 1)
    ensures |r| == JsBuiltins.Min(|prev|, keep) + 1
    ensures r[|r| - 1] == item
  {
    var r := JsBuiltins.SliceFrom(prev, 0 - keep as int) + [item];
    assert r == (prev + [item])[|prev| + 1 - |r|..];
    r
  }

  /** The chat history after one new message: `[...prev.slice(-99), newMessage]`. */
  function AppendChat(prev: seq<TikTokMessage>, m: TikTokMessage): (r: seq<TikTokMessage>)
    ensures |r| == JsBuiltins.Min(|prev|, ChatsKept) + 1 && |r| <= MaxMessages
    ensures r[|r| - 1] == m
    ensures r[..|r| - 1] == prev[|prev| - JsBuiltins.Min(|prev|, ChatsKept)..]
    ensures |prev| < ChatsKept ==> r == prev + [m]
  {
    var r := AppendBounded(prev, m, ChatsKept);
    assert r[..|r| - 1] == prev[|prev| - JsBuiltins.Min(|prev|, ChatsKept)..];
    r
  }

  /** The gift history after one new gift: `[...prev.slice(-19), newGift]`. */
  function AppendGift(prev: seq<TikTokGift>, g: TikTokGift): (r: seq<TikTokGift>)
    ensures |r| == JsBuiltins.Min(|prev|, GiftsKept) + 1 && |r| <= MaxGifts
    ensures r[|r| - 1] == g
    ensures r[..|r| - 1] == prev[|prev| - JsBuiltins.Min(|prev|, GiftsKept)..]
    ensures |prev| < GiftsKept ==> r == prev + [g]
  {
    var r := AppendBounded(prev, g, GiftsKept);
    assert r[..|r| - 1] == prev[|prev| - JsBuiltins.Min(|prev|, GiftsKept)..];
    r
  }

  /** The history after a run of arrivals, one bounded append each. */
  function AppendAll<T>(prev: seq<T>, items: seq<T>, keep: nat): seq<T>
    requires keep > 0
    decreases items
  {
    if items == [] then prev else AppendAll(AppendBounded(prev, items[0], keep), items[1..], keep)
  }

  lemma WindowOfWindow<T>(a: seq<T>, b: seq<T>, n: nat)
    ensures Window(Window(a, n) + b, n) == Window(a + b, n)
  {
  }

  /** After any non-empty run of arrivals the history is exactly the last `keep + 1` items of everything seen. */
  lemma {:induction false} AppendAllIsWindow<T>(prev: seq<T>, items: seq<T>, keep: nat)
    requires keep > 0 && items != []
    ensures AppendAll(prev, items, keep) == Window(prev + items, keep + 1)
    decreases items
  {
    var next := AppendBounded(prev, items[0], keep);
    assert prev + items == (prev + [items[0]]) + items[1..];
    if items[1..] == [] {
      assert items == [items[0]];
    } else {
      AppendAllIsWindow(next, items[1..], keep);
      WindowOfWindow(prev + [items[0]], items[1..], keep + 1);
    }
  }

  /** However many chats arrive, the history holds the latest 100 of them (fewer only if fewer were seen). */
  lemma ChatHistoryIsLatest(prev: seq<TikTokMessage>, arrivals: seq<TikTokMessage>)
    requires arrivals != []
    ensures AppendAll(prev, arrivals, ChatsKept) == Window(prev + arrivals, MaxMessages)
    ensures |AppendAll(prev, arrivals, ChatsKept)| <= MaxMessages
  {
    AppendAllIsWindow(prev, arrivals, ChatsKept);
  }

  lemma GiftHistoryIsLatest(prev: seq<TikTokGift>, arrivals: seq<TikTokGift>)
    requires arrivals != []
    ensures AppendAll(prev, arrivals, GiftsKept) == Window(prev + arrivals, MaxGifts)
    ensures |AppendAll(prev, arrivals, GiftsKept)| <= MaxGifts
  {
    AppendAllIsWindow(prev, arrivals, GiftsKept);
  }

  /** `value || fallback` for an optional string: `undefined` and `""` are both falsy. */
  function OrElse(value: Option<string>, fallback: Option<string>): (r: Option<string>)
    ensures value.Some? && value.value != "" ==> r == value
    ensures (value.None? || value.value == "") ==> r == fallback
  {
    if value.Some? && value.value != "" then value else fallback
  }

  /** The state of the hook: connection flag, live room, both histories and the last error. */
  class LiveSession {
    var isConnected: bool
    var roomId: Option<string>
    var messages: seq<TikTokMessage>
    var gifts: seq<TikTokGift>
    var error: Option<string>

    /** The histories never exceed their bounds. */
    ghost predicate Valid()
      reads this
    {
      |messages| <= MaxMessages && |gifts| <= MaxGifts
    }

    constructor ()
      ensures Valid()
      ensures !isConnected && roomId == None && messages == [] && gifts == [] && error == None
    {
      isConnected := false;
      roomId := None;
      messages := [];
      gifts := [];
      error := None;
    }

    /** `connect(username)`, given how the bridge's connect call settled. */
    method Connect(outcome: ConnectOutcome)
      requires Valid()
      modifies this
      ensures Valid()
      ensures messages == old(messages) && gifts == old(gifts)
      ensures outcome.Resolved? && outcome.result.success ==>
        isConnected && error == None && roomId == OrElse(outcome.result.roomId, None)
      ensures outcome.Resolved? && !outcome.result.success ==>
        !isConnected && roomId == old(roomId) &&
        error == OrElse(outcome.result.error, Some(DefaultConnectError))
      ensures outcome.Rejected? ==>
        !isConnected && roomId == old(roomId) && error == Some(outcome.message)
    {
      error := None;
      match outcome {
        case Resolved(result) =>
          if result.success {
            isConnected := true;
            roomId := OrElse(result.roomId, None);
          } else {
            error := OrElse(result.error, Some(DefaultConnectError));
            isConnected := false;
          }
        case Rejected(message) =>
          error := Some(message);
          isConnected := false;
      }
    }

    /** `disconnect()`, once the bridge's disconnect call has resolved. */
    method Disconnect()
      requires Valid()
      modifies this
      ensures Valid()
      ensures !isConnected && roomId == None
      ensures messages == old(messages) && gifts == old(gifts) && error == old(error)
    {
      isConnected := false;
      roomId := None;
    }

    /** The `onChat` listener; `forwarded` is the record handed to the `onNewChat` callback when one is set. */
    method OnChat(data: ChatData, now: int) returns (forwarded: TikTokMessage)
      requires Valid()
      modifies this
      ensures Valid()
      ensures forwarded == ToMessage(data, now)
      ensures messages == AppendChat(old(messages), forwarded)
      ensures gifts == old(gifts) && isConnected == old(isConnected)
      ensures roomId == old(roomId) && error == old(error)
    {
      forwarded := ToMessage(data, now);
      messages := AppendChat(messages, forwarded);
    }

    /** The `onGift` listener. */
    method OnGift(data: GiftData, now: int)
      requires Valid()
      modifies this
      ensures Valid()
      ensures gifts == AppendGift(old(gifts), ToGift(data, now))
      ensures messages == old(messages) && isConnected == old(isConnected)
      ensures roomId == old(roomId) && error == old(error)
    {
      gifts := AppendGift(gifts, ToGift(data, now));
    }
  }
}

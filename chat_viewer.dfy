/**
 * The chat view's data logic: chats and gifts merged into one timeline ordered
 * by timestamp, and the per-event display rules (name, avatar, diamond count).
 */
module ChatViewer {
  import opened Wrappers
  import JsBuiltins
  import opened TikTokLive

  datatype EventKind = Chat | Gift

  /** The gift-only fields a gift event keeps from its record. */
  datatype GiftInfo = GiftInfo(giftId: int, giftName: string, diamondCount: int)

  /** One entry of the merged timeline: a record's fields plus its `type` tag. */
  datatype TimelineEvent = TimelineEvent(
    kind: EventKind, id: string, uniqueId: string, userId: string, comment: string,
    timestamp: int, nickname: string, profilePictureUrl: string, gift: Option<GiftInfo>)

  /** What stands in the avatar slot: the picture, or an initial when there is no picture URL. */
  datatype Avatar = Picture(url: string) | Initial(letter: char)

  const GiftCommentPrefix: string := "Sent "

  /** The message record a chat event was spread from. */
  function MessageOf(e: TimelineEvent): TikTokMessage
  {
    TikTokMessage(e.id, e.uniqueId, e.userId, e.comment, e.timestamp, e.nickname, e.profilePictureUrl)
  }

  /** The gift record a gift event was spread from (its comment is not part of it). */
  function GiftOf(e: TimelineEvent): TikTokGift
    requires e.gift.Some?
  {
    TikTokGift(e.id, e.uniqueId, e.userId, e.gift.value.giftId, e.gift.value.giftName,
               e.gift.value.diamondCount, e.nickname, e.profilePictureUrl, e.timestamp)
  }

  /** `{ ...m, type: 'chat' }`: every field of the message, tagged `chat`. */
  function TagChat(m: TikTokMessage): (e: TimelineEvent)
    ensures e.kind == Chat && e.gift == None
    ensures MessageOf(e) == m
  {
    TimelineEvent(Chat, m.id, m.uniqueId, m.userId, m.comment, m.timestamp, m.nickname, m.profilePictureUrl, None)
  }

  /** `{ ...g, type: 'gift', comment: `Sent ${g.giftName}` }`: every field of the gift, tagged `gift`, with a comment. */
  function TagGift(g: TikTokGift): (e: TimelineEvent)
    ensures e.kind == Gift && e.gift.Some?
    ensures GiftOf(e) == g
    ensures e.comment == GiftCommentPrefix + g.giftName
  {
    TimelineEvent(Gift, g.id, g.uniqueId, g.userId, GiftCommentPrefix + g.giftName, g.timestamp,
                  g.nickname, g.profilePictureUrl, Some(GiftInfo(g.giftId, g.giftName, g.diamondCount)))
  }

  function TagChats(messages: seq<TikTokMessage>): (r: seq<TimelineEvent>)
    ensures |r| == |messages|
    ensures forall i :: 0 <= i < |r| ==> r[i] == TagChat(messages[i])
  {
    seq(|messages|, i requires 0 <= i < |messages| => TagChat(messages[i]))
  }

  function TagGifts(gifts: seq<TikTokGift>): (r: seq<TimelineEvent>)
    ensures |r| == |gifts|
    ensures forall i :: 0 <= i < |r| ==> r[i] == TagGift(gifts[i])
  {
    seq(|gifts|, i requires 0 <= i < |gifts| => TagGift(gifts[i]))
  }

  /** The tagged events before sorting: every chat, then every gift, in input order. */
  function Tagged(messages: seq<TikTokMessage>, gifts: seq<TikTokGift>): (r: seq<TimelineEvent>)
    ensures |r| == |messages| + |gifts|
    ensures forall i :: 0 <= i < |messages| ==> r[i] == TagChat(messages[i])
    ensures forall j :: 0 <= j < |gifts| ==> r[|messages| + j] == TagGift(gifts[j])
    ensures forall i :: 0 <= i < |r| ==> (r[i].kind == Chat <==> i < |messages|)
    ensures forall j :: 0 <= j < |gifts| ==> r[|messages| + j].comment == GiftCommentPrefix + gifts[j].giftName
  {
    TagChats(messages) + TagGifts(gifts)
  }

  /** Non-decreasing in timestamp, as the comparator `a.timestamp - b.timestamp` orders. */
  ghost predicate Sorted(s: seq<TimelineEvent>)
  {
    forall i, j :: 0 <= i < j < |s| ==> s[i].timestamp <= s[j].timestamp
  }

  /** The events of `s` with timestamp `t`, in their order in `s`. */
  function AtTime(s: seq<TimelineEvent>, t: int): seq<TimelineEvent>
  {
    if s == [] then [] else (if s[0].timestamp == t then [s[0]] else []) + AtTime(s[1..], t)
  }

  lemma {:induction false} AtTimeAppend(a: seq<TimelineEvent>, b: seq<TimelineEvent>, t: int)
    ensures AtTime(a + b, t) == AtTime(a, t) + AtTime(b, t)
  {
    if a == [] {
      assert a + b == b;
    } else {
      assert (a + b)[1..] == a[1..] + b;
      AtTimeAppend(a[1..], b, t);
    }
  }

  /** Places `x` before the first element whose timestamp is not smaller, keeping `x` ahead of its equals. */
  function Insert(x: TimelineEvent, s: seq<TimelineEvent>): (r: seq<TimelineEvent>)
    requires Sorted(s)
    ensures Sorted(r)
    ensures multiset(r) == multiset(s) + multiset{x}
    ensures r[0] == (if s == [] || x.timestamp <= s[0].timestamp then x else s[0])
  {
    if s == [] then [x]
    else if x.timestamp <= s[0].timestamp then [x] + s
    else
      var rest := Insert(x, s[1..]);
      assert s == [s[0]] + s[1..];
      assert forall j :: 0 <= j < |rest| ==> rest[0].timestamp <= rest[j].timestamp;
      [s[0]] + rest
  }

  /** Inserting `x` puts it ahead of the events that share its timestamp and leaves the others' order alone. */
  lemma {:induction false} InsertAtTime(x: TimelineEvent, s: seq<TimelineEvent>, t: int)
    requires Sorted(s)
    ensures AtTime(Insert(x, s), t) == (if x.timestamp == t then [x] else []) + AtTime(s, t)
  {
    if s == [] {
      assert AtTime([x], t) == (if x.timestamp == t then [x] else []) + AtTime([x][1..], t);
    } else if x.timestamp <= s[0].timestamp {
      assert ([x] + s)[1..] == s;
    } else {
      var rest := Insert(x, s[1..]);
      assert ([s[0]] + rest)[1..] == rest;
      InsertAtTime(x, s[1..], t);
    }
  }

  /** A stable insertion sort by timestamp (ECMAScript 2019 requires `Array.prototype.sort` to be stable). */
  function SortByTimestamp(s: seq<TimelineEvent>): (r: seq<TimelineEvent>)
    ensures Sorted(r)
    ensures multiset(r) == multiset(s)
  {
    if s == [] then []
    else
      assert s == [s[0]] + s[1..];
      Insert(s[0], SortByTimestamp(s[1..]))
  }

  /** Stability: for every timestamp, the events carrying it keep their input order. */
  lemma {:induction false} SortKeepsOrderAtTime(s: seq<TimelineEvent>, t: int)
    ensures AtTime(SortByTimestamp(s), t) == AtTime(s, t)
  {
    if s != [] {
      SortKeepsOrderAtTime(s[1..], t);
      InsertAtTime(s[0], SortByTimestamp(s[1..]), t);
    }
  }

  /** `allEvents`: the merged, sorted timeline. */
  function AllEvents(messages: seq<TikTokMessage>, gifts: seq<TikTokGift>): (r: seq<TimelineEvent>)
    ensures |r| == |messages| + |gifts|
    ensures Sorted(r)
    ensures multiset(r) == multiset(TagChats(messages)) + multiset(TagGifts(gifts))
  {
    var tagged := Tagged(messages, gifts);
    var r := SortByTimestamp(tagged);
    assert |r| == |tagged| by {
      assert |multiset(r)| == |multiset(tagged)|;
    }
    r
  }

  /**
   * Events sharing a timestamp appear in concatenation order: the chats first,
   * in input order, then the gifts, in input order.
   */
  lemma AllEventsStable(messages: seq<TikTokMessage>, gifts: seq<TikTokGift>, t: int)
    ensures AtTime(AllEvents(messages, gifts), t) == AtTime(TagChats(messages), t) + AtTime(TagGifts(gifts), t)
  {
    SortKeepsOrderAtTime(Tagged(messages, gifts), t);
    AtTimeAppend(TagChats(messages), TagGifts(gifts), t);
  }

  lemma {:induction false} AtTimeElements(s: seq<TimelineEvent>, t: int)
    ensures forall x :: x in AtTime(s, t) ==> x in s && x.timestamp == t
  {
    if s != [] {
      AtTimeElements(s[1..], t);
    }
  }

  lemma AtTimeOfHead(s: seq<TimelineEvent>)
    requires s != []
    ensures AtTime(s, s[0].timestamp) != []
  {
  }

  /**
   * Sorted and stable pins the order down: two sorted sequences with the same
   * events at every timestamp, in the same order, are equal.
   */
  lemma {:induction false} SortedStableUnique(a: seq<TimelineEvent>, b: seq<TimelineEvent>)
    requires Sorted(a) && Sorted(b)
    requires forall t :: AtTime(a, t) == AtTime(b, t)
    ensures a == b
    decreases |a|
  {
    if a == [] || b == [] {
      if a != [] {
        AtTimeOfHead(a);
        assert false;
      } else if b != [] {
        AtTimeOfHead(b);
        assert false;
      }
    } else {
      var ta, tb := a[0].timestamp, b[0].timestamp;
      AtTimeElements(a, tb);
      AtTimeElements(b, ta);
      assert AtTime(b, ta)[0] in AtTime(b, ta);
      assert AtTime(a, tb)[0] in AtTime(a, tb);
      assert ta == tb;
      assert a[0] == b[0] by {
        assert AtTime(a, ta)[0] == a[0] && AtTime(b, ta)[0] == b[0];
      }
      forall t ensures AtTime(a[1..], t) == AtTime(b[1..], t) {
        var k := if ta == t then 1 else 0;
        assert AtTime(a, t) == AtTime(b, t);
        assert AtTime(a[1..], t) == AtTime(a, t)[k..];
        assert AtTime(b[1..], t) == AtTime(b, t)[k..];
      }
      SortedStableUnique(a[1..], b[1..]);
      assert a == [a[0]] + a[1..] && b == [b[0]] + b[1..];
    }
  }

  /** The timeline is the one stable timestamp sort of the tagged inputs: any other equals it. */
  lemma AllEventsIsTheStableSort(messages: seq<TikTokMessage>, gifts: seq<TikTokGift>, other: seq<TimelineEvent>)
    requires Sorted(other)
    requires forall t :: AtTime(other, t) == AtTime(Tagged(messages, gifts), t)
    ensures other == AllEvents(messages, gifts)
  {
    var r := AllEvents(messages, gifts);
    forall t ensures AtTime(other, t) == AtTime(r, t) {
      SortKeepsOrderAtTime(Tagged(messages, gifts), t);
    }
    SortedStableUnique(other, r);
  }

  /** Every chat and every gift of the input is on the timeline, tagged. */
  lemma AllEventsContains(messages: seq<TikTokMessage>, gifts: seq<TikTokGift>)
    ensures forall i :: 0 <= i < |messages| ==> TagChat(messages[i]) in AllEvents(messages, gifts)
    ensures forall j :: 0 <= j < |gifts| ==> TagGift(gifts[j]) in AllEvents(messages, gifts)
  {
    var r := AllEvents(messages, gifts);
    forall i | 0 <= i < |messages| ensures TagChat(messages[i]) in r {
      assert TagChats(messages)[i] in multiset(TagChats(messages));
      assert TagChat(messages[i]) in multiset(r);
    }
    forall j | 0 <= j < |gifts| ensures TagGift(gifts[j]) in r {
      assert TagGifts(gifts)[j] in multiset(TagGifts(gifts));
      assert TagGift(gifts[j]) in multiset(r);
    }
  }

  /** The name shown in the bubble header: `nickname` unless it is shorter than two characters. */
  function DisplayName(e: TimelineEvent): (r: string)
    ensures (|e.nickname| >= 2 && r == e.nickname) || (|e.nickname| < 2 && r == e.uniqueId)
  {
    if |e.nickname| < 2 then e.uniqueId else e.nickname
  }

  /** `nickname?.charAt(0) || uniqueId?.charAt(0) || '?'` */
  function AvatarInitial(nickname: string, uniqueId: string): (c: char)
    ensures nickname != [] ==> c == nickname[0]
    ensures nickname == [] && uniqueId != [] ==> c == uniqueId[0]
    ensures nickname == [] && uniqueId == [] ==> c == '?'
  {
    if nickname != [] then nickname[0] else if uniqueId != [] then uniqueId[0] else '?'
  }

  function AvatarOf(e: TimelineEvent): (a: Avatar)
    ensures a.Picture? <==> e.profilePictureUrl != ""
    ensures a.Picture? ==> a.url == e.profilePictureUrl
    ensures a.Initial? ==> a.letter == AvatarInitial(e.nickname, e.uniqueId)
  {
    if e.profilePictureUrl != "" then Picture(e.profilePictureUrl) else Initial(AvatarInitial(e.nickname, e.uniqueId))
  }

  /** The `x${diamondCount}` suffix after the comment: only gift events have one. */
  function DiamondSuffix(e: TimelineEvent): (r: Option<string>)
    requires e.kind == Gift ==> e.gift.Some?
    ensures r.Some? <==> e.kind == Gift
    ensures r.Some? ==> r.value == "x" + JsBuiltins.NumberToString(e.gift.value.diamondCount)
    ensures r.Some? ==> |r.value| > 1 && r.value[0] == 'x' &&
                        JsBuiltins.ParseNumber(r.value[1..]) == Some(e.gift.value.diamondCount)
  {
    if e.kind == Gift then
      var n := e.gift.value.diamondCount;
      JsBuiltins.NumberRoundTrip(n);
      assert ("x" + JsBuiltins.NumberToString(n))[1..] == JsBuiltins.NumberToString(n);
      Some("x" + JsBuiltins.NumberToString(n))
    else None
  }
}

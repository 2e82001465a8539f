/** Cursors: base64url of `<iso timestamp>|<id>`, checked on the way back in; and paging by them. */
module CursorCodec {
  import opened Common
  import opened UserEntity
  import opened KeysetOrder
  import opened Pagination
  import opened IsoDate
  import Base64Url

  /**
   * What the platform makes of input this codec never produces: text from bytes that are not ASCII or not
   * well-formed base64url, and dates from strings that are not in ISO form. Nothing is assumed about it.
   */
  datatype Platform = Platform(text: string -> string, date: string -> Option<int>)

  predicate Ascii(s: string) {
    forall i :: 0 <= i < |s| ==> s[i] < 128 as char
  }

  function ByteOf(c: char): Base64Url.Byte
    requires c < 128 as char
  {
    c as int
  }

  function ToBytes(s: string): seq<Base64Url.Byte>
    requires Ascii(s)
  {
    seq(|s|, i requires 0 <= i < |s| => ByteOf(s[i]))
  }

  function ToText(bytes: seq<Base64Url.Byte>): Option<string> {
    if forall i :: 0 <= i < |bytes| ==> bytes[i] < 128
    then Some(seq(|bytes|, i requires 0 <= i < |bytes| => bytes[i] as char))
    else None
  }

  lemma TextRoundTrip(s: string)
    requires Ascii(s)
    ensures ToText(ToBytes(s)) == Some(s)
  {
    var bytes := ToBytes(s);
    assert forall i :: 0 <= i < |bytes| ==> bytes[i] < 128 && bytes[i] as char == s[i];
    assert seq(|bytes|, i requires 0 <= i < |bytes| => bytes[i] as char) == s;
  }

  predicate IsIdChar(c: char) {
    '0' <= c <= '9' || 'a' <= c <= 'f' || 'A' <= c <= 'F' || c == '-'
  }

  /** `/^[0-9a-f-]{36}$/i`. */
  predicate IsId(id: string) {
    |id| == 36 && forall i :: 0 <= i < |id| ==> IsIdChar(id[i])
  }

  /** The text before the first bar, and what follows it when there is one. */
  function UpToBar(s: string): string {
    if s == [] || s[0] == '|' then [] else [s[0]] + UpToBar(s[1..])
  }

  function PastBar(s: string): Option<string> {
    if s == [] then None else if s[0] == '|' then Some(s[1..]) else PastBar(s[1..])
  }

  function Encode(createdAt: int, id: string): string
    requires ValidTime(createdAt) && Ascii(id)
  {
    IsoShape(createdAt);
    Base64Url.Encode(ToBytes(ToIsoString(createdAt) + "|" + id))
  }

  function TextOf(platform: Platform, cursor: string): string {
    var bytes := Base64Url.Decode(cursor);
    var text := if bytes.Some? then ToText(bytes.value) else None;
    if text.Some? then text.value else platform.text(cursor)
  }

  function Decode(platform: Platform, cursor: string): Option<Key> {
    var text := TextOf(platform, cursor);
    var timestamp, rest := UpToBar(text), PastBar(text);
    if timestamp == [] || rest.None? || UpToBar(rest.value) == [] then None
    else
      var id := UpToBar(rest.value);
      var createdAt := if ParseIso(timestamp).Some? then ParseIso(timestamp) else platform.date(timestamp);
      if createdAt.None? || !IsId(id) then None else Some(Key(createdAt.value, id))
  }

  predicate NoBar(s: string) {
    forall i :: 0 <= i < |s| ==> s[i] != '|'
  }

  lemma {:induction false} SplitAtBar(a: string, b: string)
    requires NoBar(a)
    ensures UpToBar(a + "|" + b) == a && PastBar(a + "|" + b) == Some(b)
    decreases |a|
  {
    var s := a + "|" + b;
    if a == [] {
      assert s[0] == '|' && s[1..] == b;
    } else {
      SplitAtBar(a[1..], b);
      assert s[1..] == a[1..] + "|" + b && a == [a[0]] + a[1..];
    }
  }

  lemma TextOfEncode(platform: Platform, createdAt: int, id: string)
    requires ValidTime(createdAt) && Ascii(id)
    ensures TextOf(platform, Encode(createdAt, id)) == ToIsoString(createdAt) + "|" + id
  {
    var text := ToIsoString(createdAt) + "|" + id;
    IsoShape(createdAt);
    hide ToIsoString, ToBytes, ToText;
    Base64Url.RoundTrip(ToBytes(text));
    TextRoundTrip(text);
    hide Base64Url.Encode, Base64Url.Decode;
  }

  /**
   * Exactly what comes back: the instant always survives, and the id comes back cut at its first bar, if
   * that is an id at all. So a cursor round-trips precisely when its id is 36 hexadecimal digits and hyphens.
   */
  lemma DecodeOfEncode(platform: Platform, createdAt: int, id: string)
    requires ValidTime(createdAt) && Ascii(id)
    ensures Decode(platform, Encode(createdAt, id)) ==
              if IsId(UpToBar(id)) then Some(Key(createdAt, UpToBar(id))) else None
    ensures Decode(platform, Encode(createdAt, id)) == Some(Key(createdAt, id)) <==> IsId(id)
  {
    hide ToIsoString, ParseIso, Encode, TextOf, UpToBar, PastBar;
    var iso := ToIsoString(createdAt);
    TextOfEncode(platform, createdAt, id);
    IsoShape(createdAt);
    IsoRoundTrip(createdAt);
    SplitAtBar(iso, id);
    if IsId(id) { NoBarInId(id); }
  }

  lemma {:induction false} NoBarInId(id: string)
    requires NoBar(id)
    ensures UpToBar(id) == id
    decreases |id|
  {
    if id != [] {
      NoBarInId(id[1..]);
      assert id == [id[0]] + id[1..];
    }
  }

  /** Every produced cursor fits the 200 characters the parameter allows: 82, or 86 outside the years 0 to 9999. */
  lemma CursorLength(createdAt: int, id: string)
    requires ValidTime(createdAt) && IsId(id)
    ensures |Encode(createdAt, id)| == 82 || |Encode(createdAt, id)| == 86
  {
    IsoShape(createdAt);
    Base64Url.DigitCount(ToBytes(ToIsoString(createdAt) + "|" + id));
    hide ToIsoString;
  }

  // ----- Paging by cursors -----

  /** What the columns guarantee: a `timestamptz` a `Date` can hold, and a `uuid`. */
  ghost predicate Encodable(t: Table) {
    forall r :: r in t ==> ValidTime(r.createdAt) && IsId(r.id)
  }

  lemma IdIsAscii(id: string)
    ensures IsId(id) <==> |id| == 36 && forall i :: 0 <= i < |id| ==> id[i] in "0123456789abcdefABCDEF-"
    ensures IsId(id) ==> Ascii(id)
  {
    assert forall c: char :: IsIdChar(c) <==> c in "0123456789abcdefABCDEF-";
  }

  function CursorOf(r: UserSnapshot): string
    requires ValidTime(r.createdAt) && IsId(r.id)
  {
    IdIsAscii(r.id);
    Encode(r.createdAt, r.id)
  }

  lemma CursorDenotes(platform: Platform, r: UserSnapshot)
    requires ValidTime(r.createdAt) && IsId(r.id)
    ensures CursorOf(r) != [] && Decode(platform, CursorOf(r)) == Some(KeyOf(r))
  {
    hide Decode, Encode;
    IdIsAscii(r.id);
    DecodeOfEncode(platform, r.createdAt, r.id);
    CursorLength(r.createdAt, r.id);
  }

  lemma PageEndsWell(t: Table, where: UserSnapshot -> bool, d: Direction, key: Option<Key>, limit: nat)
    requires PrimaryKey(t) && Encodable(t)
    ensures EndsWell(FindPage(t, where, d, key, limit))
  {
    var p := FindPage(t, where, d, key, limit);
    hide FindPage, ValidTime, IsId;
    PageRows(t, where, d, key, limit);
    if p.next.Some? { assert p.items[|p.items| - 1] in p.items; }
  }

  datatype InvalidCursor = InvalidCursor

  datatype CursorPage = CursorPage(items: seq<UserSnapshot>, nextCursor: Option<string>)

  /** Where a page starts; an empty cursor starts the walk, a malformed one is refused. */
  function Position(platform: Platform, cursor: string): (r: Result<Option<Key>, InvalidCursor>)
    ensures r.Err? <==> cursor != [] && Decode(platform, cursor).None?
    ensures r.Ok? ==> (r.value.None? <==> cursor == []) && (r.value.Some? ==> r.value == Decode(platform, cursor))
  {
    if cursor == [] then Ok(None)
    else if Decode(platform, cursor).None? then Err(InvalidCursor)
    else Ok(Decode(platform, cursor))
  }

  ghost predicate EndsWell(p: Page) {
    p.next.Some? ==>
      && p.items != [] && p.next.value == KeyOf(p.items[|p.items| - 1])
      && ValidTime(p.items[|p.items| - 1].createdAt) && IsId(p.items[|p.items| - 1].id)
  }

  function Response(p: Page): CursorPage
    requires EndsWell(p)
  {
    CursorPage(p.items, if p.next.Some? then Some(CursorOf(p.items[|p.items| - 1])) else None)
  }

  /** `findManyByCursor` as clients call it. */
  ghost function FindManyByCursor(platform: Platform, t: Table, where: UserSnapshot -> bool, d: Direction,
                                  cursor: string, limit: nat): Result<CursorPage, InvalidCursor>
    requires PrimaryKey(t) && Encodable(t)
  {
    match Position(platform, cursor)
    case Err(e) => Err(e)
    case Ok(key) =>
      PageEndsWell(t, where, d, key, limit);
      Ok(Response(FindPage(t, where, d, key, limit)))
  }

  ghost function CursorWalk(platform: Platform, ts: seq<Table>, where: UserSnapshot -> bool, d: Direction,
                            cursor: string, limit: nat): Result<Served, InvalidCursor>
    requires forall t :: t in ts ==> PrimaryKey(t) && Encodable(t)
    decreases |ts|
  {
    if ts == [] then Ok(Served([], false))
    else
      match FindManyByCursor(platform, ts[0], where, d, cursor, limit)
      case Err(e) => Err(e)
      case Ok(page) =>
        if page.nextCursor.None? then Ok(Served(page.items, true))
        else
          match CursorWalk(platform, ts[1..], where, d, page.nextCursor.value, limit)
          case Err(e) => Err(e)
          case Ok(rest) => Ok(Served(page.items + rest.rows, rest.finished))
  }

  /** The text a client holds for a position in the listing. */
  ghost predicate Denotes(platform: Platform, cursor: string, key: Option<Key>) {
    if key.None? then cursor == [] else cursor != [] && Decode(platform, cursor) == key
  }

  lemma PageByCursor(platform: Platform, t: Table, where: UserSnapshot -> bool, d: Direction, cursor: string,
                     key: Option<Key>, limit: nat)
    requires PrimaryKey(t) && Encodable(t) && Denotes(platform, cursor, key)
    ensures var r, p := FindManyByCursor(platform, t, where, d, cursor, limit), FindPage(t, where, d, key, limit);
            && r.Ok? && r.value.items == p.items && (r.value.nextCursor.Some? <==> p.next.Some?)
            && (p.next.Some? ==> Denotes(platform, r.value.nextCursor.value, p.next))
  {
    hide FindPage, Decode, EndsWell, CursorOf, PrimaryKey, Encodable;
    PageEndsWell(t, where, d, key, limit);
    ResponseDenotes(platform, FindPage(t, where, d, key, limit));
  }

  lemma ResponseDenotes(platform: Platform, p: Page)
    requires EndsWell(p)
    ensures p.next.Some? ==> Denotes(platform, Response(p).nextCursor.value, p.next)
  {
    hide Decode, CursorOf, ValidTime, IsId;
    if p.next.Some? { CursorDenotes(platform, p.items[|p.items| - 1]); }
  }

  /** One page further: where both walks stop, and what they add when they go on. */
  lemma BothStep(platform: Platform, ts: seq<Table>, where: UserSnapshot -> bool, d: Direction, cursor: string,
                 key: Option<Key>, limit: nat)
    requires ts != [] && (forall t :: t in ts ==> PrimaryKey(t) && Encodable(t)) && Denotes(platform, cursor, key)
    ensures var page := FindManyByCursor(platform, ts[0], where, d, cursor, limit);
            var p := FindPage(ts[0], where, d, key, limit);
            && page.Ok? && (page.value.nextCursor.Some? <==> p.next.Some?)
            && (p.next.None? ==>
                  && CursorWalk(platform, ts, where, d, cursor, limit) == Ok(Served(p.items, true))
                  && WalkOver(ts, where, d, key, limit) == Served(p.items, true))
            && (p.next.Some? ==>
                  var rest := WalkOver(ts[1..], where, d, p.next, limit);
                  && Denotes(platform, page.value.nextCursor.value, p.next)
                  && WalkOver(ts, where, d, key, limit) == Served(p.items + rest.rows, rest.finished)
                  && (CursorWalk(platform, ts[1..], where, d, page.value.nextCursor.value, limit) == Ok(rest) ==>
                        CursorWalk(platform, ts, where, d, cursor, limit) ==
                          Ok(Served(p.items + rest.rows, rest.finished))))
  {
    hide FindPage, FindManyByCursor, Denotes, Encodable, PrimaryKey;
    PageByCursor(platform, ts[0], where, d, cursor, key, limit);
  }

  /**
   * Paging by encoded cursors is paging by keys: whatever happens to the table between pages, no cursor the
   * server handed out is refused, and the same rows are served in the same order.
   */
  lemma {:induction false} CursorsAreTransparent(platform: Platform, ts: seq<Table>, where: UserSnapshot -> bool,
                                                 d: Direction, cursor: string, key: Option<Key>, limit: nat)
    requires (forall t :: t in ts ==> PrimaryKey(t) && Encodable(t)) && Denotes(platform, cursor, key)
    ensures CursorWalk(platform, ts, where, d, cursor, limit) == Ok(WalkOver(ts, where, d, key, limit))
    decreases |ts|
  {
    if ts != [] {
      BothStep(platform, ts, where, d, cursor, key, limit);
      hide FindPage, FindManyByCursor, Denotes, Encodable, PrimaryKey, CursorWalk, WalkOver;
      var p := FindPage(ts[0], where, d, key, limit);
      if p.next.Some? {
        var page := FindManyByCursor(platform, ts[0], where, d, cursor, limit).value;
        assert forall t :: t in ts[1..] ==> t in ts;
        CursorsAreTransparent(platform, ts[1..], where, d, page.nextCursor.value, p.next, limit);
      }
    }
  }
}

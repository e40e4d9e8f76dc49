/** The Weibo side of the legacy crawler: the posts of a user's feed as the
    mobile API returns them, the link a post is indexed under, the index of
    links read at start-up, and the conversion of feed cards into messages,
    which saves every new post to the data directory on the way. Everything
    the crawler reads from the network is an input sequence consumed in
    order, and an exception is the `raised` part of a result. */
module Weibo {
  import opened Text
  import opened JsonString
  import opened Effects
  import opened Mirror

  /** A post ("mblog") as far as the crawler reads it: `bid` (absent ->
      None), `isLongText`, `text` (absent -> None), the `large.url` of each
      entry of `pics` (None where `large` or `url` is absent),
      `user.screen_name` (absent -> None) and `weibo_position`. */
  datatype Tweet = Tweet(
    bid: Option<string>,
    isLongText: bool,
    text: Option<string>,
    pics: seq<Option<string>>,
    screenName: Option<string>,
    position: Option<int>)

  /** A feed card, which carries a post only when it has an `mblog`. */
  datatype Card = Card(mblog: Option<Tweet>)

  /** The answer to the request for the full text of a long post: a JSON
      object (with its `data` entry), a JSON value that is not an object, or
      a failed request or unparsable body. */
  datatype Expansion = Expanded(data: Option<Tweet>) | NotObject | ExpansionFailed

  /** The answer to the feed request: the list `data.cards` (empty when
      either key is absent), or any failure on the way to it. */
  datatype Page = Cards(cards: seq<Card>) | PageFailed

  /** What the network will answer, in order: feed pages, long-text
      expansions, picture downloads, and replies to Bot API POSTs. An
      exhausted sequence answers with a failure. */
  datatype Net = Net(pages: seq<Page>, expansions: seq<Expansion>, fetches: seq<Fetch>, replies: seq<Reply>)

  function NextPage(ps: seq<Page>): (r: (Page, seq<Page>))
    ensures |ps| > 0 ==> r == (ps[0], ps[1..])
    ensures |ps| == 0 ==> r == (PageFailed, [])
  {
    if |ps| > 0 then (ps[0], ps[1..]) else (PageFailed, [])
  }

  function NextExpansion(xs: seq<Expansion>): (r: (Expansion, seq<Expansion>))
    ensures |xs| > 0 ==> r == (xs[0], xs[1..])
    ensures |xs| == 0 ==> r == (ExpansionFailed, [])
  {
    if |xs| > 0 then (xs[0], xs[1..]) else (ExpansionFailed, [])
  }

  /** The data directory and what the network has still to say. */
  datatype World = World(disk: Disk, net: Net)

  /** A message of the crawler: the dictionary with `user`, `content`,
      `link` and `images`. */
  datatype Entry = Entry(user: string, content: string, link: string, images: seq<string>)

  /** The capabilities the crawler borrows: `clock(n)` is the text of
      `time.time()` when a record is appended to an index of `n` lines, and
      `extract` is BeautifulSoup's `get_text` of an HTML fragment. */
  datatype Env = Env(clock: nat -> string, extract: string -> string)

  // ---------------------------------------------------------------------------
  // Text of a post

  const BreakTag: string := "<br />"

  /** `str.replace("<br />", "\n")`: occurrences are replaced from left to
      right and never overlap. */
  function ReplaceBreaks(s: string): string
    decreases |s|
  {
    if |s| >= 6 && s[..6] == BreakTag then "\n" + ReplaceBreaks(s[6..])
    else if s == [] then []
    else [s[0]] + ReplaceBreaks(s[1..])
  }

  /** A prefix of the result with no line break was copied unchanged. */
  lemma {:induction false} CopiedPrefix(t: string, k: nat)
    ensures k <= |ReplaceBreaks(t)| && '\n' !in ReplaceBreaks(t)[..k] ==>
      k <= |t| && t[..k] == ReplaceBreaks(t)[..k]
    decreases |t|
  {
    var r := ReplaceBreaks(t);
    if |t| >= 6 && t[..6] == BreakTag {
      if 0 < k <= |r| {
        assert r[..k][0] == '\n';
      }
    } else if t != [] && 0 < k <= |r| {
      var r1 := ReplaceBreaks(t[1..]);
      assert r == [t[0]] + r1;
      assert r[..k] == [t[0]] + r1[..k - 1];
      if '\n' !in r[..k] {
        assert '\n' !in r1[..k - 1];
        CopiedPrefix(t[1..], k - 1);
        assert t[..k] == [t[0]] + t[1..][..k - 1];
      }
    }
  }

  /** The tag starts at index `i` of `s`. */
  predicate TagAt(s: string, i: int) {
    0 <= i && i + 6 <= |s| && s[i..i + 6] == BreakTag
  }

  /** No `<br />` survives the replacement, not even one that straddles a
      replaced tag. */
  lemma {:induction false} NoBreakTagLeft(s: string)
    ensures forall i :: !TagAt(ReplaceBreaks(s), i)
    decreases |s|
  {
    var r := ReplaceBreaks(s);
    if s == [] {
    } else if |s| >= 6 && s[..6] == BreakTag {
      var r1 := ReplaceBreaks(s[6..]);
      NoBreakTagLeft(s[6..]);
      assert r == "\n" + r1;
      forall i ensures !TagAt(r, i) {
        if i == 0 && |r| >= 6 {
          assert r[i..i + 6][0] == '\n';
        } else if 0 < i && i + 6 <= |r| {
          assert r[i..i + 6] == r1[i - 1..i + 5];
          assert !TagAt(r1, i - 1);
        }
      }
    } else {
      var r1 := ReplaceBreaks(s[1..]);
      NoBreakTagLeft(s[1..]);
      assert r == [s[0]] + r1;
      forall i ensures !TagAt(r, i) {
        if i == 0 && |r| >= 6 {
          if r[..6] == BreakTag {
            assert r1[..5] == r[1..6];
            assert '\n' !in r1[..5] by {
              assert r1[..5] == "br />";
            }
            CopiedPrefix(s[1..], 5);
            assert false;
          }
        } else if 0 < i && i + 6 <= |r| {
          assert r[i..i + 6] == r1[i - 1..i + 5];
          assert !TagAt(r1, i - 1);
        }
      }
    }
  }

  /** Text without `<` is left as it is. */
  lemma {:induction false} ReplaceBreaksPlain(s: string)
    ensures '<' !in s ==> ReplaceBreaks(s) == s
    decreases |s|
  {
    if s != [] && '<' !in s {
      assert s[0] != '<';
      assert |s| >= 6 ==> s[..6][0] == s[0];
      assert '<' !in s[1..] by {
        forall j | 0 <= j < |s[1..]| ensures s[1..][j] != '<' { assert s[1..][j] == s[j + 1]; }
      }
      ReplaceBreaksPlain(s[1..]);
      assert s == [s[0]] + s[1..];
    }
  }

  // ---------------------------------------------------------------------------
  // Pictures of a post

  /** The URLs of the pictures, or None when one picture has no URL: the
      filter then calls `strip` on None and raises. */
  function PictureUrls(pics: seq<Option<string>>): Option<seq<string>>
    decreases |pics|
  {
    if pics == [] then Some([])
    else if pics[0].None? then None
    else match PictureUrls(pics[1..])
      case None => None
      case Some(rest) => Some([pics[0].value] + rest)
  }

  lemma {:induction false} PictureUrlsIff(pics: seq<Option<string>>)
    ensures PictureUrls(pics).Some? <==> forall i :: 0 <= i < |pics| ==> pics[i].Some?
    ensures PictureUrls(pics).Some? ==>
      (|PictureUrls(pics).value| == |pics| && forall i :: 0 <= i < |pics| ==> PictureUrls(pics).value[i] == pics[i].value)
    decreases |pics|
  {
    if pics != [] {
      PictureUrlsIff(pics[1..]);
      if pics[0].Some? && PictureUrls(pics[1..]).Some? {
        var rest := PictureUrls(pics[1..]).value;
        forall i | 0 <= i < |pics| ensures PictureUrls(pics).value[i] == pics[i].value {
          if i > 0 { assert pics[1..][i - 1] == pics[i]; }
        }
      } else if pics[0].Some? {
        var i :| 0 <= i < |pics[1..]| && pics[1..][i].None?;
        assert pics[i + 1].None?;
      }
    }
  }

  /** A URL the filter drops: whitespace only, so that nothing is left once
      it is stripped (`BlankIff`). */
  predicate Blank(url: string)
    decreases |url|
  {
    url == [] || (IsSpace(url[0]) && Blank(url[1..]))
  }

  /** The URLs that are not blank, in order and unchanged (not stripped). */
  function NonBlank(urls: seq<string>): seq<string>
    decreases |urls|
  {
    if urls == [] then []
    else (if Blank(urls[0]) then [] else [urls[0]]) + NonBlank(urls[1..])
  }

  /** The filter keeps exactly the URLs that are not blank. */
  lemma {:induction false} NonBlankMembers(urls: seq<string>)
    ensures forall u :: u in NonBlank(urls) <==> u in urls && !Blank(u)
    decreases |urls|
  {
    if urls != [] {
      NonBlankMembers(urls[1..]);
      assert urls == [urls[0]] + urls[1..];
    }
  }

  /** Filtering a concatenation filters each part. */
  lemma {:induction false} NonBlankConcat(a: seq<string>, b: seq<string>)
    ensures NonBlank(a + b) == NonBlank(a) + NonBlank(b)
    decreases |a|
  {
    if a == [] {
      assert a + b == b;
    } else {
      var head := if Blank(a[0]) then [] else [a[0]];
      assert (a + b)[0] == a[0] && (a + b)[1..] == a[1..] + b;
      assert NonBlank(a + b) == head + NonBlank(a[1..] + b);
      NonBlankConcat(a[1..], b);
      assert NonBlank(a) == head + NonBlank(a[1..]);
      assert head + (NonBlank(a[1..]) + NonBlank(b)) == (head + NonBlank(a[1..])) + NonBlank(b);
    }
  }

  /** A URL is blank exactly when `url.strip()` is the empty string. */
  lemma {:induction false} BlankIff(url: string)
    ensures Blank(url) <==> Strip(url) == []
    decreases |url|
  {
    StripEmptyIff(url);
    if url != [] {
      BlankIff(url[1..]);
      StripEmptyIff(url[1..]);
      if AllSpace(url) {
        assert AllSpace(url[1..]) by {
          forall i | 0 <= i < |url| - 1 ensures IsSpace(url[1..][i]) {
            assert url[1..][i] == url[i + 1];
          }
        }
      }
      if IsSpace(url[0]) && AllSpace(url[1..]) {
        forall i | 0 < i < |url| ensures IsSpace(url[i]) {
          assert url[i] == url[1..][i - 1];
        }
      }
    }
  }

  // ---------------------------------------------------------------------------
  // Links and the index

  const Host: string := "https://weibo.com/"

  function BidText(bid: Option<string>): string {
    if bid.Some? then bid.value else ""
  }

  /** The link prefix shared by every post of user `id`. */
  predicate UnderUser(link: string, id: int) {
    var prefix := Host + IntText(id) + "/";
    |prefix| <= |link| && link[..|prefix|] == prefix
  }

  /** The link a post is indexed and announced under. */
  function Link(id: int, t: Tweet): string {
    Host + IntText(id) + "/" + BidText(t.bid)
  }

  /** The user id and the `bid` can be read back from the link. */
  lemma LinkReadsBack(id: int, t: Tweet)
    ensures var link, n := Link(id, t), |IntText(id)|;
      |link| == |Host| + n + 1 + |BidText(t.bid)|
      && link[..|Host|] == Host
      && ParseInt(link[|Host|..|Host| + n]) == Some(id)
      && link[|Host| + n] == '/'
      && link[|Host| + n + 1..] == BidText(t.bid)
  {
    var link, n := Link(id, t), |IntText(id)|;
    assert link[|Host|..|Host| + n] == IntText(id);
    IntTextRoundTrip(id);
  }

  /** The `link` cell of an index line; the header line is read as a row
      too, and its link cell is the column name. */
  function LinkCell(line: Line): string {
    match line
    case HeaderLine => "link"
    case RecordLine(_, _, link, _) => link
  }

  /** `Indexer.exist`: some row's link equals the link once both are
      stripped. */
  predicate Known(db: seq<Line>, link: string) {
    exists i :: 0 <= i < |db| && Strip(LinkCell(db[i])) == Strip(link)
  }

  /** Surrounding whitespace does not matter to the lookup. */
  lemma KnownIgnoresSpace(db: seq<Line>, link: string)
    ensures Known(db, link) <==> Known(db, Strip(link))
  {
    StripIdempotent(link);
  }

  /** `Indexer.ensure_database_created`: the data directory exists
      afterwards, and a missing index is created with the header only. */
  function CreateIndex(d: Disk): (e: Disk)
    ensures e.baseDir && e.index.Some? && e.imagesDir == d.imagesDir && e.media == d.media
    ensures d.index.None? ==> e.index == Some([HeaderLine])
    ensures d.index.Some? ==> e.index == d.index
  {
    Disk(true, d.imagesDir, if d.index.None? then Some([HeaderLine]) else d.index, d.media)
  }

  /** The record of a message, stamped with the time of writing. */
  function IndexRow(e: Entry, stamp: string): Line {
    RecordLine(e.user, Dumps(e.content), e.link, stamp)
  }

  /** `Indexer.write`: create the index if needed and append the record. */
  function Write(d: Disk, e: Entry, clock: nat -> string): Disk {
    var c := CreateIndex(d);
    var lines := c.index.value;
    c.(index := Some(lines + [IndexRow(e, clock(|lines|))]))
  }

  /** The appended record reads back as the message: user and link as they
      are, the content through the JSON decoder. */
  lemma WriteAppendsRecord(d: Disk, e: Entry, clock: nat -> string)
    ensures var lines := CreateIndex(d).index.value;
      var w := Write(d, e, clock);
      w.baseDir && w.imagesDir == d.imagesDir && w.media == d.media
      && w.index.Some? && |w.index.value| == |lines| + 1
      && w.index.value[..|lines|] == lines
      && w.index.value[|lines|] == RecordLine(e.user, Dumps(e.content), e.link, clock(|lines|))
      && Loads(w.index.value[|lines|].content) == Some(e.content)
  {
    var lines := CreateIndex(d).index.value;
    assert (lines + [IndexRow(e, clock(|lines|))])[..|lines|] == lines;
    DumpsRoundTrip(e.content);
  }

  // ---------------------------------------------------------------------------
  // save_message and tweet_to_message

  /** A change of the world and whether an exception escaped. */
  datatype Step = Step(world: World, raised: bool)

  /** `save_message`: the record, then the `images` directory, then each
      picture under its basename; the record stays when a picture fails. */
  function Save(w: World, e: Entry, clock: nat -> string): Step {
    var d := Write(w.disk, e, clock).(imagesDir := true);
    var s := SaveImages(d.media, Names(e.images), w.net.fetches);
    Step(World(d.(media := s.media), w.net.(fetches := s.rest)), s.raised)
  }

  /** What converting one post did: the world afterwards, the message (None
      for a post already indexed), and whether an exception escaped. */
  datatype Converted = Converted(world: World, entry: Option<Entry>, raised: bool)

  /** The author's screen name, `?` when the post does not carry one. */
  function User(t: Tweet): string {
    if t.screenName.Some? then t.screenName.value else "?"
  }

  /** `tweet_to_message`. A post whose link is in the index is dropped
      before anything else is read from it. A missing text or picture URL
      raises while the dictionary is built; a repost (`weibo_position` 3)
      raises on the missing `title` key before anything is saved. Otherwise
      the message is saved, and an exception from saving is swallowed. */
  function Convert(db: seq<Line>, w: World, id: int, t: Tweet, env: Env): Converted {
    var link := Link(id, t);
    if Known(db, link) then Converted(w, None, false)
    else if t.text.None? || PictureUrls(t.pics).None? then Converted(w, None, true)
    else
      var e := Entry(User(t), env.extract(ReplaceBreaks(t.text.value)), link, NonBlank(PictureUrls(t.pics).value));
      if t.position == Some(3) then Converted(w, None, true)
      else Converted(Save(w, e, env.clock).world, Some(e), false)
  }

  /** A post already in the index is dropped whatever it holds, even a
      missing text: nothing is written, fetched or raised. */
  lemma ConvertKnownSkips(db: seq<Line>, w: World, id: int, t: Tweet, env: Env, text: Option<string>, pics: seq<Option<string>>)
    ensures Known(db, Link(id, t)) ==> Convert(db, w, id, t, env) == Converted(w, None, false)
    ensures Known(db, Link(id, t)) ==> Convert(db, w, id, t.(text := text, pics := pics), env) == Converted(w, None, false)
  {
    assert Link(id, t.(text := text, pics := pics)) == Link(id, t);
  }

  /** A new post that is not a repost becomes a message: the author (or
      `?`), the HTML-stripped text with every `<br />` turned into a line
      break first, the link, and the non-blank picture URLs in order,
      duplicates kept. One record is
      appended to the index, the pictures directory exists, and nothing
      escapes even when a picture download fails. */
  lemma ConvertSaves(db: seq<Line>, w: World, id: int, t: Tweet, env: Env)
    requires !Known(db, Link(id, t))
    requires t.text.Some? && forall i :: 0 <= i < |t.pics| ==> t.pics[i].Some?
    requires t.position != Some(3)
    ensures var r := Convert(db, w, id, t, env);
      !r.raised && r.entry.Some?
      && r.entry.value.user == User(t)
      && r.entry.value.link == Link(id, t)
      && r.entry.value.content == env.extract(ReplaceBreaks(t.text.value))
      && r.entry.value.images == NonBlank(seq(|t.pics|, i requires 0 <= i < |t.pics| => t.pics[i].value))
      && (forall u :: u in r.entry.value.images <==> (exists i :: 0 <= i < |t.pics| && t.pics[i] == Some(u)) && !Blank(u))
    ensures var r := Convert(db, w, id, t, env); var lines := CreateIndex(w.disk).index.value;
      r.world.disk.baseDir && r.world.disk.imagesDir
      && r.world.disk.index == Some(lines + [IndexRow(r.entry.value, env.clock(|lines|))])
  {
    PictureUrlsIff(t.pics);
    var urls := PictureUrls(t.pics).value;
    assert urls == seq(|t.pics|, i requires 0 <= i < |t.pics| => t.pics[i].value);
    NonBlankMembers(urls);
    forall u ensures u in urls <==> exists i :: 0 <= i < |t.pics| && t.pics[i] == Some(u) {
      if u in urls {
        var i :| 0 <= i < |urls| && urls[i] == u;
        assert t.pics[i] == Some(u);
      }
    }
  }

  /** A repost raises before it is saved: nothing changes. */
  lemma ConvertRepostRaises(db: seq<Line>, w: World, id: int, t: Tweet, env: Env)
    requires !Known(db, Link(id, t))
    requires t.position == Some(3)
    ensures Convert(db, w, id, t, env) == Converted(w, None, true)
  {
  }

  /** The index is consulted as it was loaded, so a post converted once is
      converted again: the second time yields the same message and appends
      a second record. */
  lemma ConvertTwice(db: seq<Line>, w: World, id: int, t: Tweet, env: Env)
    requires Convert(db, w, id, t, env).entry.Some?
    ensures var first := Convert(db, w, id, t, env);
      var second := Convert(db, first.world, id, t, env);
      second.entry == first.entry && !second.raised
      && |second.world.disk.index.value| == |first.world.disk.index.value| + 1
  {
  }

  // ---------------------------------------------------------------------------
  // parse_activity_cards

  /** What a card yields: nothing, a post to convert, or an exception. */
  datatype Pick = Skip | Give(tweet: Tweet) | Fail

  /** A card without `mblog` is skipped. A long post is replaced by the
      `data` of its expansion; a failed expansion skips the card, and an
      expansion that is not an object, or has no `data`, raises. */
  function Choose(c: Card, xs: seq<Expansion>): (Pick, seq<Expansion>) {
    if c.mblog.None? then (Skip, xs)
    else if !c.mblog.value.isLongText then (Give(c.mblog.value), xs)
    else
      var x, rest := NextExpansion(xs).0, NextExpansion(xs).1;
      match x
      case ExpansionFailed => (Skip, rest)
      case NotObject => (Fail, rest)
      case Expanded(data) => if data.None? then (Fail, rest) else (Give(data.value), rest)
  }

  function Pushed(w: World, xs: seq<Expansion>): World {
    w.(net := w.net.(expansions := xs))
  }

  /** One card of the loop: skipped, converted, or raising. */
  function ReadCard(db: seq<Line>, w: World, id: int, c: Card, env: Env): Converted {
    var pick, xs := Choose(c, w.net.expansions).0, Choose(c, w.net.expansions).1;
    var w1 := Pushed(w, xs);
    match pick
    case Skip => Converted(w1, None, false)
    case Fail => Converted(w1, None, true)
    case Give(t) => Convert(db, w1, id, t, env)
  }

  /** The messages of the cards converted so far, the world afterwards,
      and whether an exception escaped. */
  datatype Parsed = Parsed(world: World, entries: seq<Entry>, raised: bool)

  /** `parse_activity_cards`: the messages of `cards` in card order; the
      first exception ends the walk. */
  function Parse(db: seq<Line>, w: World, id: int, cards: seq<Card>, env: Env): Parsed
    decreases |cards|
  {
    if cards == [] then Parsed(w, [], false)
    else
      var c := ReadCard(db, w, id, cards[0], env);
      if c.raised then Parsed(c.world, [], true)
      else
        var p := Parse(db, c.world, id, cards[1..], env);
        Parsed(p.world, (if c.entry.Some? then [c.entry.value] else []) + p.entries, p.raised)
  }

  /** At most one message per card, each under a link of this user. */
  lemma {:induction false} ParseEntries(db: seq<Line>, w: World, id: int, cards: seq<Card>, env: Env)
    ensures var p := Parse(db, w, id, cards, env);
      |p.entries| <= |cards|
      && forall k :: 0 <= k < |p.entries| ==> UnderUser(p.entries[k].link, id)
    decreases |cards|
  {
    if cards != [] {
      var c := ReadCard(db, w, id, cards[0], env);
      if !c.raised {
        ParseEntries(db, c.world, id, cards[1..], env);
        var p := Parse(db, c.world, id, cards[1..], env);
        if c.entry.Some? {
          var pick := Choose(cards[0], w.net.expansions).0;
          var link := Link(id, pick.tweet);
          assert c.entry.value.link == link;
          assert link[..|Host + IntText(id) + "/"|] == Host + IntText(id) + "/";
        }
      }
    }
  }

  /** The walk is sequential: parsing `a + b` is parsing `a`, then `b` from
      where `a` left the world, unless `a` raised. The messages of `a` come
      first, so the survivors keep card order. */
  lemma {:induction false} ParseConcat(db: seq<Line>, w: World, id: int, a: seq<Card>, b: seq<Card>, env: Env)
    ensures var pa := Parse(db, w, id, a, env);
      var pb := Parse(db, pa.world, id, b, env);
      !pa.raised ==> Parse(db, w, id, a + b, env) == Parsed(pb.world, pa.entries + pb.entries, pb.raised)
    decreases |a|
  {
    if a == [] {
      assert a + b == b;
    } else {
      var c := ReadCard(db, w, id, a[0], env);
      assert (a + b)[0] == a[0];
      assert (a + b)[1..] == a[1..] + b;
      if !c.raised {
        ParseConcat(db, c.world, id, a[1..], b, env);
        var pa1 := Parse(db, c.world, id, a[1..], env);
        var pb := Parse(db, pa1.world, id, b, env);
        var head: seq<Entry> := if c.entry.Some? then [c.entry.value] else [];
        assert head + (pa1.entries + pb.entries) == (head + pa1.entries) + pb.entries;
      }
    }
  }

  /** A long post whose expansion request fails is skipped: the expansion
      is consumed, and nothing is converted, saved or raised. */
  lemma ReadCardExpansionFailed(db: seq<Line>, w: World, id: int, t: Tweet, env: Env)
    requires t.isLongText && |w.net.expansions| > 0 && w.net.expansions[0] == ExpansionFailed
    ensures ReadCard(db, w, id, Card(Some(t)), env) == Converted(Pushed(w, w.net.expansions[1..]), None, false)
  {
  }

  /** A card with no post changes nothing. */
  lemma ParseSkipsEmptyCard(db: seq<Line>, w: World, id: int, cards: seq<Card>, env: Env)
    ensures Parse(db, w, id, [Card(None)] + cards, env) == Parse(db, w, id, cards, env)
  {
    assert ([Card(None)] + cards)[1..] == cards;
  }

  /** The same short post twice in one feed gives two messages and two
      records, since the index is not reloaded in between. */
  lemma ParseDuplicateCard(db: seq<Line>, w: World, id: int, t: Tweet, env: Env)
    requires !t.isLongText
    requires Convert(db, w, id, t, env).entry.Some?
    ensures var p := Parse(db, w, id, [Card(Some(t)), Card(Some(t))], env);
      var e := Convert(db, w, id, t, env).entry.value;
      !p.raised && p.entries == [e, e]
  {
    var cards := [Card(Some(t)), Card(Some(t))];
    var first := Convert(db, w, id, t, env);
    ConvertTwice(db, w, id, t, env);
    var second := Convert(db, first.world, id, t, env);
    assert Pushed(w, w.net.expansions) == w;
    assert Pushed(first.world, first.world.net.expansions) == first.world;
    assert ReadCard(db, w, id, Card(Some(t)), env) == first;
    assert ReadCard(db, first.world, id, Card(Some(t)), env) == second;
    assert cards[1..] == [Card(Some(t))];
    assert cards[1..][1..] == [];
    assert Parse(db, second.world, id, [], env) == Parsed(second.world, [], false);
    assert Parse(db, first.world, id, cards[1..], env) == Parsed(second.world, [second.entry.value], false);
  }
}

/** The legacy crawler: an `Indexer` holding the index rows read at
    start-up, and a `Creeper` that visits the configured Weibo users one
    after another, turns the new posts of each feed into messages (saving
    each one on the way) and announces them on Telegram with the older
    sender, which never retries. The data directory, the network and the
    trace of POSTs and sleeps are the state of the `Creeper`. */
module Crawler {
  import opened Text
  import opened JsonString
  import opened Effects
  import opened Mirror
  import opened Weibo
  import Telegram

  /** Seconds slept after every POST. */
  const Pause: int := 2

  /** Seconds slept after every user. */
  const Rest: int := 15

  /** The fullwidth colon after the author's name. */
  const Colon: string := "："

  /** What the crawler has changed so far: the world, and the POSTs and
      sleeps made since start-up. */
  datatype Progress = Progress(world: World, trace: seq<Action>)

  /** Progress, and whether an exception escaped. */
  datatype Outcome = Outcome(progress: Progress, raised: bool)

  function Replied(p: Progress, rest: seq<Reply>, actions: seq<Action>): Progress {
    Progress(p.world.(net := p.world.net.(replies := rest)), p.trace + actions)
  }

  // ---------------------------------------------------------------------------
  // The old Telegram sender

  /** One POST: a transport error, or an error status whose body is not
      JSON (printing `res.json()` raises), raises right after the POST;
      otherwise the sender sleeps two seconds. No reply is retried. */
  function PostOnce(p: Progress, call: Call): Outcome {
    var reply, rest := NextReply(p.world.net.replies).0, NextReply(p.world.net.replies).1;
    if reply.ConnectionFailed? || (reply.status != 200 && reply.body.NotJson?) then
      Outcome(Replied(p, rest, [Post(call)]), true)
    else
      Outcome(Replied(p, rest, [Post(call), Sleep(Pause)]), false)
  }

  /** The calls in order; the first exception ends the sequence. */
  function PostAll(p: Progress, calls: seq<Call>): Outcome
    decreases |calls|
  {
    if calls == [] then Outcome(p, false)
    else
      var o := PostOnce(p, calls[0]);
      if o.raised then o else PostAll(o.progress, calls[1..])
  }

  /** The trace of calls that all go through: each POST and its pause. */
  function Paced(calls: seq<Call>): seq<Action> {
    if calls == [] then [] else [Post(calls[0]), Sleep(Pause)] + Paced(calls[1..])
  }

  lemma PostAllCons(p: Progress, c: Call, cs: seq<Call>)
    ensures var o := PostOnce(p, c);
      PostAll(p, [c] + cs) == if o.raised then o else PostAll(o.progress, cs)
  {
    assert ([c] + cs)[0] == c && ([c] + cs)[1..] == cs;
  }

  lemma PacedCons(c: Call, cs: seq<Call>)
    ensures Paced([c] + cs) == [Post(c), Sleep(Pause)] + Paced(cs)
  {
    assert ([c] + cs)[0] == c && ([c] + cs)[1..] == cs;
  }

  /** The calls read replies and nothing else: the disk and the other
      inputs are not touched. */
  lemma {:induction false} PostAllFrame(p: Progress, calls: seq<Call>)
    ensures var o := PostAll(p, calls);
      && o.progress.world.disk == p.world.disk
      && o.progress.world.net == p.world.net.(replies := o.progress.world.net.replies)
    decreases |calls|
  {
    if calls != [] {
      var first := PostOnce(p, calls[0]);
      if !first.raised {
        assert PostAll(p, calls) == PostAll(first.progress, calls[1..]);
        PostAllFrame(first.progress, calls[1..]);
      }
    }
  }

  lemma PacedShift(pre: seq<Action>, calls: seq<Call>)
    requires calls != []
    ensures pre + [Post(calls[0]), Sleep(Pause)] + Paced(calls[1..]) == pre + Paced(calls)
  {
  }

  lemma PacedShiftRaised(pre: seq<Action>, calls: seq<Call>, j: nat)
    requires j + 1 < |calls|
    ensures pre + [Post(calls[0]), Sleep(Pause)] + Paced(calls[1..][..j]) + [Post(calls[1..][j])]
         == pre + Paced(calls[..j + 1]) + [Post(calls[j + 1])]
  {
    assert calls[..j + 1] == [calls[0]] + calls[1..][..j];
    PacedCons(calls[0], calls[1..][..j]);
  }

  /** Every POST is followed by the two-second pause; when a call raises,
      its POST is the last action and the calls after it are not made. */
  lemma {:induction false} PostAllTrace(p: Progress, calls: seq<Call>)
    ensures var o := PostAll(p, calls);
      && (!o.raised ==> o.progress.trace == p.trace + Paced(calls))
      && (o.raised ==> exists j :: 0 <= j < |calls| && o.progress.trace == p.trace + Paced(calls[..j]) + [Post(calls[j])])
    decreases |calls|
  {
    var o := PostAll(p, calls);
    if calls == [] {
      assert p.trace + Paced(calls) == p.trace;
    } else {
      var c, cs := calls[0], calls[1..];
      var first := PostOnce(p, c);
      if first.raised {
        assert calls[..0] == [];
        assert o.progress.trace == p.trace + Paced(calls[..0]) + [Post(calls[0])];
      } else {
        var q := first.progress;
        assert o == PostAll(q, cs);
        assert q.trace == p.trace + [Post(c), Sleep(Pause)];
        PostAllTrace(q, cs);
        if o.raised {
          var j :| 0 <= j < |cs| && o.progress.trace == q.trace + Paced(cs[..j]) + [Post(cs[j])];
          PacedShiftRaised(p.trace, calls, j);
        } else {
          PacedShift(p.trace, calls);
        }
      }
    }
  }

  /** The text of a message: the author, a fullwidth colon, `[n图]` when
      there are pictures, a line break and the content. */
  function LegacyText(e: Entry): string {
    e.user + Colon + Telegram.ImageTag(|e.images|) + "\n" + e.content
  }

  /** The text starts with the author and the colon and ends with a line
      break and the content; the tag is there exactly when there are
      pictures. */
  lemma LegacyTextLayout(e: Entry)
    ensures var text := LegacyText(e);
      && |text| >= |e.user| + 2 + |e.content|
      && text[..|e.user| + 1] == e.user + Colon
      && text[|text| - |e.content| - 1..] == "\n" + e.content
      && (e.images == [] <==> text[|e.user| + 1] == '\n')
  {
  }

  /** The calls of `send_message`: the text with the link button, then the
      pictures by the photo rule. */
  function LegacyCalls(e: Entry): seq<Call> {
    [TextCall(LegacyText(e), LinkButton, e.link)] + Telegram.PhotoCalls(Flatten(PhotoBatches(e.images)))
  }

  /** The photos sent: none, the first picture only, or every picture in
      order. */
  lemma LegacyPhotoCalls(e: Entry)
    ensures LegacyCalls(e)[0] == TextCall(LegacyText(e), LinkButton, e.link)
    ensures |e.images| == 0 ==> LegacyCalls(e)[1..] == []
    ensures 0 < |e.images| < 3 ==> LegacyCalls(e)[1..] == [PhotoCall(e.images[0])]
    ensures |e.images| >= 3 ==> LegacyCalls(e)[1..] == Telegram.PhotoCalls(e.images)
  {
    PhotoUrls(e.images);
    assert LegacyCalls(e)[1..] == Telegram.PhotoCalls(Flatten(PhotoBatches(e.images)));
  }

  /** Running `a + b` is running `a` and then, if nothing was raised, `b`. */
  lemma {:induction false} PostAllConcat(p: Progress, a: seq<Call>, b: seq<Call>)
    ensures var o := PostAll(p, a);
      PostAll(p, a + b) == if o.raised then o else PostAll(o.progress, b)
    decreases |a|
  {
    if a == [] {
      assert a + b == b;
    } else {
      assert (a + b)[0] == a[0] && (a + b)[1..] == a[1..] + b;
      var o := PostOnce(p, a[0]);
      if !o.raised {
        PostAllConcat(o.progress, a[1..], b);
      }
    }
  }

  // ---------------------------------------------------------------------------
  // run and run_all

  /** The messages in order; an exception while sending one is not caught,
      so the messages after it are not sent. */
  function SendEach(p: Progress, es: seq<Entry>): Outcome
    decreases |es|
  {
    if es == [] then Outcome(p, false)
    else
      var o := PostAll(p, LegacyCalls(es[0]));
      if o.raised then o else SendEach(o.progress, es[1..])
  }

  /** All the calls of a list of messages, in order. */
  function AllCalls(es: seq<Entry>): seq<Call> {
    if es == [] then [] else LegacyCalls(es[0]) + AllCalls(es[1..])
  }

  /** Sending the messages one by one is sending all their calls in one
      sequence. */
  lemma {:induction false} SendEachIsPostAll(p: Progress, es: seq<Entry>)
    ensures SendEach(p, es) == PostAll(p, AllCalls(es))
    decreases |es|
  {
    if es != [] {
      PostAllConcat(p, LegacyCalls(es[0]), AllCalls(es[1..]));
      var o := PostAll(p, LegacyCalls(es[0]));
      if !o.raised {
        SendEachIsPostAll(o.progress, es[1..]);
      }
    }
  }

  function Reverse<T>(s: seq<T>): seq<T> {
    if s == [] then [] else Reverse(s[1..]) + [s[0]]
  }

  /** The feed lists the newest card first; the crawler walks it from the
      oldest. */
  lemma {:induction false} ReverseAt<T>(s: seq<T>)
    ensures |Reverse(s)| == |s|
    ensures forall i :: 0 <= i < |s| ==> Reverse(s)[i] == s[|s| - 1 - i]
    decreases |s|
  {
    if s != [] {
      ReverseAt(s[1..]);
      forall i | 0 <= i < |s| ensures Reverse(s)[i] == s[|s| - 1 - i] {
        if i < |s| - 1 {
          assert Reverse(s)[i] == Reverse(s[1..])[i];
          assert s[1..][|s| - 2 - i] == s[|s| - 1 - i];
        }
      }
    }
  }

  /** `run`: fetch the feed (a failure ends the visit quietly), convert its
      cards from the oldest, then send the messages. An exception while
      converting or sending escapes the visit, and nothing is sent when
      converting fails. */
  function Visit(db: seq<Line>, p: Progress, id: int, env: Env): Outcome {
    var page, pages := NextPage(p.world.net.pages).0, NextPage(p.world.net.pages).1;
    var w := p.world.(net := p.world.net.(pages := pages));
    if page.PageFailed? then Outcome(Progress(w, p.trace), false)
    else
      var parsed := Parse(db, w, id, Reverse(page.cards), env);
      if parsed.raised then Outcome(Progress(parsed.world, p.trace), true)
      else SendEach(Progress(parsed.world, p.trace), parsed.entries)
  }

  /** `run` as a value, so that the loop of `run_all` can be stated for
      any visit. */
  function Visitor(db: seq<Line>, env: Env): (Progress, int) -> Outcome {
    (q: Progress, id: int) => Visit(db, q, id, env)
  }

  /** `run_all`: every user in order, whatever happened to the ones before,
      each followed by a fifteen-second rest. */
  function Crawl(p: Progress, ids: seq<int>, visit: (Progress, int) -> Outcome): Progress
    decreases |ids|
  {
    if ids == [] then p
    else
      var o := visit(p, ids[0]);
      Crawl(Progress(o.progress.world, o.progress.trace + [Sleep(Rest)]), ids[1..], visit)
  }

  /** A feed that cannot be fetched or read is skipped without an
      exception; nothing is sent or written. */
  lemma VisitPageFailed(db: seq<Line>, p: Progress, id: int, env: Env)
    requires NextPage(p.world.net.pages).0.PageFailed?
    ensures var o := Visit(db, p, id, env);
      !o.raised && o.progress.trace == p.trace && o.progress.world.disk == p.world.disk
  {
  }

  /** When a card raises, the messages converted before it are not sent,
      but what converting them saved stays: the world is the one the walk
      left. */
  lemma VisitParseFailed(db: seq<Line>, p: Progress, id: int, env: Env)
    requires var page := NextPage(p.world.net.pages).0;
      page.Cards? && Parse(db, p.world.(net := p.world.net.(pages := NextPage(p.world.net.pages).1)), id, Reverse(page.cards), env).raised
    ensures var o := Visit(db, p, id, env);
      o.raised && o.progress.trace == p.trace
      && o.progress.world == Parse(db, p.world.(net := p.world.net.(pages := NextPage(p.world.net.pages).1)), id, Reverse(NextPage(p.world.net.pages).0.cards), env).world
  {
  }

  /** A visit that only adds to the trace. */
  predicate ExtendsAt(visit: (Progress, int) -> Outcome, q: Progress, id: int) {
    |q.trace| <= |visit(q, id).progress.trace| && visit(q, id).progress.trace[..|q.trace|] == q.trace
  }

  ghost predicate Extends(visit: (Progress, int) -> Outcome) {
    forall q: Progress, id: int :: ExtendsAt(visit, q, id)
  }

  /** `run` only adds to the trace. */
  lemma VisitExtends(db: seq<Line>, env: Env)
    ensures Extends(Visitor(db, env))
  {
    forall p: Progress, id: int
      ensures ExtendsAt(Visitor(db, env), p, id)
    {
      var page := NextPage(p.world.net.pages).0;
      if page.Cards? {
        var w := p.world.(net := p.world.net.(pages := NextPage(p.world.net.pages).1));
        var parsed := Parse(db, w, id, Reverse(page.cards), env);
        if !parsed.raised {
          var q := Progress(parsed.world, p.trace);
          SendEachIsPostAll(q, parsed.entries);
          PostAllFrame(q, AllCalls(parsed.entries));
          PostAllTrace(q, AllCalls(parsed.entries));
        }
      }
    }
  }

  /** What each user's visit adds to the trace, followed by the rest. */
  function Segments(p: Progress, ids: seq<int>, visit: (Progress, int) -> Outcome): (parts: seq<seq<Action>>)
    requires Extends(visit)
    ensures |parts| == |ids|
    decreases |ids|
  {
    if ids == [] then []
    else
      var t := visit(p, ids[0]).progress.trace;
      assert ExtendsAt(visit, p, ids[0]);
      [t[|p.trace|..] + [Sleep(Rest)]]
        + Segments(Progress(visit(p, ids[0]).progress.world, t + [Sleep(Rest)]), ids[1..], visit)
  }

  /** The trace of `run_all` is one segment per user, in the given order. */
  lemma {:induction false} CrawlSegments(p: Progress, ids: seq<int>, visit: (Progress, int) -> Outcome)
    requires Extends(visit)
    ensures Crawl(p, ids, visit).trace == p.trace + Flatten(Segments(p, ids, visit))
    decreases |ids|
  {
    if ids == [] {
      assert p.trace + [] == p.trace;
    } else {
      var o := visit(p, ids[0]);
      var t := o.progress.trace;
      assert ExtendsAt(visit, p, ids[0]);
      var q := Progress(o.progress.world, t + [Sleep(Rest)]);
      var seg := t[|p.trace|..] + [Sleep(Rest)];
      var later := Segments(q, ids[1..], visit);
      CrawlSegments(q, ids[1..], visit);
      assert Segments(p, ids, visit) == [seg] + later;
      assert ([seg] + later)[1..] == later;
      assert t == p.trace + t[|p.trace|..];
      assert q.trace == p.trace + seg;
    }
  }

  /** Each user's segment ends with the fifteen-second rest, also for a
      user whose visit raised. */
  lemma {:induction false} SegmentsEndWithRest(p: Progress, ids: seq<int>, visit: (Progress, int) -> Outcome)
    requires Extends(visit)
    ensures forall k :: 0 <= k < |ids| ==> var s := Segments(p, ids, visit)[k]; |s| > 0 && s[|s| - 1] == Sleep(Rest)
    decreases |ids|
  {
    if ids != [] {
      var o := visit(p, ids[0]);
      var q := Progress(o.progress.world, o.progress.trace + [Sleep(Rest)]);
      SegmentsEndWithRest(q, ids[1..], visit);
      var parts := Segments(p, ids, visit);
      assert parts[1..] == Segments(q, ids[1..], visit);
      forall k | 0 <= k < |ids|
        ensures var s := parts[k]; |s| > 0 && s[|s| - 1] == Sleep(Rest)
      {
        if k > 0 {
          assert parts[k] == parts[1..][k - 1];
        }
      }
    }
  }

  // ---------------------------------------------------------------------------
  // The objects

  class Indexer {
    var database: seq<Line>

    /** `__init__`: the rows of the index, created first when missing; the
      header line is read as a row too. */
    constructor(d: Disk)
      ensures database == CreateIndex(d).index.value
    {
      database := CreateIndex(d).index.value;
    }

    /** `exist`: whether some row's link equals `link`, both stripped. */
    method Exist(link: string) returns (found: bool)
      ensures found <==> Known(database, link)
    {
      for i := 0 to |database|
        invariant forall j :: 0 <= j < i ==> Strip(LinkCell(database[j])) != Strip(link)
      {
        if Strip(LinkCell(database[i])) == Strip(link) {
          return true;
        }
      }
      return false;
    }
  }

  class Creeper {
    const weiboIds: seq<int>
    const indexer: Indexer
    const env: Env
    var disk: Disk
    var net: Net
    var trace: seq<Action>

    function Snapshot(): Progress
      reads this
    {
      Progress(World(disk, net), trace)
    }

    /** `__post_init__`: the indexer creates the index when it is missing
      and reads it. */
    constructor(ids: seq<int>, d: Disk, n: Net, e: Env)
      ensures weiboIds == ids && env == e && Snapshot() == Progress(World(CreateIndex(d), n), [])
      ensures indexer.database == CreateIndex(d).index.value
    {
      weiboIds, env := ids, e;
      disk, net, trace := CreateIndex(d), n, [];
      indexer := new Indexer(d);
    }

    /** `Indexer.ensure_database_created`. */
    method EnsureDatabaseCreated()
      modifies this
      ensures disk == CreateIndex(old(disk)) && net == old(net) && trace == old(trace)
    {
      disk := disk.(baseDir := true);
      if disk.index.None? {
        disk := disk.(index := Some([HeaderLine]));
      }
    }

    /** `Indexer.write`: the record goes to the file only; the rows the
      indexer holds are not updated. */
    method IndexWrite(e: Entry)
      modifies this
      ensures disk == Write(old(disk), e, env.clock) && net == old(net) && trace == old(trace)
    {
      EnsureDatabaseCreated();
      var lines := disk.index.value;
      disk := disk.(index := Some(lines + [RecordLine(e.user, Dumps(e.content), e.link, env.clock(|lines|))]));
    }

    /** `send_telegram_message`: one `sendMessage` POST and the pause. */
    method SendTelegramMessage(text: string, link: string) returns (raised: bool)
      modifies this
      ensures Outcome(Snapshot(), raised) == PostOnce(old(Snapshot()), TextCall(text, LinkButton, link))
    {
      var call := TextCall(text, LinkButton, link);
      var reply, rest := NextReply(net.replies).0, NextReply(net.replies).1;
      net := net.(replies := rest);
      trace := trace + [Post(call)];
      if reply.ConnectionFailed? {
        return true;
      }
      if reply.status != 200 && reply.body.NotJson? {
        return true;
      }
      trace := trace + [Sleep(Pause)];
      return false;
    }

    /** `send_telegram_photos`: one `sendPhoto` POST and pause per URL. */
    method SendTelegramPhotos(urls: seq<string>) returns (raised: bool)
      modifies this
      ensures Outcome(Snapshot(), raised) == PostAll(old(Snapshot()), Telegram.PhotoCalls(urls))
    {
      raised := false;
      for i := 0 to |urls|
        invariant PostAll(Snapshot(), Telegram.PhotoCalls(urls[i..])) == PostAll(old(Snapshot()), Telegram.PhotoCalls(urls))
        invariant !raised
      {
        var call := PhotoCall(urls[i]);
        assert Telegram.PhotoCalls(urls[i..]) == [call] + Telegram.PhotoCalls(urls[i + 1..]);
        ghost var before := Snapshot();
        PostAllCons(before, call, Telegram.PhotoCalls(urls[i + 1..]));
        var reply, rest := NextReply(net.replies).0, NextReply(net.replies).1;
        net := net.(replies := rest);
        trace := trace + [Post(call)];
        if reply.ConnectionFailed? || (reply.status != 200 && reply.body.NotJson?) {
          assert PostOnce(before, call) == Outcome(Snapshot(), true);
          return true;
        }
        trace := trace + [Sleep(Pause)];
        assert PostOnce(before, call) == Outcome(Snapshot(), false);
      }
      assert urls[|urls|..] == [];
    }

    /** `send_message`: the text, then the pictures by the photo rule. */
    method SendMessage(e: Entry) returns (raised: bool)
      modifies this
      ensures Outcome(Snapshot(), raised) == PostAll(old(Snapshot()), LegacyCalls(e))
    {
      var text := e.user + Colon;
      if |e.images| > 0 {
        text := text + "[" + NatText(|e.images|) + "图]";
      }
      text := text + "\n" + e.content;
      assert text == LegacyText(e);
      ghost var photos := Telegram.PhotoCalls(Flatten(PhotoBatches(e.images)));
      PostAllCons(Snapshot(), TextCall(text, LinkButton, e.link), photos);
      raised := SendTelegramMessage(text, e.link);
      if raised {
        return;
      }
      assert PostAll(old(Snapshot()), LegacyCalls(e)) == PostAll(Snapshot(), photos);
      if |e.images| < 3 {
        for i := 0 to |e.images|
          invariant i == 0
        {
          PhotoUrls(e.images);
          raised := SendTelegramPhotos([e.images[i]]);
          return;
        }
      }
      var slice := |e.images| / 2;
      Telegram.PhotoHalves(e.images);
      PostAllConcat(Snapshot(), Telegram.PhotoCalls(e.images[..slice]), Telegram.PhotoCalls(e.images[slice..]));
      raised := SendTelegramPhotos(e.images[..slice]);
      if raised {
        return;
      }
      raised := SendTelegramPhotos(e.images[slice..]);
    }

    /** `save_message`: the record, the `images` directory, then each
      picture, whose file is opened (and emptied) before its download. */
    method SaveMessage(e: Entry) returns (raised: bool)
      modifies this
      ensures Step(Snapshot().world, raised) == Save(old(Snapshot().world), e, env.clock) && trace == old(trace)
    {
      IndexWrite(e);
      disk := disk.(imagesDir := true);
      ghost var d0, n0 := disk, net;
      ghost var names := Names(e.images);
      raised := false;
      for i := 0 to |e.images|
        invariant disk == d0.(media := disk.media) && net == n0.(fetches := net.fetches) && trace == old(trace)
        invariant SaveImages(disk.media, names[i..], net.fetches) == SaveImages(d0.media, names, n0.fetches)
        invariant !raised
      {
        NamesAt(e.images, i);
        assert names[i..][0] == Basename(e.images[i]) && names[i..][1..] == names[i + 1..];
        var name := Basename(e.images[i]);
        if DirectoryName(name) {
          return true;
        }
        ghost var before := disk.media;
        disk := disk.(media := disk.media[name := []]);
        var fetch, rest := NextFetch(net.fetches).0, NextFetch(net.fetches).1;
        net := net.(fetches := rest);
        if fetch.FetchFailed? {
          return true;
        }
        disk := disk.(media := disk.media[name := fetch.bytes]);
        assert disk.media == before[name := fetch.bytes];
      }
      assert names[|e.images|..] == [];
    }

    /** `tweet_to_message`. */
    method TweetToMessage(id: int, t: Tweet) returns (entry: Option<Entry>, raised: bool)
      modifies this
      ensures Converted(Snapshot().world, entry, raised) == Convert(indexer.database, old(Snapshot().world), id, t, env)
      ensures trace == old(trace)
    {
      var link := Host + IntText(id) + "/" + (if t.bid.Some? then t.bid.value else "");
      var known := indexer.Exist(link);
      if known {
        return None, false;
      }
      if t.text.None? {
        return None, true;
      }
      var urls := PictureUrls(t.pics);
      if urls.None? {
        return None, true;
      }
      var user := if t.screenName.Some? then t.screenName.value else "?";
      var e := Entry(user, env.extract(ReplaceBreaks(t.text.value)), link, NonBlank(urls.value));
      if t.position == Some(3) {
        return None, true;
      }
      var failed := SaveMessage(e);
      return Some(e), false;
    }

    /** `parse_activity_cards`. */
    method ParseActivityCards(id: int, cards: seq<Card>) returns (entries: seq<Entry>, raised: bool)
      modifies this
      ensures Parsed(Snapshot().world, entries, raised) == Parse(indexer.database, old(Snapshot().world), id, cards, env)
      ensures trace == old(trace)
    {
      ghost var db := indexer.database;
      entries, raised := [], false;
      for i := 0 to |cards|
        invariant trace == old(trace)
        invariant var p := Parse(db, Snapshot().world, id, cards[i..], env);
          Parsed(p.world, entries + p.entries, p.raised) == Parse(db, old(Snapshot().world), id, cards, env)
        invariant !raised
      {
        assert cards[i..][0] == cards[i] && cards[i..][1..] == cards[i + 1..];
        var entry, failed := ReadCard(id, cards[i]);
        if failed {
          return entries, true;
        }
        ghost var p := Parse(db, Snapshot().world, id, cards[i + 1..], env);
        if entry.Some? {
          assert (entries + [entry.value]) + p.entries == entries + ([entry.value] + p.entries);
          entries := entries + [entry.value];
        } else {
          assert [] + p.entries == p.entries;
        }
      }
      assert cards[|cards|..] == [];
      assert entries + [] == entries;
    }

    /** One pass of the loop of `parse_activity_cards`: a card without a
      post is skipped, a long post is replaced by its expansion, and the
      post is converted. */
    method ReadCard(id: int, card: Card) returns (entry: Option<Entry>, raised: bool)
      modifies this
      ensures Converted(Snapshot().world, entry, raised) == Weibo.ReadCard(indexer.database, old(Snapshot().world), id, card, env)
      ensures trace == old(trace)
    {
      if card.mblog.None? {
        return None, false;
      }
      var tweet := card.mblog.value;
      if tweet.isLongText {
        var x, rest := NextExpansion(net.expansions).0, NextExpansion(net.expansions).1;
        net := net.(expansions := rest);
        match x {
          case ExpansionFailed =>
            return None, false;
          case NotObject =>
            return None, true;
          case Expanded(data) =>
            if data.None? {
              return None, true;
            }
            tweet := data.value;
        }
      }
      entry, raised := TweetToMessage(id, tweet);
    }

    /** `run`. */
    method Run(id: int) returns (raised: bool)
      modifies this
      ensures Outcome(Snapshot(), raised) == Visit(indexer.database, old(Snapshot()), id, env)
    {
      var page, pages := NextPage(net.pages).0, NextPage(net.pages).1;
      net := net.(pages := pages);
      if page.PageFailed? {
        return false;
      }
      var cards := Reverse(page.cards);
      var entries;
      entries, raised := ParseActivityCards(id, cards);
      if raised {
        return;
      }
      for i := 0 to |entries|
        invariant SendEach(Snapshot(), entries[i..]) == Visit(indexer.database, old(Snapshot()), id, env)
        invariant !raised
      {
        assert entries[i..][0] == entries[i] && entries[i..][1..] == entries[i + 1..];
        raised := SendMessage(entries[i]);
        if raised {
          return;
        }
      }
      assert entries[|entries|..] == [];
    }

    /** `run_all`: an exception from one user is caught and the next user
      is visited after the rest. */
    method RunAll()
      modifies this
      ensures Snapshot() == Crawl(old(Snapshot()), weiboIds, Visitor(indexer.database, env))
    {
      for i := 0 to |weiboIds|
        invariant Crawl(Snapshot(), weiboIds[i..], Visitor(indexer.database, env)) == Crawl(old(Snapshot()), weiboIds, Visitor(indexer.database, env))
      {
        assert weiboIds[i..][0] == weiboIds[i] && weiboIds[i..][1..] == weiboIds[i + 1..];
        var failed := Run(weiboIds[i]);
        trace := trace + [Sleep(Rest)];
      }
      assert weiboIds[|weiboIds|..] == [];
    }
  }
}

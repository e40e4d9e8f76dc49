/** The Telegram subscriber: the text of a notification, the retry and
    back-off loop around every Bot API call, and the order of calls for one
    message and for a list of messages. Network answers are an input sequence
    of replies; what the subscriber does is a trace of posts and sleeps, and
    an exception that escapes a call is the `raised` flag of its run. */
module Telegram {
  import opened Text
  import opened Model
  import opened Effects

  /** How many POSTs one API call may make. */
  const Attempts: nat := 3

  /** Beijing time is UTC plus eight hours. */
  const BeijingOffset: int := 8 * 3600

  const TimeLabel: string := "北京时间 "

  // ---------------------------------------------------------------------------
  // format_message

  /** `[n图]` when the post has pictures, nothing otherwise. */
  function ImageTag(n: nat): string {
    if n > 0 then "[" + NatText(n) + "图]" else ""
  }

  /** The notification text. `clock` renders a Unix time as
      `%Y-%m-%d %H:%M:%S` of the UTC calendar; it is given the post time
      shifted by eight hours. */
  function FormatMessage(m: Message, clock: int -> string): string {
    m.author + ": " + ImageTag(|m.images|) + "\n" + TimeLabel + clock(m.updateAt + BeijingOffset) + "\n" + m.content
  }

  /** The text starts with `author: `, ends with a line break and the
      content, and has a tag right after `author: ` exactly when the post has
      pictures. */
  lemma FormatMessageLayout(m: Message, clock: int -> string)
    ensures var text := FormatMessage(m, clock);
      && |text| >= |m.author| + 3 + |m.content|
      && text[..|m.author| + 2] == m.author + ": "
      && text[|text| - |m.content| - 1..] == "\n" + m.content
      && (m.images == [] <==> text[|m.author| + 2] == '\n')
  {
  }

  /** Right after `author: ` comes `[n图]` for the n pictures of the post (the
      count reads back as n), then the line with the Beijing time. */
  lemma FormatMessageTag(m: Message, clock: int -> string)
    requires m.images != []
    ensures var text, a, d := FormatMessage(m, clock), |m.author| + 2, NatText(|m.images|);
      && |text| > a + |d| + 2
      && text[a] == '['
      && ParseInt(text[a + 1..a + 1 + |d|]) == Some(|m.images|)
      && text[a + 1 + |d|..a + 3 + |d|] == "图]"
      && text[a + 3 + |d|..a + 4 + |d| + |TimeLabel|] == "\n" + TimeLabel
  {
    var n, d := |m.images|, NatText(|m.images|);
    var clk := clock(m.updateAt + BeijingOffset);
    Regroup(m.author, ": ", ImageTag(n), "\n", TimeLabel, clk, "\n", m.content);
    var text, a := FormatMessage(m, clock), |m.author| + 2;
    TagAfter(m.author + ": ", ImageTag(n), d, "\n" + TimeLabel, clk + "\n" + m.content, text);
    IntTextRoundTrip(n);
    assert IntText(n) == d;
    assert text[a + 1..a + 1 + |d|] == d;
    assert a + 4 + |d| + |TimeLabel| == a + 3 + |d| + |"\n" + TimeLabel|;
  }

  lemma Regroup(a: string, b: string, c: string, d: string, e: string, f: string, g: string, h: string)
    ensures a + b + c + d + e + f + g + h == (a + b) + (c + ((d + e) + (f + g + h)))
  {
  }

  /** Where the pieces of `head + "[" + d + "图]" + line + more` sit. */
  lemma TagAfter(head: string, tag: string, d: string, line: string, more: string, text: string)
    requires tag == "[" + d + "图]" && text == head + (tag + (line + more))
    ensures var a := |head|;
      && |text| >= a + |d| + 3 + |line| + |more|
      && text[a] == '['
      && text[a + 1..a + 1 + |d|] == d
      && text[a + 1 + |d|..a + 3 + |d|] == "图]"
      && text[a + 3 + |d|..a + 3 + |d| + |line|] == line
  {
    var a := |head|;
    var tail := "[" + d + "图]" + (line + more);
    assert text[a..] == tail;
    assert tail[1..1 + |d|] == d;
    assert tail[1 + |d|..3 + |d|] == "图]";
    assert tail[3 + |d|..3 + |d| + |line|] == line;
    assert text[a + 1..a + 1 + |d|] == tail[1..1 + |d|];
    assert text[a + 1 + |d|..a + 3 + |d|] == tail[1 + |d|..3 + |d|];
    assert text[a + 3 + |d|..a + 3 + |d| + |line|] == tail[3 + |d|..3 + |d| + |line|];
  }

  // ---------------------------------------------------------------------------
  // request_telegram_api

  /** What one call did: its trace, the replies still unread, and whether an
      exception escaped it. */
  datatype Run = Run(trace: seq<Action>, rest: seq<Reply>, raised: bool)

  /** `r` preceded by the actions `pre`. */
  function Then(pre: seq<Action>, r: Run): Run {
    Run(pre + r.trace, r.rest, r.raised)
  }

  /** The extra sleep after a failed POST: ten seconds for 420, `retry_after`
      (ten when absent) for 429; `int()` of a non-number and a negative
      `time.sleep` raise instead. */
  datatype Backoff = NoBackoff | Backoff(seconds: int) | BackoffRaises

  function ExtraSleep(status: int, ra: RetryAfter): Backoff {
    if status == 420 then Backoff(10)
    else if status == 429 then
      match ra
      case NoRetryAfter => Backoff(10)
      case RetryAfterInt(n) => if n < 0 then BackoffRaises else Backoff(n)
      case RetryAfterInvalid => BackoffRaises
    else NoBackoff
  }

  /** A reply after which the loop tries again: not 200, not 404, a JSON body
      (printing a non-JSON body raises), and a back-off that does not raise. */
  predicate Retryable(reply: Reply) {
    && reply.Http?
    && reply.status != 200
    && reply.status != 404
    && reply.body.Json?
    && !ExtraSleep(reply.status, reply.body.retryAfter).BackoffRaises?
  }

  /** Whether an HTTP reply that ends the loop makes it raise: printing a
      non-JSON error body, or a back-off that raises. */
  predicate Raises(reply: Reply)
    requires reply.Http?
  {
    reply.status != 200 && (reply.body.NotJson? || (reply.status != 404 && ExtraSleep(reply.status, reply.body.retryAfter).BackoffRaises?))
  }

  /** What a retryable reply adds to the trace: the POST, the one-second
      pacing sleep, and the back-off sleep if there is one. */
  function Paced(call: Call, reply: Reply): (pre: seq<Action>)
    requires Retryable(reply)
    ensures 2 <= |pre| <= 3 && pre[0] == Post(call) && pre[1] == Sleep(1)
    ensures forall i :: 1 <= i < |pre| ==> pre[i].Sleep?
  {
    match ExtraSleep(reply.status, reply.body.retryAfter)
    case Backoff(s) => [Post(call), Sleep(1), Sleep(s)]
    case NoBackoff => [Post(call), Sleep(1)]
  }

  lemma PacedPosts(call: Call, reply: Reply)
    requires Retryable(reply)
    ensures Posts(Paced(call, reply)) == 1
  {
    var pre := Paced(call, reply);
    PostThenSleeps(call, pre[1..]);
    assert [Post(call)] + pre[1..] == pre;
  }

  /** The POSTs of one API call with `retries` attempts left: a transport
      error raises at once; a retryable reply costs an attempt; any other
      reply ends the call after the pacing sleep. */
  function Request(call: Call, retries: nat, rs: seq<Reply>): Run
    decreases retries
  {
    if retries == 0 then Run([], rs, false)
    else
      var reply, rest := NextReply(rs).0, NextReply(rs).1;
      if reply.ConnectionFailed? then Run([Post(call)], rest, true)
      else if Retryable(reply) then Then(Paced(call, reply), Request(call, retries - 1, rest))
      else Run([Post(call), Sleep(1)], rest, Raises(reply))
  }

  function Drop<T>(s: seq<T>, k: nat): seq<T> {
    if k <= |s| then s[k..] else []
  }

  lemma DropNext(rs: seq<Reply>, k: nat)
    ensures Drop(NextReply(rs).1, k) == Drop(rs, k + 1)
  {
    if |rs| > 0 && k + 1 <= |rs| {
      assert rs[1..][k..] == rs[k + 1..];
    }
  }

  /** At most `retries` POSTs (at least one when any attempt is left), and
      each POST reads exactly one reply. */
  lemma {:induction false} RequestPosts(call: Call, retries: nat, rs: seq<Reply>)
    ensures Posts(Request(call, retries, rs).trace) <= retries
    ensures retries > 0 ==> Posts(Request(call, retries, rs).trace) >= 1
    ensures Request(call, retries, rs).rest == Drop(rs, Posts(Request(call, retries, rs).trace))
    decreases retries
  {
    if retries > 0 {
      var reply, rest := NextReply(rs).0, NextReply(rs).1;
      DropNext(rs, 0);
      if reply.ConnectionFailed? {
        assert Request(call, retries, rs) == Run([Post(call)], rest, true);
        PostThenSleeps(call, []);
        assert [Post(call)] + [] == [Post(call)];
      } else if Retryable(reply) {
        var next := Request(call, retries - 1, rest);
        assert Request(call, retries, rs) == Then(Paced(call, reply), next);
        RequestPosts(call, retries - 1, rest);
        PacedPosts(call, reply);
        PostsConcat(Paced(call, reply), next.trace);
        DropNext(rs, Posts(next.trace));
      } else {
        assert Request(call, retries, rs) == Run([Post(call), Sleep(1)], rest, Raises(reply));
        PostThenSleeps(call, [Sleep(1)]);
      }
    }
  }

  /** Every POST in `trace` is followed at once by a one-second sleep; only
      the last action of a run that raised may be a POST. */
  predicate WellPaced(trace: seq<Action>, raised: bool) {
    && (forall i :: 0 <= i < |trace| - 1 && trace[i].Post? ==> trace[i + 1] == Sleep(1))
    && (|trace| > 0 && trace[|trace| - 1].Post? ==> raised)
  }

  lemma PacedThen(pre: seq<Action>, next: Run)
    requires 2 <= |pre| && pre[1] == Sleep(1)
    requires forall i :: 1 <= i < |pre| ==> pre[i].Sleep?
    requires WellPaced(next.trace, next.raised)
    ensures WellPaced(pre + next.trace, next.raised)
  {
    var t := pre + next.trace;
    forall i | 0 <= i < |t| - 1 && t[i].Post?
      ensures t[i + 1] == Sleep(1)
    {
      if i >= |pre| {
        assert t[i] == next.trace[i - |pre|];
        assert t[i + 1] == next.trace[i - |pre| + 1];
      } else {
        assert i == 0 && t[1] == pre[1];
      }
    }
    if next.trace == [] {
      assert t == pre;
    } else {
      assert t[|t| - 1] == next.trace[|next.trace| - 1];
    }
  }

  /** Every POST is followed at once by a one-second sleep, whatever the
      answer; only a POST whose transport failed (and raised) is not. */
  lemma {:induction false} RequestPacing(call: Call, retries: nat, rs: seq<Reply>)
    ensures WellPaced(Request(call, retries, rs).trace, Request(call, retries, rs).raised)
    decreases retries
  {
    if retries > 0 {
      var reply, rest := NextReply(rs).0, NextReply(rs).1;
      if Retryable(reply) {
        RequestPacing(call, retries - 1, rest);
        PacedThen(Paced(call, reply), Request(call, retries - 1, rest));
      }
    }
  }

  /** The first `n` replies exist and are all retryable. */
  predicate RetryableBefore(rs: seq<Reply>, n: int) {
    n <= |rs| && forall i :: 0 <= i < n ==> Retryable(rs[i])
  }

  lemma RetryableBeforeCons(rs: seq<Reply>, n: int)
    requires |rs| > 0 && Retryable(rs[0]) && RetryableBefore(rs[1..], n - 1)
    ensures RetryableBefore(rs, n)
  {
    forall i | 1 <= i < n
      ensures Retryable(rs[i])
    {
      assert rs[i] == rs[1..][i - 1];
    }
  }

  /** A further POST happens only after a retryable reply: every reply read
      before the last one was retryable. */
  lemma {:induction false} RequestRetriesOnlyRetryable(call: Call, retries: nat, rs: seq<Reply>)
    ensures RetryableBefore(rs, Posts(Request(call, retries, rs).trace) - 1)
    decreases retries
  {
    if retries == 0 {
      assert Request(call, retries, rs).trace == [];
    } else {
      var reply, rest := NextReply(rs).0, NextReply(rs).1;
      var r := Request(call, retries, rs);
      if Retryable(reply) {
        var next := Request(call, retries - 1, rest);
        assert r == Then(Paced(call, reply), next);
        RequestRetriesOnlyRetryable(call, retries - 1, rest);
        PacedPosts(call, reply);
        PostsConcat(Paced(call, reply), next.trace);
        assert Posts(r.trace) - 1 == Posts(next.trace);
        assert rs[0] == reply && rs[1..] == rest;
        RetryableBeforeCons(rs, Posts(next.trace));
      } else if reply.ConnectionFailed? {
        PostThenSleeps(call, []);
        assert r.trace == [Post(call)] + [];
      } else {
        PostThenSleeps(call, [Sleep(1)]);
        assert r.trace == [Post(call)] + [Sleep(1)];
      }
    }
  }

  /** Replies that are all retryable use up every attempt, and the call then
      returns without raising. */
  lemma {:induction false} RequestGivesUpQuietly(call: Call, retries: nat, rs: seq<Reply>)
    requires retries <= |rs|
    requires forall i :: 0 <= i < retries ==> Retryable(rs[i])
    ensures Posts(Request(call, retries, rs).trace) == retries
    ensures !Request(call, retries, rs).raised
    decreases retries
  {
    if retries > 0 {
      var reply, rest := rs[0], rs[1..];
      assert Retryable(reply);
      var next := Request(call, retries - 1, rest);
      RequestGivesUpQuietly(call, retries - 1, rest);
      PacedPosts(call, reply);
      PostsConcat(Paced(call, reply), next.trace);
    }
  }

  /** 200 and 404 end the call after one POST and its pacing sleep. */
  lemma RequestStops(call: Call, retries: nat, rs: seq<Reply>)
    requires retries > 0 && |rs| > 0 && rs[0].Http?
    requires rs[0].status == 200 || (rs[0].status == 404 && rs[0].body.Json?)
    ensures Request(call, retries, rs) == Run([Post(call), Sleep(1)], rs[1..], false)
  {
  }

  /** A 429 whose body says `retry_after` 5 makes the loop sleep one second,
      then five, then POST again; three 429 answers make three POSTs, each
      followed by both sleeps, and no exception. */
  lemma TooManyRequestsExample(call: Call)
    ensures var busy := Http(429, Json(RetryAfterInt(5)));
      && Request(call, Attempts, [busy, Http(200, NotJson)])
         == Run([Post(call), Sleep(1), Sleep(5), Post(call), Sleep(1)], [], false)
      && Request(call, Attempts, [busy, busy, busy])
         == Run([Post(call), Sleep(1), Sleep(5), Post(call), Sleep(1), Sleep(5), Post(call), Sleep(1), Sleep(5)], [], false)
  {
  }

  /** One turn of the loop that ends it: the POST, and the pacing sleep
      unless the transport failed. */
  lemma StopStep(call: Call, retries: nat, left: seq<Reply>, done: seq<Action>)
    requires retries > 0 && !Retryable(NextReply(left).0)
    ensures var reply, rest := NextReply(left).0, NextReply(left).1;
      Then(done, Request(call, retries, left))
        == if reply.ConnectionFailed? then Run(done + [Post(call)], rest, true)
           else Run(done + [Post(call)] + [Sleep(1)], rest, Raises(reply))
  {
    assert done + [Post(call)] + [Sleep(1)] == done + [Post(call), Sleep(1)];
  }

  /** One turn of the loop that goes on: the POST and its sleeps, then the
      remaining attempts. */
  lemma RetryStep(call: Call, retries: nat, left: seq<Reply>, done: seq<Action>)
    requires retries > 0 && Retryable(NextReply(left).0)
    ensures Then(done, Request(call, retries, left))
      == Then(done + Paced(call, NextReply(left).0), Request(call, retries - 1, NextReply(left).1))
  {
    ThenThen(done, Paced(call, NextReply(left).0), Request(call, retries - 1, NextReply(left).1));
  }

  /** The actions of a retryable turn, as the loop appends them. */
  lemma PacedParts(done: seq<Action>, call: Call, reply: Reply, extra: seq<Action>)
    requires Retryable(reply)
    requires extra == match ExtraSleep(reply.status, reply.body.retryAfter)
      case Backoff(s) => [Sleep(s)]
      case _ => []
    ensures done + [Post(call)] + [Sleep(1)] + extra == done + Paced(call, reply)
  {
  }

  /** `request_telegram_api`: up to three POSTs, each followed by a
      one-second sleep, stopping at 200 or 404, sleeping longer on 420 and
      429, and returning normally when the attempts are used up. */
  method RequestTelegramApi(call: Call, rs: seq<Reply>) returns (trace: seq<Action>, rest: seq<Reply>, raised: bool)
    ensures Run(trace, rest, raised) == Request(call, Attempts, rs)
  {
    trace, rest, raised := [], rs, false;
    var retries: nat := Attempts;
    while retries > 0
      invariant Then(trace, Request(call, retries, rest)) == Request(call, Attempts, rs)
    {
      ghost var done, left := trace, rest;
      retries := retries - 1;
      var reply;
      reply, rest := NextReply(rest).0, NextReply(rest).1;
      trace := trace + [Post(call)];
      if reply.ConnectionFailed? {
        raised := true;
        StopStep(call, retries + 1, left, done);
        return;
      }
      trace := trace + [Sleep(1)];
      ghost var paced, extra := trace, [];
      if reply.status == 200 {
        StopStep(call, retries + 1, left, done);
        return;
      }
      if reply.body.NotJson? {
        raised := true;
        StopStep(call, retries + 1, left, done);
        return;
      }
      if reply.status == 404 {
        StopStep(call, retries + 1, left, done);
        return;
      }
      if reply.status == 420 {
        trace, extra := trace + [Sleep(10)], [Sleep(10)];
      }
      if reply.status == 429 {
        var secs: int;
        match reply.body.retryAfter {
          case NoRetryAfter => secs := 10;
          case RetryAfterInt(n) => secs := n;
          case RetryAfterInvalid =>
            raised := true;
            StopStep(call, retries + 1, left, done);
            return;
        }
        if secs < 0 {
          raised := true;
          StopStep(call, retries + 1, left, done);
          return;
        }
        trace, extra := trace + [Sleep(secs)], [Sleep(secs)];
      }
      assert Retryable(reply);
      assert trace == paced + extra;
      PacedParts(done, call, reply, extra);
      RetryStep(call, retries + 1, left, done);
    }
  }

  // ---------------------------------------------------------------------------
  // A sequence of API calls, each with its own retry loop; the first
  // exception ends the sequence.

  function RequestAll(calls: seq<Call>, rs: seq<Reply>): Run
    decreases |calls|
  {
    if calls == [] then Run([], rs, false)
    else
      var r := Request(calls[0], Attempts, rs);
      if r.raised then r else Then(r.trace, RequestAll(calls[1..], r.rest))
  }

  lemma ThenThen(t: seq<Action>, u: seq<Action>, r: Run)
    ensures Then(t, Then(u, r)) == Then(t + u, r)
  {
    assert t + (u + r.trace) == (t + u) + r.trace;
  }

  /** Running `a` then `b` is running `a + b`. */
  lemma {:induction false} RequestAllConcat(a: seq<Call>, b: seq<Call>, rs: seq<Reply>)
    ensures var ra := RequestAll(a, rs);
      RequestAll(a + b, rs) == if ra.raised then ra else Then(ra.trace, RequestAll(b, ra.rest))
    decreases |a|
  {
    if a == [] {
      assert a + b == b;
    } else {
      assert (a + b)[0] == a[0];
      assert (a + b)[1..] == a[1..] + b;
      var r := Request(a[0], Attempts, rs);
      if !r.raised {
        var tail := RequestAll(a[1..], r.rest);
        assert RequestAll(a + b, rs) == Then(r.trace, RequestAll(a[1..] + b, r.rest));
        assert RequestAll(a, rs) == Then(r.trace, tail);
        RequestAllConcat(a[1..], b, r.rest);
        if !tail.raised {
          ThenThen(r.trace, tail.trace, RequestAll(b, tail.rest));
        }
      }
    }
  }

  /** No more than three POSTs per call. */
  lemma {:induction false} RequestAllPosts(calls: seq<Call>, rs: seq<Reply>)
    ensures Posts(RequestAll(calls, rs).trace) <= Attempts * |calls|
    decreases |calls|
  {
    if calls != [] {
      var r := Request(calls[0], Attempts, rs);
      RequestPosts(calls[0], Attempts, rs);
      if !r.raised {
        RequestAllPosts(calls[1..], r.rest);
        PostsConcat(r.trace, RequestAll(calls[1..], r.rest).trace);
      }
    }
  }

  function PhotoCalls(urls: seq<string>): (calls: seq<Call>)
    ensures |calls| == |urls|
    ensures forall i :: 0 <= i < |urls| ==> calls[i] == PhotoCall(urls[i])
  {
    if urls == [] then [] else [PhotoCall(urls[0])] + PhotoCalls(urls[1..])
  }

  /** `send_photo_message`: one `sendPhoto` call per URL, in order. */
  method SendPhotoMessage(urls: seq<string>, rs: seq<Reply>) returns (trace: seq<Action>, rest: seq<Reply>, raised: bool)
    ensures Run(trace, rest, raised) == RequestAll(PhotoCalls(urls), rs)
  {
    trace, rest, raised := [], rs, false;
    for i := 0 to |urls|
      invariant Then(trace, RequestAll(PhotoCalls(urls[i..]), rest)) == RequestAll(PhotoCalls(urls), rs)
      invariant !raised
    {
      assert PhotoCalls(urls[i..]) == [PhotoCall(urls[i])] + PhotoCalls(urls[i + 1..]);
      RequestAllCons(PhotoCall(urls[i]), PhotoCalls(urls[i + 1..]), rest);
      var t, left, failed := RequestTelegramApi(PhotoCall(urls[i]), rest);
      if !failed {
        ThenThen(trace, t, RequestAll(PhotoCalls(urls[i + 1..]), left));
      }
      trace, rest := trace + t, left;
      if failed {
        raised := true;
        return;
      }
    }
    assert urls[|urls|..] == [];
  }

  // ---------------------------------------------------------------------------
  // send_message and send_messages

  /** The calls one message makes: its text with the link button, then one
      `sendPhoto` per URL of its photo batches. */
  function MessageCalls(m: Message, clock: int -> string): seq<Call> {
    [TextCall(FormatMessage(m, clock), LinkButton, m.link)] + PhotoCalls(Flatten(PhotoBatches(m.images)))
  }

  /** The photo calls of a message: none, the first picture only, or every
      picture in order. */
  lemma MessagePhotoCalls(m: Message, clock: int -> string)
    ensures MessageCalls(m, clock)[0] == TextCall(FormatMessage(m, clock), LinkButton, m.link)
    ensures |m.images| == 0 ==> MessageCalls(m, clock)[1..] == []
    ensures 0 < |m.images| < 3 ==> MessageCalls(m, clock)[1..] == [PhotoCall(m.images[0])]
    ensures |m.images| >= 3 ==> MessageCalls(m, clock)[1..] == PhotoCalls(m.images)
  {
    PhotoUrls(m.images);
    assert MessageCalls(m, clock)[1..] == PhotoCalls(Flatten(PhotoBatches(m.images)));
  }

  /** The first call of a sequence, then the rest unless it raised. */
  lemma RequestAllCons(c: Call, cs: seq<Call>, rs: seq<Reply>)
    ensures var r := Request(c, Attempts, rs);
      RequestAll([c] + cs, rs) == if r.raised then r else Then(r.trace, RequestAll(cs, r.rest))
  {
    assert ([c] + cs)[0] == c && ([c] + cs)[1..] == cs;
  }

  /** The photo calls of a message with no picture or with three or more:
      the calls for the first half, then those for the second. */
  lemma PhotoHalves(images: seq<string>)
    requires |images| == 0 || |images| >= 3
    ensures PhotoCalls(Flatten(PhotoBatches(images)))
      == PhotoCalls(images[..|images| / 2]) + PhotoCalls(images[|images| / 2..])
  {
    var first, second := images[..|images| / 2], images[|images| / 2..];
    var batches := PhotoBatches(images);
    assert batches == [first, second];
    assert Flatten(batches[1..][1..]) == [];
    assert Flatten(batches[1..]) == second + [];
    assert Flatten(batches) == first + second;
    PhotoCallsConcat(first, second);
  }

  /** `send_message`: the text first, then the pictures as the photo rule
      says; an exception from any call ends the message. */
  method SendMessage(m: Message, clock: int -> string, rs: seq<Reply>) returns (trace: seq<Action>, rest: seq<Reply>, raised: bool)
    ensures Run(trace, rest, raised) == RequestAll(MessageCalls(m, clock), rs)
  {
    var call := TextCall(FormatMessage(m, clock), LinkButton, m.link);
    ghost var photos := PhotoCalls(Flatten(PhotoBatches(m.images)));
    RequestAllCons(call, photos, rs);
    trace, rest, raised := RequestTelegramApi(call, rs);
    if raised {
      return;
    }
    ghost var head := trace;
    assert RequestAll(MessageCalls(m, clock), rs) == Then(head, RequestAll(photos, rest));
    if |m.images| < 3 {
      for i := 0 to |m.images|
        invariant i == 0
      {
        PhotoUrls(m.images);
        var t, left, failed := SendPhotoMessage([m.images[i]], rest);
        trace, rest, raised := trace + t, left, failed;
        return;
      }
    }
    var slice := |m.images| / 2;
    ghost var r1 := RequestAll(PhotoCalls(m.images[..slice]), rest);
    assert RequestAll(photos, rest)
      == if r1.raised then r1 else Then(r1.trace, RequestAll(PhotoCalls(m.images[slice..]), r1.rest)) by {
      PhotoHalves(m.images);
      RequestAllConcat(PhotoCalls(m.images[..slice]), PhotoCalls(m.images[slice..]), rest);
    }
    var t, left, failed := SendPhotoMessage(m.images[..slice], rest);
    trace, rest, raised := trace + t, left, failed;
    if raised {
      return;
    }
    ghost var r2 := RequestAll(PhotoCalls(m.images[slice..]), rest);
    t, left, failed := SendPhotoMessage(m.images[slice..], rest);
    ThenThen(head, r1.trace, r2);
    trace, rest, raised := trace + t, left, failed;
  }

  lemma {:induction false} PhotoCallsConcat(a: seq<string>, b: seq<string>)
    ensures PhotoCalls(a + b) == PhotoCalls(a) + PhotoCalls(b)
    decreases |a|
  {
    if a == [] {
      assert a + b == b;
    } else {
      assert (a + b)[0] == a[0];
      assert (a + b)[1..] == a[1..] + b;
      PhotoCallsConcat(a[1..], b);
    }
  }

  /** `send_messages`: every message in order; an exception while sending
      one is caught and the loop goes on with the next. */
  function SendAll(ms: seq<Message>, clock: int -> string, rs: seq<Reply>): Run
    decreases |ms|
  {
    if ms == [] then Run([], rs, false)
    else
      var one := RequestAll(MessageCalls(ms[0], clock), rs);
      Then(one.trace, SendAll(ms[1..], clock, one.rest))
  }

  /** The run of each message in turn, each starting where the previous one
      stopped reading replies. */
  function MessageRuns(ms: seq<Message>, clock: int -> string, rs: seq<Reply>): (runs: seq<Run>)
    ensures |runs| == |ms|
    decreases |ms|
  {
    if ms == [] then []
    else
      var one := RequestAll(MessageCalls(ms[0], clock), rs);
      [one] + MessageRuns(ms[1..], clock, one.rest)
  }

  function Traces(runs: seq<Run>): seq<seq<Action>> {
    if runs == [] then [] else [runs[0].trace] + Traces(runs[1..])
  }

  /** Whatever happened to the messages before it, every message is
      attempted: its part of the trace begins with the POST of its own text,
      the parts follow the list order, and nothing escapes the loop. */
  lemma {:induction false} SendAllIsolation(ms: seq<Message>, clock: int -> string, rs: seq<Reply>)
    ensures !SendAll(ms, clock, rs).raised
    ensures SendAll(ms, clock, rs).trace == Flatten(Traces(MessageRuns(ms, clock, rs)))
    ensures forall i :: 0 <= i < |ms| ==>
      var t := MessageRuns(ms, clock, rs)[i].trace;
      |t| > 0 && t[0] == Post(TextCall(FormatMessage(ms[i], clock), LinkButton, ms[i].link))
    decreases |ms|
  {
    if ms != [] {
      var one := RequestAll(MessageCalls(ms[0], clock), rs);
      var runs := MessageRuns(ms, clock, rs);
      SendAllIsolation(ms[1..], clock, one.rest);
      FirstActionIsText(ms[0], clock, rs);
      assert runs[1..] == MessageRuns(ms[1..], clock, one.rest);
      assert Traces(runs) == [one.trace] + Traces(runs[1..]);
      forall i | 0 <= i < |ms|
        ensures var t := runs[i].trace;
          |t| > 0 && t[0] == Post(TextCall(FormatMessage(ms[i], clock), LinkButton, ms[i].link))
      {
        if i > 0 {
          assert runs[i] == MessageRuns(ms[1..], clock, one.rest)[i - 1];
          assert ms[i] == ms[1..][i - 1];
        }
      }
    }
  }

  lemma FirstActionIsText(m: Message, clock: int -> string, rs: seq<Reply>)
    ensures var t := RequestAll(MessageCalls(m, clock), rs).trace;
      |t| > 0 && t[0] == Post(TextCall(FormatMessage(m, clock), LinkButton, m.link))
  {
    var call := TextCall(FormatMessage(m, clock), LinkButton, m.link);
    var r := Request(call, Attempts, rs);
    assert MessageCalls(m, clock)[0] == call;
    assert r.trace[0] == Post(call);
  }

  /** `send_messages` as a loop over the messages. */
  method SendMessages(ms: seq<Message>, clock: int -> string, rs: seq<Reply>) returns (trace: seq<Action>, rest: seq<Reply>)
    ensures Run(trace, rest, false) == SendAll(ms, clock, rs)
  {
    trace, rest := [], rs;
    for i := 0 to |ms|
      invariant Then(trace, SendAll(ms[i..], clock, rest)) == SendAll(ms, clock, rs)
    {
      assert ms[i..][0] == ms[i] && ms[i..][1..] == ms[i + 1..];
      var t, left, failed := SendMessage(ms[i], clock, rest);
      assert SendAll(ms[i..], clock, rest) == Then(t, SendAll(ms[i + 1..], clock, left));
      ThenThen(trace, t, SendAll(ms[i + 1..], clock, left));
      trace, rest := trace + t, left;
    }
    assert ms[|ms|..] == [];
  }
}

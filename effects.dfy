/** What the program does to and receives from the outside world, recorded
    as data: the Telegram Bot API calls it makes and the sleeps between them
    (a trace), the answers it gets back (input sequences consumed in order),
    the image downloads, and the lines of the CSV index file. Also the rule,
    shared by both Telegram senders, that splits a post's pictures into
    `sendPhoto` batches. */
module Effects {

  /** The label of the single inline-keyboard button that links back to the
      post on Weibo. */
  const LinkButton: string := "🔗点击查看原微博"

  /** One Bot API request: `sendMessage` with text and a link button, or
      `sendPhoto` with a photo URL. The chat id is fixed configuration and is
      left out of the record. */
  datatype Call =
    | TextCall(text: string, button: string, url: string)
    | PhotoCall(photo: string)

  /** One observable step: a POST of a call, or a `time.sleep` of so many
      seconds. */
  datatype Action = Post(call: Call) | Sleep(seconds: int)

  /** The `retry_after` entry of a JSON error body, after `int(...)`: absent
      (also when `parameters` is absent), an integer, or a value `int()`
      rejects. */
  datatype RetryAfter = NoRetryAfter | RetryAfterInt(n: int) | RetryAfterInvalid

  /** A response body: JSON (with its `retry_after`) or text that `res.json()`
      cannot parse. */
  datatype Body = Json(retryAfter: RetryAfter) | NotJson

  /** What one POST gives back: an HTTP response, or a transport error that
      `requests.post` raises. */
  datatype Reply = Http(status: int, body: Body) | ConnectionFailed

  /** The reply to the next POST; once the given replies are used up every
      further POST fails to connect. */
  function NextReply(rs: seq<Reply>): (r: (Reply, seq<Reply>))
    ensures |rs| > 0 ==> r == (rs[0], rs[1..])
    ensures |rs| == 0 ==> r == (ConnectionFailed, [])
  {
    if |rs| > 0 then (rs[0], rs[1..]) else (ConnectionFailed, [])
  }

  function Posts(trace: seq<Action>): nat {
    if trace == [] then 0 else (if trace[0].Post? then 1 else 0) + Posts(trace[1..])
  }

  lemma {:induction false} PostsConcat(a: seq<Action>, b: seq<Action>)
    ensures Posts(a + b) == Posts(a) + Posts(b)
  {
    if a == [] {
      assert a + b == b;
    } else {
      assert (a + b)[0] == a[0];
      assert (a + b)[1..] == a[1..] + b;
      PostsConcat(a[1..], b);
    }
  }

  /** A POST followed only by sleeps counts once. */
  lemma {:induction false} PostThenSleeps(call: Call, sleeps: seq<Action>)
    requires forall i :: 0 <= i < |sleeps| ==> sleeps[i].Sleep?
    ensures Posts([Post(call)] + sleeps) == 1
    ensures Posts(sleeps) == 0
    decreases |sleeps|
  {
    assert ([Post(call)] + sleeps)[1..] == sleeps;
    if sleeps != [] {
      PostThenSleeps(call, sleeps[1..]);
    }
  }

  /** The outcome of one image download: the body bytes (whatever the HTTP
      status), or an error that `session.get` raises. */
  datatype Fetch = Fetched(bytes: seq<bv8>) | FetchFailed

  function NextFetch(fs: seq<Fetch>): (r: (Fetch, seq<Fetch>))
    ensures |fs| > 0 ==> r == (fs[0], fs[1..])
    ensures |fs| == 0 ==> r == (FetchFailed, [])
  {
    if |fs| > 0 then (fs[0], fs[1..]) else (FetchFailed, [])
  }

  /** A line of the CSV index (columns user, content, link, update_at): the
      header line, or one record with its four cells as text. */
  datatype Line = HeaderLine | RecordLine(user: string, content: string, link: string, updateAt: string)

  // ---------------------------------------------------------------------------
  // The photo rule of both Telegram senders

  /** The lists the message sender passes to the photo sender, in order.
      Under three pictures the loop sends the first picture and returns from
      inside its body, so a second picture is never sent; with no picture the
      loop does not run and the code falls through to the split of an empty
      list. From three pictures on, the list is cut at `int(n / 2)`. */
  function PhotoBatches(images: seq<string>): (b: seq<seq<string>>)
  {
    if |images| < 3 && |images| > 0 then [[images[0]]]
    else [images[..|images| / 2], images[|images| / 2..]]
  }

  function Flatten<T>(xss: seq<seq<T>>): seq<T> {
    if xss == [] then [] else xss[0] + Flatten(xss[1..])
  }

  /** The photo URLs that are sent, one `sendPhoto` each: none, the first
      picture only, or every picture in order. */
  lemma PhotoUrls(images: seq<string>)
    ensures |images| == 0 ==> Flatten(PhotoBatches(images)) == []
    ensures 0 < |images| < 3 ==> Flatten(PhotoBatches(images)) == [images[0]]
    ensures |images| >= 3 ==> Flatten(PhotoBatches(images)) == images
  {
    var b := PhotoBatches(images);
    if |images| >= 3 || |images| == 0 {
      var k := |images| / 2;
      assert Flatten(b[1..]) == images[k..] + Flatten(b[2..]);
      assert images[..k] + images[k..] == images;
    } else {
      assert Flatten(b) == [images[0]] + Flatten(b[1..]);
    }
  }

  /** From three pictures on there are two non-empty batches and the first
      is never the larger. */
  lemma PhotoSplitSizes(images: seq<string>)
    requires |images| >= 3
    ensures |PhotoBatches(images)| == 2
    ensures 1 <= |PhotoBatches(images)[0]| <= |PhotoBatches(images)[1]|
    ensures |PhotoBatches(images)[1]| <= |PhotoBatches(images)[0]| + 1
  {
  }
}

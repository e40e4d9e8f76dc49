/** The CSV subscriber: an index file of one row per post under a base
    directory, and a mirror of the post pictures under `images/`. The disk is
    the state of a `CsvSubscriber` object; image downloads are an input
    sequence of fetch outcomes, and an exception that escapes a call is the
    `raised` result of the method. */
module Ledger {
  import opened Text
  import opened JsonString
  import opened Model
  import opened Effects
  import opened Mirror

  /** `ensure_database_created`: both directories exist afterwards, and a
      missing index file is created holding only the header line. */
  function EnsureCreated(d: Disk): (e: Disk)
    ensures e.baseDir && e.imagesDir && e.index.Some? && e.media == d.media
    ensures d.index.None? ==> e.index == Some([HeaderLine])
    ensures d.index.Some? ==> e.index == d.index
  {
    Disk(true, true, if d.index.None? then Some([HeaderLine]) else d.index, d.media)
  }

  /** Creating the database again changes nothing. */
  lemma EnsureCreatedIdempotent(d: Disk)
    ensures EnsureCreated(EnsureCreated(d)) == EnsureCreated(d)
  {
  }

  /** The record written for a post: author, the JSON literal of the
      content, link, and `str` of the post time. */
  function Row(m: Message): Line {
    RecordLine(m.author, Dumps(m.content), m.link, IntText(m.updateAt))
  }

  /** Every cell of a record reads back as the field it was written from,
      and the content cell is one quoted JSON literal with no raw line
      break. */
  lemma RowReadsBack(m: Message)
    ensures Row(m).user == m.author && Row(m).link == m.link
    ensures Loads(Row(m).content) == Some(m.content)
    ensures ParseInt(Row(m).updateAt) == Some(m.updateAt)
    ensures var c := Row(m).content;
      |c| >= 2 && c[0] == '"' && c[|c| - 1] == '"' && '\n' !in c && '\r' !in c
  {
    DumpsRoundTrip(m.content);
    IntTextRoundTrip(m.updateAt);
  }

  /** The whole of `send_message` on a disk: create the database if needed,
      append the row, then save the pictures. */
  datatype Outcome = Outcome(disk: Disk, rest: seq<Fetch>, raised: bool)

  function Deliver(d: Disk, m: Message, fs: seq<Fetch>): Outcome {
    var e := EnsureCreated(d);
    var saved := SaveImages(e.media, Names(m.images), fs);
    Outcome(Disk(true, true, Some(e.index.value + [Row(m)]), saved.media), saved.rest, saved.raised)
  }

  /** `send_messages`: every message in turn, whatever happened to the ones
      before it. */
  function DeliverAll(d: Disk, ms: seq<Message>, fs: seq<Fetch>): Outcome
    decreases |ms|
  {
    if ms == [] then Outcome(d, fs, false)
    else
      var one := Deliver(d, ms[0], fs);
      DeliverAll(one.disk, ms[1..], one.rest)
  }

  /** The records of `ms`, in order. */
  function Rows(ms: seq<Message>): seq<Line> {
    if ms == [] then [] else [Row(ms[0])] + Rows(ms[1..])
  }

  // ---------------------------------------------------------------------------
  // Properties of the specification

  /** The row goes in before any picture is fetched and stays there whatever
      the pictures do: the earlier lines are kept and exactly one record is
      added, even when the call raises. */
  lemma DeliverAppendsRow(d: Disk, m: Message, fs: seq<Fetch>)
    ensures var o := Deliver(d, m, fs);
      o.disk.index == Some(EnsureCreated(d).index.value + [Row(m)])
    ensures var o := Deliver(d, m, fs);
      d.index.Some? ==> o.disk.index.value[..|d.index.value|] == d.index.value
  {
    var o := Deliver(d, m, fs);
    if d.index.Some? {
      assert o.disk.index.value[..|d.index.value|] == d.index.value;
    }
  }

  lemma AppendAssoc<T>(a: seq<T>, b: seq<T>, c: seq<T>)
    ensures (a + b) + c == a + (b + c)
  {
  }

  /** Once the index exists, one record per message is added in list order
      behind the lines that were there, even for messages whose pictures
      failed. */
  lemma {:induction false} DeliverAllRows(d: Disk, ms: seq<Message>, fs: seq<Fetch>)
    requires d.index.Some?
    ensures DeliverAll(d, ms, fs).disk.index == Some(d.index.value + Rows(ms))
    decreases |ms|
  {
    if ms == [] {
      assert d.index.value + Rows(ms) == d.index.value;
    } else {
      var one := Deliver(d, ms[0], fs);
      var lines, row := d.index.value, Row(ms[0]);
      assert one.disk.index == Some(lines + [row]) by {
        DeliverAppendsRow(d, ms[0], fs);
      }
      DeliverAllRows(one.disk, ms[1..], one.rest);
      assert Rows(ms) == [row] + Rows(ms[1..]);
      AppendAssoc(lines, [row], Rows(ms[1..]));
    }
  }

  /** `send_messages` with at least one message: the database is created
      first, then one record per message. */
  lemma DeliverAllCreates(d: Disk, ms: seq<Message>, fs: seq<Fetch>)
    requires ms != []
    ensures DeliverAll(d, ms, fs).disk.index == Some(EnsureCreated(d).index.value + Rows(ms))
  {
    var one := Deliver(d, ms[0], fs);
    var lines, row := EnsureCreated(d).index.value, Row(ms[0]);
    assert one.disk.index == Some(lines + [row]) by {
      DeliverAppendsRow(d, ms[0], fs);
    }
    DeliverAllRows(one.disk, ms[1..], one.rest);
    assert Rows(ms) == [row] + Rows(ms[1..]);
    AppendAssoc(lines, [row], Rows(ms[1..]));
  }

  // ---------------------------------------------------------------------------
  // The subscriber object

  class CsvSubscriber {
    var baseDir: bool
    var imagesDir: bool
    var index: Option<seq<Line>>
    var media: map<string, seq<bv8>>

    function Snapshot(): Disk
      reads this
    {
      Disk(baseDir, imagesDir, index, media)
    }

    /** `__init__`: takes over the disk as it is and creates the database. */
    constructor(disk: Disk)
      ensures Snapshot() == EnsureCreated(disk)
    {
      baseDir, imagesDir, index, media := disk.baseDir, disk.imagesDir, disk.index, disk.media;
      new;
      EnsureDatabaseCreated();
    }

    method EnsureDatabaseCreated()
      modifies this
      ensures Snapshot() == EnsureCreated(old(Snapshot()))
    {
      baseDir := true;
      imagesDir := true;
      if index.None? {
        index := Some([HeaderLine]);
      }
    }

    /** `send_message`: the row is appended before the pictures are saved
      and is not taken back when a picture fails; each picture's file is
      opened, and so emptied, before its download. */
    method SendMessage(m: Message, fs: seq<Fetch>) returns (rest: seq<Fetch>, raised: bool)
      modifies this
      ensures Outcome(Snapshot(), rest, raised) == Deliver(old(Snapshot()), m, fs)
    {
      EnsureDatabaseCreated();
      index := Some(index.value + [Row(m)]);
      ghost var written, media0 := index, media;
      ghost var names := Names(m.images);
      rest, raised := fs, false;
      for i := 0 to |m.images|
        invariant baseDir && imagesDir && index == written
        invariant SaveImages(media, names[i..], rest) == SaveImages(media0, names, fs)
        invariant !raised
      {
        NamesAt(m.images, i);
        assert names[i..][0] == Basename(m.images[i]) && names[i..][1..] == names[i + 1..];
        var name := Basename(m.images[i]);
        if DirectoryName(name) {
          raised := true;
          return;
        }
        ghost var before := media;
        media := media[name := []];
        var fetch;
        fetch, rest := NextFetch(rest).0, NextFetch(rest).1;
        if fetch.FetchFailed? {
          raised := true;
          return;
        }
        media := media[name := fetch.bytes];
        assert media == before[name := fetch.bytes];
      }
      assert names[|m.images|..] == [];
    }

    /** `send_messages`: an exception from one message is caught and the
      next message is written. */
    method SendMessages(ms: seq<Message>, fs: seq<Fetch>) returns (rest: seq<Fetch>)
      modifies this
      ensures Outcome(Snapshot(), rest, false) == DeliverAll(old(Snapshot()), ms, fs)
    {
      rest := fs;
      for i := 0 to |ms|
        invariant DeliverAll(Snapshot(), ms[i..], rest) == DeliverAll(old(Snapshot()), ms, fs)
      {
        assert ms[i..][0] == ms[i] && ms[i..][1..] == ms[i + 1..];
        var failed;
        rest, failed := SendMessage(ms[i], rest);
      }
      assert ms[|ms|..] == [];
    }
  }
}

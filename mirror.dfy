/** The data directory both the CSV subscriber and the legacy crawler keep:
    an index file of one row per post and a mirror of the post pictures
    under `images/`, each picture stored under the basename of its URL. The
    picture loop is the same in both programs: the file is opened for
    writing before the download, and a failed download or an unopenable
    name ends the loop with an exception. */
module Mirror {
  import opened Text
  import opened Effects

  /** What the subscriber can see of its base directory: whether the base
      and `images` directories exist, the lines of `index.csv` (None while
      the file does not exist), and the files under `images/` by name. */
  datatype Disk = Disk(baseDir: bool, imagesDir: bool, index: Option<seq<Line>>, media: map<string, seq<bv8>>)

  /** The name a picture is stored under cannot be opened as a file: the
      empty basename of a URL ending in '/' names the `images` directory
      itself, and `.` and `..` name directories too. */
  predicate DirectoryName(name: string) {
    name == "" || name == "." || name == ".."
  }

  /** The file name each picture is stored under, `os.path.basename` of
      its URL. */
  function Names(images: seq<string>): (names: seq<string>)
    ensures |names| == |images|
  {
    if images == [] then [] else [Basename(images[0])] + Names(images[1..])
  }

  /** The `i`-th name is the basename of the `i`-th picture. */
  lemma {:induction false} NamesAt(images: seq<string>, i: nat)
    requires i < |images|
    ensures Names(images)[i] == Basename(images[i])
    decreases i
  {
    if i > 0 {
      NamesAt(images[1..], i - 1);
    }
  }

  /** What the picture loop did: the files under `images/`, the downloads
      still unread, and whether an exception escaped. */
  datatype Saved = Saved(media: map<string, seq<bv8>>, rest: seq<Fetch>, raised: bool)

  /** The picture loop of `send_message`, picture by picture: the file is
      opened (and emptied) before the download, so a failed download leaves
      an empty file and ends the loop; a directory name raises before
      anything is opened. */
  function SaveImages(media: map<string, seq<bv8>>, names: seq<string>, fs: seq<Fetch>): Saved
    decreases |names|
  {
    if names == [] then Saved(media, fs, false)
    else
      var name := names[0];
      if DirectoryName(name) then Saved(media, fs, true)
      else
        var fetch, rest := NextFetch(fs).0, NextFetch(fs).1;
        if fetch.FetchFailed? then Saved(media[name := []], rest, true)
        else SaveImages(media[name := fetch.bytes], names[1..], rest)
  }

  /** Saving the pictures `a + b` is saving `a` and then, if nothing was
      raised, saving `b`. */
  lemma {:induction false} SaveImagesConcat(media: map<string, seq<bv8>>, a: seq<string>, b: seq<string>, fs: seq<Fetch>)
    ensures var sa := SaveImages(media, a, fs);
      SaveImages(media, a + b, fs) == if sa.raised then sa else SaveImages(sa.media, b, sa.rest)
    decreases |a|
  {
    if a == [] {
      assert a + b == b;
    } else {
      assert (a + b)[0] == a[0];
      assert (a + b)[1..] == a[1..] + b;
      var name := a[0];
      if !DirectoryName(name) {
        var fetch, rest := NextFetch(fs).0, NextFetch(fs).1;
        if fetch.Fetched? {
          SaveImagesConcat(media[name := fetch.bytes], a[1..], b, rest);
        }
      }
    }
  }

  /** A download that fails leaves the picture's file behind, empty; the
      pictures after it are not attempted and the exception escapes. */
  lemma FailedFetchLeavesEmptyFile(media: map<string, seq<bv8>>, names: seq<string>, fs: seq<Fetch>)
    requires names != [] && !DirectoryName(names[0])
    requires NextFetch(fs).0.FetchFailed?
    ensures SaveImages(media, names, fs) == Saved(media[names[0] := []], NextFetch(fs).1, true)
  {
  }

  /** A file under `names/` after the loop was there before or carries the
      basename of one of the pictures. */
  lemma {:induction false} SaveImagesKeys(media: map<string, seq<bv8>>, names: seq<string>, fs: seq<Fetch>)
    ensures forall name :: name in SaveImages(media, names, fs).media ==>
      name in media || exists i :: 0 <= i < |names| && names[i] == name
    decreases |names|
  {
    if names == [] || DirectoryName(names[0]) {
      return;
    }
    var name := names[0];
    var fetch, rest := NextFetch(fs).0, NextFetch(fs).1;
    var next := if fetch.FetchFailed? then media[name := []] else media[name := fetch.bytes];
    assert forall n :: n in next ==> n in media || n == names[0];
    if fetch.FetchFailed? {
      assert SaveImages(media, names, fs).media == next;
      return;
    }
    SaveImagesKeys(next, names[1..], rest);
    var s := SaveImages(next, names[1..], rest);
    assert SaveImages(media, names, fs) == s;
    forall n | n in s.media
      ensures n in media || exists i :: 0 <= i < |names| && names[i] == n
    {
      if n !in next {
        var k :| 0 <= k < |names[1..]| && names[1..][k] == n;
        assert names[k + 1] == n;
      }
    }
  }

  /** A file whose name no picture carries keeps its bytes. */
  lemma {:induction false} SaveImagesUntouched(media: map<string, seq<bv8>>, names: seq<string>, fs: seq<Fetch>, name: string)
    requires name in media
    requires forall i :: 0 <= i < |names| ==> names[i] != name
    ensures name in SaveImages(media, names, fs).media
    ensures SaveImages(media, names, fs).media[name] == media[name]
    decreases |names|
  {
    if names != [] {
      var first := names[0];
      if !DirectoryName(first) {
        var fetch, rest := NextFetch(fs).0, NextFetch(fs).1;
        if fetch.Fetched? {
          forall i | 0 <= i < |names[1..]|
            ensures names[1..][i] != name
          {
            assert names[1..][i] == names[i + 1];
          }
          SaveImagesUntouched(media[first := fetch.bytes], names[1..], rest, name);
        }
      }
    }
  }

  /** When every download succeeds, the last picture with a given basename
      decides that file's bytes. */
  lemma {:induction false} LastWriteWins(media: map<string, seq<bv8>>, names: seq<string>, fs: seq<Fetch>, k: nat)
    requires k < |names| && k < |fs|
    requires forall i :: 0 <= i < |names| ==> !DirectoryName(names[i])
    requires forall i :: 0 <= i <= k ==> fs[i].Fetched?
    requires forall j :: k < j < |names| ==> names[j] != names[k]
    ensures var s := SaveImages(media, names, fs);
      names[k] in s.media && s.media[names[k]] == fs[k].bytes
    decreases k
  {
    var name := names[0];
    var next := media[name := fs[0].bytes];
    if k == 0 {
      forall i | 0 <= i < |names[1..]|
        ensures names[1..][i] != name
      {
        assert names[1..][i] == names[i + 1];
      }
      SaveImagesUntouched(next, names[1..], fs[1..], name);
    } else {
      forall i | 0 <= i < |names[1..]|
        ensures !DirectoryName(names[1..][i])
      {
        assert names[1..][i] == names[i + 1];
      }
      forall j | k - 1 < j < |names[1..]|
        ensures names[1..][j] != names[1..][k - 1]
      {
        assert names[1..][j] == names[j + 1];
      }
      forall i | 0 <= i <= k - 1
        ensures fs[1..][i].Fetched?
      {
        assert fs[1..][i] == fs[i + 1];
      }
      LastWriteWins(next, names[1..], fs[1..], k - 1);
      assert names[1..][k - 1] == names[k] && fs[1..][k - 1] == fs[k];
    }
  }
}

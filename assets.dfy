/** Model of the asset-listing routes of server.js: `/assets/images` and
    `/assets/audio`.

    A directory read either fails or yields the entry names in the order the
    file system returns them; that order is an input. `path.extname` is modelled
    for single path components (entry names contain no `/`), and
    `toLowerCase` for ASCII letters only. */
module AssetLists {

  /** The result of reading one directory. */
  datatype Listing = Unreadable | Entries(names: seq<string>)

  /** One audio root: its listing and its absolute path. */
  datatype Root = Root(listing: Listing, path: string)

  const ImageExtensions: set<string> := {".png", ".jpg", ".jpeg", ".webp"}
  const ImageDir := "/images/"
  const TrackExtension := ".mp3"
  const FootstepTrack := "walking.mp3"
  const MusicSuffix := "/music"

  predicate NoDuplicates<T(==)>(s: seq<T>)
  {
    forall i, j :: 0 <= i < j < |s| ==> s[i] != s[j]
  }

  // ---------------------------------------------------------------------------
  // Text helpers

  function LowerChar(c: char): char
  {
    if 'A' <= c <= 'Z' then (c as int + 32) as char else c
  }

  /** `toLowerCase`, on ASCII letters. */
  function Lower(s: string): (r: string)
    ensures |r| == |s|
    ensures forall i :: 0 <= i < |r| ==> !('A' <= r[i] <= 'Z')
    ensures forall i :: 0 <= i < |s| && !('A' <= s[i] <= 'Z') ==> r[i] == s[i]
    ensures forall i :: 0 <= i < |s| && 'A' <= s[i] <= 'Z' ==> r[i] as int == s[i] as int + 32
  {
    seq(|s|, i requires 0 <= i < |s| => LowerChar(s[i]))
  }

  /** Lower-casing twice is lower-casing once. */
  lemma LowerIdempotent(s: string)
    ensures Lower(Lower(s)) == Lower(s)
  {
  }

  /** The footstep loop is recognised whatever its letter case. */
  lemma FootstepAnyCase()
    ensures Lower("Walking.MP3") == FootstepTrack
    ensures Lower("WALKING.MP3") == FootstepTrack
    ensures Lower("walking.mp3") == FootstepTrack
  {
  }

  /** Index of the last `.` in `s`, or -1 when there is none. */
  function LastDot(s: string): (k: int)
    ensures -1 <= k < |s|
    ensures k >= 0 ==> s[k] == '.'
    ensures forall i :: k < i < |s| ==> s[i] != '.'
  {
    if s == [] then -1
    else if s[|s| - 1] == '.' then |s| - 1
    else LastDot(s[..|s| - 1])
  }

  /** `path.extname` of an entry name: from the last `.` to the end, except
      that a name whose only dot leads it (`.env`) and the name `..` have no
      extension. */
  function ExtName(name: string): (e: string)
    ensures e == "" || (e[0] == '.' && |e| < |name| && e == name[|name| - |e|..])
  {
    var k := LastDot(name);
    if k <= 0 || name == ".." then "" else name[k..]
  }

  /** Which names have an extension, and what it looks like: a dot, no
      further dot, and a proper suffix of the name. */
  lemma ExtNameSpec(name: string)
    ensures ExtName(name) != "" <==>
            name != ".." && exists k :: 0 < k < |name| && name[k] == '.'
    ensures var e := ExtName(name);
            e != "" ==> && e[0] == '.' && '.' !in e[1..]
                        && |e| < |name| && name == name[..|name| - |e|] + e
  {
    var k := LastDot(name);
    if exists j :: 0 < j < |name| && name[j] == '.' {
      var j :| 0 < j < |name| && name[j] == '.';
      assert k >= j;
    }
    var e := ExtName(name);
    if e != "" {
      assert e == name[k..];
      forall i | 0 <= i < |e[1..]| ensures e[1..][i] != '.' {
        assert e[1..][i] == name[k + 1 + i];
      }
      assert name == name[..k] + name[k..];
    }
  }

  /** `root.endsWith(path.sep + 'music')` chooses the URL prefix. */
  function RootPrefix(path: string): (prefix: string)
    ensures |prefix| > 0 && prefix[0] == '/' && prefix[|prefix| - 1] == '/'
  {
    if |path| >= |MusicSuffix| && path[|path| - |MusicSuffix|..] == MusicSuffix then "/music/" else "/"
  }

  // ---------------------------------------------------------------------------
  // Filtering a listing

  /** The URLs of the entries `keep` accepts, in listing order: the
      `filter(...).map(f => prefix + f)` both routes perform. */
  function Select(names: seq<string>, keep: string -> bool, prefix: string): seq<string>
  {
    if names == [] then []
    else
      var last := names[|names| - 1];
      Select(names[..|names| - 1], keep, prefix) + (if keep(last) then [prefix + last] else [])
  }

  /** A URL is listed exactly when it is the prefix followed by an accepted
      entry. */
  lemma {:induction false} SelectMembers(names: seq<string>, keep: string -> bool, prefix: string, url: string)
    ensures url in Select(names, keep, prefix) <==>
            exists f :: f in names && keep(f) && url == prefix + f
    decreases |names|
  {
    if names != [] {
      var init := names[..|names| - 1];
      var last := names[|names| - 1];
      SelectMembers(init, keep, prefix, url);
      assert names == init + [last];
    }
  }

  /** Selection keeps the listing's order: it distributes over a split of
      the entries. */
  lemma {:induction false} SelectAppend(a: seq<string>, b: seq<string>, keep: string -> bool, prefix: string)
    ensures Select(a + b, keep, prefix) == Select(a, keep, prefix) + Select(b, keep, prefix)
    decreases |b|
  {
    if b == [] {
      assert a + b == a;
    } else {
      SelectAppend(a, b[..|b| - 1], keep, prefix);
      assert (a + b)[..|a + b| - 1] == a + b[..|b| - 1];
    }
  }

  lemma PrefixCancels(prefix: string, f: string, g: string)
    requires f != g
    ensures prefix + f != prefix + g
  {
    assert (prefix + f)[|prefix|..] == f && (prefix + g)[|prefix|..] == g;
  }

  /** Distinct entries give distinct URLs. */
  lemma {:induction false} SelectUnique(names: seq<string>, keep: string -> bool, prefix: string)
    requires NoDuplicates(names)
    ensures NoDuplicates(Select(names, keep, prefix))
    decreases |names|
  {
    if names != [] {
      var init := names[..|names| - 1];
      var last := names[|names| - 1];
      assert NoDuplicates(init) by {
        forall i, j | 0 <= i < j < |init| ensures init[i] != init[j] {
          assert init[i] == names[i] && init[j] == names[j];
        }
      }
      SelectUnique(init, keep, prefix);
      SelectMembers(init, keep, prefix, prefix + last);
      forall g | g in init ensures prefix + last != prefix + g {
        var i :| 0 <= i < |init| && init[i] == g;
        assert names[i] == g;
        PrefixCancels(prefix, last, g);
      }
    }
  }

  lemma SelectStep(names: seq<string>, j: int, keep: string -> bool, prefix: string)
    requires 0 <= j < |names|
    ensures Select(names[..j + 1], keep, prefix)
            == Select(names[..j], keep, prefix) + (if keep(names[j]) then [prefix + names[j]] else [])
  {
    assert names[..j + 1][..j] == names[..j];
  }

  // ---------------------------------------------------------------------------
  // /assets/images

  /** Only a name with a 4- or 5-character extension can be an image. */
  predicate IsImage(name: string)
    ensures IsImage(name) ==> 4 <= |ExtName(name)| <= 5 && ExtName(name)[0] == '.'
  {
    Lower(ExtName(name)) in ImageExtensions
  }

  function ImagePaths(names: seq<string>): seq<string>
  {
    Select(names, IsImage, ImageDir)
  }

  /** The JSON array `/assets/images` answers with; `[]` when the directory
      cannot be read. */
  function ImagesResponse(dir: Listing): seq<string>
  {
    match dir
    case Unreadable => []
    case Entries(names) => ImagePaths(names)
  }

  /** A URL is listed exactly when it names an entry with an image extension
      (in any letter case); the listing keeps the directory's order and has
      no repeats. */
  lemma ImagesListing(names: seq<string>, url: string)
    ensures ImagesResponse(Unreadable) == []
    ensures url in ImagesResponse(Entries(names)) <==>
            exists f :: f in names && IsImage(f) && url == ImageDir + f
    ensures NoDuplicates(names) ==> NoDuplicates(ImagesResponse(Entries(names)))
    ensures forall a, b :: names == a + b ==> ImagePaths(names) == ImagePaths(a) + ImagePaths(b)
  {
    SelectMembers(names, IsImage, ImageDir, url);
    if NoDuplicates(names) {
      SelectUnique(names, IsImage, ImageDir);
    }
    forall a, b | names == a + b ensures ImagePaths(names) == ImagePaths(a) + ImagePaths(b) {
      SelectAppend(a, b, IsImage, ImageDir);
    }
  }

  // ---------------------------------------------------------------------------
  // /assets/audio

  /** An `.mp3` entry (any letter case) other than the footstep loop. */
  predicate IsTrack(name: string)
    ensures IsTrack(name) ==> |ExtName(name)| == 4 && ExtName(name)[0] == '.'
    ensures IsTrack(name) ==> Lower(name) != FootstepTrack
  {
    Lower(ExtName(name)) == TrackExtension && Lower(name) != FootstepTrack
  }

  function Tracks(names: seq<string>, prefix: string): seq<string>
  {
    Select(names, IsTrack, prefix)
  }

  /** A root whose read throws contributes nothing (the `catch` ignores it). */
  function RootTracks(root: Root): seq<string>
  {
    match root.listing
    case Unreadable => []
    case Entries(names) => Tracks(names, RootPrefix(root.path))
  }

  function AllTracks(roots: seq<Root>): seq<string>
  {
    if roots == [] then []
    else AllTracks(roots[..|roots| - 1]) + RootTracks(roots[|roots| - 1])
  }

  /** Keep the first occurrence of each URL (the `seen` set). */
  function Dedup(s: seq<string>): seq<string>
  {
    if s == [] then []
    else
      var d := Dedup(s[..|s| - 1]);
      if s[|s| - 1] in d then d else d + [s[|s| - 1]]
  }

  lemma DedupStep(done: seq<string>, url: string)
    ensures Dedup(done + [url]) == if url in Dedup(done) then Dedup(done) else Dedup(done) + [url]
  {
    assert (done + [url])[..|done|] == done;
  }

  /** One entry of the `forEach` over a root: an accepted entry whose URL is
      new is appended; anything else leaves the result as it was. */
  lemma CollectStep(before: seq<string>, names: seq<string>, j: int, keep: string -> bool, prefix: string)
    requires 0 <= j < |names|
    ensures var done := Dedup(before + Select(names[..j], keep, prefix));
            var url := prefix + names[j];
            Dedup(before + Select(names[..j + 1], keep, prefix))
            == if keep(names[j]) && url !in done then done + [url] else done
  {
    SelectStep(names, j, keep, prefix);
    var sel := Select(names[..j], keep, prefix);
    if keep(names[j]) {
      assert before + (sel + [prefix + names[j]]) == (before + sel) + [prefix + names[j]];
      DedupStep(before + sel, prefix + names[j]);
    } else {
      assert sel + [] == sel;
    }
  }

  /** The `forEach` over one readable root: append the URL of each entry
      `keep` accepts (the route passes `IsTrack`) unless `seen` already holds
      it. */
  method CollectRoot(ghost before: seq<string>, out0: seq<string>, seen0: set<string>,
                     names: seq<string>, keep: string -> bool, prefix: string)
    returns (out: seq<string>, seen: set<string>)
    requires out0 == Dedup(before)
    requires forall x :: x in seen0 <==> x in out0
    ensures out == Dedup(before + Select(names, keep, prefix))
    ensures forall x :: x in seen <==> x in out
  {
    out, seen := out0, seen0;
    assert before + Select(names[..0], keep, prefix) == before;
    for j := 0 to |names|
      invariant out == Dedup(before + Select(names[..j], keep, prefix))
      invariant forall x :: x in seen <==> x in out
    {
      CollectStep(before, names, j, keep, prefix);
      var f := names[j];
      if keep(f) {
        var rel := prefix + f;
        if rel !in seen {
          seen := seen + {rel};
          out := out + [rel];
        }
      }
    }
    assert names[..|names|] == names;
  }

  /** `/assets/audio`: walk both roots in order, collecting each new URL. */
  method AudioList(roots: seq<Root>) returns (out: seq<string>)
    ensures out == Dedup(AllTracks(roots))
  {
    out := [];
    var seen: set<string> := {};
    for r := 0 to |roots|
      invariant out == Dedup(AllTracks(roots[..r]))
      invariant forall x :: x in seen <==> x in out
    {
      assert roots[..r + 1][..r] == roots[..r];
      var root := roots[r];
      ghost var before := AllTracks(roots[..r]);
      assert AllTracks(roots[..r + 1]) == before + RootTracks(root);
      if root.listing.Entries? {
        out, seen := CollectRoot(before, out, seen, root.listing.names, IsTrack, RootPrefix(root.path));
      } else {
        assert before + RootTracks(root) == before;
      }
    }
    assert roots[..|roots|] == roots;
  }

  /** The two roots the route reads: `public` and `public/music`. */
  function AudioRoots(dirname: string, publicDir: Listing, musicDir: Listing): seq<Root>
  {
    [Root(publicDir, dirname + "/public"), Root(musicDir, dirname + "/public/music")]
  }

  /** Entries of `public` are served from `/`, entries of `public/music` from
      `/music/`. */
  lemma AudioRootPrefixes(dirname: string)
    ensures RootPrefix(dirname + "/public") == "/"
    ensures RootPrefix(dirname + "/public/music") == "/music/"
  {
    var p := dirname + "/public";
    assert p[|p| - |MusicSuffix|..][0] == p[|dirname| + 1] == 'p';
    var m := dirname + "/public/music";
    assert m[|m| - |MusicSuffix|..] == MusicSuffix;
  }

  // ---------------------------------------------------------------------------
  // Properties of the audio listing

  /** `url` is the URL of an accepted track of `root`, which could be read. */
  predicate TrackOf(root: Root, url: string)
  {
    root.listing.Entries? &&
    exists f :: f in root.listing.names && IsTrack(f) && url == RootPrefix(root.path) + f
  }

  /** A URL is a candidate exactly when some readable root lists an `.mp3`
      entry (other than the footstep loop) under that URL; an unreadable
      root contributes nothing. */
  lemma AllTracksMembers(roots: seq<Root>, url: string)
    ensures url in AllTracks(roots) <==> exists k :: 0 <= k < |roots| && TrackOf(roots[k], url)
  {
    if url in AllTracks(roots) {
      var k := TrackSource(roots, url);
      RootTrackMember(roots[k], url);
    }
    if exists k :: 0 <= k < |roots| && TrackOf(roots[k], url) {
      var k :| 0 <= k < |roots| && TrackOf(roots[k], url);
      RootTrackMember(roots[k], url);
      TrackListed(roots, k, url);
    }
  }

  /** Each candidate URL comes from some root. */
  lemma {:induction false} TrackSource(roots: seq<Root>, url: string) returns (k: int)
    requires url in AllTracks(roots)
    ensures 0 <= k < |roots| && url in RootTracks(roots[k])
    decreases |roots|
  {
    var n := |roots| - 1;
    var init, last := roots[..n], roots[n];
    assert AllTracks(roots) == AllTracks(init) + RootTracks(last);
    if url in AllTracks(init) {
      k := TrackSource(init, url);
      assert roots[k] == init[k];
    } else {
      k := n;
    }
  }

  /** Each URL a root lists is a candidate. */
  lemma TrackListed(roots: seq<Root>, k: int, url: string)
    requires 0 <= k < |roots| && url in RootTracks(roots[k])
    ensures url in AllTracks(roots)
  {
    AllTracksSnoc(roots, k);
    AllTracksGrows(roots, k + 1);
    InPrefix(url, AllTracks(roots[..k + 1]), AllTracks(roots));
  }

  lemma InPrefix<T>(x: T, a: seq<T>, b: seq<T>)
    requires x in a && a <= b
    ensures x in b
  {
    var i :| 0 <= i < |a| && a[i] == x;
    assert b[i] == x;
  }

  /** Reading more roots only appends to the candidates. */
  lemma {:induction false} AllTracksGrows(roots: seq<Root>, j: int)
    requires 0 <= j <= |roots|
    ensures AllTracks(roots[..j]) <= AllTracks(roots)
    decreases |roots| - j
  {
    if j == |roots| {
      assert roots[..j] == roots;
    } else {
      AllTracksGrows(roots, j + 1);
      AllTracksSnoc(roots, j);
    }
  }

  lemma AllTracksSnoc(roots: seq<Root>, j: int)
    requires 0 <= j < |roots|
    ensures AllTracks(roots[..j + 1]) == AllTracks(roots[..j]) + RootTracks(roots[j])
  {
    assert roots[..j + 1][..j] == roots[..j];
  }

  lemma RootTrackMember(root: Root, url: string)
    ensures url in RootTracks(root) <==> TrackOf(root, url)
  {
    if root.listing.Entries? {
      SelectMembers(root.listing.names, IsTrack, RootPrefix(root.path), url);
    }
  }

  /** The answer of `/assets/audio` lists each such URL, once. */
  lemma AudioListing(roots: seq<Root>, url: string)
    ensures url in Dedup(AllTracks(roots)) <==> exists k :: 0 <= k < |roots| && TrackOf(roots[k], url)
    ensures NoDuplicates(Dedup(AllTracks(roots)))
  {
    AllTracksMembers(roots, url);
    DedupNoDuplicates(AllTracks(roots));
  }

  /** Every URL appears once. */
  lemma {:induction false} DedupNoDuplicates(s: seq<string>)
    ensures NoDuplicates(Dedup(s))
    ensures forall x :: x in Dedup(s) <==> x in s
    decreases |s|
  {
    if s != [] {
      var init := s[..|s| - 1];
      DedupNoDuplicates(init);
      assert s == init + [s[|s| - 1]];
    }
  }

  /** The footstep loop is never offered as background music, whatever its
      letter case. */
  lemma NoFootstepTrack(names: seq<string>, prefix: string, f: string)
    requires Lower(f) == FootstepTrack
    ensures prefix + f !in Tracks(names, prefix)
  {
    SelectMembers(names, IsTrack, prefix, prefix + f);
    forall g | g in names && IsTrack(g) ensures prefix + f != prefix + g {
      PrefixCancels(prefix, f, g);
    }
  }

  lemma {:induction false} DedupIdentity(s: seq<string>)
    requires NoDuplicates(s)
    ensures Dedup(s) == s
    decreases |s|
  {
    if s != [] {
      var init := s[..|s| - 1];
      assert NoDuplicates(init) by {
        forall i, j | 0 <= i < j < |init| ensures init[i] != init[j] {
          assert init[i] == s[i] && init[j] == s[j];
        }
      }
      DedupIdentity(init);
      assert s == init + [s[|s| - 1]];
    }
  }

  predicate NoSlash(names: seq<string>)
  {
    forall k :: 0 <= k < |names| ==> '/' !in names[k]
  }

  /** URLs under `/` of slash-free names never coincide with URLs under
      `/music/`. */
  lemma RootsDisjoint(pub: seq<string>, music: seq<string>, u: string)
    requires NoSlash(pub)
    ensures !(u in Tracks(pub, "/") && u in Tracks(music, "/music/"))
  {
    SelectMembers(pub, IsTrack, "/", u);
    SelectMembers(music, IsTrack, "/music/", u);
    forall k, g | 0 <= k < |pub| && g in music ensures "/" + pub[k] != "/music/" + g {
      SlashFreeNotMusic(pub[k], g);
    }
  }

  lemma SlashFreeNotMusic(f: string, g: string)
    requires '/' !in f
    ensures "/" + f != "/music/" + g
  {
    assert ("/music/" + g)[6] == '/';
    if |f| >= 6 {
      assert ("/" + f)[6] == f[5];
    } else {
      assert |"/" + f| < |"/music/" + g|;
    }
  }

  lemma NoDuplicatesConcat(a: seq<string>, b: seq<string>)
    requires NoDuplicates(a) && NoDuplicates(b)
    requires forall u :: !(u in a && u in b)
    ensures NoDuplicates(a + b)
  {
    var ab := a + b;
    forall i, j | 0 <= i < j < |ab| ensures ab[i] != ab[j] {
      if j < |a| {
        assert ab[i] == a[i] && ab[j] == a[j];
      } else if i >= |a| {
        assert ab[i] == b[i - |a|] && ab[j] == b[j - |a|];
      } else {
        assert ab[i] == a[i] && ab[j] == b[j - |a|];
        assert ab[i] in a && ab[j] in b;
      }
    }
  }

  lemma AudioCandidates(dirname: string, pub: seq<string>, music: seq<string>)
    ensures AllTracks(AudioRoots(dirname, Entries(pub), Entries(music)))
            == Tracks(pub, "/") + Tracks(music, "/music/")
  {
    var roots := AudioRoots(dirname, Entries(pub), Entries(music));
    AudioRootTracks(dirname, pub, music);
    AllTracksPair(roots);
  }

  lemma AudioRootTracks(dirname: string, pub: seq<string>, music: seq<string>)
    ensures var roots := AudioRoots(dirname, Entries(pub), Entries(music));
            |roots| == 2 && RootTracks(roots[0]) == Tracks(pub, "/")
            && RootTracks(roots[1]) == Tracks(music, "/music/")
  {
    AudioRootPrefixes(dirname);
  }

  lemma AllTracksPair(roots: seq<Root>)
    requires |roots| == 2
    ensures AllTracks(roots) == RootTracks(roots[0]) + RootTracks(roots[1])
  {
    assert roots[..|roots| - 1] == [roots[0]];
    AllTracksOne(roots[0]);
  }

  lemma AllTracksOne(r: Root)
    ensures AllTracks([r]) == RootTracks(r)
  {
    assert [r][..0] == [];
    var t := RootTracks(r);
    assert [] + t == t;
  }

  /** With the two real roots, readable listings of distinct slash-free names
      never produce the same URL twice, so the `seen` set drops nothing: the
      answer is the `public` tracks followed by the `public/music` tracks. */
  lemma AudioSeenDropsNothing(dirname: string, pub: seq<string>, music: seq<string>)
    requires NoDuplicates(pub) && NoDuplicates(music) && NoSlash(pub)
    ensures Dedup(AllTracks(AudioRoots(dirname, Entries(pub), Entries(music))))
            == Tracks(pub, "/") + Tracks(music, "/music/")
  {
    AudioCandidates(dirname, pub, music);
    SelectUnique(pub, IsTrack, "/");
    SelectUnique(music, IsTrack, "/music/");
    forall u ensures !(u in Tracks(pub, "/") && u in Tracks(music, "/music/")) {
      RootsDisjoint(pub, music, u);
    }
    NoDuplicatesConcat(Tracks(pub, "/"), Tracks(music, "/music/"));
    DedupIdentity(Tracks(pub, "/") + Tracks(music, "/music/"));
  }

  /** The listing keeps order: `public` tracks come before `public/music`
      tracks whenever both are listed. */
  lemma {:induction false} DedupPrefix(s: seq<string>, t: seq<string>)
    ensures Dedup(s) <= Dedup(s + t)
    decreases |t|
  {
    if t == [] {
      assert s + t == s;
    } else {
      var init := t[..|t| - 1];
      DedupPrefix(s, init);
      assert (s + t)[..|s + t| - 1] == s + init;
    }
  }
}

/**
 * The three candidate sources of the search handler's fallback, and the icon
 * lookup: installed applications (desktop entries), browser bookmarks, and
 * files in three home folders. Every filesystem call they make is answered by
 * a `FileSystem` snapshot passed in, so each source is a function of the
 * snapshot and the query; the loops that accumulate results are methods proved
 * against those functions.
 */
module Sources {
  import opened Wrappers
  import opened Text
  import opened Items

  // ---------------------------------------------------------------------------
  // The filesystem as the sources see it

  /** A parsed Chromium bookmark tree node: `type` 'url', 'folder', or anything else. */
  datatype Node =
    | UrlNode(name: string, url: string, validUrl: bool)  // validUrl: `new URL(url)` does not throw
    | FolderNode(children: seq<Node>)
    | OtherNode

  /** `json.roots`: each root present or not. */
  datatype Roots = Roots(bar: Option<Node>, other: Option<Node>, synced: Option<Node>)

  /** A bookmark file that exists: it could not be read or parsed, or it parsed, with `roots` or without. */
  datatype BookmarkDoc = Unreadable | Parsed(roots: Option<Roots>)

  datatype FileSystem = FileSystem(
    home: string,                          // os.homedir()
    listings: map<string, seq<string>>,    // readdir: a readable directory's entry names, in order
    contents: map<string, string>,         // readFile: a readable file's text
    bookmarkFiles: map<string, BookmarkDoc>,  // the bookmark files that exist
    readable: set<string>)                 // access(path, R_OK) succeeds

  /** `path.join(dir, name)` for a relative, already normal `name`. */
  function JoinPath(dir: string, name: string): (p: string)
    ensures StartsWith(p, dir) && EndsWith(p, name)
  {
    dir + "/" + name
  }

  // ---------------------------------------------------------------------------
  // Desktop entries: `content.match(/^Key=(.+)$/m)?.[1]`

  /** `p` is where a line begins: the start, or just after a line terminator. */
  predicate IsLineStart(s: string, p: nat) {
    p <= |s| && (p == 0 || IsLineTerminator(s[p - 1]))
  }

  /** The line that begins at `p`, without its terminator. */
  function LineAt(s: string, p: nat): (line: string)
    requires p <= |s|
    ensures AllIn(line, LineChars)
  {
    s[p..RunEnd(s, p, LineChars)]
  }

  /** The line at `p` is `key=` followed by at least one character. */
  predicate KeyLine(s: string, p: nat, key: string) {
    IsLineStart(s, p) && key + "=" < LineAt(s, p)
  }

  /** No line in `s` that begins in `[p, q)` is a `key=` line. */
  predicate NoKeyLineIn(s: string, key: string, p: nat, q: nat) {
    forall k :: p <= k < q && k <= |s| ==> !KeyLine(s, k, key)
  }

  /** There is no line start strictly inside the line that begins at `p`. */
  lemma NoLineStartInside(s: string, p: nat, k: nat)
    requires p < k <= |s| && k <= RunEnd(s, p, LineChars)
    ensures !IsLineStart(s, k)
  {
    var line := LineAt(s, p);
    assert s[k - 1] == line[k - 1 - p];
  }

  /**
   * The value of the first line, at or after the line start `p`, that reads
   * `key=` followed by at least one character: the rest of that line.
   */
  function ValueFrom(s: string, key: string, p: nat): (r: Option<string>)
    requires IsLineStart(s, p)
    decreases |s| - p
    ensures r.None? <==> NoKeyLineIn(s, key, p, |s| + 1)
    ensures r.Some? ==> exists q :: p <= q <= |s| && KeyLine(s, q, key) && NoKeyLineIn(s, key, p, q) && r.value == LineAt(s, q)[|key| + 1..]
    ensures r.Some? ==> r.value != [] && AllIn(r.value, LineChars)
  {
    var end := RunEnd(s, p, LineChars);
    forall k | p < k <= end && k <= |s| ensures !KeyLine(s, k, key) {
      NoLineStartInside(s, p, k);
    }
    if KeyLine(s, p, key) then
      Some(LineAt(s, p)[|key| + 1..])
    else if end == |s| then
      None
    else
      ValueFrom(s, key, end + 1)
  }

  /** `content.match(/^Key=(.+)$/m)?.[1]`: the first `key=` line with a non-empty value. */
  function Value(content: string, key: string): (r: Option<string>)
    ensures r.None? <==> NoKeyLineIn(content, key, 0, |content| + 1)
    ensures r.Some? ==> r.value != [] && AllIn(r.value, LineChars)
  {
    ValueFrom(content, key, 0)
  }

  /**
   * The app a desktop entry at `path` yields: one exactly when the entry has a
   * `Name=` line; the icon is `application` when there is no `Icon=` line and
   * the description empty when there is no `Comment=` line.
   */
  function DesktopEntry(content: string, path: string): (r: Option<Item>)
    ensures r.Some? <==> !NoKeyLineIn(content, "Name", 0, |content| + 1)
    ensures r.Some? ==> r.value.AppItem? && r.value.path == path && r.value.name != []
    ensures r.Some? ==> (r.value.icon == "application" <== NoKeyLineIn(content, "Icon", 0, |content| + 1))
    ensures r.Some? ==> (r.value.description == "" <==> NoKeyLineIn(content, "Comment", 0, |content| + 1))
    ensures r.Some? ==> Value(content, "Name") == Some(r.value.name)
    ensures r.Some? && Value(content, "Icon").Some? ==> r.value.icon == Value(content, "Icon").value
    ensures r.Some? && Value(content, "Comment").Some? ==> r.value.description == Value(content, "Comment").value
  {
    match Value(content, "Name")
    case None => None
    case Some(name) =>
      var icon := Value(content, "Icon");
      var comment := Value(content, "Comment");
      Some(AppItem(name, path, if icon.Some? then icon.value else "application", if comment.Some? then comment.value else ""))
  }

  // ---------------------------------------------------------------------------
  // searchApplications

  /** The directories scanned for desktop entries, in order. */
  function AppDirs(home: string): seq<string> {
    ["/usr/share/applications", JoinPath(home, ".local/share/applications")]
  }

  /** `path` holds a desktop entry that yields `x`. */
  predicate AppFromEntry(fs: FileSystem, x: Item) {
    && x.AppItem?
    && EndsWith(x.path, ".desktop")
    && x.path in fs.contents
    && DesktopEntry(fs.contents[x.path], x.path) == Some(x)
  }

  /** The app, if any, that the directory entry `file` of `dir` contributes: `.desktop` files that can be read. */
  function EntryApps(fs: FileSystem, dir: string, file: string): (r: seq<Item>)
    ensures |r| <= 1
    ensures forall k :: 0 <= k < |r| ==> AppFromEntry(fs, r[k]) && r[k].path == JoinPath(dir, file)
  {
    var path := JoinPath(dir, file);
    if !EndsWith(file, ".desktop") || path !in fs.contents then []
    else
      assert path[|path| - |file|..] == file;
      assert EndsWith(path, ".desktop") by {
        assert path[|path| - 8..] == file[|file| - 8..];
      }
      match DesktopEntry(fs.contents[path], path)
      case None => []
      case Some(app) => [app]
  }

  /** The apps from the first entries of one directory listing, in listing order. */
  function DirApps(fs: FileSystem, dir: string, files: seq<string>): (r: seq<Item>)
    ensures forall k :: 0 <= k < |r| ==> AppFromEntry(fs, r[k])
  {
    if files == [] then []
    else DirApps(fs, dir, files[..|files| - 1]) + EntryApps(fs, dir, files[|files| - 1])
  }

  /** The apps of the listed directories among `dirs`; a directory that cannot be listed is skipped. */
  function AllApps(fs: FileSystem, dirs: seq<string>): (r: seq<Item>)
    ensures forall k :: 0 <= k < |r| ==> AppFromEntry(fs, r[k])
  {
    if dirs == [] then []
    else
      var dir := dirs[|dirs| - 1];
      AllApps(fs, dirs[..|dirs| - 1]) + (if dir in fs.listings then DirApps(fs, dir, fs.listings[dir]) else [])
  }

  /** Every readable desktop entry with a name in a listed directory contributes its app. */
  lemma {:induction false} DirAppsComplete(fs: FileSystem, dir: string, files: seq<string>, j: nat)
    requires j < |files|
    ensures forall x :: x in EntryApps(fs, dir, files[j]) ==> x in DirApps(fs, dir, files)
    decreases |files|
  {
    if j < |files| - 1 {
      DirAppsComplete(fs, dir, files[..|files| - 1], j);
    }
  }

  /** Every app of a listed directory among `dirs` is in the scan. */
  lemma {:induction false} AllAppsComplete(fs: FileSystem, dirs: seq<string>, i: nat, j: nat)
    requires i < |dirs| && dirs[i] in fs.listings && j < |fs.listings[dirs[i]]|
    ensures forall x :: x in EntryApps(fs, dirs[i], fs.listings[dirs[i]][j]) ==> x in AllApps(fs, dirs)
    decreases |dirs|
  {
    if i < |dirs| - 1 {
      AllAppsComplete(fs, dirs[..|dirs| - 1], i, j);
    } else {
      DirAppsComplete(fs, dirs[i], fs.listings[dirs[i]], j);
    }
  }

  /** The candidates before ranking: every named desktop entry of both directories, directory by directory. */
  function Applications(fs: FileSystem): (r: seq<Item>)
    ensures forall k :: 0 <= k < |r| ==> AppFromEntry(fs, r[k])
  {
    AllApps(fs, AppDirs(fs.home))
  }

  /** The inner loop of the scan: the apps of one listed directory, in listing order. */
  method ScanDirectory(fs: FileSystem, dir: string, files: seq<string>) returns (apps: seq<Item>)
    ensures apps == DirApps(fs, dir, files)
  {
    apps := [];
    var j := 0;
    while j < |files|
      invariant 0 <= j <= |files|
      invariant apps == DirApps(fs, dir, files[..j])
    {
      assert files[..j + 1][..j] == files[..j];
      var file := files[j];
      var path := JoinPath(dir, file);
      ghost var contributed := EntryApps(fs, dir, file);
      if EndsWith(file, ".desktop") && path in fs.contents {
        var entry := DesktopEntry(fs.contents[path], path);
        if entry.Some? {
          apps := apps + [entry.value];
          assert contributed == [entry.value];
        } else {
          assert contributed == [];
        }
      } else {
        assert contributed == [];
      }
      j := j + 1;
    }
    assert files[..j] == files;
  }

  /** The directory scan of `searchApplications`: unreadable directories are skipped. */
  method ScanApplications(fs: FileSystem) returns (apps: seq<Item>)
    ensures apps == Applications(fs)
  {
    var dirs := AppDirs(fs.home);
    apps := [];
    var i := 0;
    while i < |dirs|
      invariant 0 <= i <= |dirs|
      invariant apps == AllApps(fs, dirs[..i])
    {
      var dir := dirs[i];
      assert dirs[..i + 1][..i] == dirs[..i];
      if dir in fs.listings {
        var found := ScanDirectory(fs, dir, fs.listings[dir]);
        apps := apps + found;
      }
      i := i + 1;
    }
    assert dirs[..i] == dirs;
  }

  /**
   * The candidates that survive ranking, in the ranker's order: `picks` are the
   * `refIndex` positions that Fuse reports (positions outside the list are dropped).
   */
  function Ranked(apps: seq<Item>, picks: seq<nat>): (r: seq<Item>)
    ensures |r| <= |picks|
    ensures forall k :: 0 <= k < |r| ==> r[k] in apps
  {
    if picks == [] then []
    else (if picks[0] < |apps| then [apps[picks[0]]] else []) + Ranked(apps, picks[1..])
  }

  /** `searchApplications(query)`: every candidate for the empty query, otherwise the fuzzy ranker's selection. */
  function SearchApplications(fs: FileSystem, query: string, fuse: (seq<Item>, string) -> seq<nat>): (r: seq<Item>)
    ensures query == [] ==> r == Applications(fs)
    ensures forall k :: 0 <= k < |r| ==> AppFromEntry(fs, r[k])
  {
    var apps := Applications(fs);
    if query == [] then apps else Ranked(apps, fuse(apps, query))
  }

  // ---------------------------------------------------------------------------
  // searchBookmarks

  /** The bookmark files of Chrome, Brave and Chromium, in the order they are read. */
  function BookmarkPaths(home: string): seq<string> {
    [ JoinPath(home, ".config/google-chrome/Default/Bookmarks"),
      JoinPath(home, ".config/BraveSoftware/Brave-Browser/Default/Bookmarks"),
      JoinPath(home, ".config/chromium/Default/Bookmarks") ]
  }

  /** The node's name or URL contains the lower-cased query, ignoring case. */
  predicate BookmarkMatches(name: string, url: string, qLower: string) {
    Contains(ToLower(name), qLower) || Contains(ToLower(url), qLower)
  }

  /** A bookmark result for the lower-cased query: a web item with a name and a URL, one of which matches. */
  predicate IsBookmarkHit(x: Item, qLower: string) {
    x.WebItem? && x.name != [] && x.url != [] && BookmarkMatches(x.name, x.url, qLower)
  }

  /** What `extractUrls` pushed, and whether it returned normally (`new URL` on a matching node can throw). */
  datatype Walked = Walked(items: seq<Item>, completed: bool)

  /** `extractUrls(node)`: the matching URL nodes of the subtree, in depth-first order. */
  function Walk(n: Node, qLower: string): (r: Walked)
    decreases n
    ensures forall k :: 0 <= k < |r.items| ==> IsBookmarkHit(r.items[k], qLower)
  {
    match n
    case UrlNode(name, url, validUrl) =>
      if name != [] && url != [] && BookmarkMatches(name, url, qLower) then
        if validUrl then Walked([WebItem(name, url)], true) else Walked([], false)
      else Walked([], true)
    case FolderNode(children) => WalkAll(children, qLower)
    case OtherNode => Walked([], true)
  }

  /** `extractUrls` on each node in turn; a throw abandons the rest. */
  function WalkAll(ns: seq<Node>, qLower: string): (r: Walked)
    decreases ns
    ensures forall k :: 0 <= k < |r.items| ==> IsBookmarkHit(r.items[k], qLower)
  {
    if ns == [] then Walked([], true)
    else
      var head := Walk(ns[0], qLower);
      if !head.completed then head
      else
        var tail := WalkAll(ns[1..], qLower);
        Walked(head.items + tail.items, tail.completed)
  }

  /** Every matching URL node of the subtree with a name and a URL, in depth-first order: what a walk that never throws pushes. */
  function Hits(n: Node, qLower: string): seq<Item>
    decreases n
  {
    match n
    case UrlNode(name, url, _) => if name != [] && url != [] && BookmarkMatches(name, url, qLower) then [WebItem(name, url)] else []
    case FolderNode(children) => HitsAll(children, qLower)
    case OtherNode => []
  }

  function HitsAll(ns: seq<Node>, qLower: string): seq<Item>
    decreases ns
  {
    if ns == [] then [] else Hits(ns[0], qLower) + HitsAll(ns[1..], qLower)
  }

  /** The subtree holds a matching URL node whose URL `new URL` rejects. */
  predicate Throws(n: Node, qLower: string)
    decreases n
  {
    match n
    case UrlNode(name, url, validUrl) => name != [] && url != [] && BookmarkMatches(name, url, qLower) && !validUrl
    case FolderNode(children) => ThrowsAll(children, qLower)
    case OtherNode => false
  }

  predicate ThrowsAll(ns: seq<Node>, qLower: string)
    decreases ns
  {
    ns != [] && (Throws(ns[0], qLower) || ThrowsAll(ns[1..], qLower))
  }

  /**
   * The walk pushes the hits in depth-first order up to the first rejected
   * URL; it returns normally exactly when there is none, and then it has
   * pushed every hit.
   */
  lemma {:induction false} WalkFindsHits(n: Node, qLower: string)
    decreases n
    ensures Walk(n, qLower).items <= Hits(n, qLower)
    ensures Walk(n, qLower).completed <==> !Throws(n, qLower)
    ensures Walk(n, qLower).completed ==> Walk(n, qLower).items == Hits(n, qLower)
  {
    match n
    case UrlNode(_, _, _) =>
    case FolderNode(children) => WalkAllFindsHits(children, qLower);
    case OtherNode =>
  }

  /** `WalkFindsHits` for a list of sibling nodes. */
  lemma {:induction false} WalkAllFindsHits(ns: seq<Node>, qLower: string)
    decreases ns
    ensures WalkAll(ns, qLower).items <= HitsAll(ns, qLower)
    ensures WalkAll(ns, qLower).completed <==> !ThrowsAll(ns, qLower)
    ensures WalkAll(ns, qLower).completed ==> WalkAll(ns, qLower).items == HitsAll(ns, qLower)
  {
    if ns != [] {
      var head := Walk(ns[0], qLower);
      WalkFindsHits(ns[0], qLower);
      if head.completed {
        var tail := WalkAll(ns[1..], qLower);
        WalkAllFindsHits(ns[1..], qLower);
        PrefixAfter(head.items, tail.items, HitsAll(ns[1..], qLower));
      } else {
        PrefixOfConcat(head.items, Hits(ns[0], qLower), HitsAll(ns[1..], qLower));
      }
    }
  }

  lemma PrefixAfter<T>(p: seq<T>, a: seq<T>, b: seq<T>)
    requires a <= b
    ensures p + a <= p + b
  {
    assert (p + b)[..|p + a|] == p + a;
  }

  lemma PrefixOfConcat<T>(a: seq<T>, b: seq<T>, c: seq<T>)
    requires a <= b
    ensures a <= b + c
  {
    assert (b + c)[..|a|] == a;
  }

  /** The roots of a bookmark file that are present, in the order they are walked. */
  function RootNodes(roots: Roots): seq<Node> {
    (if roots.bar.Some? then [roots.bar.value] else [])
    + (if roots.other.Some? then [roots.other.value] else [])
    + (if roots.synced.Some? then [roots.synced.value] else [])
  }

  /** What one existing bookmark file contributes: what the walk pushed before it ended or threw. */
  function FileBookmarks(doc: BookmarkDoc, qLower: string): (r: seq<Item>)
    ensures forall k :: 0 <= k < |r| ==> IsBookmarkHit(r[k], qLower)
  {
    match doc
    case Unreadable => []
    case Parsed(roots) => if roots.Some? then WalkAll(RootNodes(roots.value), qLower).items else []
  }

  /** The hits of the files among `paths` that exist, file after file. */
  function Collected(fs: FileSystem, paths: seq<string>, qLower: string): (r: seq<Item>)
    ensures forall k :: 0 <= k < |r| ==> IsBookmarkHit(r[k], qLower)
  {
    if paths == [] then []
    else
      var p := paths[|paths| - 1];
      Collected(fs, paths[..|paths| - 1], qLower) + (if p in fs.bookmarkFiles then FileBookmarks(fs.bookmarkFiles[p], qLower) else [])
  }

  /** The URL of a result that has one. */
  function UrlOf(x: Item): string {
    if x.WebItem? then x.url else ""
  }

  /** No earlier element of `xs` has the URL of `xs[i]`. */
  predicate FirstWithUrl(xs: seq<Item>, i: nat)
    requires i < |xs|
  {
    forall j :: 0 <= j < i ==> UrlOf(xs[j]) != UrlOf(xs[i])
  }

  /** The elements of `xs` that are the first with their URL, in order. */
  function FirstOccurrences(xs: seq<Item>): (r: seq<Item>)
    ensures |r| <= |xs|
    ensures forall k :: 0 <= k < |r| ==> r[k] in xs
  {
    if xs == [] then []
    else
      var prefix := FirstOccurrences(xs[..|xs| - 1]);
      if FirstWithUrl(xs, |xs| - 1) then prefix + [xs[|xs| - 1]] else prefix
  }

  /** The URLs of `xs`. */
  function Urls(xs: seq<Item>): set<string> {
    set k | 0 <= k < |xs| :: UrlOf(xs[k])
  }

  /** Keeping first occurrences loses no URL and keeps no URL twice. */
  lemma {:induction false} FirstOccurrencesDistinct(xs: seq<Item>)
    ensures Urls(FirstOccurrences(xs)) == Urls(xs)
    ensures forall i, j :: 0 <= i < j < |FirstOccurrences(xs)| ==> UrlOf(FirstOccurrences(xs)[i]) != UrlOf(FirstOccurrences(xs)[j])
  {
    if xs != [] {
      var init := xs[..|xs| - 1];
      var last := xs[|xs| - 1];
      FirstOccurrencesDistinct(init);
      var prefix := FirstOccurrences(init);
      assert xs == init + [last];
      UrlsSnoc(init, last);
      if FirstWithUrl(xs, |xs| - 1) {
        var r := prefix + [last];
        assert UrlOf(last) !in Urls(prefix) by {
          forall k | 0 <= k < |init| ensures UrlOf(init[k]) != UrlOf(last) {
            assert xs[k] == init[k];
          }
        }
        UrlsSnoc(prefix, last);
        forall i, j | 0 <= i < j < |r| ensures UrlOf(r[i]) != UrlOf(r[j]) {
          if j == |prefix| {
            assert r[i] == prefix[i];
            assert UrlOf(prefix[i]) in Urls(prefix);
          } else {
            assert r[i] == prefix[i] && r[j] == prefix[j];
          }
        }
      } else {
        var k :| 0 <= k < |xs| - 1 && UrlOf(xs[k]) == UrlOf(last);
        assert init[k] == xs[k];
        assert UrlOf(last) in Urls(init);
      }
    }
  }

  /** Appending an element adds its URL and nothing else. */
  lemma UrlsSnoc(xs: seq<Item>, x: Item)
    ensures Urls(xs + [x]) == Urls(xs) + {UrlOf(x)}
  {
    var ys := xs + [x];
    forall u | u in Urls(ys) ensures u in Urls(xs) + {UrlOf(x)} {
      var k :| 0 <= k < |ys| && UrlOf(ys[k]) == u;
      if k < |xs| { assert ys[k] == xs[k]; }
    }
    forall u | u in Urls(xs) ensures u in Urls(ys) {
      var k :| 0 <= k < |xs| && UrlOf(xs[k]) == u;
      assert ys[k] == xs[k];
    }
    assert ys[|xs|] == x;
  }

  /** An element is dropped only when an earlier one has its URL: the first of every URL is kept. */
  lemma {:induction false} FirstOccurrencesKept(xs: seq<Item>, i: nat)
    requires i < |xs| && FirstWithUrl(xs, i)
    ensures xs[i] in FirstOccurrences(xs)
    decreases |xs|
  {
    if i < |xs| - 1 {
      var init := xs[..|xs| - 1];
      assert FirstWithUrl(init, i) by {
        forall j | 0 <= j < i ensures UrlOf(init[j]) != UrlOf(init[i]) {
          assert init[j] == xs[j] && init[i] == xs[i];
        }
      }
      FirstOccurrencesKept(init, i);
      assert init[i] == xs[i];
    }
  }

  /** The element at `i` is the first with its URL exactly when no earlier element's URL is that URL. */
  lemma FirstWithUrlUnseen(xs: seq<Item>, i: nat)
    requires i < |xs|
    ensures FirstWithUrl(xs, i) <==> UrlOf(xs[i]) !in Urls(xs[..i])
  {
    if UrlOf(xs[i]) in Urls(xs[..i]) {
      var k :| 0 <= k < i && UrlOf(xs[..i][k]) == UrlOf(xs[i]);
      assert xs[k] == xs[..i][k];
    } else {
      forall j | 0 <= j < i ensures UrlOf(xs[j]) != UrlOf(xs[i]) {
        assert xs[..i][j] == xs[j];
      }
    }
  }

  /** The deduplication loop of `searchBookmarks`, with the set of URLs already seen. */
  method DedupByUrl(results: seq<Item>) returns (deduped: seq<Item>)
    ensures deduped == FirstOccurrences(results)
  {
    var seen: set<string> := {};
    deduped := [];
    var i := 0;
    while i < |results|
      invariant 0 <= i <= |results|
      invariant deduped == FirstOccurrences(results[..i])
      invariant seen == Urls(results[..i])
    {
      var res := results[i];
      var prefix := results[..i + 1];
      assert prefix[..i] == results[..i];
      assert prefix == results[..i] + [res];
      FirstWithUrlUnseen(prefix, i);
      UrlsSnoc(results[..i], res);
      if UrlOf(res) !in seen {
        seen := seen + {UrlOf(res)};
        deduped := deduped + [res];
      }
      i := i + 1;
    }
    assert results[..i] == results;
  }

  /** `searchBookmarks(query)`: nothing when disabled or for fewer than two UTF-16 units; otherwise the deduplicated hits. */
  function Bookmarks(fs: FileSystem, query: string, enabled: bool): (r: seq<Item>)
    ensures !enabled || Utf16Length(query) < 2 ==> r == []
    ensures forall k :: 0 <= k < |r| ==> IsBookmarkHit(r[k], ToLower(query))
  {
    if !enabled || Utf16Length(query) < 2 then []
    else FirstOccurrences(Collected(fs, BookmarkPaths(fs.home), ToLower(query)))
  }

  /** The bookmark results carry each matching URL once, the first bookmark found with it. */
  lemma BookmarksDistinct(fs: FileSystem, query: string, enabled: bool)
    requires enabled && Utf16Length(query) >= 2
    ensures var hits := Collected(fs, BookmarkPaths(fs.home), ToLower(query));
      && Urls(Bookmarks(fs, query, enabled)) == Urls(hits)
      && forall i, j :: 0 <= i < j < |Bookmarks(fs, query, enabled)| ==>
           Bookmarks(fs, query, enabled)[i].url != Bookmarks(fs, query, enabled)[j].url
  {
    FirstOccurrencesDistinct(Collected(fs, BookmarkPaths(fs.home), ToLower(query)));
  }

  /** `searchBookmarks`, as the loops the source runs: the files in order, then the deduplication. */
  method SearchBookmarks(fs: FileSystem, query: string, enabled: bool) returns (results: seq<Item>)
    ensures results == Bookmarks(fs, query, enabled)
  {
    if !enabled || Utf16Length(query) < 2 {
      return [];
    }
    var paths := BookmarkPaths(fs.home);
    var qLower := ToLower(query);
    var found := [];
    var i := 0;
    while i < |paths|
      invariant 0 <= i <= |paths|
      invariant found == Collected(fs, paths[..i], qLower)
    {
      assert paths[..i + 1][..i] == paths[..i];
      if paths[i] in fs.bookmarkFiles {
        found := found + FileBookmarks(fs.bookmarkFiles[paths[i]], qLower);
      }
      i := i + 1;
    }
    assert paths[..i] == paths;
    results := DedupByUrl(found);
  }

  // ---------------------------------------------------------------------------
  // searchFiles

  /** The folders searched for files, with the folder name the result records. */
  function FileDirs(home: string): seq<(string, string)> {
    [(JoinPath(home, "Desktop"), "Desktop"), (JoinPath(home, "Documents"), "Documents"), (JoinPath(home, "Downloads"), "Downloads")]
  }

  /** The matching entries among the first `names` of a folder's listing. */
  function FolderHits(dir: string, folder: string, names: seq<string>, qLower: string): (r: seq<Item>)
    ensures forall k :: 0 <= k < |r| ==> r[k].FileItem? && Contains(ToLower(r[k].name), qLower) && r[k].folder == folder
    ensures forall k :: 0 <= k < |r| ==> r[k].path == JoinPath(dir, r[k].name) && r[k].name in names
  {
    if names == [] then []
    else
      var name := names[|names| - 1];
      FolderHits(dir, folder, names[..|names| - 1], qLower)
      + (if Contains(ToLower(name), qLower) then [FileItem(name, JoinPath(dir, name), folder)] else [])
  }

  /** Every matching entry of a listing is found. */
  lemma {:induction false} FolderHitsComplete(dir: string, folder: string, names: seq<string>, qLower: string, j: nat)
    requires j < |names| && Contains(ToLower(names[j]), qLower)
    ensures FileItem(names[j], JoinPath(dir, names[j]), folder) in FolderHits(dir, folder, names, qLower)
    decreases |names|
  {
    if j < |names| - 1 {
      FolderHitsComplete(dir, folder, names[..|names| - 1], qLower, j);
    }
  }

  /** The hits of the folders among `dirs` that can be listed, folder after folder. */
  function AllFolderHits(fs: FileSystem, dirs: seq<(string, string)>, qLower: string): (r: seq<Item>)
    ensures forall k :: 0 <= k < |r| ==> r[k].FileItem? && Contains(ToLower(r[k].name), qLower)
  {
    if dirs == [] then []
    else
      var (dir, folder) := dirs[|dirs| - 1];
      AllFolderHits(fs, dirs[..|dirs| - 1], qLower)
      + (if dir in fs.listings then FolderHits(dir, folder, fs.listings[dir], qLower) else [])
  }

  /** `searchFiles(query)`: nothing when disabled or for fewer than three UTF-16 units. */
  function Files(fs: FileSystem, query: string, enabled: bool): (r: seq<Item>)
    ensures !enabled || Utf16Length(query) < 3 ==> r == []
    ensures forall k :: 0 <= k < |r| ==> r[k].FileItem? && Contains(ToLower(r[k].name), ToLower(query))
  {
    if !enabled || Utf16Length(query) < 3 then [] else AllFolderHits(fs, FileDirs(fs.home), ToLower(query))
  }

  /** `searchFiles`, as the loops the source runs. */
  method SearchFiles(fs: FileSystem, query: string, enabled: bool) returns (files: seq<Item>)
    ensures files == Files(fs, query, enabled)
  {
    if !enabled || Utf16Length(query) < 3 {
      return [];
    }
    var dirs := FileDirs(fs.home);
    var qLower := ToLower(query);
    files := [];
    var i := 0;
    while i < |dirs|
      invariant 0 <= i <= |dirs|
      invariant files == AllFolderHits(fs, dirs[..i], qLower)
    {
      assert dirs[..i + 1][..i] == dirs[..i];
      var (dir, folder) := dirs[i];
      if dir in fs.listings {
        var hits := ScanFolder(dir, folder, fs.listings[dir], qLower);
        files := files + hits;
      }
      i := i + 1;
    }
    assert dirs[..i] == dirs;
  }

  /** The inner loop of `searchFiles`: the entries of one listing whose lower-cased name contains the query. */
  method ScanFolder(dir: string, folder: string, items: seq<string>, qLower: string) returns (hits: seq<Item>)
    ensures hits == FolderHits(dir, folder, items, qLower)
  {
    hits := [];
    var j := 0;
    while j < |items|
      invariant 0 <= j <= |items|
      invariant hits == FolderHits(dir, folder, items[..j], qLower)
    {
      assert items[..j + 1][..j] == items[..j];
      if Contains(ToLower(items[j]), qLower) {
        hits := hits + [FileItem(items[j], JoinPath(dir, items[j]), folder)];
      }
      j := j + 1;
    }
    assert items[..j] == items;
  }

  // ---------------------------------------------------------------------------
  // getIconPath

  const IconDirs: seq<string> := ["/usr/share/pixmaps", "/usr/share/icons/hicolor/48x48/apps", "/usr/share/icons/hicolor/scalable/apps"]
  const IconExts: seq<string> := ["", ".png", ".svg", ".xpm"]

  /** The paths tried for an icon name, directory by directory and, within one, extension by extension. */
  function IconCandidates(name: string): (r: seq<string>)
    ensures |r| == 12
    ensures forall k :: 0 <= k < 12 ==> r[k] == JoinPath(IconDirs[k / 4], name + IconExts[k % 4])
  {
    seq(12, k requires 0 <= k < 12 => JoinPath(IconDirs[k / 4], name + IconExts[k % 4]))
  }

  /** The first of `paths` that can be read. */
  function FirstReadable(paths: seq<string>, readable: set<string>): (r: Option<string>)
    ensures r.None? <==> forall k :: 0 <= k < |paths| ==> paths[k] !in readable
    ensures r.Some? ==> r.value in readable
    ensures r.Some? ==> exists i :: (0 <= i < |paths| && paths[i] == r.value && forall k :: 0 <= k < i ==> paths[k] !in readable)
  {
    if paths == [] then None
    else if paths[0] in readable then Some(paths[0])
    else
      var rest := FirstReadable(paths[1..], readable);
      assert forall k :: 1 <= k < |paths| ==> paths[k] == paths[1..][k - 1];
      rest
  }

  /** `getIconPath(iconName)`: nothing for an empty name, otherwise the first readable candidate. */
  function IconPath(fs: FileSystem, name: string): (r: Option<string>)
    ensures name == [] ==> r.None?
    ensures r.Some? ==> r.value in fs.readable && r.value in IconCandidates(name)
    ensures name != [] ==> (r.None? <==> forall k :: 0 <= k < 12 ==> IconCandidates(name)[k] !in fs.readable)
    ensures r.Some? ==> exists i :: 0 <= i < 12 && r.value == IconCandidates(name)[i] && forall k :: 0 <= k < i ==> IconCandidates(name)[k] !in fs.readable
  {
    if name == [] then None else FirstReadable(IconCandidates(name), fs.readable)
  }

  /** `getIconPath`, as the nested loops with the early return the source has. */
  method GetIconPath(fs: FileSystem, name: string) returns (r: Option<string>)
    ensures r == IconPath(fs, name)
  {
    if name == [] {
      return None;
    }
    ghost var cands := IconCandidates(name);
    ghost var tried := 0;
    var i := 0;
    while i < |IconDirs|
      invariant 0 <= i <= |IconDirs| && tried == 4 * i
      invariant forall k :: 0 <= k < tried ==> cands[k] !in fs.readable
    {
      var j := 0;
      while j < |IconExts|
        invariant 0 <= j <= |IconExts| && tried == 4 * i + j
        invariant forall k :: 0 <= k < tried ==> cands[k] !in fs.readable
      {
        var fullPath := JoinPath(IconDirs[i], name + IconExts[j]);
        assert tried / 4 == i && tried % 4 == j;
        assert fullPath == cands[tried];
        if fullPath in fs.readable {
          FirstReadableIs(cands, fs.readable, tried);
          return Some(fullPath);
        }
        j := j + 1;
        tried := tried + 1;
      }
      i := i + 1;
    }
    return None;
  }

  /** When every path before `i` is unreadable and `paths[i]` is readable, `paths[i]` is the first readable one. */
  lemma FirstReadableIs(paths: seq<string>, readable: set<string>, i: nat)
    requires i < |paths| && paths[i] in readable
    requires forall k :: 0 <= k < i ==> paths[k] !in readable
    ensures FirstReadable(paths, readable) == Some(paths[i])
  {
    var r := FirstReadable(paths, readable);
    var m :| 0 <= m < |paths| && paths[m] == r.value && forall k :: 0 <= k < m ==> paths[k] !in readable;
    assert m == i;
  }
}

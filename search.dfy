/**
 * The `search` handler of the main process: one query in, the result list out.
 *
 * A successful weather lookup answers alone. Otherwise the alias table is
 * consulted, and then exactly one of these branches runs, the first that
 * applies: a `>` shell line, a `g `/`? ` web search, a system-action token, an
 * arithmetic expression, the word `clip` (which returns the clipboard history
 * as it is), or the converter followed, when nothing has been found, by the
 * application, bookmark and file sources. The list is finally cut to
 * `maxResults`.
 *
 * Everything the handler learns from outside (the weather service, the
 * evaluated expression, the exchange-rate service, the clock, the filesystem
 * and the fuzzy ranker) arrives in an `Env`.
 */
module Search {
  import opened Wrappers
  import opened Text
  import opened Items
  import opened UriEncoding
  import opened Clipboard
  import opened ExchangeRates
  import opened Converter
  import opened Sources

  // ---------------------------------------------------------------------------
  // Configuration and the outside world

  /** `config.search` and `config.aliases` as the handler reads them. */
  datatype Config = Config(
    maxResults: int,
    enableFiles: bool,
    enableBookmarks: bool,
    enableWebSearch: bool,
    enableSysCommands: bool,
    enableCalculator: bool,
    enableClipboard: bool,
    aliases: map<string, seq<string>>)

  /** What `Function('return ' + query)()` did: threw, gave a non-finite value, or gave a finite number. */
  datatype EvalOutcome = EvalThrew | NotFinite | Finite(value: real)

  /** The answers of everything outside the handler, for one query. */
  datatype Env = Env(
    weather: Option<WeatherReport>,   // the weather service's current condition, None when the lookup failed
    evaluated: EvalOutcome,
    rateFetch: FetchOutcome,
    now: int,
    fs: FileSystem,
    fuse: (seq<Item>, string) -> seq<nat>)

  // ---------------------------------------------------------------------------
  // Weather: `/^(?:időjárás|weather)\s+(.+)$/i`

  /** The length of the weather keyword the query begins with, in any letter case. */
  function WeatherKeyword(query: string): (n: Option<nat>)
    ensures n.Some? ==> n.value <= |query|
  {
    if |query| >= 8 && ToLower(query[..8]) == "időjárás" then Some(8)
    else if |query| >= 7 && ToLower(query[..7]) == "weather" then Some(7)
    else None
  }

  /** The pattern matches with its group starting at `p`: whitespace before it, no line terminator in it. */
  predicate WeatherGroupAt(query: string, p: nat) {
    && WeatherKeyword(query).Some?
    && WeatherKeyword(query).value < p < |query|
    && AllIn(query[WeatherKeyword(query).value..p], Spaces)
    && AllIn(query[p..], LineChars)
  }

  /** The city of a weather query: the group of the match, trimmed. */
  function WeatherCity(query: string): (r: Option<string>)
    ensures r.Some? <==> exists p: nat :: WeatherGroupAt(query, p)
    ensures forall p: nat :: WeatherGroupAt(query, p) ==> r == Some(Trim(query[p..]))
  {
    match WeatherKeyword(query)
    case None => None
    case Some(n) =>
      var w := RunEnd(query, n, Spaces);
      GroupsAgree(query, n, w);
      if w == n then
        None
      else if w < |query| then
        if RunEnd(query, w, LineChars) == |query| then
          GroupAtRunEnd(query, n, w);
          Some(Trim(query[w..]))
        else
          LineBreakInGroup(query, w);
          None
      else if |query| - n >= 2 && !IsLineTerminator(query[|query| - 1]) then
        GroupAtLast(query, n);
        Some(Trim(query[|query| - 1..]))
      else
        NoGroupInBlank(query, n);
        None
  }

  /** Every start of the group lies in the whitespace run after the keyword and gives its trimmed city. */
  lemma GroupsAgree(query: string, n: nat, w: nat)
    requires WeatherKeyword(query) == Some(n) && n <= |query| && w == RunEnd(query, n, Spaces)
    ensures forall p: nat :: WeatherGroupAt(query, p) ==> n < p <= w && Trim(query[p..]) == Trim(query[w..])
  {
    forall p: nat | WeatherGroupAt(query, p) ensures n < p <= w && Trim(query[p..]) == Trim(query[w..]) {
      RunEndCovers(query, n, p, Spaces);
      GroupsTrimAlike(query, n, p, w);
    }
  }

  /** When the whitespace run ends inside the query and no line terminator follows, the group starts there. */
  lemma GroupAtRunEnd(query: string, n: nat, w: nat)
    requires WeatherKeyword(query) == Some(n) && n < w < |query| && w == RunEnd(query, n, Spaces)
    requires RunEnd(query, w, LineChars) == |query|
    ensures WeatherGroupAt(query, w)
  {
    assert query[w..] == query[w..|query|];
  }

  /** When the whitespace runs to the end, the group can still be the last character, taken back from the run. */
  lemma GroupAtLast(query: string, n: nat)
    requires WeatherKeyword(query) == Some(n) && n <= |query| && RunEnd(query, n, Spaces) == |query|
    requires |query| - n >= 2 && !IsLineTerminator(query[|query| - 1])
    ensures WeatherGroupAt(query, |query| - 1)
  {
    assert query[n..|query| - 1] == query[n..|query|][..|query| - 1 - n];
    assert query[|query| - 1..] == [query[|query| - 1]];
  }

  /** When the whitespace runs to the end and leaves no character for the group, nothing matches. */
  lemma NoGroupInBlank(query: string, n: nat)
    requires WeatherKeyword(query) == Some(n) && n <= |query|
    requires |query| - n < 2 || IsLineTerminator(query[|query| - 1])
    ensures forall p: nat :: !WeatherGroupAt(query, p)
  {
    forall p: nat | n < p < |query| ensures !AllIn(query[p..], LineChars) || |query| - n < 2 {
      assert query[p..][|query| - 1 - p] == query[|query| - 1];
    }
  }

  /** Two places where the group may start, inside the whitespace after the keyword, give the same trimmed city. */
  lemma GroupsTrimAlike(query: string, n: nat, p: nat, w: nat)
    requires n <= p <= w <= |query| && AllIn(query[n..w], Spaces)
    ensures Trim(query[p..]) == Trim(query[w..])
  {
    var t := query[p..];
    assert AllIn(t[..w - p], Spaces) by {
      assert t[..w - p] == query[n..w][p - n..];
    }
    assert t[w - p..] == query[w..];
    TrimDropsLeadingSpaces(t, w - p);
  }

  /** A line terminator after the whitespace stops every group from reaching the end. */
  lemma LineBreakInGroup(query: string, w: nat)
    requires w < |query| && RunEnd(query, w, LineChars) < |query|
    ensures forall p: nat :: p <= w ==> !AllIn(query[p..], LineChars)
  {
    var e := RunEnd(query, w, LineChars);
    forall p: nat | p <= w ensures !AllIn(query[p..], LineChars) {
      assert query[p..][e - p] == query[e];
    }
  }

  /** `city.charAt(0).toUpperCase() + city.slice(1)`. */
  function Capitalized(city: string): (r: string)
    ensures |r| == |city|
    ensures city != [] ==> r[0] == UpperChar(city[0]) && r[1..] == city[1..]
  {
    if city == [] then [] else [UpperChar(city[0])] + city[1..]
  }

  /** The weather short-circuit: the one item answered when the query matches and the lookup succeeded. */
  function WeatherAnswer(query: string, weather: Option<WeatherReport>): (r: Option<Item>)
    ensures r.Some? <==> WeatherCity(query).Some? && weather.Some?
    ensures r.Some? ==> r.value == WeatherItem(Capitalized(WeatherCity(query).value), weather.value)
  {
    match WeatherCity(query)
    case None => None
    case Some(city) => if weather.Some? then Some(WeatherItem(Capitalized(city), weather.value)) else None
  }

  // ---------------------------------------------------------------------------
  // The branches

  /** The exclusive branches after the alias step, in their order of precedence. */
  datatype Branch = Shell | WebSearch | SysCommand | Calculator | ClipboardHistory | Fallback

  const SysTokens: set<string> := {"lock", "sleep", "shutdown", "restart", "zár", "alvás", "leállítás", "újraindítás", "kikapcs"}

  /**
   * `/^[\d+\-*\/().\s%]+$/`: a query the calculator accepts holds no letter,
   * so it never starts a shell line or a web search.
   */
  function IsArithmetic(query: string): (r: bool)
    ensures r ==> query != [] && forall k :: 0 <= k < |query| ==> !IsAsciiLetter(query[k])
    ensures r ==> !StartsWith(query, ">") && !StartsWith(query, "g ") && !StartsWith(query, "? ")
  {
    if query != [] && AllIn(query, CalcChars) then
      assert InClass(query[0], CalcChars);
      true
    else false
  }

  /**
   * The first branch, in the handler's order, whose test the query passes. A
   * `>` query is always a shell line; an arithmetic query reaches the
   * calculator and `clip` the history whenever those are switched on, since no
   * earlier test can catch them.
   */
  function BranchOf(query: string, cfg: Config): (r: Branch)
    ensures r == Shell <==> StartsWith(query, ">")
    ensures r == WebSearch ==> cfg.enableWebSearch && (StartsWith(query, "g ") || StartsWith(query, "? "))
    ensures r == SysCommand ==> cfg.enableSysCommands && ToLower(query) in SysTokens
    ensures r == Calculator ==> cfg.enableCalculator && IsArithmetic(query)
    ensures r == ClipboardHistory ==> cfg.enableClipboard && ToLower(query) == "clip"
    ensures cfg.enableCalculator && IsArithmetic(query) ==> r == Calculator
    ensures cfg.enableClipboard && ToLower(query) == "clip" ==> r == ClipboardHistory
  {
    ArithmeticNotToken(query);
    ClipNotEarlier(query);
    if StartsWith(query, ">") then Shell
    else if cfg.enableWebSearch && (StartsWith(query, "g ") || StartsWith(query, "? ")) then WebSearch
    else if cfg.enableSysCommands && ToLower(query) in SysTokens then SysCommand
    else if cfg.enableCalculator && IsArithmetic(query) then Calculator
    else if cfg.enableClipboard && ToLower(query) == "clip" then ClipboardHistory
    else Fallback
  }

  /** Lower-casing leaves an arithmetic query alone, and no system token is letter-free. */
  lemma ArithmeticNotToken(query: string)
    ensures IsArithmetic(query) ==> ToLower(query) !in SysTokens
  {
    if IsArithmetic(query) {
      assert ToLower(query)[0] == LowerChar(query[0]);
      assert !IsAsciiLetter(query[0]);
    }
  }

  /** A query that lower-cases to `clip` is no shell line, web search, system token or arithmetic. */
  lemma ClipNotEarlier(query: string)
    ensures ToLower(query) == "clip" ==>
      && !StartsWith(query, ">") && !StartsWith(query, "g ") && !StartsWith(query, "? ")
      && ToLower(query) !in SysTokens && !IsArithmetic(query)
  {
    if ToLower(query) == "clip" {
      assert LowerChar(query[0]) == 'c';
      assert !InClass(query[0], CalcChars);
    }
  }

  /** The display name and the command of a system-action token. */
  function SysAction(token: string): (r: (string, string))
    requires token in SysTokens
    ensures token in {"lock", "zár"} ==> r == ("Képernyő zárolása", "xdg-screensaver lock")
    ensures token in {"sleep", "alvás"} ==> r == ("Alvó mód", "systemctl suspend")
    ensures token in {"shutdown", "leállítás", "kikapcs"} ==> r == ("Leállítás", "systemctl poweroff")
    ensures token in {"restart", "újraindítás"} ==> r == ("Újraindítás", "systemctl reboot")
  {
    if token == "lock" || token == "zár" then ("Képernyő zárolása", "xdg-screensaver lock")
    else if token == "sleep" || token == "alvás" then ("Alvó mód", "systemctl suspend")
    else if token == "shutdown" || token == "leállítás" || token == "kikapcs" then ("Leállítás", "systemctl poweroff")
    else ("Újraindítás", "systemctl reboot")
  }

  /** The alias item for the lower-cased query, when the alias table has that key. */
  function AliasItems(query: string, cfg: Config): (r: seq<Item>)
    ensures |r| <= 1
    ensures r != [] <==> ToLower(query) in cfg.aliases
    ensures r != [] ==> r[0] == AliasItem(ToLower(query), cfg.aliases[ToLower(query)])
  {
    var key := ToLower(query);
    if key in cfg.aliases then [AliasItem(key, cfg.aliases[key])] else []
  }

  const SearchUrlPrefix: string := "https://www.google.com/search?q="

  /** The item of the branch, for every branch but the clipboard and the fallback. */
  function BranchItems(query: string, cfg: Config, env: Env, branch: Branch): (r: seq<Item>)
    requires branch != ClipboardHistory && branch != Fallback
    requires branch == BranchOf(query, cfg)
    ensures |r| <= 1
    ensures branch == Shell ==> (r == [] <==> Trim(query[1..]) == [])
    ensures branch == Shell && r != [] ==> r[0] == CommandItem(Trim(query[1..]))
    ensures branch == WebSearch ==> (r == [] <==> Trim(query[2..]) == [])
    ensures branch == WebSearch && r != [] ==>
      r[0] == WebItem("Keresés a weben: " + Trim(query[2..]), SearchUrlPrefix + EncodeUriComponent(Trim(query[2..])))
    ensures branch == SysCommand ==>
      r == [SysCommandItem(SysAction(ToLower(query)).0, SysAction(ToLower(query)).1, ToLower(query))]
    ensures branch == Calculator ==> (r != [] <==> env.evaluated.Finite?)
    ensures branch == Calculator && r != [] ==> r[0] == CalcItem(Arithmetic, env.evaluated.value)
  {
    match branch
    case Shell =>
      var cmd := Trim(query[1..]);
      if cmd != [] then [CommandItem(cmd)] else []
    case WebSearch =>
      var term := Trim(query[2..]);
      if term != [] then [WebItem("Keresés a weben: " + term, SearchUrlPrefix + EncodeUriComponent(term))] else []
    case SysCommand =>
      var token := ToLower(query);
      var (name, action) := SysAction(token);
      [SysCommandItem(name, action, token)]
    case Calculator =>
      if env.evaluated.Finite? then [CalcItem(Arithmetic, env.evaluated.value)] else []
  }

  /** The first 50 characters of a clipboard text, its display name. */
  function ClipName(text: string): (r: string)
    ensures |r| <= 50 && r <= text
    ensures |text| <= 50 ==> r == text
    ensures |text| > 50 ==> |r| == 50
  {
    text[..if |text| < 50 then |text| else 50]
  }

  /** `clipboardHistory.map(...)`: one clipboard item per entry, most recent first. */
  function ClipItems(history: seq<Entry>): (r: seq<Item>)
    ensures |r| == |history|
    ensures forall k :: 0 <= k < |r| ==> r[k] == ClipboardItem(ClipName(history[k].text), history[k].text)
  {
    seq(|history|, k requires 0 <= k < |history| => ClipboardItem(ClipName(history[k].text), history[k].text))
  }

  /** `xs.slice(0, n)` for a count that is never negative. */
  function Take<T>(xs: seq<T>, n: nat): (r: seq<T>)
    ensures |r| <= n && r <= xs
    ensures |xs| <= n ==> r == xs
    ensures |xs| > n ==> |r| == n
  {
    if |xs| <= n then xs else xs[..n]
  }

  /** `xs.slice(0, m)`: a negative `m` counts from the end. */
  function Slice<T>(xs: seq<T>, m: int): (r: seq<T>)
    ensures r <= xs
    ensures m >= 0 ==> |r| == if m < |xs| then m else |xs|
    ensures m < 0 ==> |r| == if |xs| + m > 0 then |xs| + m else 0
  {
    if m >= |xs| then xs
    else if m >= 0 then xs[..m]
    else if |xs| + m > 0 then xs[..|xs| + m]
    else []
  }


  /** The position of a fallback item's source in the merge: apps, then bookmarks, then files. */
  function SourceRank(x: Item): nat {
    if x.AppItem? then 0 else if x.WebItem? then 1 else 2
  }

  /** The items of `xs` from the source of rank `rank`, in order. */
  function FromSource(xs: seq<Item>, rank: nat): (r: seq<Item>)
    ensures |r| <= |xs|
    ensures forall k :: 0 <= k < |r| ==> SourceRank(r[k]) == rank
  {
    if xs == [] then []
    else
      var rest := FromSource(xs[1..], rank);
      if SourceRank(xs[0]) == rank then [xs[0]] + rest else rest
  }

  /** Taking one source's items out of a concatenation takes them out of each part. */
  lemma {:induction false} FromSourceAppend(a: seq<Item>, b: seq<Item>, rank: nat)
    ensures FromSource(a + b, rank) == FromSource(a, rank) + FromSource(b, rank)
  {
    if a != [] {
      var head := if SourceRank(a[0]) == rank then [a[0]] else [];
      assert (a + b)[0] == a[0];
      assert (a + b)[1..] == a[1..] + b;
      FromSourceAppend(a[1..], b, rank);
      assert FromSource(a + b, rank) == head + FromSource(a[1..] + b, rank);
      assert FromSource(a, rank) == head + FromSource(a[1..], rank);
    } else {
      assert a + b == b;
    }
  }

  /** A list drawn from one source keeps all of it, and gives nothing for any other source. */
  lemma {:induction false} FromSourceUniform(xs: seq<Item>, from: nat, rank: nat)
    requires forall k :: 0 <= k < |xs| ==> SourceRank(xs[k]) == from
    ensures FromSource(xs, rank) == if rank == from then xs else []
  {
    if xs != [] {
      FromSourceUniform(xs[1..], from, rank);
    }
  }

  /** The apps, bookmarks and files of a merge are its three parts. */
  lemma SplitBySource(apps: seq<Item>, bookmarks: seq<Item>, files: seq<Item>)
    requires forall k :: 0 <= k < |apps| ==> apps[k].AppItem?
    requires forall k :: 0 <= k < |bookmarks| ==> bookmarks[k].WebItem?
    requires forall k :: 0 <= k < |files| ==> files[k].FileItem?
    ensures FromSource(apps + bookmarks + files, 0) == apps
    ensures FromSource(apps + bookmarks + files, 1) == bookmarks
    ensures FromSource(apps + bookmarks + files, 2) == files
  {
    SourceOfThree(apps, bookmarks, files, 0);
    SourceOfThree(apps, bookmarks, files, 1);
    SourceOfThree(apps, bookmarks, files, 2);
  }

  /** One source's items of a three-part merge whose parts come from sources 0, 1 and 2. */
  lemma SourceOfThree(a: seq<Item>, b: seq<Item>, c: seq<Item>, rank: nat)
    requires forall k :: 0 <= k < |a| ==> SourceRank(a[k]) == 0
    requires forall k :: 0 <= k < |b| ==> SourceRank(b[k]) == 1
    requires forall k :: 0 <= k < |c| ==> SourceRank(c[k]) == 2
    ensures FromSource(a + b + c, rank) == (if rank == 0 then a else []) + (if rank == 1 then b else []) + (if rank == 2 then c else [])
  {
    FromSourceAppend(a + b, c, rank);
    FromSourceAppend(a, b, rank);
    FromSourceUniform(a, 0, rank);
    FromSourceUniform(b, 1, rank);
    FromSourceUniform(c, 2, rank);
  }

  /**
   * Apps, bookmark hits and file hits merged in that order are ordered by
   * source, and each item is one of the three.
   */
  lemma MergeOrdered(fs: FileSystem, qLower: string, apps: seq<Item>, bookmarks: seq<Item>, files: seq<Item>)
    requires forall k :: 0 <= k < |apps| ==> AppFromEntry(fs, apps[k])
    requires forall k :: 0 <= k < |bookmarks| ==> IsBookmarkHit(bookmarks[k], qLower)
    requires forall k :: 0 <= k < |files| ==> files[k].FileItem? && Contains(ToLower(files[k].name), qLower)
    ensures forall i, j :: 0 <= i < j < |apps + bookmarks + files| ==>
      SourceRank((apps + bookmarks + files)[i]) <= SourceRank((apps + bookmarks + files)[j])
    ensures forall k :: 0 <= k < |apps + bookmarks + files| ==>
      var x := (apps + bookmarks + files)[k];
      AppFromEntry(fs, x) || IsBookmarkHit(x, qLower) || (x.FileItem? && Contains(ToLower(x.name), qLower))
  {
    var s := apps + bookmarks + files;
    forall k | 0 <= k < |s|
      ensures SourceRank(s[k]) == (if k < |apps| then 0 else if k < |apps| + |bookmarks| then 1 else 2)
      ensures AppFromEntry(fs, s[k]) || IsBookmarkHit(s[k], qLower) || (s[k].FileItem? && Contains(ToLower(s[k].name), qLower))
    {
      if k < |apps| {
        assert s[k] == apps[k];
      } else if k < |apps| + |bookmarks| {
        assert s[k] == bookmarks[k - |apps|];
      } else {
        assert s[k] == files[k - |apps| - |bookmarks|];
      }
    }
  }

  /** The fallback: at most 5 apps, then at most 3 bookmarks, then at most 3 files. */
  function FallbackItems(query: string, cfg: Config, env: Env): (r: seq<Item>)
    ensures |r| <= 11
  {
    Take(SearchApplications(env.fs, query, env.fuse), 5)
      + Take(Bookmarks(env.fs, query, cfg.enableBookmarks), 3)
      + Take(Files(env.fs, query, cfg.enableFiles), 3)
  }

  /**
   * The fallback's apps, bookmarks and files are the first 5, 3 and 3 of what
   * each search found, in the order it found them.
   */
  lemma FallbackBySource(query: string, cfg: Config, env: Env)
    ensures FromSource(FallbackItems(query, cfg, env), 0) == Take(SearchApplications(env.fs, query, env.fuse), 5)
    ensures FromSource(FallbackItems(query, cfg, env), 1) == Take(Bookmarks(env.fs, query, cfg.enableBookmarks), 3)
    ensures FromSource(FallbackItems(query, cfg, env), 2) == Take(Files(env.fs, query, cfg.enableFiles), 3)
  {
    var apps := Take(SearchApplications(env.fs, query, env.fuse), 5);
    var bookmarks := Take(Bookmarks(env.fs, query, cfg.enableBookmarks), 3);
    var files := Take(Files(env.fs, query, cfg.enableFiles), 3);
    assert forall k :: 0 <= k < |apps| ==> AppFromEntry(env.fs, apps[k]);
    assert forall k :: 0 <= k < |bookmarks| ==> IsBookmarkHit(bookmarks[k], ToLower(query));
    SplitBySource(apps, bookmarks, files);
  }

  /**
   * The fallback list starts with the ranked apps, is ordered by source (apps,
   * bookmarks, files), and holds nothing but apps read from desktop entries,
   * bookmarks matching the query and files whose names contain it.
   */
  lemma FallbackShape(query: string, cfg: Config, env: Env)
    ensures Take(SearchApplications(env.fs, query, env.fuse), 5) <= FallbackItems(query, cfg, env)
    ensures var r := FallbackItems(query, cfg, env);
      forall i, j :: 0 <= i < j < |r| ==> SourceRank(r[i]) <= SourceRank(r[j])
    ensures var r := FallbackItems(query, cfg, env);
      forall k :: 0 <= k < |r| ==>
        || AppFromEntry(env.fs, r[k])
        || IsBookmarkHit(r[k], ToLower(query))
        || (r[k].FileItem? && Contains(ToLower(r[k].name), ToLower(query)))
  {
    var all := SearchApplications(env.fs, query, env.fuse);
    var found := Bookmarks(env.fs, query, cfg.enableBookmarks);
    var hits := Files(env.fs, query, cfg.enableFiles);
    assert FallbackItems(query, cfg, env) == Take(all, 5) + Take(found, 3) + Take(hits, 3);
    TakenMerge(env.fs, ToLower(query), all, found, hits);
  }

  /** `MergeOrdered` for the first 5 apps, 3 bookmarks and 3 files of the three lists. */
  lemma TakenMerge(fs: FileSystem, qLower: string, all: seq<Item>, found: seq<Item>, hits: seq<Item>)
    requires forall k :: 0 <= k < |all| ==> AppFromEntry(fs, all[k])
    requires forall k :: 0 <= k < |found| ==> IsBookmarkHit(found[k], qLower)
    requires forall k :: 0 <= k < |hits| ==> hits[k].FileItem? && Contains(ToLower(hits[k].name), qLower)
    ensures var r := Take(all, 5) + Take(found, 3) + Take(hits, 3);
      forall i, j :: 0 <= i < j < |r| ==> SourceRank(r[i]) <= SourceRank(r[j])
    ensures var r := Take(all, 5) + Take(found, 3) + Take(hits, 3);
      forall k :: 0 <= k < |r| ==>
        AppFromEntry(fs, r[k]) || IsBookmarkHit(r[k], qLower) || (r[k].FileItem? && Contains(ToLower(r[k].name), qLower))
  {
    var apps := Take(all, 5);
    assert forall k :: 0 <= k < |apps| ==> apps[k] == all[k];
    var bookmarks := Take(found, 3);
    assert forall k :: 0 <= k < |bookmarks| ==> bookmarks[k] == found[k];
    var files := Take(hits, 3);
    assert forall k :: 0 <= k < |files| ==> files[k] == hits[k];
    MergeOrdered(fs, qLower, apps, bookmarks, files);
  }

  /** `if (results.length === 0 && query.length > 0)`: the fallback replaces an empty list for a non-empty query. */
  function FallbackIfEmpty(query: string, cfg: Config, env: Env, found: seq<Item>): (r: seq<Item>)
    ensures found != [] || query == [] ==> r == found
    ensures found == [] && query != [] ==> r == FallbackItems(query, cfg, env)
  {
    if found == [] && query != [] then FallbackItems(query, cfg, env) else found
  }

  /** The handler's answer and the exchange-rate cache after it. */
  datatype Resolution = Resolution(items: seq<Item>, cache: CacheState)

  /**
   * The list built when the handler reaches the cap, on every path but the
   * weather and clipboard returns: the alias item, then the branch's item or,
   * in the last branch, the converter item and, when still nothing has been
   * found, the fallback.
   */
  function Gathered(query: string, cfg: Config, env: Env, cache: CacheState): (r: Resolution)
    requires BranchOf(query, cfg) != ClipboardHistory
    ensures AliasItems(query, cfg) <= r.items
    ensures BranchOf(query, cfg) != Fallback ==> r.cache == cache && |r.items| <= |AliasItems(query, cfg)| + 1
    ensures BranchOf(query, cfg) == Fallback ==> r.cache == ConverterStep(query, cache, env.now, env.rateFetch).cache
    ensures var conv := ConverterStep(query, cache, env.now, env.rateFetch);
      BranchOf(query, cfg) == Fallback && (AliasItems(query, cfg) != [] || conv.item.Some? || query == []) ==>
        r.items == AliasItems(query, cfg) + (if conv.item.Some? then [conv.item.value] else [])
  {
    var aliases := AliasItems(query, cfg);
    var branch := BranchOf(query, cfg);
    if branch == Fallback then
      var conv := ConverterStep(query, cache, env.now, env.rateFetch);
      var found := aliases + (if conv.item.Some? then [conv.item.value] else []);
      Resolution(FallbackIfEmpty(query, cfg, env, found), conv.cache)
    else
      Resolution(aliases + BranchItems(query, cfg, env, branch), cache)
  }

  /** In an exclusive branch, the list is the alias item followed by exactly that branch's item. */
  lemma GatheredBranch(query: string, cfg: Config, env: Env, cache: CacheState)
    requires BranchOf(query, cfg) !in {ClipboardHistory, Fallback}
    ensures Gathered(query, cfg, env, cache).items == AliasItems(query, cfg) + BranchItems(query, cfg, env, BranchOf(query, cfg))
  {
  }

  /** The whole handler, `ipcMain.handle('search', ...)`: the items answered and the rate cache after the call. */
  function Resolve(query: string, cfg: Config, env: Env, history: seq<Entry>, cache: CacheState): (r: Resolution)
    ensures WeatherAnswer(query, env.weather).Some? ==> r == Resolution([WeatherAnswer(query, env.weather).value], cache)
    ensures WeatherAnswer(query, env.weather).None? && BranchOf(query, cfg) == ClipboardHistory ==>
      r == Resolution(ClipItems(history), cache)
    ensures WeatherAnswer(query, env.weather).None? && BranchOf(query, cfg) != ClipboardHistory ==>
      && r.cache == Gathered(query, cfg, env, cache).cache
      && r.items == Slice(Gathered(query, cfg, env, cache).items, cfg.maxResults)
    ensures r.cache == cache || r.cache == Fetch(cache, env.now, env.rateFetch).state
    ensures WeatherAnswer(query, env.weather).Some? || BranchOf(query, cfg) != Fallback ==> r.cache == cache
  {
    match WeatherAnswer(query, env.weather)
    case Some(item) => Resolution([item], cache)
    case None =>
      if BranchOf(query, cfg) == ClipboardHistory then Resolution(ClipItems(history), cache)
      else
        var gathered := Gathered(query, cfg, env, cache);
        Resolution(Slice(gathered.items, cfg.maxResults), gathered.cache)
  }

  // ---------------------------------------------------------------------------
  // Properties of the handler

  /** With room for one item, an alias hit is the first result on every path but the weather and clipboard returns. */
  lemma AliasComesFirst(query: string, cfg: Config, env: Env, history: seq<Entry>, cache: CacheState)
    requires WeatherAnswer(query, env.weather).None? && BranchOf(query, cfg) != ClipboardHistory
    requires ToLower(query) in cfg.aliases && cfg.maxResults >= 1
    ensures |Resolve(query, cfg, env, history, cache).items| >= 1
    ensures Resolve(query, cfg, env, history, cache).items[0] == AliasItem(ToLower(query), cfg.aliases[ToLower(query)])
  {
    var g := Gathered(query, cfg, env, cache);
    assert g.items[0] == AliasItems(query, cfg)[0];
  }

  /** `clip` answers the whole history in order, without the alias item and without the cap. */
  lemma ClipReturnsHistory(query: string, cfg: Config, env: Env, history: seq<Entry>, cache: CacheState)
    requires WeatherAnswer(query, env.weather).None? && BranchOf(query, cfg) == ClipboardHistory
    ensures |Resolve(query, cfg, env, history, cache).items| == |history|
    ensures forall k :: 0 <= k < |history| ==>
      Resolve(query, cfg, env, history, cache).items[k] == ClipboardItem(ClipName(history[k].text), history[k].text)
  {
  }

  /** `>` and `g `/`? ` with nothing but whitespace after them add no item of their own. */
  lemma EmptyRemainderAddsNothing(query: string, cfg: Config, env: Env, cache: CacheState)
    requires || (BranchOf(query, cfg) == Shell && Trim(query[1..]) == [])
             || (BranchOf(query, cfg) == WebSearch && Trim(query[2..]) == [])
    ensures Gathered(query, cfg, env, cache).items == AliasItems(query, cfg)
  {
    var b := BranchItems(query, cfg, env, BranchOf(query, cfg));
    assert b == [];
  }

  /** A `>` line is a shell command whatever the flags say. */
  lemma ShellIgnoresFlags(query: string, cfg: Config)
    requires StartsWith(query, ">")
    ensures BranchOf(query, cfg) == Shell
  {
  }

  /**
   * Once an alias or a conversion has been found, or the query is empty, the
   * last branch's list holds only those: no app, bookmark or file is added.
   */
  lemma FallbackOnlyWhenNothingFound(query: string, cfg: Config, env: Env, cache: CacheState)
    requires BranchOf(query, cfg) == Fallback
    requires || AliasItems(query, cfg) != []
             || ConverterStep(query, cache, env.now, env.rateFetch).item.Some?
             || query == []
    ensures var g := Gathered(query, cfg, env, cache).items;
      forall k :: 0 <= k < |g| ==> g[k].AliasItem? || g[k].CalcItem?
  {
    var g := Gathered(query, cfg, env, cache).items;
    var aliases := AliasItems(query, cfg);
    var conv := ConverterStep(query, cache, env.now, env.rateFetch);
    var found := aliases + (if conv.item.Some? then [conv.item.value] else []);
    assert Gathered(query, cfg, env, cache).items == FallbackIfEmpty(query, cfg, env, found);
    assert g == found;
    forall k | 0 <= k < |g| ensures g[k].AliasItem? || g[k].CalcItem? {
      if k < |aliases| {
        assert g[k] == aliases[k];
      }
    }
  }

  /** With no alias and no conversion, a non-empty query gets the fallback as the whole list. */
  lemma FallbackWhenNothingFound(query: string, cfg: Config, env: Env, cache: CacheState)
    requires BranchOf(query, cfg) == Fallback && query != []
    requires AliasItems(query, cfg) == [] && ConverterStep(query, cache, env.now, env.rateFetch).item.None?
    ensures Gathered(query, cfg, env, cache).items == FallbackItems(query, cfg, env)
  {
  }

  /** An alias hit suppresses the fallback: the last branch then answers the alias and at most a conversion. */
  lemma AliasSuppressesFallback(query: string, cfg: Config, env: Env, cache: CacheState)
    requires BranchOf(query, cfg) == Fallback && ToLower(query) in cfg.aliases
    ensures var g := Gathered(query, cfg, env, cache).items;
      && 1 <= |g| <= 2
      && g[0] == AliasItem(ToLower(query), cfg.aliases[ToLower(query)])
      && (|g| == 2 ==> g[1].CalcItem?)
      && g[1..] == (var conv := ConverterStep(query, cache, env.now, env.rateFetch);
                    if conv.item.Some? then [conv.item.value] else [])
  {
    var aliases := AliasItems(query, cfg);
    var conv := ConverterStep(query, cache, env.now, env.rateFetch);
    var found := aliases + (if conv.item.Some? then [conv.item.value] else []);
    assert Gathered(query, cfg, env, cache).items == FallbackIfEmpty(query, cfg, env, found);
    assert found[0] == aliases[0];
  }

  /** An alias key with an upper-case letter can never be hit, since the query is lower-cased before the lookup. */
  lemma UpperCaseAliasUnreachable(query: string, cfg: Config, key: string)
    requires ToLower(key) != key
    ensures AliasItems(query, cfg) == [] || AliasItems(query, cfg)[0].key != key
  {
    ToLowerIdempotent(query);
  }

  /** The keys every object literal inherits from `Object.prototype` whose names have no upper-case letter. */
  const InheritedKeys: set<string> := {"constructor", "__proto__"}

  /** The alias test as written: a truthy property of a plain object, inherited ones included. */
  predicate AliasHitAsWritten(aliases: map<string, seq<string>>, key: string) {
    key in aliases || key in InheritedKeys
  }

  /** The query `constructor` passes the alias test as written even with no alias defined, and not the corrected test. */
  lemma InheritedKeyAliasHit(cfg: Config)
    requires cfg.aliases == map[]
    ensures AliasHitAsWritten(cfg.aliases, ToLower("constructor"))
    ensures AliasItems("constructor", cfg) == []
  {
    assert ToLower("constructor") == "constructor";
  }

  // ---------------------------------------------------------------------------
  // The handler over the main process's state

  /** The main process: its configuration, the clipboard history and the exchange-rate cache. */
  class Launcher {
    var config: Config
    const history: ClipboardHistory
    const rates: RateCache

    constructor (config: Config, history: ClipboardHistory, rates: RateCache)
      ensures this.config == config && this.history == history && this.rates == rates
    {
      this.config := config;
      this.history := history;
      this.rates := rates;
    }

    /** The last branch's converter: match, parse, then `Convert`, fetching rates only past the temperature case. */
    method RunConverter(query: string, now: int, outcome: FetchOutcome) returns (item: Option<Item>)
      modifies rates
      ensures item == ConverterStep(query, old(rates.State()), now, outcome).item
      ensures rates.State() == ConverterStep(query, old(rates.State()), now, outcome).cache
    {
      item := None;
      var m := MatchConvert(query);
      if m.None? {
        return;
      }
      var amount := ParseFloat(ReplaceFirstComma(m.value.amount));
      if amount.None? {
        return;
      }
      var from := ToLower(m.value.from);
      var to := ToLower(m.value.to);
      var temp := TemperatureConversion(amount.value, from, to);
      if temp.Some? {
        item := Some(CalcItem(Temperature, temp.value));
        return;
      }
      var table := rates.FetchExchangeRates(now, outcome);
      var units := UnitConversion(amount.value, from, to);
      if units.Some? {
        item := Some(CalcItem(Units, units.value));
      } else {
        var currency := CurrencyConversion(amount.value, from, to, table);
        if currency.Some? {
          item := Some(CalcItem(Currency, currency.value));
        }
      }
    }

    /** The fallback sources, one after the other, merged: 5 apps, 3 bookmarks, 3 files. */
    method RunFallback(query: string, env: Env) returns (items: seq<Item>)
      ensures items == FallbackItems(query, config, env)
    {
      var candidates := ScanApplications(env.fs);
      var apps := if query == [] then candidates else Ranked(candidates, env.fuse(candidates, query));
      var files := SearchFiles(env.fs, query, config.enableFiles);
      var bookmarks := SearchBookmarks(env.fs, query, config.enableBookmarks);
      assert apps == SearchApplications(env.fs, query, env.fuse);
      items := Take(apps, 5) + Take(bookmarks, 3) + Take(files, 3);
    }

    /** The branches before the clipboard test: `>`, web search, system action, calculator, each after the alias item. */
    method EarlyBranch(query: string, env: Env, aliases: seq<Item>) returns (results: seq<Item>)
      requires BranchOf(query, config) in {Shell, WebSearch, SysCommand, Calculator}
      requires aliases == AliasItems(query, config)
      ensures results == Gathered(query, config, env, rates.State()).items
    {
      ghost var branch := BranchOf(query, config);
      GatheredBranch(query, config, env, rates.State());
      results := aliases;
      var qLower := ToLower(query);
      if StartsWith(query, ">") {
        var cmd := Trim(query[1..]);
        if cmd != [] {
          results := results + [CommandItem(cmd)];
        }
      } else if config.enableWebSearch && (StartsWith(query, "g ") || StartsWith(query, "? ")) {
        var term := Trim(query[2..]);
        if term != [] {
          results := results + [WebItem("Keresés a weben: " + term, SearchUrlPrefix + EncodeUriComponent(term))];
        }
      } else if config.enableSysCommands && qLower in SysTokens {
        var (name, action) := SysAction(qLower);
        results := results + [SysCommandItem(name, action, qLower)];
      } else if env.evaluated.Finite? {
        results := results + [CalcItem(Arithmetic, env.evaluated.value)];
      }
    }

    /** The last branch: the converter after the alias item, then the fallback if the list is still empty. */
    method LastBranch(query: string, env: Env, aliases: seq<Item>) returns (results: seq<Item>)
      requires BranchOf(query, config) == Fallback && aliases == AliasItems(query, config)
      modifies rates
      ensures Resolution(results, rates.State()) == Gathered(query, config, env, old(rates.State()))
    {
      ghost var conv := ConverterStep(query, rates.State(), env.now, env.rateFetch);
      results := aliases;
      var converted := RunConverter(query, env.now, env.rateFetch);
      if converted.Some? {
        results := results + [converted.value];
      }
      ghost var found := results;
      assert Gathered(query, config, env, old(rates.State())) == Resolution(FallbackIfEmpty(query, config, env, found), conv.cache);
      if results == [] && query != [] {
        var merged := RunFallback(query, env);
        assert results + merged == merged;
        results := results + merged;
      }
    }

    /** After the alias item: the branch the query takes, before the cap. */
    method Collect(query: string, env: Env, aliases: seq<Item>) returns (results: seq<Item>)
      requires BranchOf(query, config) != ClipboardHistory && aliases == AliasItems(query, config)
      modifies rates
      ensures Resolution(results, rates.State()) == Gathered(query, config, env, old(rates.State()))
    {
      if BranchOf(query, config) == Fallback {
        results := LastBranch(query, env, aliases);
      } else {
        results := EarlyBranch(query, env, aliases);
      }
    }

    /** `ipcMain.handle('search', ...)`: builds the result list step by step, as `Resolve` specifies. */
    method Search(query: string, env: Env) returns (results: seq<Item>)
      modifies rates
      ensures Resolution(results, rates.State()) == Resolve(query, config, env, history.entries, old(rates.State()))
    {
      results := [];
      var city := WeatherCity(query);
      if city.Some? && env.weather.Some? {
        results := results + [WeatherItem(Capitalized(city.value), env.weather.value)];
        return;
      }
      var qLower := ToLower(query);
      if qLower in config.aliases {
        results := results + [AliasItem(qLower, config.aliases[qLower])];
      }
      if BranchOf(query, config) == ClipboardHistory {
        results := ClipItems(history.entries);
        return;
      }
      results := Collect(query, env, results);
      results := Slice(results, config.maxResults);
    }
  }
}

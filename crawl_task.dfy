/**
 * One crawl task of the parallel web crawler and the shared state every task
 * of a crawl updates: the set of visited URLs, the global word counts and the
 * per-domain cache of robots.txt rules.
 *
 * The model is sequential: the children of a task run one after another, each
 * subtree completing before the next starts, which is one of the schedules the
 * fork/join pool may choose. The page parser, the clock, the ignore patterns,
 * URL parsing and the robots.txt download are taken as abstract inputs (Env).
 */
module CrawlTask {
  import opened Wrappers
  import opened JavaStrings
  import opened Sequences

  /** What the page parser returns for one page. */
  datatype PageResult = PageResult(links: seq<string>, wordCounts: map<string, int>)

  /** The parts of a java.net.URL that a task looks at. */
  datatype Url = Url(protocol: string, host: string, path: string)

  /**
   * The collaborators a task reaches through its fields.
   * - clock(n): the instant returned by the n-th reading of the clock in a crawl;
   * - parse(url): the parser's result, None when parsing threw;
   * - ignoredUrls, matches: the ignore patterns and Pattern.matcher(url).matches();
   * - parseUrl(url): the URL's parts, None when java.net.URL throws MalformedURLException;
   * - robotsFetch(domain): the lines of domain + "/robots.txt", None when the robots.txt URL was malformed or openStream or the reader's close threw an IOException.
   */
  datatype Env = Env(
    clock: nat -> int,
    parse: string -> Option<PageResult>,
    ignoredUrls: seq<string>,
    matches: (string, string) -> bool,
    parseUrl: string -> Option<Url>,
    robotsFetch: string -> Option<seq<string>>)

  /** The per-task fields of a task; everything else a task holds is shared by the whole crawl. */
  datatype Task = Task(url: string, deadline: int, presentDepth: int)

  // ---------------------------------------------------------------------------
  // Builder

  /**
   * A task builder. The shared references (word counts, visited set, parser
   * factory, clock, ignore patterns) are modelled by whether they were set.
   */
  datatype Builder = Builder(
    url: Option<string>,
    deadline: Option<int>,
    presentDepth: int,
    hasWordCounts: bool,
    hasVisitedUrls: bool,
    hasParserFactory: bool,
    hasClock: bool,
    hasIgnoredUrls: bool)

  /** A fresh builder: every reference null, the depth 0. */
  const NewBuilder := Builder(None, None, 0, false, false, false, false, false)

  /** The message of the IllegalStateException thrown by build. */
  const MissingFields := "Missing required fields for ParallelWebCrawlerRecursiveTask"

  /** Builder.build: fails unless every required field was set; the depth is not checked. */
  function Build(b: Builder): (r: Result<Task, string>)
    ensures r.Success? <==>
      b.url.Some? && b.deadline.Some? && b.hasWordCounts && b.hasVisitedUrls &&
      b.hasParserFactory && b.hasClock && b.hasIgnoredUrls
    ensures r.Success? ==>
      r.value.url == b.url.value && r.value.deadline == b.deadline.value &&
      r.value.presentDepth == b.presentDepth
    ensures r.Failure? ==> r.error == MissingFields
  {
    if b.url.None? || b.deadline.None? || !b.hasWordCounts || !b.hasVisitedUrls ||
       !b.hasParserFactory || !b.hasClock || !b.hasIgnoredUrls
    then Failure(MissingFields)
    else Success(Task(b.url.value, b.deadline.value, b.presentDepth))
  }

  /** The builder chain compute runs for one discovered link. */
  function ChildBuilder(parent: Task, link: string): Builder {
    NewBuilder.(url := Some(link), deadline := Some(parent.deadline),
                presentDepth := parent.presentDepth - 1, hasWordCounts := true,
                hasVisitedUrls := true, hasParserFactory := true, hasClock := true,
                hasIgnoredUrls := true)
  }

  /** The task compute creates for a link: one level shallower, same deadline. */
  function ChildTask(parent: Task, link: string): Task {
    Task(link, parent.deadline, parent.presentDepth - 1)
  }

  function ChildTasks(parent: Task, links: seq<string>): (r: seq<Task>)
    ensures |r| == |links|
  {
    seq(|links|, i requires 0 <= i < |links| => ChildTask(parent, links[i]))
  }

  /** Building a child never fails, and the child has the link, the parent's deadline and depth - 1. */
  lemma ChildBuildSucceeds(parent: Task, link: string)
    ensures Build(ChildBuilder(parent, link)) == Success(ChildTask(parent, link))
    ensures ChildTask(parent, link).presentDepth == parent.presentDepth - 1
    ensures ChildTask(parent, link).deadline == parent.deadline
  {
  }

  /** A builder on which nothing was set cannot build a task. */
  lemma EmptyBuilderFails()
    ensures Build(NewBuilder) == Failure(MissingFields)
  {
  }

  // ---------------------------------------------------------------------------
  // Ignore patterns

  /** Stream.anyMatch over the patterns. */
  function AnyMatch(patterns: seq<string>, matches: (string, string) -> bool, url: string): (r: bool)
    ensures r <==> exists i :: 0 <= i < |patterns| && matches(patterns[i], url)
  {
    if patterns == [] then false
    else if matches(patterns[0], url) then true
    else
      var r := AnyMatch(patterns[1..], matches, url);
      assert forall i :: 1 <= i < |patterns| ==> patterns[1..][i - 1] == patterns[i];
      r
  }

  /** isIgnored: the URL matches one of the ignore patterns. */
  function IsIgnored(env: Env, url: string): bool {
    AnyMatch(env.ignoredUrls, env.matches, url)
  }

  // ---------------------------------------------------------------------------
  // robots.txt

  const DisallowDirective := "Disallow:"

  /** The rule a robots.txt line contributes: trim, keep "Disallow:" lines, strip the prefix, trim, drop empties. */
  function RuleOf(line: string): (r: Option<string>)
    ensures r.Some? ==> r.value != [] && NoTrimmableEnds(r.value)
    ensures r.Some? ==> DisallowDirective <= Trim(line)
  {
    var t := Trim(line);
    if DisallowDirective <= t then
      var rule := Trim(t[|DisallowDirective|..]);
      if rule != [] then Some(rule) else None
    else None
  }

  /** A directive line, however it is padded, contributes exactly its trimmed argument. */
  lemma RuleOfPadded(pre: string, mid: string, rule: string, post: string)
    requires AllTrimmable(pre) && AllTrimmable(mid) && AllTrimmable(post)
    requires rule != [] && NoTrimmableEnds(rule)
    ensures RuleOf(pre + DisallowDirective + mid + rule + post) == Some(rule)
  {
    var tail := mid + rule;
    var core := DisallowDirective + tail;
    assert core[0] == 'D';
    assert core[|core| - 1] == rule[|rule| - 1];
    assert pre + DisallowDirective + mid + rule + post == pre + core + post;
    TrimPadded(pre, core, post);
    assert DisallowDirective <= core;
    assert core[|DisallowDirective|..] == tail;
    assert AllTrimmable([]);
    assert mid + rule + [] == tail;
    TrimPadded(mid, rule, []);
  }

  /** A directive line with nothing but blanks after the colon contributes nothing. */
  lemma RuleOfEmptyDirective(pre: string, mid: string, post: string)
    requires AllTrimmable(pre) && AllTrimmable(mid) && AllTrimmable(post)
    ensures RuleOf(pre + DisallowDirective + mid + post) == None
  {
    var pad := mid + post;
    assert forall k :: 0 <= k < |pad| ==> pad[k] == (if k < |mid| then mid[k] else post[k - |mid|]);
    assert AllTrimmable(pad);
    assert DisallowDirective[0] == 'D' && DisallowDirective[|DisallowDirective| - 1] == ':';
    assert pre + DisallowDirective + mid + post == pre + DisallowDirective + pad;
    TrimPadded(pre, DisallowDirective, pad);
    assert DisallowDirective[|DisallowDirective|..] == [];
    var none: string := [];
    assert AllTrimmable(none);
    assert none + none + none == none;
    TrimPadded(none, none, none);
  }

  /** A line that, once trimmed, does not start with the directive contributes nothing. */
  lemma RuleOfOtherLine(line: string)
    requires !(DisallowDirective <= Trim(line))
    ensures RuleOf(line) == None
  {
  }

  /** The set collected from the lines of a robots.txt file. */
  function DisallowRules(lines: seq<string>): (r: set<string>)
    ensures forall p :: p in r ==> p != [] && NoTrimmableEnds(p)
  {
    set i | 0 <= i < |lines| && RuleOf(lines[i]).Some? :: RuleOf(lines[i]).value
  }

  /** A prefix is collected exactly when some line contributes it. */
  lemma DisallowRulesMembers(lines: seq<string>, p: string)
    ensures p in DisallowRules(lines) <==> exists i :: 0 <= i < |lines| && RuleOf(lines[i]) == Some(p)
  {
  }

  /** fetchRobotsTxt: the rules of the domain's robots.txt, or none when it cannot be read. */
  function FetchRobotsTxt(env: Env, domain: string): (r: set<string>)
    ensures env.robotsFetch(domain).None? ==> r == {}
    ensures forall p :: p in r ==> p != []
  {
    match env.robotsFetch(domain)
    case None => {}
    case Some(lines) => DisallowRules(lines)
  }

  /** The key of the robots cache: protocol + "://" + host. */
  function DomainKey(u: Url): string {
    u.protocol + "://" + u.host
  }

  /** Some rule is a prefix of the path. */
  predicate Disallows(rules: set<string>, path: string) {
    exists p :: p in rules && p <= path
  }

  /**
   * isDisallowedByRobotsTxt: the verdict and the robots cache afterwards. The
   * cache gains at most the URL's domain, and only when it was absent.
   */
  function RobotsCheck(env: Env, cache: map<string, set<string>>, url: string):
    (r: (bool, map<string, set<string>>))
    ensures env.parseUrl(url).None? ==> r == (false, cache)
    ensures env.parseUrl(url).Some? ==>
      var key := DomainKey(env.parseUrl(url).value);
      && r.1.Keys == cache.Keys + {key}
      && (key !in cache ==> r.1[key] == FetchRobotsTxt(env, key))
      && r.0 == Disallows(r.1[key], env.parseUrl(url).value.path)
    ensures forall d :: d in cache ==> d in r.1 && r.1[d] == cache[d]
  {
    match env.parseUrl(url)
    case None => (false, cache)
    case Some(u) =>
      var key := DomainKey(u);
      var cache' := if key in cache then cache else cache[key := FetchRobotsTxt(env, key)];
      (Disallows(cache'[key], u.path), cache')
  }

  /** A domain whose robots.txt cannot be read disallows nothing. */
  lemma RobotsFailOpen(env: Env, cache: map<string, set<string>>, url: string)
    requires env.parseUrl(url).Some?
    requires DomainKey(env.parseUrl(url).value) !in cache
    requires env.robotsFetch(DomainKey(env.parseUrl(url).value)).None?
    ensures !RobotsCheck(env, cache, url).0
  {
  }

  // ---------------------------------------------------------------------------
  // Word counts

  /** A word's count in a map; an absent word counts 0. */
  function CountOf(m: map<string, int>, w: string): int {
    if w in m then m[w] else 0
  }

  /** mergeWordCounts as a value: every word's total grows by the page's count. */
  function MergeCounts(total: map<string, int>, page: map<string, int>): (r: map<string, int>)
    ensures r.Keys == total.Keys + page.Keys
    ensures forall w :: CountOf(r, w) == CountOf(total, w) + CountOf(page, w)
  {
    map w | w in total.Keys + page.Keys :: CountOf(total, w) + CountOf(page, w)
  }

  /** The merge order of two pages does not matter. */
  lemma MergeCountsCommute(total: map<string, int>, a: map<string, int>, b: map<string, int>)
    ensures MergeCounts(MergeCounts(total, a), b) == MergeCounts(MergeCounts(total, b), a)
  {
    var x := MergeCounts(MergeCounts(total, a), b);
    var y := MergeCounts(MergeCounts(total, b), a);
    assert forall w :: w in x ==> CountOf(x, w) == CountOf(y, w);
  }

  /** The word counts of a URL's page, or none when its parse fails. */
  function PageCounts(env: Env, url: string): map<string, int> {
    match env.parse(url)
    case Some(page) => page.wordCounts
    case None => map[]
  }

  /** The totals after merging the pages of `urls`, in order. */
  function AddPages(env: Env, total: map<string, int>, urls: seq<string>): map<string, int>
    decreases |urls|
  {
    if urls == [] then total else AddPages(env, MergeCounts(total, PageCounts(env, urls[0])), urls[1..])
  }

  /** A word's count summed over the pages of `urls`. */
  function SumCounts(env: Env, urls: seq<string>, w: string): int {
    if urls == [] then 0 else CountOf(PageCounts(env, urls[0]), w) + SumCounts(env, urls[1..], w)
  }

  lemma {:induction false} AddPagesAppend(env: Env, total: map<string, int>, a: seq<string>, b: seq<string>)
    ensures AddPages(env, total, a + b) == AddPages(env, AddPages(env, total, a), b)
    decreases |a|
  {
    if a != [] {
      assert (a + b)[0] == a[0] && (a + b)[1..] == a[1..] + b;
      AddPagesAppend(env, MergeCounts(total, PageCounts(env, a[0])), a[1..], b);
    } else {
      assert a + b == b;
    }
  }

  /** After merging some pages, a word's count is its old count plus its count on each of those pages. */
  lemma {:induction false} AddPagesCount(env: Env, total: map<string, int>, urls: seq<string>, w: string)
    ensures CountOf(AddPages(env, total, urls), w) == CountOf(total, w) + SumCounts(env, urls, w)
    decreases |urls|
  {
    if urls != [] {
      AddPagesCount(env, MergeCounts(total, PageCounts(env, urls[0])), urls[1..], w);
    }
  }

  // ---------------------------------------------------------------------------
  // The crawl state and compute as a function

  /**
   * The shared state of a crawl. `claims` lists the successful additions to
   * `visited` and `parsed` the URLs whose parse succeeded, both in order; they
   * record the history and are ghost in CrawlSession.
   */
  datatype CrawlState = CrawlState(
    visited: set<string>,
    wordCounts: map<string, int>,
    robotsCache: map<string, set<string>>,
    clockReads: nat,
    claims: seq<string>,
    parsed: seq<string>)

  const InitialState := CrawlState({}, map[], map[], 0, [], [])

  /** The URLs claimed from `s` to `t` are new, claimed once each, and are what `visited` gained. */
  ghost predicate ClaimsGrow(s: CrawlState, t: CrawlState) {
    && s.claims <= t.claims
    && var gained := t.claims[|s.claims|..];
    && t.visited == s.visited + Elems(gained)
    && NoDup(gained)
    && (forall u :: u in gained ==> u !in s.visited)
  }

  /**
   * The pages parsed from `s` to `t` are exactly the URLs claimed in that span
   * whose parse succeeded, parsed once each, and the counts grew by exactly
   * those pages.
   */
  ghost predicate ParsesGrow(env: Env, s: CrawlState, t: CrawlState)
    requires s.claims <= t.claims
  {
    && s.parsed <= t.parsed
    && var gained := t.parsed[|s.parsed|..];
    && NoDup(gained)
    && (forall u :: u in gained ==> u in t.claims[|s.claims|..] && env.parse(u).Some?)
    && (forall u :: u in t.claims[|s.claims|..] && env.parse(u).Some? ==> u in gained)
    && t.wordCounts == AddPages(env, s.wordCounts, gained)
  }

  /**
   * A URL compute may claim given the robots cache: it matches no ignore
   * pattern and, when it parses as a URL, its domain is cached and no cached
   * rule of that domain is a prefix of its path.
   */
  ghost predicate Admitted(env: Env, cache: map<string, set<string>>, u: string) {
    && !IsIgnored(env, u)
    && (env.parseUrl(u).Some? ==>
          var key := DomainKey(env.parseUrl(u).value);
          key in cache && !Disallows(cache[key], env.parseUrl(u).value.path))
  }

  /** Every URL claimed from `s` to `t` passed the ignore and robots guards. */
  ghost predicate ClaimsAdmitted(env: Env, s: CrawlState, t: CrawlState)
    requires s.claims <= t.claims
  {
    forall u :: u in t.claims[|s.claims|..] ==> Admitted(env, t.robotsCache, u)
  }

  /** The robots cache only gains entries, and each new one holds the rules of its domain. */
  ghost predicate CacheGrows(env: Env, s: CrawlState, t: CrawlState) {
    CacheExtends(env, s.robotsCache, t.robotsCache)
  }

  /** What any part of a crawl does to the shared state. */
  ghost predicate Grows(env: Env, s: CrawlState, t: CrawlState) {
    && s.clockReads <= t.clockReads
    && ClaimsGrow(s, t)
    && ParsesGrow(env, s, t)
    && ClaimsAdmitted(env, s, t)
    && CacheGrows(env, s, t)
  }

  lemma GrowsRefl(env: Env, s: CrawlState)
    ensures Grows(env, s, s)
  {
    assert s.claims[|s.claims|..] == [];
    assert s.parsed[|s.parsed|..] == [];
  }

  lemma ClaimsTrans(a: CrawlState, b: CrawlState, c: CrawlState)
    requires ClaimsGrow(a, b) && ClaimsGrow(b, c)
    ensures ClaimsGrow(a, c)
    ensures c.claims[|a.claims|..] == b.claims[|a.claims|..] + c.claims[|b.claims|..]
  {
    var c1, c2 := b.claims[|a.claims|..], c.claims[|b.claims|..];
    assert c.claims == a.claims + c1 + c2;
    assert c.claims[|a.claims|..] == c1 + c2;
    assert Elems(c1 + c2) == Elems(c1) + Elems(c2);
    NoDupConcat(c1, c2);
  }

  lemma ParsesTrans(env: Env, a: CrawlState, b: CrawlState, c: CrawlState)
    requires ClaimsGrow(a, b) && ClaimsGrow(b, c)
    requires ParsesGrow(env, a, b) && ParsesGrow(env, b, c)
    ensures a.claims <= c.claims && ParsesGrow(env, a, c)
  {
    ClaimsTrans(a, b, c);
    var c1, c2 := b.claims[|a.claims|..], c.claims[|b.claims|..];
    var p1, p2 := b.parsed[|a.parsed|..], c.parsed[|b.parsed|..];
    SpanConcat(a.parsed, b.parsed, c.parsed);
    assert forall u :: u in c1 ==> u in b.visited;
    ParsedOnce(env, c1, c2, p1, p2);
    assert c.claims[|a.claims|..] == c1 + c2;
    ParsedCovered(env, c1, c2, p1, p2);
    AddPagesAppend(env, a.wordCounts, p1, p2);
  }

  /** Pages parsed in two consecutive spans whose claims are disjoint are parsed once each, of claimed URLs. */
  lemma ParsedOnce(env: Env, c1: seq<string>, c2: seq<string>, p1: seq<string>, p2: seq<string>)
    requires NoDup(p1) && NoDup(p2)
    requires forall u :: u in p1 ==> u in c1 && env.parse(u).Some?
    requires forall u :: u in p2 ==> u in c2 && env.parse(u).Some?
    requires forall u :: u in c1 ==> u !in c2
    ensures NoDup(p1 + p2)
    ensures forall u :: u in p1 + p2 ==> u in c1 + c2 && env.parse(u).Some?
  {
    NoDupConcat(p1, p2);
  }

  /** Every parsed URL of two consecutive claim spans is among the two spans' parsed pages. */
  lemma ParsedCovered(env: Env, c1: seq<string>, c2: seq<string>, p1: seq<string>, p2: seq<string>)
    requires forall u :: u in c1 && env.parse(u).Some? ==> u in p1
    requires forall u :: u in c2 && env.parse(u).Some? ==> u in p2
    ensures forall u :: u in c1 + c2 && env.parse(u).Some? ==> u in p1 + p2
  {
    forall u | u in c1 + c2 && env.parse(u).Some? ensures u in p1 + p2 {
      if u in c1 {
        assert u in p1;
      } else {
        assert u in p2;
      }
    }
  }

  /** A URL admitted under a cache stays admitted under any cache that keeps its entries. */
  lemma AdmittedKept(env: Env, cache: map<string, set<string>>, cache': map<string, set<string>>, u: string)
    requires Admitted(env, cache, u)
    requires forall d :: d in cache ==> d in cache' && cache'[d] == cache[d]
    ensures Admitted(env, cache', u)
  {
  }

  lemma AdmittedTrans(env: Env, a: CrawlState, b: CrawlState, c: CrawlState)
    requires ClaimsGrow(a, b) && ClaimsGrow(b, c) && CacheGrows(env, b, c)
    requires ClaimsAdmitted(env, a, b) && ClaimsAdmitted(env, b, c)
    ensures a.claims <= c.claims && ClaimsAdmitted(env, a, c)
  {
    ClaimsTrans(a, b, c);
    var c1 := b.claims[|a.claims|..];
    forall u | u in c.claims[|a.claims|..] ensures Admitted(env, c.robotsCache, u) {
      if u in c1 {
        AdmittedKept(env, b.robotsCache, c.robotsCache, u);
      }
    }
  }

  lemma GrowsTrans(env: Env, a: CrawlState, b: CrawlState, c: CrawlState)
    requires Grows(env, a, b) && Grows(env, b, c)
    ensures Grows(env, a, c)
  {
    ClaimsTrans(a, b, c);
    ParsesTrans(env, a, b, c);
    AdmittedTrans(env, a, b, c);
  }

  /**
   * compute, as a function of the task and the shared state before it: its
   * result and the shared state after it and all its descendants. The depth,
   * deadline and ignore guards come first; Visit does the rest.
   */
  function Crawl(env: Env, s: CrawlState, task: Task): (bool, CrawlState)
    requires task.presentDepth >= 0
    decreases task.presentDepth, 0, 1
  {
    if task.presentDepth == 0 then (false, s)
    else
      var s1 := s.(clockReads := s.clockReads + 1);
      if env.clock(s.clockReads) > task.deadline || IsIgnored(env, task.url) then (false, s1)
      else Visit(env, s1, task)
  }

  /** The rest of compute: the robots guard, the claim, the parse, the merge and the children. */
  function Visit(env: Env, s: CrawlState, task: Task): (bool, CrawlState)
    requires task.presentDepth > 0
    decreases task.presentDepth, 0, 0
  {
    var check := RobotsCheck(env, s.robotsCache, task.url);
    var s2 := s.(robotsCache := check.1);
    if check.0 || task.url in s2.visited then (false, s2)
    else
      var s3 := s2.(visited := s2.visited + {task.url}, claims := s2.claims + [task.url]);
      match env.parse(task.url)
      case None => (false, s3)
      case Some(page) =>
        var s4 := s3.(wordCounts := MergeCounts(s3.wordCounts, page.wordCounts),
                      parsed := s3.parsed + [task.url]);
        (true, CrawlChildren(env, s4, ChildTasks(task, page.links), task.presentDepth - 1))
  }

  /** invokeAll over the child tasks, run one after another. */
  function CrawlChildren(env: Env, s: CrawlState, tasks: seq<Task>, depth: int): CrawlState
    requires depth >= 0
    requires forall i :: 0 <= i < |tasks| ==> tasks[i].presentDepth == depth
    decreases depth, 1, |tasks|
  {
    if tasks == [] then s
    else CrawlChildren(env, Crawl(env, s, tasks[0]).1, tasks[1..], depth)
  }

  /** The robots cache only gained entries, each holding the rules of its domain. */
  ghost predicate CacheExtends(env: Env, before: map<string, set<string>>, cache: map<string, set<string>>) {
    && (forall d :: d in before ==> d in cache && cache[d] == before[d])
    && (forall d :: d in cache && d !in before ==> cache[d] == FetchRobotsTxt(env, d))
  }

  lemma ClockStep(env: Env, s: CrawlState)
    ensures Grows(env, s, s.(clockReads := s.clockReads + 1))
  {
    GrowsRefl(env, s);
  }

  lemma CacheStep(env: Env, s: CrawlState, cache: map<string, set<string>>)
    requires CacheExtends(env, s.robotsCache, cache)
    ensures Grows(env, s, s.(robotsCache := cache))
  {
    GrowsRefl(env, s);
  }

  lemma ClaimStep(env: Env, s: CrawlState, cache: map<string, set<string>>, url: string)
    requires CacheExtends(env, s.robotsCache, cache)
    requires url !in s.visited && env.parse(url).None? && Admitted(env, cache, url)
    ensures Grows(env, s, s.(robotsCache := cache,
                             visited := s.visited + {url}, claims := s.claims + [url]))
  {
    var t := s.(robotsCache := cache,
                visited := s.visited + {url}, claims := s.claims + [url]);
    assert t.claims[|s.claims|..] == [url];
    assert Elems([url]) == {url};
    assert s.parsed[|s.parsed|..] == [];
  }

  lemma ClaimParseStep(env: Env, s: CrawlState, cache: map<string, set<string>>, url: string)
    requires CacheExtends(env, s.robotsCache, cache)
    requires url !in s.visited && env.parse(url).Some? && Admitted(env, cache, url)
    ensures Grows(env, s, s.(robotsCache := cache,
                             visited := s.visited + {url}, claims := s.claims + [url],
                             wordCounts := MergeCounts(s.wordCounts, env.parse(url).value.wordCounts),
                             parsed := s.parsed + [url]))
  {
    var t := s.(robotsCache := cache,
                visited := s.visited + {url}, claims := s.claims + [url],
                wordCounts := MergeCounts(s.wordCounts, env.parse(url).value.wordCounts),
                parsed := s.parsed + [url]);
    assert t.claims[|s.claims|..] == [url];
    assert t.parsed[|s.parsed|..] == [url];
    assert Elems([url]) == {url};
    assert AddPages(env, s.wordCounts, [url]) == t.wordCounts;
  }

  /** Every task keeps the shared-state invariant: see Grows. */
  lemma {:induction false} CrawlGrows(env: Env, s: CrawlState, task: Task)
    requires task.presentDepth >= 0
    ensures Grows(env, s, Crawl(env, s, task).1)
    decreases task.presentDepth, 0, 2
  {
    if task.presentDepth == 0 {
      GrowsRefl(env, s);
      return;
    }
    var s1 := s.(clockReads := s.clockReads + 1);
    ClockStep(env, s);
    if env.clock(s.clockReads) <= task.deadline && !IsIgnored(env, task.url) {
      assert Crawl(env, s, task) == Visit(env, s1, task);
      VisitGrows(env, s1, task);
      GrowsTrans(env, s, s1, Visit(env, s1, task).1);
    } else {
      assert Crawl(env, s, task) == (false, s1);
    }
  }

  lemma {:induction false} VisitGrows(env: Env, s: CrawlState, task: Task)
    requires task.presentDepth > 0 && !IsIgnored(env, task.url)
    ensures Grows(env, s, Visit(env, s, task).1)
    decreases task.presentDepth, 0, 1
  {
    var check := RobotsCheck(env, s.robotsCache, task.url);
    assert CacheExtends(env, s.robotsCache, check.1);
    if check.0 || task.url in s.visited {
      CacheStep(env, s, check.1);
      return;
    }
    assert Admitted(env, check.1, task.url);
    if env.parse(task.url).None? {
      ClaimStep(env, s, check.1, task.url);
    } else {
      PageGrows(env, s, task, check.1);
    }
  }

  /** The claim, the merge and the children of a page that parsed. */
  lemma {:induction false} PageGrows(env: Env, s: CrawlState, task: Task, cache: map<string, set<string>>)
    requires task.presentDepth > 0 && CacheExtends(env, s.robotsCache, cache)
    requires task.url !in s.visited && env.parse(task.url).Some? && Admitted(env, cache, task.url)
    ensures var page := env.parse(task.url).value;
      var s4 := s.(robotsCache := cache, visited := s.visited + {task.url}, claims := s.claims + [task.url],
                   wordCounts := MergeCounts(s.wordCounts, page.wordCounts), parsed := s.parsed + [task.url]);
      Grows(env, s, CrawlChildren(env, s4, ChildTasks(task, page.links), task.presentDepth - 1))
    decreases task.presentDepth, 0, 0
  {
    var page := env.parse(task.url).value;
    var s4 := s.(robotsCache := cache, visited := s.visited + {task.url}, claims := s.claims + [task.url],
                 wordCounts := MergeCounts(s.wordCounts, page.wordCounts), parsed := s.parsed + [task.url]);
    ClaimParseStep(env, s, cache, task.url);
    var children := ChildTasks(task, page.links);
    CrawlChildrenGrows(env, s4, children, task.presentDepth - 1);
    GrowsTrans(env, s, s4, CrawlChildren(env, s4, children, task.presentDepth - 1));
  }

  lemma {:induction false} CrawlChildrenGrows(env: Env, s: CrawlState, tasks: seq<Task>, depth: int)
    requires depth >= 0
    requires forall i :: 0 <= i < |tasks| ==> tasks[i].presentDepth == depth
    ensures Grows(env, s, CrawlChildren(env, s, tasks, depth))
    decreases depth, 1, |tasks|
  {
    if tasks == [] {
      GrowsRefl(env, s);
    } else {
      var s1 := Crawl(env, s, tasks[0]).1;
      CrawlGrows(env, s, tasks[0]);
      CrawlChildrenGrows(env, s1, tasks[1..], depth);
      GrowsTrans(env, s, s1, CrawlChildren(env, s1, tasks[1..], depth));
    }
  }

  // ---------------------------------------------------------------------------
  // Properties of compute

  /** At depth 0 a task returns false without touching anything, not even the clock. */
  lemma NothingAtDepthZero(env: Env, s: CrawlState, task: Task)
    requires task.presentDepth == 0
    ensures Crawl(env, s, task) == (false, s)
  {
  }

  /** A task that starts after its deadline only reads the clock and returns false. */
  lemma NothingAfterDeadline(env: Env, s: CrawlState, task: Task)
    requires task.presentDepth > 0 && env.clock(s.clockReads) > task.deadline
    ensures Crawl(env, s, task) == (false, s.(clockReads := s.clockReads + 1))
  {
  }

  /** An ignored or robots-disallowed URL returns false, is not claimed, and no page is parsed. */
  lemma SkippedUrlNotVisited(env: Env, s: CrawlState, task: Task)
    requires task.presentDepth > 0 && env.clock(s.clockReads) <= task.deadline
    requires IsIgnored(env, task.url) || RobotsCheck(env, s.robotsCache, task.url).0
    ensures var r := Crawl(env, s, task);
      && !r.0
      && r.1.visited == s.visited && r.1.claims == s.claims
      && r.1.parsed == s.parsed && r.1.wordCounts == s.wordCounts
      && (IsIgnored(env, task.url) ==> r.1.robotsCache == s.robotsCache)
  {
  }

  /** A URL already visited returns false: it is not parsed again and no count changes. */
  lemma AlreadyVisitedNotParsed(env: Env, s: CrawlState, task: Task)
    requires task.presentDepth >= 0 && task.url in s.visited
    ensures var r := Crawl(env, s, task);
      !r.0 && r.1.visited == s.visited && r.1.parsed == s.parsed && r.1.wordCounts == s.wordCounts
  {
  }

  /** A failed parse returns false after the URL was claimed; the counts are unchanged. */
  lemma FailedParseKeepsClaim(env: Env, s: CrawlState, task: Task)
    requires task.presentDepth > 0 && env.clock(s.clockReads) <= task.deadline
    requires !IsIgnored(env, task.url) && !RobotsCheck(env, s.robotsCache, task.url).0
    requires task.url !in s.visited && env.parse(task.url).None?
    ensures var r := Crawl(env, s, task);
      && !r.0
      && r.1.visited == s.visited + {task.url}
      && r.1.claims == s.claims + [task.url]
      && r.1.wordCounts == s.wordCounts && r.1.parsed == s.parsed
  {
  }

  /** compute returns true exactly when every guard passes, the claim succeeds and the page parses. */
  lemma ComputeSucceedsIff(env: Env, s: CrawlState, task: Task)
    requires task.presentDepth >= 0
    ensures Crawl(env, s, task).0 <==>
      && task.presentDepth > 0
      && env.clock(s.clockReads) <= task.deadline
      && !IsIgnored(env, task.url)
      && !RobotsCheck(env, s.robotsCache, task.url).0
      && task.url !in s.visited
      && env.parse(task.url).Some?
  {
  }

  /**
   * After a successful parse the page's counts are merged into the totals and
   * then every link is crawled one level shallower from the merged state.
   */
  lemma SuccessMergesThenCrawlsChildren(env: Env, s: CrawlState, task: Task)
    requires task.presentDepth >= 0
    requires Crawl(env, s, task).0
    ensures env.parse(task.url).Some?
    ensures var page := env.parse(task.url).value;
      var merged := RobotsCheck(env, s.robotsCache, task.url).1;
      var s4 := CrawlState(s.visited + {task.url}, MergeCounts(s.wordCounts, page.wordCounts),
                           merged, s.clockReads + 1, s.claims + [task.url], s.parsed + [task.url]);
      && (forall i :: 0 <= i < |page.links| ==>
            ChildTasks(task, page.links)[i] == Task(page.links[i], task.deadline, task.presentDepth - 1))
      && Crawl(env, s, task).1 == CrawlChildren(env, s4, ChildTasks(task, page.links), task.presentDepth - 1)
  {
    ComputeSucceedsIff(env, s, task);
    var s1 := s.(clockReads := s.clockReads + 1);
    assert Crawl(env, s, task) == Visit(env, s1, task);
  }

  /** From a fresh crawl, every URL is claimed at most once and the visited set is exactly the claims. */
  lemma ClaimedAtMostOnce(env: Env, task: Task)
    requires task.presentDepth >= 0
    ensures var t := Crawl(env, InitialState, task).1;
      NoDup(t.claims) && t.visited == Elems(t.claims) && |t.visited| == |t.claims|
  {
    var t := Crawl(env, InitialState, task).1;
    CrawlGrows(env, InitialState, task);
    assert t.claims[0..] == t.claims;
    DistinctCard(t.claims);
  }

  /**
   * From a fresh crawl, each word's final count is the sum of its counts over
   * the pages parsed; the pages parsed are exactly the visited URLs whose
   * parse succeeded, each parsed once.
   */
  lemma CountsAreSumOverParsedPages(env: Env, task: Task, w: string)
    requires task.presentDepth >= 0
    ensures var t := Crawl(env, InitialState, task).1;
      && CountOf(t.wordCounts, w) == SumCounts(env, t.parsed, w)
      && NoDup(t.parsed)
      && (forall u :: u in t.parsed ==> u in t.visited && env.parse(u).Some?)
      && (forall u :: u in t.visited && env.parse(u).Some? ==> u in t.parsed)
  {
    var t := Crawl(env, InitialState, task).1;
    CrawlGrows(env, InitialState, task);
    assert t.parsed[0..] == t.parsed;
    assert t.claims[0..] == t.claims;
    assert t.visited == Elems(t.claims);
    AddPagesCount(env, map[], t.parsed, w);
  }

  /**
   * From a fresh crawl, no visited URL matches an ignore pattern, and no
   * visited URL has a path that a rule of its domain's robots.txt disallows.
   */
  lemma VisitedWereAdmitted(env: Env, task: Task)
    requires task.presentDepth >= 0
    ensures var t := Crawl(env, InitialState, task).1;
      forall u :: u in t.visited ==>
        && !IsIgnored(env, u)
        && (env.parseUrl(u).Some? ==>
              var x := env.parseUrl(u).value;
              !Disallows(FetchRobotsTxt(env, DomainKey(x)), x.path))
  {
    var t := Crawl(env, InitialState, task).1;
    CrawlGrows(env, InitialState, task);
    assert t.claims[0..] == t.claims;
    forall u | u in t.visited
      ensures !IsIgnored(env, u)
      ensures env.parseUrl(u).Some? ==>
                var x := env.parseUrl(u).value;
                !Disallows(FetchRobotsTxt(env, DomainKey(x)), x.path)
    {
      assert u in t.claims;
      assert Admitted(env, t.robotsCache, u);
      if env.parseUrl(u).Some? {
        var key := DomainKey(env.parseUrl(u).value);
        assert key in t.robotsCache && key !in InitialState.robotsCache;
      }
    }
  }

  /** A crawl whose every clock reading is past the deadline fetches no page and visits nothing. */
  lemma PastDeadlineFetchesNothing(env: Env, s: CrawlState, task: Task)
    requires task.presentDepth >= 0
    requires forall n: nat :: env.clock(n) > task.deadline
    ensures var t := Crawl(env, s, task).1;
      t.visited == s.visited && t.parsed == s.parsed && t.wordCounts == s.wordCounts
  {
  }

  // ---------------------------------------------------------------------------
  // The shared state as an object

  /**
   * The state shared by every task of one crawl: the visited set, the word
   * counts, the robots cache (a static field in the crawler, owned here by the
   * session) and the number of clock readings so far. `claims` and `parsed`
   * record the history for the specification.
   */
  class CrawlSession {
    const env: Env
    var visitedUrls: set<string>
    var wordCounts: map<string, int>
    var robotsCache: map<string, set<string>>
    var clockReads: nat
    ghost var claims: seq<string>
    ghost var parsed: seq<string>

    ghost function State(): CrawlState
      reads this
    {
      CrawlState(visitedUrls, wordCounts, robotsCache, clockReads, claims, parsed)
    }

    constructor (env: Env)
      ensures this.env == env && State() == InitialState
    {
      this.env := env;
      visitedUrls, wordCounts, robotsCache, clockReads := {}, map[], map[], 0;
      claims, parsed := [], [];
    }

    /** clock.instant(). */
    method ReadClock() returns (now: int)
      modifies this`clockReads
      ensures now == env.clock(old(clockReads)) && clockReads == old(clockReads) + 1
    {
      now := env.clock(clockReads);
      clockReads := clockReads + 1;
    }

    /** visitedUrls.add: true exactly when the URL was not yet visited. */
    method Claim(url: string) returns (added: bool)
      modifies this`visitedUrls, this`claims
      ensures added <==> url !in old(visitedUrls)
      ensures visitedUrls == old(visitedUrls) + {url}
      ensures claims == if added then old(claims) + [url] else old(claims)
    {
      added := url !in visitedUrls;
      if added {
        visitedUrls := visitedUrls + {url};
        claims := claims + [url];
      }
    }

    /** mergeWordCounts: Map.merge with Integer::sum, one word at a time. */
    method MergeWordCounts(counts: map<string, int>)
      modifies this`wordCounts
      ensures wordCounts == MergeCounts(old(wordCounts), counts)
    {
      var pending := counts.Keys;
      while pending != {}
        invariant pending <= counts.Keys
        invariant wordCounts.Keys == old(wordCounts).Keys + (counts.Keys - pending)
        invariant forall v ::
                    CountOf(wordCounts, v) ==
                    CountOf(old(wordCounts), v) + (if v in counts && v !in pending then counts[v] else 0)
        decreases pending
      {
        var w :| w in pending;
        wordCounts := wordCounts[w := if w in wordCounts then wordCounts[w] + counts[w] else counts[w]];
        pending := pending - {w};
      }
      ghost var merged := MergeCounts(old(wordCounts), counts);
      assert forall v :: v in wordCounts ==> wordCounts[v] == CountOf(merged, v);
    }

    /** isDisallowedByRobotsTxt, filling the cache with computeIfAbsent. */
    method IsDisallowedByRobotsTxt(url: string) returns (disallowed: bool)
      modifies this`robotsCache
      ensures (disallowed, robotsCache) == RobotsCheck(env, old(robotsCache), url)
    {
      match env.parseUrl(url)
      case None =>
        disallowed := false;
      case Some(u) =>
        var domainKey := DomainKey(u);
        if domainKey !in robotsCache {
          robotsCache := robotsCache[domainKey := FetchRobotsTxt(env, domainKey)];
        }
        var rules := robotsCache[domainKey];
        disallowed := Disallows(rules, u.path);
    }

    /** compute: the depth, deadline and ignore guards, then Visit. */
    method Compute(task: Task) returns (crawled: bool)
      requires task.presentDepth >= 0
      modifies this
      ensures (crawled, State()) == Crawl(env, old(State()), task)
      decreases task.presentDepth, 2
    {
      if task.presentDepth == 0 {
        return false;
      }
      var now := ReadClock();
      if now > task.deadline {
        return false;
      }
      if IsIgnored(env, task.url) {
        return false;
      }
      crawled := VisitUrl(task);
    }

    /** The rest of compute: the robots guard, the claim and the parse, then CrawlPage. */
    method VisitUrl(task: Task) returns (crawled: bool)
      requires task.presentDepth > 0
      modifies this
      ensures (crawled, State()) == Visit(env, old(State()), task)
      decreases task.presentDepth, 1
    {
      var disallowed := IsDisallowedByRobotsTxt(task.url);
      if disallowed {
        return false;
      }
      ghost var beforeClaim := State();
      var added := Claim(task.url);
      if !added {
        assert State() == beforeClaim;
        return false;
      }
      var result := env.parse(task.url);
      if result.None? {
        return false;
      }
      CrawlPage(task, result.value);
      return true;
    }

    /** The rest of compute after a successful parse: merge the counts, build the children, run them all. */
    method CrawlPage(task: Task, page: PageResult)
      requires task.presentDepth > 0
      modifies this
      ensures State() == CrawlChildren(env,
        old(State()).(wordCounts := MergeCounts(old(wordCounts), page.wordCounts), parsed := old(parsed) + [task.url]),
        ChildTasks(task, page.links), task.presentDepth - 1)
      decreases task.presentDepth, 0
    {
      MergeWordCounts(page.wordCounts);
      parsed := parsed + [task.url];
      ghost var start := State();

      var subtasks: seq<Task> := [];
      var i := 0;
      while i < |page.links|
        invariant 0 <= i <= |page.links|
        invariant |subtasks| == i
        invariant forall j :: 0 <= j < i ==> subtasks[j] == ChildTask(task, page.links[j])
        invariant State() == start
      {
        ChildBuildSucceeds(task, page.links[i]);
        var built := Build(ChildBuilder(task, page.links[i]));
        subtasks := subtasks + [built.value];
        i := i + 1;
      }
      assert subtasks == ChildTasks(task, page.links);

      ghost var final := CrawlChildren(env, start, subtasks, task.presentDepth - 1);
      var k := 0;
      while k < |subtasks|
        invariant 0 <= k <= |subtasks|
        invariant CrawlChildren(env, State(), subtasks[k..], task.presentDepth - 1) == final
      {
        assert subtasks[k..][1..] == subtasks[k + 1..];
        var _ := Compute(subtasks[k]);
        k := k + 1;
      }
      assert subtasks[k..] == [];
    }
  }
}

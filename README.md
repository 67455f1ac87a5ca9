# Parallel web crawler: crawl task and profiling state

A Dafny model of two parts of a parallel web crawler written in Java.

**The crawl task** (`ParallelWebCrawlerRecursiveTask`). One task crawls one URL at a remaining depth before a deadline. Its guards run in this order:
1. depth 0;
2. the clock strictly after the deadline;
3. an ignore pattern matches;
4. the domain's robots.txt disallows the path;
5. the URL was already visited.

A task that passes every guard parses the page and merges the page's word counts into the shared totals. It then crawls every link one level shallower and returns true. A parse that throws returns false, and the URL stays claimed.

The model (`crawl_task.dfy`, module `CrawlTask`) has two levels:
- **A specification.** `Crawl`, `Visit` and `CrawlChildren` are pure functions from the shared state before a task to its result and the shared state after the task and all its descendants.
- **An imperative implementation.** `CrawlSession` is a class whose fields are the shared visited set, word counts, robots cache and clock-reading counter. Its methods `Compute`, `VisitUrl`, `CrawlPage`, `Claim`, `MergeWordCounts` and `IsDisallowedByRobotsTxt` update those fields in place. Each method is proved to produce the state the specification function gives.

Properties proved about the specification:
- the guard outcomes;
- `Grows`, an invariant: a URL is claimed at most once, and the visited set only gains the URLs claimed;
- every page parsed was claimed, and was parsed once;
- the word counts are exactly the sum over the parsed pages;
- the robots cache only gains entries, and each new entry holds its domain's rules.

The children run one after another, each whole subtree before the next. This is one of the schedules the fork/join pool may pick.

Also modelled:
- the robots.txt line filter (`DisallowRules`, over `String.trim` in `java_strings.dfy`);
- the builder's required-field check (`Build`).

**The profiler's accumulator** (`ProfilingState`, in `profiling_state.dfy`, module `Profiler`):
- `record` refuses a negative duration. Otherwise it adds the duration to the method's total and counts one call for the calling thread.
- `write` prints, for every method:
  - a header with the total as "Xm Ys Zms" and, when positive, the number of calls;
  - one line per thread, showing that thread's call count and the method's total divided by that count;
  - a blank line.

Durations are `nat` nanoseconds, so all arithmetic is integer. `Recorded` is the specification function of `record`, and `Report` is that of `write`. Both are tied to the class `ProfilingState`, whose methods update the two maps in place.

Shared modules:
- `wrappers.dfy`: Option, Result and Outcome.
- `sequences.dfy`: sequences without repetition.
- `java_strings.dfy`: `String.trim` and `Long.toString`.

Points where the code's behaviour is easy to misread; the model follows the code:
- **Deadline.** A task stops only when the clock is strictly after the deadline (`Instant.isAfter`), not when it is at the deadline.
- **Failed robots.txt fetch.** When the robots.txt URL is malformed, or `openStream` or the reader's close throws an `IOException`, the check is fail-open for the URL being checked. The code still caches the empty rule set for the domain, so the domain is never fetched again in the session. The model does the same.
- **Report order.** `write` iterates a `ConcurrentHashMap`, so keys and threads come in hash order, not in the order first recorded. The model leaves the order open: it is a ghost result (`sections`) constrained to list every key and every thread once.
- **Per-thread average.** It is the method's global total divided by that thread's call count.

## Model

| member | source | states |
|---|---|---|
| CrawlTask.Build | starter/webcrawler/src/main/java/com/udacity/webcrawler/ParallelWebCrawlerRecursiveTask.java:100-106 | build succeeds exactly when url, deadline, word counts, visited set, parser factory, clock and ignore list were all set; the task then carries the url, deadline and depth given; otherwise it fails with the "Missing required fields" message |
| CrawlTask.ChildBuildSucceeds | starter/webcrawler/src/main/java/com/udacity/webcrawler/ParallelWebCrawlerRecursiveTask.java:120-131 | the builder chain compute runs for a link always builds, giving a task for that link with the parent's deadline and depth - 1 |
| CrawlTask.EmptyBuilderFails | starter/webcrawler/src/main/java/com/udacity/webcrawler/ParallelWebCrawlerRecursiveTask.java:100-104 | a builder on which nothing was set throws the missing-fields error |
| CrawlTask.AnyMatch | starter/webcrawler/src/main/java/com/udacity/webcrawler/ParallelWebCrawlerRecursiveTask.java:148-150 | isIgnored is true exactly when some ignore pattern matches the URL |
| CrawlTask.IsIgnored | starter/webcrawler/src/main/java/com/udacity/webcrawler/ParallelWebCrawlerRecursiveTask.java:148-150 | isIgnored: whether some ignore pattern matches the whole URL |
| CrawlTask.RuleOf | starter/webcrawler/src/main/java/com/udacity/webcrawler/ParallelWebCrawlerRecursiveTask.java:173-177 | a line contributes a rule only if its trimmed form starts with "Disallow:", and the rule is non-empty with no blank ends |
| CrawlTask.RuleOfPadded | starter/webcrawler/src/main/java/com/udacity/webcrawler/ParallelWebCrawlerRecursiveTask.java:173-177 | a "Disallow:" line with any blank padding before, between and after contributes exactly its argument |
| CrawlTask.RuleOfEmptyDirective | starter/webcrawler/src/main/java/com/udacity/webcrawler/ParallelWebCrawlerRecursiveTask.java:176-177 | a "Disallow:" line with only blanks after the colon contributes nothing |
| CrawlTask.RuleOfOtherLine | starter/webcrawler/src/main/java/com/udacity/webcrawler/ParallelWebCrawlerRecursiveTask.java:174-175 | a line whose trimmed form does not start with "Disallow:" contributes nothing |
| CrawlTask.DisallowRules | starter/webcrawler/src/main/java/com/udacity/webcrawler/ParallelWebCrawlerRecursiveTask.java:173-178 | every collected rule is non-empty and trimmed |
| CrawlTask.DisallowRulesMembers | starter/webcrawler/src/main/java/com/udacity/webcrawler/ParallelWebCrawlerRecursiveTask.java:173-178 | a prefix is collected exactly when some line of the file contributes it |
| CrawlTask.FetchRobotsTxt | starter/webcrawler/src/main/java/com/udacity/webcrawler/ParallelWebCrawlerRecursiveTask.java:166-184 | a robots.txt that cannot be read yields no rules; no rule is ever empty |
| CrawlTask.DomainKey | starter/webcrawler/src/main/java/com/udacity/webcrawler/ParallelWebCrawlerRecursiveTask.java:155 | the robots cache key of a parsed URL: its protocol, "://", then its host |
| CrawlTask.Disallows | starter/webcrawler/src/main/java/com/udacity/webcrawler/ParallelWebCrawlerRecursiveTask.java:159-160 | whether some rule of the set is a prefix of the path, as `anyMatch(path::startsWith)` |
| CrawlTask.RobotsCheck | starter/webcrawler/src/main/java/com/udacity/webcrawler/ParallelWebCrawlerRecursiveTask.java:152-164 | a malformed URL is allowed and leaves the cache alone; otherwise the cache gains at most the URL's protocol://host key, fetched only when absent, existing entries are kept, and the URL is disallowed exactly when some cached rule of its domain is a prefix of its path |
| CrawlTask.RobotsFailOpen | starter/webcrawler/src/main/java/com/udacity/webcrawler/ParallelWebCrawlerRecursiveTask.java:152-184 | when the domain is not cached and its robots.txt cannot be read, the URL is allowed |
| CrawlTask.MergeCounts | starter/webcrawler/src/main/java/com/udacity/webcrawler/ParallelWebCrawlerRecursiveTask.java:144-146 | after a merge the words are those of both maps and each word's count is its old count plus its page count, absent counting 0 |
| CrawlTask.MergeCountsCommute | starter/webcrawler/src/main/java/com/udacity/webcrawler/ParallelWebCrawlerRecursiveTask.java:144-146 | merging two pages gives the same totals in either order |
| CrawlTask.AddPagesAppend | starter/webcrawler/src/main/java/com/udacity/webcrawler/ParallelWebCrawlerRecursiveTask.java:144-146 | merging the pages of a + b is merging those of a, then those of b |
| CrawlTask.AddPagesCount | starter/webcrawler/src/main/java/com/udacity/webcrawler/ParallelWebCrawlerRecursiveTask.java:144-146 | after merging a list of pages each word's count is its old count plus its count summed over those pages |
| CrawlTask.Crawl | starter/webcrawler/src/main/java/com/udacity/webcrawler/ParallelWebCrawlerRecursiveTask.java:110-142 | compute's result and the shared state after the task and all its descendants: depth 0 or a clock reading strictly past the deadline or an ignored URL stop it before the robots check; otherwise `Visit` decides |
| CrawlTask.Visit | starter/webcrawler/src/main/java/com/udacity/webcrawler/ParallelWebCrawlerRecursiveTask.java:111-141 | the part of compute from the robots check on: a disallowed or already-visited URL returns false; otherwise the URL is claimed; a failed parse returns false; a parsed page is merged, its children are crawled and the result is true |
| CrawlTask.CrawlChildren | starter/webcrawler/src/main/java/com/udacity/webcrawler/ParallelWebCrawlerRecursiveTask.java:119-134 | the shared state after the child tasks, each run with its whole subtree, one after another in link order |
| CrawlTask.CrawlGrows | starter/webcrawler/src/main/java/com/udacity/webcrawler/ParallelWebCrawlerRecursiveTask.java:110-142 | a task and all its descendants keep the shared-state invariant: claimed URLs are new and claimed once each, and visited gains exactly them; parsed pages are exactly the claimed URLs whose parse succeeded, each parsed once, and the counts grow by exactly those pages; every claimed URL matched no ignore pattern and was not disallowed by its domain's cached rules; cache entries are never overwritten and each new one is its domain's rules; the clock only advances |
| CrawlTask.VisitGrows | starter/webcrawler/src/main/java/com/udacity/webcrawler/ParallelWebCrawlerRecursiveTask.java:112-141 | the same invariant for the part of compute from the robots guard on |
| CrawlTask.CrawlChildrenGrows | starter/webcrawler/src/main/java/com/udacity/webcrawler/ParallelWebCrawlerRecursiveTask.java:133-134 | the same invariant for running a list of child tasks |
| CrawlTask.NothingAtDepthZero | starter/webcrawler/src/main/java/com/udacity/webcrawler/ParallelWebCrawlerRecursiveTask.java:111 | at depth 0 the result is false and the state, including the clock, is unchanged |
| CrawlTask.NothingAfterDeadline | starter/webcrawler/src/main/java/com/udacity/webcrawler/ParallelWebCrawlerRecursiveTask.java:111 | when the clock reads strictly after the deadline the result is false and only the clock reading is consumed |
| CrawlTask.SkippedUrlNotVisited | starter/webcrawler/src/main/java/com/udacity/webcrawler/ParallelWebCrawlerRecursiveTask.java:112 | an ignored or robots-disallowed URL returns false, is not claimed, nothing is parsed or counted, and an ignored URL does not even touch the robots cache |
| CrawlTask.AlreadyVisitedNotParsed | starter/webcrawler/src/main/java/com/udacity/webcrawler/ParallelWebCrawlerRecursiveTask.java:113 | a URL already visited returns false with no parse and no change to the visited set or the counts |
| CrawlTask.FailedParseKeepsClaim | starter/webcrawler/src/main/java/com/udacity/webcrawler/ParallelWebCrawlerRecursiveTask.java:113-141 | a parse that throws returns false with the URL claimed and the counts unchanged |
| CrawlTask.ComputeSucceedsIff | starter/webcrawler/src/main/java/com/udacity/webcrawler/ParallelWebCrawlerRecursiveTask.java:110-142 | compute returns true exactly when depth > 0, the clock is not after the deadline, the URL is neither ignored nor disallowed, the claim succeeds and the parse succeeds |
| CrawlTask.SuccessMergesThenCrawlsChildren | starter/webcrawler/src/main/java/com/udacity/webcrawler/ParallelWebCrawlerRecursiveTask.java:117-136 | on success the page's counts are merged first and then every link is crawled, as a task of depth - 1 with the same deadline, from the merged state; the final state is the one after all children |
| CrawlTask.ClaimedAtMostOnce | starter/webcrawler/src/main/java/com/udacity/webcrawler/ParallelWebCrawlerRecursiveTask.java:113 | from an empty start, no URL is claimed twice and the visited set is exactly the claimed URLs, as many as there were claims |
| CrawlTask.CountsAreSumOverParsedPages | starter/webcrawler/src/main/java/com/udacity/webcrawler/ParallelWebCrawlerRecursiveTask.java:117-146 | from an empty start, each word's final count is its count summed over the pages parsed; the pages parsed are exactly the visited URLs whose parse succeeded, each parsed once |
| CrawlTask.VisitedWereAdmitted | starter/webcrawler/src/main/java/com/udacity/webcrawler/ParallelWebCrawlerRecursiveTask.java:112-113 | from an empty start, no visited URL matches an ignore pattern, and none has a path that a rule of its domain's robots.txt disallows |
| CrawlTask.PastDeadlineFetchesNothing | starter/webcrawler/src/main/java/com/udacity/webcrawler/ParallelWebCrawlerRecursiveTask.java:111 | when every clock reading is past the deadline nothing is visited, parsed or counted |
| CrawlTask.CrawlSession.constructor | starter/webcrawler/src/main/java/com/udacity/webcrawler/ParallelWebCrawlerRecursiveTask.java:31-35 | a session starts with nothing visited, no counts and an empty robots cache |
| CrawlTask.CrawlSession.ReadClock | starter/webcrawler/src/main/java/com/udacity/webcrawler/ParallelWebCrawlerRecursiveTask.java:111 | clock.instant() returns the next reading of the clock |
| CrawlTask.CrawlSession.Claim | starter/webcrawler/src/main/java/com/udacity/webcrawler/ParallelWebCrawlerRecursiveTask.java:113 | visitedUrls.add returns true exactly when the URL was absent, and the URL is visited afterwards |
| CrawlTask.CrawlSession.MergeWordCounts | starter/webcrawler/src/main/java/com/udacity/webcrawler/ParallelWebCrawlerRecursiveTask.java:144-146 | merging one word at a time leaves the totals equal to MergeCounts of the old totals and the page |
| CrawlTask.CrawlSession.IsDisallowedByRobotsTxt | starter/webcrawler/src/main/java/com/udacity/webcrawler/ParallelWebCrawlerRecursiveTask.java:152-164 | the verdict and the cache afterwards are those of RobotsCheck |
| CrawlTask.CrawlSession.Compute | starter/webcrawler/src/main/java/com/udacity/webcrawler/ParallelWebCrawlerRecursiveTask.java:110-142 | the result and the new shared state are those of Crawl on the old state |
| CrawlTask.CrawlSession.VisitUrl | starter/webcrawler/src/main/java/com/udacity/webcrawler/ParallelWebCrawlerRecursiveTask.java:112-141 | the robots guard, the claim and the parse, with result and new state those of Visit |
| CrawlTask.CrawlSession.CrawlPage | starter/webcrawler/src/main/java/com/udacity/webcrawler/ParallelWebCrawlerRecursiveTask.java:118-134 | merges the page's counts, builds one child per link and runs them all, ending in the state CrawlChildren gives |
| JavaStrings.Trim | starter/webcrawler/src/main/java/com/udacity/webcrawler/ParallelWebCrawlerRecursiveTask.java:174-176 | String.trim never lengthens a string and leaves no char at or below U+0020 at either end |
| JavaStrings.TrimPadded | starter/webcrawler/src/main/java/com/udacity/webcrawler/ParallelWebCrawlerRecursiveTask.java:174-176 | trimming a core padded on both sides with blanks gives back exactly the core |
| JavaStrings.TrimIdempotent | starter/webcrawler/src/main/java/com/udacity/webcrawler/ParallelWebCrawlerRecursiveTask.java:174-176 | trimming twice is trimming once |
| JavaStrings.NatToString | starter/webcrawler/src/main/java/com/udacity/webcrawler/profiler/ProfilingState.java:67-104 | the decimal text of a count or a duration field: digits only, no leading zero, denoting the number |
| JavaStrings.IntToString | starter/webcrawler/src/main/java/com/udacity/webcrawler/profiler/ProfilingState.java:80 | the decimal text of a thread id: a minus sign exactly for negatives, then the digits of the magnitude |
| Profiler.FormatMethodCall | starter/webcrawler/src/main/java/com/udacity/webcrawler/profiler/ProfilingState.java:95-97 | the key is the class name, a '#', then the method name |
| Profiler.FormatMethodCallInjective | starter/webcrawler/src/main/java/com/udacity/webcrawler/profiler/ProfilingState.java:95-97 | for class names without '#', two methods share a key only when class and method name agree |
| Profiler.Parts | starter/webcrawler/src/main/java/com/udacity/webcrawler/profiler/ProfilingState.java:102-105 | the displayed seconds are below 60 and millis below 1000, and minutes, seconds and millis together are the duration's whole milliseconds |
| Profiler.FormatDuration | starter/webcrawler/src/main/java/com/udacity/webcrawler/profiler/ProfilingState.java:102-105 | formatDuration: the minutes, "m ", the seconds part, "s ", the milliseconds part, then "ms" |
| Profiler.Average | starter/webcrawler/src/main/java/com/udacity/webcrawler/profiler/ProfilingState.java:78 | the average is the total divided, rounding down, by the call count, with 0 calls treated as 1 |
| Profiler.MapSumIncrement | starter/webcrawler/src/main/java/com/udacity/webcrawler/profiler/ProfilingState.java:41-65 | incrementing one thread's counter adds exactly one to the counters' sum |
| Profiler.Recorded | starter/webcrawler/src/main/java/com/udacity/webcrawler/profiler/ProfilingState.java:28-45 | a negative duration fails with "negative elapsed time"; otherwise the key's total grows by the duration (from 0 on first use), exactly the (key, thread) counter grows by one, and every other key is unchanged |
| Profiler.RecordedCountsOneCall | starter/webcrawler/src/main/java/com/udacity/webcrawler/profiler/ProfilingState.java:41-65 | an accepted record adds one to its key's total call count and nothing to any other key's |
| Profiler.RecordAllTotals | starter/webcrawler/src/main/java/com/udacity/webcrawler/profiler/ProfilingState.java:28-65 | after a series of records a key's total is the time of its accepted calls and its thread counters sum to the number of those calls |
| Profiler.ThreeOneSecondCalls | starter/webcrawler/src/main/java/com/udacity/webcrawler/profiler/ProfilingState.java:50-53 | three one-second records of one method give a total of three seconds, shown as "0m 3s 0ms", over three calls |
| Profiler.RecordedKeepsConsistent | starter/webcrawler/src/main/java/com/udacity/webcrawler/profiler/ProfilingState.java:39-44 | a record keeps every key holding both a total and thread counters with at least one call |
| Profiler.RecordAllConsistent | starter/webcrawler/src/main/java/com/udacity/webcrawler/profiler/ProfilingState.java:39-44 | every table built by records is consistent in that sense |
| Profiler.HeaderReportsCalls | starter/webcrawler/src/main/java/com/udacity/webcrawler/profiler/ProfilingState.java:67-71 | in a table built by records every header shows " (called N times)" with N the key's total calls |
| Profiler.SumCalls | starter/webcrawler/src/main/java/com/udacity/webcrawler/profiler/ProfilingState.java:60-65 | the stream sum of a key's thread counters is their sum |
| Profiler.WriteThreadLines | starter/webcrawler/src/main/java/com/udacity/webcrawler/profiler/ProfilingState.java:73-83 | writes one line per thread of the key, each thread exactly once, in the order it returns |
| Profiler.Header | starter/webcrawler/src/main/java/com/udacity/webcrawler/profiler/ProfilingState.java:67-71 | a key's first line: the key, " took ", its formatted total, " (called N times)" only when the call total N is positive, and a line separator |
| Profiler.ThreadLine | starter/webcrawler/src/main/java/com/udacity/webcrawler/profiler/ProfilingState.java:75-82 | one thread's line: its id and call count, then the key's total divided by that count (0 read as 1), formatted |
| Profiler.ThreadLines | starter/webcrawler/src/main/java/com/udacity/webcrawler/profiler/ProfilingState.java:74-83 | the lines of a key's threads, one per thread in the given iteration order |
| Profiler.KeyBlock | starter/webcrawler/src/main/java/com/udacity/webcrawler/profiler/ProfilingState.java:57-84 | the block written for one key: header, thread lines, then a blank line |
| Profiler.Report | starter/webcrawler/src/main/java/com/udacity/webcrawler/profiler/ProfilingState.java:55-86 | the whole text write produces: the blocks of the keys in the given iteration order |
| Profiler.WriteSection | starter/webcrawler/src/main/java/com/udacity/webcrawler/profiler/ProfilingState.java:57-84 | writes a recorded key's block, header, thread lines and blank line, for a section listing each of its threads once |
| Profiler.ProfilingState.constructor | starter/webcrawler/src/main/java/com/udacity/webcrawler/profiler/ProfilingState.java:18-19 | a new state has no durations and no counters |
| Profiler.ProfilingState.Record | starter/webcrawler/src/main/java/com/udacity/webcrawler/profiler/ProfilingState.java:28-45 | a negative duration raises the error and changes nothing; otherwise the new maps are those of Recorded |
| Profiler.ProfilingState.Write | starter/webcrawler/src/main/java/com/udacity/webcrawler/profiler/ProfilingState.java:55-86 | the text is the report of every recorded key, each once, each with all its threads once, in the order returned |

## Left out

- Concurrency: fork/join scheduling (`invokeAll`, `join`) and the atomicity of the concurrent maps, the skip-list set and `AtomicLong` are not modelled. Children run sequentially, one whole subtree after another.
- CrawlTask.CrawlSession.Compute: requires a non-negative depth. With a negative depth the Java task never meets its depth-0 stop; it recurses until the deadline or the link graph runs out. The model does not measure that case.
- CrawlTask.MergeCounts: counts are unbounded integers, so the 32-bit wrap-around of `Integer::sum` is not modelled.
- Profiler.Recorded: durations are unbounded nanoseconds, so the `ArithmeticException` that `Duration.plus` throws on overflow past a `long` of seconds is not modelled.
- CrawlTask.FetchRobotsTxt: a read that fails part-way through `reader.lines()` raises `UncheckedIOException`, which neither `fetchRobotsTxt` nor `isDisallowedByRobotsTxt` catches. Then no cache entry is recorded, `compute` throws outside its `try`, and the parent's `invokeAll` at :133 rethrows it. The parent's catch at :138-140 then returns false although it already merged its counts, where CrawlTask.ComputeSucceedsIff would give true, and its other children may be cancelled. At the root, the exception escapes the crawl. `Env.robotsFetch` has no value for this failure, so CrawlTask.RobotsCheck and CrawlTask.ComputeSucceedsIff do not cover it.
- Network I/O: the page parser, its factory and the robots.txt download are abstract inputs (`Env.parse`, `Env.robotsFetch`). Any exception of the parser is one failure value.
- `java.util.regex.Pattern` matching and `java.net.URL` parsing are abstract (`Env.matches`, `Env.parseUrl`).
- The clock is a function from the count of readings taken to an instant (`Env.clock`).
- The robots cache is a static field shared by every crawl in the process. Here it is owned by one `CrawlSession`.
- The `System.err` message on a failed crawl is not modelled.
- `System.lineSeparator()` is fixed as "\n".
- The profiler's `Writer` is modelled as the text written. Its `IOException` is not modelled.
- The profiler reads its arguments as `Class` and `Method` values; the model takes the class and method names, and `Objects.requireNonNull` is not modelled.
- ProfilerImpl, WebCrawlerMain, the JSON configuration and result classes and the exception classes are not part of this model.

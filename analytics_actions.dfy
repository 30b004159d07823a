/** Page-view analytics (src/app/actions/analytics-actions.ts): the append-only view log,
    referrer classification and the integer summaries of `getAnalyticsData`. The request
    headers, the clock, URL parsing and date parsing are parameters. */
module AnalyticsActions {
  import opened Wrappers
  import opened Types
  import opened JsString
  import opened EmptyData
  import opened CmsStore
  import opened Tally
  import Seqs

  // ---- referrer classification ----

  /** The source labels `getReferrerType` can answer. */
  predicate IsSourceLabel(source: string) {
    source == "Direct" || source == "Google" || source == "Bing" || source == "DuckDuckGo" || source == "Facebook"
    || source == "Twitter / X" || source == "LinkedIn" || source == "Instagram" || source == "Other"
  }

  /** `getReferrerType`. `hostname` is the hostname `new URL(referrer)` gives, `None` when the
      URL does not parse; `currentHost` is the request's Host header. */
  function ReferrerType(referrer: OptText, hostname: Option<string>, currentHost: Option<string>): (r: string)
    ensures IsSourceLabel(r)
    ensures referrer == NoText || referrer == Text("") ==> r == "Direct"
    ensures referrer != NoText && referrer != Text("") && hostname == None ==> r == "Other"
  {
    if referrer == NoText || referrer.s == "" then "Direct"
    else match hostname
      case None => "Other"
      case Some(h) =>
        if currentHost.Some? && currentHost.value != "" && Contains(h, currentHost.value) then "Direct"
        else HostType(h)
  }

  /** The hostname tests of `getReferrerType` after the own-host test, in their order. */
  function HostType(h: string): (r: string)
    ensures IsSourceLabel(r)
  {
    if Contains(h, "localhost") then "Direct"
    else if Contains(h, "google.") then "Google"
    else if Contains(h, "bing.") then "Bing"
    else if Contains(h, "duckduckgo.") then "DuckDuckGo"
    else if Contains(h, "facebook.") then "Facebook"
    else if Contains(h, "t.co") || Contains(h, "twitter.") then "Twitter / X"
    else if Contains(h, "linkedin.") then "LinkedIn"
    else if Contains(h, "instagram.") then "Instagram"
    else "Other"
  }

  /** One hostname rule: the source applies when the hostname contains any of the needles. */
  datatype Rule = Rule(needles: seq<string>, source: string)

  /** The hostname rules in the order they are tried. */
  const HostRules: seq<Rule> := [
    Rule(["localhost"], "Direct"),
    Rule(["google."], "Google"),
    Rule(["bing."], "Bing"),
    Rule(["duckduckgo."], "DuckDuckGo"),
    Rule(["facebook."], "Facebook"),
    Rule(["t.co", "twitter."], "Twitter / X"),
    Rule(["linkedin."], "LinkedIn"),
    Rule(["instagram."], "Instagram")
  ]

  predicate ContainsAny(h: string, needles: seq<string>) {
    needles != [] && (Contains(h, needles[0]) || ContainsAny(h, needles[1..]))
  }

  /** The source of the first rule that matches, or "Other". */
  function FirstMatch(rules: seq<Rule>, h: string): string {
    if rules == [] then "Other"
    else if ContainsAny(h, rules[0].needles) then rules[0].source
    else FirstMatch(rules[1..], h)
  }

  /** For a parsed referrer the classifier is the rule table tried in order, after the
      own-host check. */
  lemma ReferrerTypeIsFirstMatch(referrer: OptText, h: string, currentHost: Option<string>)
    requires referrer.Text? && referrer.s != ""
    ensures ReferrerType(referrer, Some(h), currentHost)
      == if currentHost.Some? && currentHost.value != "" && Contains(h, currentHost.value) then "Direct"
         else FirstMatch(HostRules, h)
  {
    HostTypeIsFirstMatch(h);
  }

  lemma HostTypeIsFirstMatch(h: string)
    ensures HostType(h) == FirstMatch(HostRules, h)
  {
    var r := HostRules;
    var m7 := if Contains(h, "instagram.") then "Instagram" else "Other";
    assert FirstMatch(r[7..], h) == m7 by {
      FirstMatchAt(r, 7, h);
      OneNeedle(h, "instagram.");
      assert r[8..] == [];
    }
    var m6 := if Contains(h, "linkedin.") then "LinkedIn" else m7;
    assert FirstMatch(r[6..], h) == m6 by {
      FirstMatchAt(r, 6, h);
      OneNeedle(h, "linkedin.");
    }
    var m5 := if Contains(h, "t.co") || Contains(h, "twitter.") then "Twitter / X" else m6;
    assert FirstMatch(r[5..], h) == m5 by {
      FirstMatchAt(r, 5, h);
      TwoNeedles(h, "t.co", "twitter.");
    }
    var m4 := if Contains(h, "facebook.") then "Facebook" else m5;
    assert FirstMatch(r[4..], h) == m4 by {
      FirstMatchAt(r, 4, h);
      OneNeedle(h, "facebook.");
    }
    var m3 := if Contains(h, "duckduckgo.") then "DuckDuckGo" else m4;
    assert FirstMatch(r[3..], h) == m3 by {
      FirstMatchAt(r, 3, h);
      OneNeedle(h, "duckduckgo.");
    }
    var m2 := if Contains(h, "bing.") then "Bing" else m3;
    assert FirstMatch(r[2..], h) == m2 by {
      FirstMatchAt(r, 2, h);
      OneNeedle(h, "bing.");
    }
    var m1 := if Contains(h, "google.") then "Google" else m2;
    assert FirstMatch(r[1..], h) == m1 by {
      FirstMatchAt(r, 1, h);
      OneNeedle(h, "google.");
    }
    assert FirstMatch(r, h) == if Contains(h, "localhost") then "Direct" else m1 by {
      FirstMatchAt(r, 0, h);
      OneNeedle(h, "localhost");
      assert r[0..] == r;
    }
  }

  lemma FirstMatchAt(rules: seq<Rule>, k: nat, h: string)
    requires k < |rules|
    ensures FirstMatch(rules[k..], h)
      == if ContainsAny(h, rules[k].needles) then rules[k].source else FirstMatch(rules[k + 1..], h)
  {
    assert rules[k..][1..] == rules[k + 1..];
  }

  lemma OneNeedle(h: string, needle: string)
    ensures ContainsAny(h, [needle]) <==> Contains(h, needle)
  {
    assert [needle][1..] == [];
  }

  lemma TwoNeedles(h: string, first: string, second: string)
    ensures ContainsAny(h, [first, second]) <==> Contains(h, first) || Contains(h, second)
  {
    assert [first, second][1..] == [second];
    OneNeedle(h, second);
  }

  /** A hostname without some character of a needle cannot contain that needle. */
  lemma {:induction false} MissingChar(s: string, sub: string, c: char)
    requires c in sub && c !in s
    ensures !Contains(s, sub)
  {
    if s != [] {
      MissingChar(s[1..], sub, c);
    }
  }

  /** A hostname without the letters that start the earlier rules' needles, but with "t.co"
      inside, is classed "Twitter / X". */
  lemma TwitterByLetters(referrer: OptText, h: string, i: nat)
    requires referrer.Text? && referrer.s != ""
    requires 'l' !in h && 'g' !in h && 'b' !in h && 'u' !in h && 'f' !in h
    requires i + 4 <= |h| && h[i..i + 4] == "t.co"
    ensures ReferrerType(referrer, Some(h), None) == "Twitter / X"
  {
    MissingChar(h, "localhost", 'l');
    MissingChar(h, "google.", 'g');
    MissingChar(h, "bing.", 'b');
    MissingChar(h, "duckduckgo.", 'u');
    MissingChar(h, "facebook.", 'f');
    ContainsAt(h, "t.co", i);
  }

  /** The rules are substring tests, so "reddit.com" is classed "Twitter / X" through the
      "t.co" inside "reddit.com". */
  lemma RedditIsTwitter(referrer: OptText, h: string)
    requires referrer.Text? && referrer.s != "" && h == "reddit.com"
    ensures ReferrerType(referrer, Some(h), None) == "Twitter / X"
  {
    assert h[5..9] == "t.co";
    TwitterByLetters(referrer, h, 5);
  }

  // ---- tracking ----

  /** The view `trackPageView` records: missing ip and user-agent headers become "unknown",
      a missing Referer header is `null`. */
  function NewView(pathname: string, now: string, ip: Option<string>, userAgent: Option<string>,
                   referer: Option<string>): (v: PageView)
    ensures v.path == pathname && v.timestamp == now
    ensures v.ip == (if ip.Some? then ip.value else "unknown")
    ensures v.userAgent == (if userAgent.Some? then userAgent.value else "unknown")
    ensures v.referrer == (if referer.Some? then Text(referer.value) else NoText)
  {
    PageView(pathname, now, ip.GetOr("unknown"), userAgent.GetOr("unknown"),
             if referer.Some? then Text(referer.value) else NoText)
  }

  /** `trackPageView`: appends the view to the loaded list in place and saves it. The action
      has no `try`, so a failing read or save escapes as `Fail`. */
  method TrackPageView(s: Store, pathname: string, now: string, ip: Option<string>, userAgent: Option<string>,
                       referer: Option<string>, io: Io) returns (r: Outcome)
    requires s.Valid()
    modifies s
    ensures s.Valid()
    ensures s.configured == old(s.configured) && s.env == old(s.env)
    ensures
      var read := ReadResult(s.configured, old(s.blobs), DataPath(Analytics), DefaultOf(Analytics, old(s.empty)), io);
      var seeded := ReadEffect(s.configured, old(s.blobs), DataPath(Analytics), DefaultOf(Analytics, old(s.empty)), io);
      (read.Err? ==> r.Fail? && s.blobs == seeded && s.empty == old(s.empty))
      && (read.Ok? ==>
            var views := AnalyticsOf(read.value.value) + [NewView(pathname, now, ip, userAgent, referer)];
            s.blobs == WriteEffect(s.configured, seeded, DataPath(Analytics), AnalyticsV(views), io)
            && s.empty == (if read.value.isDefault then WithDefault(old(s.empty), Analytics, AnalyticsV(views)) else old(s.empty))
            && r == WriteOutcome(s.configured, io))
  {
    var newPageView := NewView(pathname, now, ip, userAgent, referer);
    var read := s.Get(Analytics, io);
    if read.Err? {
      return Fail(read.error);
    }
    var allViews := AnalyticsOf(read.value.value);
    allViews := allViews + [newPageView];
    if read.value.isDefault {
      s.ChangeDefaultInPlace(Analytics, AnalyticsV(allViews));
    }
    r := s.Save(Analytics, AnalyticsV(allViews), io);
  }

  // ---- summaries ----

  function PathsOf(views: seq<PageView>): (r: seq<string>)
    ensures |r| == |views| && forall i :: 0 <= i < |views| ==> r[i] == views[i].path
  {
    seq(|views|, i requires 0 <= i < |views| => views[i].path)
  }

  /** The source source of every view, in order. */
  function SourcesOf(views: seq<PageView>, hostOf: string -> Option<string>, currentHost: Option<string>): (r: seq<string>)
    ensures |r| == |views|
    ensures forall i :: 0 <= i < |views| ==>
      r[i] == ReferrerType(views[i].referrer, if views[i].referrer.Text? then hostOf(views[i].referrer.s) else None, currentHost)
  {
    seq(|views|, i requires 0 <= i < |views| =>
      ReferrerType(views[i].referrer, if views[i].referrer.Text? then hostOf(views[i].referrer.s) else None, currentHost))
  }

  /** `new Set(views.map(view => view.ip))`. */
  function IpsOf(views: seq<PageView>): set<string> {
    set i | 0 <= i < |views| :: views[i].ip
  }

  /** There are never more distinct visitors than views, and at least one when there is a view. */
  lemma {:induction false} IpsBounded(views: seq<PageView>)
    ensures |IpsOf(views)| <= |views|
    ensures views != [] ==> |IpsOf(views)| >= 1
  {
    if views != [] {
      var init := views[..|views| - 1];
      IpsBounded(init);
      assert IpsOf(views) == IpsOf(init) + {views[|views| - 1].ip} by {
        forall ip | ip in IpsOf(views)
          ensures ip in IpsOf(init) + {views[|views| - 1].ip}
        {
          var i :| 0 <= i < |views| && views[i].ip == ip;
          if i < |views| - 1 {
            assert init[i] == views[i];
          }
        }
        forall ip | ip in IpsOf(init)
          ensures ip in IpsOf(views)
        {
          var i :| 0 <= i < |init| && init[i].ip == ip;
          assert views[i] == init[i];
        }
      }
    }
  }

  /** The views at or after `start`; a timestamp that does not parse compares false. */
  function ViewsSince(views: seq<PageView>, timeOf: string -> Option<int>, start: int): seq<PageView> {
    Seqs.Filter(views, (v: PageView) => timeOf(v.timestamp).Some? && timeOf(v.timestamp).value >= start)
  }

  /** The views in `[start, end)`. */
  function ViewsBetween(views: seq<PageView>, timeOf: string -> Option<int>, start: int, end: int): seq<PageView> {
    Seqs.Filter(views, (v: PageView) => timeOf(v.timestamp).Some? && start <= timeOf(v.timestamp).value < end)
  }

  /** The change from yesterday's count to today's, in percent: 0 with no views on either
      day, 100 when only today has views. */
  function DailyChangePercent(today: nat, yesterday: nat): (r: real)
    ensures yesterday == 0 ==> r == (if today > 0 then 100.0 else 0.0)
    ensures yesterday > 0 ==> (r > 0.0 <==> today > yesterday) && (r == 0.0 <==> today == yesterday)
  {
    if yesterday > 0 then ((today - yesterday) as real / yesterday as real) * 100.0
    else if today > 0 then 100.0
    else 0.0
  }

  /** The integer parts of the summary `getAnalyticsData` returns. */
  datatype Summary = Summary(
    totalViews: nat,
    totalUniqueVisitors: nat,
    viewsToday: nat,
    dailyChangePercent: real,
    uniqueVisitorsToday: nat,
    topPages: Tally,
    trafficSources: Tally)

  function Summarize(views: seq<PageView>, timeOf: string -> Option<int>, todayStart: int, yesterdayStart: int,
                     hostOf: string -> Option<string>, currentHost: Option<string>): Summary
  {
    var today := ViewsSince(views, timeOf, todayStart);
    var yesterday := ViewsBetween(views, timeOf, yesterdayStart, todayStart);
    Summary(|views|, |IpsOf(views)|, |today|, DailyChangePercent(|today|, |yesterday|), |IpsOf(today)|,
            TopFive(TallyOf(PathsOf(views))), TallyOf(SourcesOf(views, hostOf, currentHost)))
  }

  /** The totals count views and distinct ips, and the per-path counts add up to the total. */
  lemma SummaryTotals(views: seq<PageView>, timeOf: string -> Option<int>, todayStart: int, yesterdayStart: int,
                      hostOf: string -> Option<string>, currentHost: Option<string>)
    ensures var r := Summarize(views, timeOf, todayStart, yesterdayStart, hostOf, currentHost);
      && r.totalViews == |views|
      && r.totalUniqueVisitors <= r.totalViews
      && r.uniqueVisitorsToday <= r.viewsToday <= r.totalViews
      && Total(TallyOf(PathsOf(views))) == r.totalViews
  {
    IpsBounded(views);
    IpsBounded(ViewsSince(views, timeOf, todayStart));
    TallyTotal(PathsOf(views));
  }

  /** At most five top pages, in non-increasing order, each with its number of views. */
  lemma TopPagesFacts(views: seq<PageView>)
    ensures var top := TopFive(TallyOf(PathsOf(views)));
      && |top| <= 5 && NonIncreasing(top)
      && forall i :: 0 <= i < |top| ==> top[i].1 == Count(PathsOf(views), top[i].0)
  {
    var pages := TallyOf(PathsOf(views));
    var top := TopFive(pages);
    TopFiveFacts(pages);
    forall i | 0 <= i < |top|
      ensures top[i].1 == Count(PathsOf(views), top[i].0)
    {
      assert top[i] in pages;
      var j :| 0 <= j < |pages| && pages[j] == top[i];
      EntryCounts(PathsOf(views), j);
    }
  }

  /** The traffic sources count every view once, each under a known source label. */
  lemma SourcesFacts(views: seq<PageView>, hostOf: string -> Option<string>, currentHost: Option<string>)
    ensures var sources := TallyOf(SourcesOf(views, hostOf, currentHost));
      && Total(sources) == |views|
      && forall i :: 0 <= i < |sources| ==> IsSourceLabel(sources[i].0)
  {
    var labels := SourcesOf(views, hostOf, currentHost);
    var sources := TallyOf(labels);
    TallyTotal(labels);
    TallyKeys(labels);
    forall i | 0 <= i < |sources|
      ensures IsSourceLabel(sources[i].0)
    {
      assert KeysOf(sources)[i] == sources[i].0;
      assert sources[i].0 in labels;
    }
  }

  /** The per-path `reduce` into `acc[view.path]`. */
  method CountPages(views: seq<PageView>) returns (acc: Tally)
    ensures acc == TallyOf(PathsOf(views))
  {
    acc := [];
    for i := 0 to |views|
      invariant acc == TallyOf(PathsOf(views[..i]))
    {
      assert PathsOf(views[..i + 1])[..i] == PathsOf(views[..i]);
      acc := Bump(acc, views[i].path);
    }
    assert views[..|views|] == views;
  }

  /** The per-source `reduce` into `acc[type]`. */
  method CountSources(views: seq<PageView>, hostOf: string -> Option<string>, currentHost: Option<string>)
    returns (acc: Tally)
    ensures acc == TallyOf(SourcesOf(views, hostOf, currentHost))
  {
    acc := [];
    for i := 0 to |views|
      invariant acc == TallyOf(SourcesOf(views[..i], hostOf, currentHost))
    {
      assert SourcesOf(views[..i + 1], hostOf, currentHost)[..i] == SourcesOf(views[..i], hostOf, currentHost);
      var view := views[i];
      var sourceType := ReferrerType(view.referrer, if view.referrer.Text? then hostOf(view.referrer.s) else None, currentHost);
      acc := Bump(acc, sourceType);
    }
    assert views[..|views|] == views;
  }

  /** `getAnalyticsData`: reads the log (which can throw) and summarizes it. `timeOf` parses a
      timestamp to milliseconds, `todayStart`/`yesterdayStart` are the starts of the two days,
      and `hostOf` parses a referrer URL to its hostname. */
  method GetAnalyticsData(s: Store, timeOf: string -> Option<int>, todayStart: int, yesterdayStart: int,
                          hostOf: string -> Option<string>, currentHost: Option<string>, io: Io)
    returns (r: Result<Summary>)
    requires s.Valid()
    modifies s
    ensures s.Valid()
    ensures s.configured == old(s.configured) && s.env == old(s.env) && s.empty == old(s.empty)
    ensures
      var read := ReadResult(s.configured, old(s.blobs), DataPath(Analytics), DefaultOf(Analytics, s.empty), io);
      s.blobs == ReadEffect(s.configured, old(s.blobs), DataPath(Analytics), DefaultOf(Analytics, s.empty), io)
      && (read.Err? <==> r.Err?)
      && (read.Ok? ==> r == Ok(Summarize(AnalyticsOf(read.value.value), timeOf, todayStart, yesterdayStart, hostOf, currentHost)))
  {
    var read := s.Get(Analytics, io);
    if read.Err? {
      return Err(read.error);
    }
    var allViews := AnalyticsOf(read.value.value);
    var viewsToday := ViewsSince(allViews, timeOf, todayStart);
    var viewsYesterday := ViewsBetween(allViews, timeOf, yesterdayStart, todayStart);
    var todayCount := |viewsToday|;
    var yesterdayCount := |viewsYesterday|;
    var dailyChangePercent := DailyChangePercent(todayCount, yesterdayCount);
    var pageViews := CountPages(allViews);
    var trafficSources := CountSources(allViews, hostOf, currentHost);
    r := Ok(Summary(|allViews|, |IpsOf(allViews)|, todayCount, dailyChangePercent, |IpsOf(viewsToday)|,
                    TopFive(pageViews), trafficSources));
  }

  /** Tracking a view adds exactly one view to the total and one to its path's count. */
  lemma TrackAddsOne(views: seq<PageView>, v: PageView, path: string)
    ensures |views + [v]| == |views| + 1
    ensures Count(PathsOf(views + [v]), path) == Count(PathsOf(views), path) + (if v.path == path then 1 else 0)
  {
    var ps := PathsOf(views + [v]);
    assert ps[..|ps| - 1] == PathsOf(views);
  }
}

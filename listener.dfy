/**
 * listener/listener.go: the poller that keeps the previous doorbell list, detects ring
 * edges, opens the ringing page for each, and its Start loop.
 * Fetching (GetDoorbells), the startup ping and the browser are oracles.
 */
module Listener {
  import opened Options
  import opened Errors
  import Decimal
  import Strings
  import opened UnifiBootstrap

  /** browser.OpenURL: the error it reports for a URL, or None when the page opens. */
  type Browser = string -> Option<Error>

  const RingingPrefix := "http://127.0.0.1:"

  /** The page onRung opens: http://127.0.0.1:<WebPort>/ringing/<ID>. */
  function RingingURL(webPort: int, id: string): string {
    RingingPrefix + Decimal.IntToDecimal(webPort) + "/ringing/" + id
  }

  lemma PrefixCancels(p: string, a: string, b: string)
    requires p + a == p + b
    ensures a == b
  {
    assert a == (p + a)[|p|..];
    assert b == (p + b)[|p|..];
  }

  /** Distinct ports or distinct doorbell IDs give distinct ringing pages. */
  lemma RingingURLInjective(p1: int, id1: string, p2: int, id2: string)
    requires RingingURL(p1, id1) == RingingURL(p2, id2)
    ensures p1 == p2 && id1 == id2
  {
    var d1, d2 := Decimal.IntToDecimal(p1), Decimal.IntToDecimal(p2);
    var t1, t2 := "ringing/" + id1, "ringing/" + id2;
    var r1, r2 := d1 + ['/'] + t1, d2 + ['/'] + t2;
    assert RingingURL(p1, id1) == RingingPrefix + r1;
    assert RingingURL(p2, id2) == RingingPrefix + r2;
    PrefixCancels(RingingPrefix, r1, r2);
    Strings.SplitAtFirst(d1, t1, d2, t2, '/');
    Decimal.IntToDecimalInjective(p1, p2);
    assert id1 == t1[8..] && id2 == t2[8..];
  }

  /** The doorbells of cur that rang since oldStates, in list order. */
  function RingEdges(oldStates: seq<Doorbell>, cur: seq<Doorbell>): (edges: seq<Doorbell>)
    ensures |edges| <= |cur|
    decreases |cur|
  {
    if cur == [] then []
    else
      var last := cur[|cur| - 1];
      RingEdges(oldStates, cur[..|cur| - 1]) + (if DoesRung(last, oldStates) then [last] else [])
  }

  /** One URL per edge, in the same order. */
  function URLs(webPort: int, ds: seq<Doorbell>): (us: seq<string>)
    ensures |us| == |ds|
    ensures forall i :: 0 <= i < |ds| ==> us[i] == RingingURL(webPort, ds[i].id)
  {
    seq(|ds|, i requires 0 <= i < |ds| => RingingURL(webPort, ds[i].id))
  }

  /** Edge detection keeps list order: the edges of a concatenation are those of each part. */
  lemma {:induction false} RingEdgesConcat(oldStates: seq<Doorbell>, a: seq<Doorbell>, b: seq<Doorbell>)
    ensures RingEdges(oldStates, a + b) == RingEdges(oldStates, a) + RingEdges(oldStates, b)
    decreases |b|
  {
    if b == [] {
      assert a + b == a;
    } else {
      var init := b[..|b| - 1];
      assert (a + b)[..|a + b| - 1] == a + init;
      assert (a + b)[|a + b| - 1] == b[|b| - 1];
      RingEdgesConcat(oldStates, a, init);
    }
  }

  /** A doorbell is an edge exactly when it is in the current list and DoesRung holds for it. */
  lemma {:induction false} RingEdgesMembership(oldStates: seq<Doorbell>, cur: seq<Doorbell>, d: Doorbell)
    ensures d in RingEdges(oldStates, cur) <==> d in cur && DoesRung(d, oldStates)
    decreases |cur|
  {
    if cur != [] {
      var init := cur[..|cur| - 1];
      assert cur == init + [cur[|cur| - 1]];
      RingEdgesMembership(oldStates, init, d);
    }
  }

  /** When no current doorbell rang, there are no edges. */
  lemma {:induction false} RingEdgesNone(oldStates: seq<Doorbell>, cur: seq<Doorbell>)
    requires forall i :: 0 <= i < |cur| ==> !DoesRung(cur[i], oldStates)
    ensures RingEdges(oldStates, cur) == []
    decreases |cur|
  {
    if cur != [] {
      RingEdgesNone(oldStates, cur[..|cur| - 1]);
    }
  }

  /** Against an empty previous list nothing rings: the first poll after New fires nothing. */
  lemma RingEdgesFromEmpty(cur: seq<Doorbell>)
    ensures RingEdges([], cur) == []
  {
    RingEdgesNone([], cur);
  }

  predicate UniqueNames(ds: seq<Doorbell>) {
    forall i, j :: 0 <= i < j < |ds| ==> ds[i].name != ds[j].name
  }

  /** Polling the same list twice: with unique names the second poll finds no edge. */
  lemma RingEdgesOfSameList(ds: seq<Doorbell>)
    requires UniqueNames(ds)
    ensures RingEdges(ds, ds) == []
  {
    forall i | 0 <= i < |ds|
      ensures !DoesRung(ds[i], ds)
    {
      var k := FirstNamed(ds[i].name, ds);
      assert k == i;
      DoesRungIffFirstMatchSmaller(ds[i], ds);
    }
    RingEdgesNone(ds, ds);
  }

  /** With two doorbells of one name, the second keeps ringing while the list does not change. */
  lemma DuplicateNameRingsOnEveryPoll()
    ensures var a := Camera(DoorbellType, "Front", "a", true, 100, "m1");
            var b := Camera(DoorbellType, "Front", "b", true, 150, "m2");
            RingEdges([a, b], [a, b]) == [b]
  {
    var a := Camera(DoorbellType, "Front", "a", true, 100, "m1");
    var b := Camera(DoorbellType, "Front", "b", true, 150, "m2");
    assert [a, b][..1] == [a];
    assert [a][..0] == [];
  }

  /** The number of URLs opened successfully before the first failure (|urls| when none fails). */
  function FirstFailure(urls: seq<string>, browser: Browser): (k: nat)
    ensures k <= |urls|
    ensures forall j :: 0 <= j < k ==> browser(urls[j]).None?
    ensures k < |urls| ==> browser(urls[k]).Some?
    decreases |urls|
  {
    if urls == [] || browser(urls[0]).Some? then 0 else 1 + FirstFailure(urls[1..], browser)
  }

  /** What one poll returns, which pages it tries to open (in order) and the state it leaves. */
  datatype PollResult = PollResult(err: Option<Error>, pages: seq<string>, state: seq<Doorbell>)

  function OnRungError(e: Error): Error {
    Wrapped("failed to open browser", e)
  }

  /**
   * The specification of poll: a failed fetch changes nothing; otherwise the edges' pages are
   * opened in order until one fails, and the state becomes the fetched list only if none failed.
   */
  function PollOutcome(webPort: int, state: seq<Doorbell>, fetched: Result<seq<Doorbell>>, browser: Browser): PollResult {
    match fetched
    case Err(e) => PollResult(Some(Wrapped("failed to poll", e)), [], state)
    case Ok(ds) =>
      var urls := URLs(webPort, RingEdges(state, ds));
      var k := FirstFailure(urls, browser);
      if k == |urls| then PollResult(None, urls, ds)
      else PollResult(Some(OnRungError(browser(urls[k]).value)), urls[..k + 1], state)
  }

  /** A failed fetch: an error, no page opened, the state kept. */
  lemma PollFetchFailure(webPort: int, state: seq<Doorbell>, e: Error, browser: Browser)
    ensures PollOutcome(webPort, state, Err(e), browser) == PollResult(Some(Wrapped("failed to poll", e)), [], state)
  {
  }

  /**
   * The pages a poll opens are those of the ringing doorbells, in list order; it succeeds
   * iff every one opens, and only a successful poll replaces the state, by the fetched list.
   */
  lemma PollOpensEdgesInOrder(webPort: int, state: seq<Doorbell>, ds: seq<Doorbell>, browser: Browser)
    ensures var r := PollOutcome(webPort, state, Ok(ds), browser);
      var urls := URLs(webPort, RingEdges(state, ds));
      && |r.pages| <= |urls| && r.pages == urls[..|r.pages|]
      && (r.err.None? <==> forall j :: 0 <= j < |urls| ==> browser(urls[j]).None?)
      && (r.err.None? ==> r.pages == urls && r.state == ds)
      && (r.err.Some? ==> r.state == state && r.pages != [] && browser(r.pages[|r.pages| - 1]).Some?
                          && forall j :: 0 <= j < |r.pages| - 1 ==> browser(r.pages[j]).None?)
  {
  }

  /** The first poll of a new Listener fires nothing and takes the fetched list as its state. */
  lemma FirstPollFiresNothing(webPort: int, ds: seq<Doorbell>, browser: Browser)
    ensures PollOutcome(webPort, [], Ok(ds), browser) == PollResult(None, [], ds)
  {
    RingEdgesFromEmpty(ds);
  }

  /**
   * After a successful poll of a list (names unique), from whatever state, a second poll of
   * the same list fires nothing and keeps it.
   */
  lemma SecondPollOfSameListFiresNothing(webPort: int, s: seq<Doorbell>, ds: seq<Doorbell>, b1: Browser, b2: Browser)
    requires UniqueNames(ds)
    requires PollOutcome(webPort, s, Ok(ds), b1).err.None?
    ensures PollOutcome(webPort, PollOutcome(webPort, s, Ok(ds), b1).state, Ok(ds), b2) == PollResult(None, [], ds)
  {
    PollOpensEdgesInOrder(webPort, s, ds, b1);
    RingEdgesOfSameList(ds);
  }

  /** One tick of Start's select: the context is done, or the ticker fired and poll ran with these oracles. */
  datatype Tick = Done | Polled(fetched: Result<seq<Doorbell>>, browser: Browser)

  /** How Start ended: it returned (nil or an error), or it is still polling when the ticks run out. */
  datatype StartOutcome = Returned(err: Option<Error>) | StillPolling

  datatype Run = Run(outcome: StartOutcome, pages: seq<string>, state: seq<Doorbell>)

  /** Start's loop after a successful ping: polls until the context is done or a poll fails. */
  function PollLoop(webPort: int, state: seq<Doorbell>, ticks: seq<Tick>): Run
    decreases |ticks|
  {
    if ticks == [] then Run(StillPolling, [], state)
    else match ticks[0]
      case Done => Run(Returned(None), [], state)
      case Polled(f, b) =>
        var p := PollOutcome(webPort, state, f, b);
        if p.err.Some? then Run(Returned(Some(Wrapped("", p.err.value))), p.pages, p.state)
        else var rest := PollLoop(webPort, p.state, ticks[1..]);
          Run(rest.outcome, p.pages + rest.pages, rest.state)
  }

  /** The loop has run through the first k ticks: each of them was a poll that succeeded. */
  predicate Reaches(webPort: int, state: seq<Doorbell>, ticks: seq<Tick>, k: nat) {
    k <= |ticks| && PollLoop(webPort, state, ticks[..k]).outcome == StillPolling
  }

  /** The state after the first k ticks. */
  function StateAt(webPort: int, state: seq<Doorbell>, ticks: seq<Tick>, k: nat): seq<Doorbell>
    requires k <= |ticks|
  {
    PollLoop(webPort, state, ticks[..k]).state
  }

  /** The tick is a poll that fails from this state. */
  predicate PollFails(webPort: int, state: seq<Doorbell>, t: Tick) {
    t.Polled? && PollOutcome(webPort, state, t.fetched, t.browser).err.Some?
  }

  /** The tick ends the loop: the context is done, or the poll fails. */
  predicate Stops(webPort: int, state: seq<Doorbell>, t: Tick) {
    t.Done? || PollFails(webPort, state, t)
  }

  /** Past a first tick that does not stop the loop, the loop goes on from the state that poll left. */
  lemma ReachesShift(webPort: int, state: seq<Doorbell>, ticks: seq<Tick>, k: nat)
    requires k < |ticks| && !Stops(webPort, state, ticks[0])
    ensures var p := PollOutcome(webPort, state, ticks[0].fetched, ticks[0].browser);
      && (Reaches(webPort, state, ticks, k + 1) <==> Reaches(webPort, p.state, ticks[1..], k))
      && StateAt(webPort, state, ticks, k + 1) == StateAt(webPort, p.state, ticks[1..], k)
  {
    var t := ticks[..k + 1];
    assert t[0] == ticks[0] && t[1..] == ticks[1..][..k];
  }

  /**
   * A tick the loop reaches decides it: Done ends Start with nil, a failing poll ends it with
   * that poll's error wrapped, and any other tick lets the loop reach the next one.
   */
  lemma {:induction false} PollLoopEndsAt(webPort: int, state: seq<Doorbell>, ticks: seq<Tick>, k: nat)
    requires k < |ticks| && Reaches(webPort, state, ticks, k)
    ensures var s := StateAt(webPort, state, ticks, k);
      var r := PollLoop(webPort, state, ticks);
      && (ticks[k].Done? ==> r.outcome == Returned(None))
      && (PollFails(webPort, s, ticks[k]) ==>
            r.outcome == Returned(Some(Wrapped("", PollOutcome(webPort, s, ticks[k].fetched, ticks[k].browser).err.value))))
      && (!Stops(webPort, s, ticks[k]) ==> Reaches(webPort, state, ticks, k + 1))
    decreases k
  {
    if k == 0 {
      assert ticks[..0] == [];
      assert ticks[..1] == [ticks[0]] && [ticks[0]][1..] == [];
    } else {
      assert ticks[..k][0] == ticks[0];
      var p := PollOutcome(webPort, state, ticks[0].fetched, ticks[0].browser);
      ReachesShift(webPort, state, ticks, k - 1);
      ReachesShift(webPort, state, ticks, k);
      PollLoopEndsAt(webPort, p.state, ticks[1..], k - 1);
      assert ticks[1..][k - 1] == ticks[k];
    }
  }

  /** A loop that has returned was stopped by a tick it reached: a Done one for nil, a failing poll for an error. */
  lemma {:induction false} StopsAtSomeTick(webPort: int, state: seq<Doorbell>, ticks: seq<Tick>)
    requires PollLoop(webPort, state, ticks).outcome.Returned?
    ensures PollLoop(webPort, state, ticks).outcome.err.None? ==>
      exists k :: 0 <= k < |ticks| && Reaches(webPort, state, ticks, k) && ticks[k].Done?
    ensures PollLoop(webPort, state, ticks).outcome.err.Some? ==>
      exists k :: 0 <= k < |ticks| && Reaches(webPort, state, ticks, k) && PollFails(webPort, StateAt(webPort, state, ticks, k), ticks[k])
    decreases |ticks|
  {
    assert ticks[..0] == [];
    assert Reaches(webPort, state, ticks, 0) && StateAt(webPort, state, ticks, 0) == state;
    if !Stops(webPort, state, ticks[0]) {
      var p := PollOutcome(webPort, state, ticks[0].fetched, ticks[0].browser);
      StopsAtSomeTick(webPort, p.state, ticks[1..]);
      var k :| 0 <= k < |ticks[1..]| && Reaches(webPort, p.state, ticks[1..], k)
        && (ticks[1..][k].Done? || PollFails(webPort, StateAt(webPort, p.state, ticks[1..], k), ticks[1..][k]))
        && (PollLoop(webPort, state, ticks).outcome.err.None? ==> ticks[1..][k].Done?)
        && (PollLoop(webPort, state, ticks).outcome.err.Some? ==> PollFails(webPort, StateAt(webPort, p.state, ticks[1..], k), ticks[1..][k]));
      ReachesShift(webPort, state, ticks, k);
      assert ticks[k + 1] == ticks[1..][k];
    }
  }

  /**
   * How Start's loop ends (listener.go's select): with nil iff it reaches a Done tick, with
   * an error iff it reaches a poll that fails, and it is still polling iff no tick it
   * reaches stops it. PollLoopEndsAt gives the error of the stopping poll.
   */
  lemma PollLoopEnds(webPort: int, state: seq<Doorbell>, ticks: seq<Tick>)
    ensures var r := PollLoop(webPort, state, ticks);
      && (r.outcome == Returned(None) <==> exists k :: 0 <= k < |ticks| && Reaches(webPort, state, ticks, k) && ticks[k].Done?)
      && (r.outcome.Returned? && r.outcome.err.Some? <==>
            exists k :: 0 <= k < |ticks| && Reaches(webPort, state, ticks, k) && PollFails(webPort, StateAt(webPort, state, ticks, k), ticks[k]))
      && (r.outcome == StillPolling <==>
            forall k :: 0 <= k < |ticks| && Reaches(webPort, state, ticks, k) ==> !Stops(webPort, StateAt(webPort, state, ticks, k), ticks[k]))
  {
    var r := PollLoop(webPort, state, ticks);
    if r.outcome.Returned? {
      StopsAtSomeTick(webPort, state, ticks);
    }
    forall k | 0 <= k < |ticks| && Reaches(webPort, state, ticks, k)
      ensures ticks[k].Done? ==> r.outcome == Returned(None)
      ensures PollFails(webPort, StateAt(webPort, state, ticks, k), ticks[k]) ==> r.outcome.Returned? && r.outcome.err.Some?
    {
      PollLoopEndsAt(webPort, state, ticks, k);
    }
  }

  lemma URLsConcat(webPort: int, a: seq<Doorbell>, b: seq<Doorbell>)
    ensures URLs(webPort, a + b) == URLs(webPort, a) + URLs(webPort, b)
  {
  }

  /** One step of poll's loop over the fetched list. */
  lemma PollStep(webPort: int, state: seq<Doorbell>, ds: seq<Doorbell>, i: nat)
    requires i < |ds|
    ensures URLs(webPort, RingEdges(state, ds[..i + 1]))
         == URLs(webPort, RingEdges(state, ds[..i])) + (if DoesRung(ds[i], state) then [RingingURL(webPort, ds[i].id)] else [])
  {
    assert ds[..i + 1][..i] == ds[..i];
    URLsConcat(webPort, RingEdges(state, ds[..i]), if DoesRung(ds[i], state) then [ds[i]] else []);
  }

  /** When a prefix of the pages opens up to its last one, which fails, that is the first failure. */
  lemma FirstFailureAtPrefixEnd(urls: seq<string>, pre: seq<string>, browser: Browser)
    requires 0 < |pre| <= |urls| && urls[..|pre|] == pre
    requires forall j :: 0 <= j < |pre| - 1 ==> browser(pre[j]).None?
    requires browser(pre[|pre| - 1]).Some?
    ensures FirstFailure(urls, browser) == |pre| - 1
  {
    var k := FirstFailure(urls, browser);
    assert forall j :: 0 <= j < |pre| ==> urls[j] == pre[j];
  }

  /** poll stops at the first page that fails to open, keeping the state. */
  lemma PollStopsAtFailure(webPort: int, state: seq<Doorbell>, ds: seq<Doorbell>, i: nat, browser: Browser)
    requires i < |ds|
    requires var pre := URLs(webPort, RingEdges(state, ds[..i + 1]));
      pre != [] && pre[|pre| - 1] == RingingURL(webPort, ds[i].id)
      && (forall j :: 0 <= j < |pre| - 1 ==> browser(pre[j]).None?)
      && browser(pre[|pre| - 1]).Some?
    ensures var pre := URLs(webPort, RingEdges(state, ds[..i + 1]));
      PollOutcome(webPort, state, Ok(ds), browser)
        == PollResult(Some(OnRungError(browser(RingingURL(webPort, ds[i].id)).value)), pre, state)
  {
    var head, tail := ds[..i + 1], ds[i + 1..];
    var pre := URLs(webPort, RingEdges(state, head));
    var urls := URLs(webPort, RingEdges(state, ds));
    assert head + tail == ds;
    RingEdgesConcat(state, head, tail);
    URLsConcat(webPort, RingEdges(state, head), RingEdges(state, tail));
    assert urls == pre + URLs(webPort, RingEdges(state, tail));
    assert urls[..|pre|] == pre;
    FirstFailureAtPrefixEnd(urls, pre, browser);
    var k := |pre| - 1;
    assert urls[k] == RingingURL(webPort, ds[i].id);
    assert urls[..k + 1] == pre;
  }

  /** poll with every page opened: it succeeds and takes the fetched list as its state. */
  lemma PollAllOpened(webPort: int, state: seq<Doorbell>, ds: seq<Doorbell>, browser: Browser)
    requires var urls := URLs(webPort, RingEdges(state, ds));
      forall j :: 0 <= j < |urls| ==> browser(urls[j]).None?
    ensures PollOutcome(webPort, state, Ok(ds), browser) == PollResult(None, URLs(webPort, RingEdges(state, ds)), ds)
  {
  }

  class Listener {
    const webPort: int
    var state: seq<Doorbell>

    /** New: no previous doorbell list. */
    constructor (webPort: int)
      ensures this.webPort == webPort && state == []
    {
      this.webPort := webPort;
      state := [];
    }

    /** onRung: open the doorbell's ringing page; a browser failure is wrapped. */
    method OnRung(d: Doorbell, browser: Browser) returns (err: Option<Error>)
      ensures err.None? <==> browser(RingingURL(webPort, d.id)).None?
      ensures err.Some? ==> err == Some(OnRungError(browser(RingingURL(webPort, d.id)).value))
    {
      var e := browser(RingingURL(webPort, d.id));
      if e.Some? {
        return Some(OnRungError(e.value));
      }
      err := None;
    }

    /** poll, proved against PollOutcome. */
    method Poll(fetched: Result<seq<Doorbell>>, browser: Browser) returns (err: Option<Error>, pages: seq<string>)
      modifies this
      ensures var p := PollOutcome(webPort, old(state), fetched, browser);
        err == p.err && pages == p.pages && state == p.state
    {
      if fetched.Err? {
        return Some(Wrapped("failed to poll", fetched.error)), [];
      }
      var ds := fetched.value;
      pages := [];
      for i := 0 to |ds|
        invariant state == old(state)
        invariant pages == URLs(webPort, RingEdges(state, ds[..i]))
        invariant forall j :: 0 <= j < |pages| ==> browser(pages[j]).None?
      {
        PollStep(webPort, state, ds, i);
        if DoesRung(ds[i], state) {
          var e := OnRung(ds[i], browser);
          pages := pages + [RingingURL(webPort, ds[i].id)];
          if e.Some? {
            PollStopsAtFailure(webPort, state, ds, i, browser);
            return e, pages;
          }
        }
      }
      assert ds[..|ds|] == ds;
      PollAllOpened(webPort, state, ds, browser);
      state := ds;
      err := None;
    }

    /** Start: a failed ping is returned before any poll; otherwise the poll loop runs. */
    method Start(ping: Option<Error>, ticks: seq<Tick>) returns (outcome: StartOutcome, pages: seq<string>)
      modifies this
      ensures ping.Some? ==> outcome == Returned(ping) && pages == [] && state == old(state)
      ensures ping.None? ==> var r := PollLoop(webPort, old(state), ticks);
        outcome == r.outcome && pages == r.pages && state == r.state
    {
      if ping.Some? {
        return Returned(ping), [];
      }
      pages := [];
      var i := 0;
      while i < |ticks|
        invariant 0 <= i <= |ticks|
        invariant var r := PollLoop(webPort, old(state), ticks);
          var rest := PollLoop(webPort, state, ticks[i..]);
          r.outcome == rest.outcome && r.pages == pages + rest.pages && r.state == rest.state
      {
        assert ticks[i..][1..] == ticks[i + 1..];
        match ticks[i]
        case Done =>
          return Returned(None), pages;
        case Polled(f, b) =>
          var err, o := Poll(f, b);
          pages := pages + o;
          if err.Some? {
            return Returned(Some(Wrapped("", err.value))), pages;
          }
        i := i + 1;
      }
      outcome := StillPolling;
    }
  }
}

/** The page's interaction log (class `WebsiteAnalytics` of script.js): a
    session id and start time fixed at construction, an append-only
    sequence of event records, and a copy of the whole log kept in the
    browser's key-value storage under one fixed key. */
module Analytics {
  import opened Numbers

  /** The storage key every append overwrites. */
  const AnalyticsKey: string := "websiteAnalytics"

  /** One record in the log. The constructors are the event kinds the
      modelled handlers log (`PageLoad` is the record whose `event` field is
      `page_load`, `CarouselSwipe` the one with `carousel_swipe`, and so on); `Other` stands for the kinds logged by the
      handlers left out of this model (scroll, click, section_view,
      time_update, navigation, video and menu events, ...). */
  datatype Event =
    | PageLoad(timestamp: string, sessionId: string, userAgent: string,
               screenResolution: string, language: string)
    | QuizAnswer(question: int, answer: string, timestamp: string)
    | QuizCompleted(score: int, totalQuestions: int, answers: map<int, string>, timestamp: string)
    | QuizRestarted(timestamp: string)
    | CarouselSlideViewed(slideIndex: int, timestamp: string)
    | CarouselNextClicked(fromSlide: int, toSlide: int, timestamp: string)
    | CarouselPrevClicked(fromSlide: int, toSlide: int, timestamp: string)
    | CarouselIndicatorClicked(fromSlide: int, toSlide: int, timestamp: string)
    | CarouselSwipe(direction: string, distance: int, timestamp: string)
    | LightboxOpened(image: string, title: string, timestamp: string)
    | LightboxNavigation(direction: string, imageIndex: int, timestamp: string)
    | Other(kind: string, fields: map<string, string>, timestamp: string)

  /** A value in the browser's storage: the analytics record this log
      writes, or a value some other writer left there. */
  datatype Stored =
    | AnalyticsRecord(sessionId: string, interactions: seq<Event>)
    | Foreign(text: string)

  /** What the browser reports about itself for the page_load event. */
  datatype Environment = Environment(userAgent: string, screenWidth: nat, screenHeight: nat, language: string)

  /** The value `getAnalytics` returns. */
  datatype Snapshot = Snapshot(sessionId: string, totalInteractions: nat, timeSpent: int, interactions: seq<Event>)

  /** `'session_' + Date.now() + '_' + token`, where the token is the
      random base-36 suffix. */
  function SessionId(nowMs: nat, token: string): (id: string)
    ensures |id| > 9 + |token|
    ensures id[..8] == "session_"
    ensures id[|id| - |token|..] == token && id[|id| - |token| - 1] == '_'
    ensures id[8..|id| - |token| - 1] == NatToDecimal(nowMs)
  {
    var id := "session_" + NatToDecimal(nowMs) + "_" + token;
    assert id[8..|id| - |token| - 1] == NatToDecimal(nowMs);
    id
  }

  /** The session id determines the clock reading it was made from
      and the random token. */
  lemma {:induction false} SessionIdInjective(m: nat, n: nat, s: string, t: string)
    requires SessionId(m, s) == SessionId(n, t)
    ensures m == n && s == t
  {
    var a, b := NatToDecimal(m), NatToDecimal(n);
    var x, y := SessionId(m, s), SessionId(n, t);
    assert a == x[8..8 + |a|] == y[8..8 + |b|] == b;
    DecimalInjective(m, n);
    assert s == x[9 + |a|..] == y[9 + |b|..] == t;
  }

  /** `${screen.width}x${screen.height}` */
  function ScreenResolution(width: nat, height: nat): (r: string)
    ensures var i := |NatToDecimal(width)|;
      0 < i < |r| - 1 && r[i] == 'x' &&
      (forall j :: 0 <= j < |r| && r[j] == 'x' ==> j == i) &&
      IsDecimal(r[..i]) && DecimalValue(r[..i]) == width &&
      IsDecimal(r[i + 1..]) && DecimalValue(r[i + 1..]) == height
  {
    var w, h := NatToDecimal(width), NatToDecimal(height);
    var r := w + "x" + h;
    assert r[..|w|] == w;
    assert r[|w| + 1..] == h;
    DecimalRoundTrip(width);
    DecimalRoundTrip(height);
    r
  }

  // ---------------------------------------------------------------------
  // The log as a value: what `logInteraction` does to it, and what any
  // number of appends do.

  datatype LogState = LogState(sessionId: string, interactions: seq<Event>, store: map<string, Stored>)

  /** The stored copy under the fixed key is exactly this log. */
  predicate Persisted(s: LogState)
  {
    AnalyticsKey in s.store && s.store[AnalyticsKey] == AnalyticsRecord(s.sessionId, s.interactions)
  }

  /** `logInteraction(e)`: push, then overwrite the fixed key with the
      session id and the whole sequence. */
  function Logged(s: LogState, e: Event): (t: LogState)
    ensures t.sessionId == s.sessionId && t.interactions == s.interactions + [e]
    ensures Persisted(t)
  {
    var interactions := s.interactions + [e];
    LogState(s.sessionId, interactions, s.store[AnalyticsKey := AnalyticsRecord(s.sessionId, interactions)])
  }

  /** A run of appends, in order. */
  function LoggedAll(s: LogState, es: seq<Event>): (t: LogState)
    ensures t.sessionId == s.sessionId
    ensures |t.interactions| == |s.interactions| + |es|
    ensures es != [] ==> Persisted(t)
    decreases |es|
  {
    if es == [] then s else LoggedAll(Logged(s, es[0]), es[1..])
  }

  /** Two appends in a row. */
  lemma LoggedTwice(s: LogState, a: Event, b: Event)
    ensures LoggedAll(s, [a, b]) == Logged(Logged(s, a), b)
  {
    assert [a, b][1..] == [b];
    assert [b][1..] == [];
    calc {
      LoggedAll(s, [a, b]);
      LoggedAll(Logged(s, a), [b]);
      LoggedAll(Logged(Logged(s, a), b), []);
    }
  }

  /** Three appends in a row. */
  lemma LoggedThrice(s: LogState, a: Event, b: Event, c: Event)
    ensures LoggedAll(s, [a, b, c]) == Logged(Logged(Logged(s, a), b), c)
  {
    assert [a, b, c][1..] == [b, c];
    LoggedTwice(Logged(s, a), b, c);
  }

  /** One append adds exactly one record, at the end, keeps the session id,
      leaves the stored copy equal to the whole new log, and leaves every
      other storage key alone. */
  lemma LoggedAppendsOne(s: LogState, e: Event)
    ensures var t := Logged(s, e);
      t.sessionId == s.sessionId &&
      |t.interactions| == |s.interactions| + 1 &&
      t.interactions[..|s.interactions|] == s.interactions &&
      t.interactions[|s.interactions|] == e &&
      Persisted(t) &&
      t.store.Keys == s.store.Keys + {AnalyticsKey} &&
      (forall k :: k in s.store && k != AnalyticsKey ==> t.store[k] == s.store[k])
  {
  }

  /** After N appends the log has grown by exactly those N records in
      call order, the session id is unchanged, and the stored copy
      reproduces the whole in-memory sequence (unless nothing was
      appended, when the store is untouched). */
  lemma {:induction false} LoggedAllAppends(s: LogState, es: seq<Event>)
    ensures var t := LoggedAll(s, es);
      t.sessionId == s.sessionId &&
      t.interactions == s.interactions + es &&
      (es == [] ==> t.store == s.store) &&
      (es != [] ==> t.store == s.store[AnalyticsKey := AnalyticsRecord(s.sessionId, s.interactions + es)])
    decreases |es|
  {
    if es != [] {
      var s' := Logged(s, es[0]);
      LoggedAllAppends(s', es[1..]);
      assert s'.interactions + es[1..] == s.interactions + es;
    }
  }

  /** Appends never remove or change an earlier record. */
  lemma LoggedAllKeepsPrefix(s: LogState, es: seq<Event>, i: nat)
    requires i < |s.interactions|
    ensures |LoggedAll(s, es).interactions| == |s.interactions| + |es|
    ensures LoggedAll(s, es).interactions[i] == s.interactions[i]
  {
    LoggedAllAppends(s, es);
  }

  // ---------------------------------------------------------------------
  // The object itself.

  class WebsiteAnalytics {
    const sessionId: string
    const startTime: int
    var interactions: seq<Event>
    var store: map<string, Stored>

    ghost function State(): LogState
      reads this
    {
      LogState(sessionId, interactions, store)
    }

    /** The log starts with this session's page_load record and the
        stored copy always mirrors it. */
    ghost predicate Valid()
      reads this
    {
      |interactions| >= 1 &&
      interactions[0].PageLoad? && interactions[0].sessionId == sessionId &&
      Persisted(State())
    }

    /** `new WebsiteAnalytics()`: make the session id from the clock and a
        random token, record the start time, start an empty log and log
        page_load (`init` / `trackPageLoad`). `initialStore` is what the
        browser's storage held before, for instance a previous session's
        record under the same key. */
    constructor (nowMs: nat, token: string, env: Environment, at: string, initialStore: map<string, Stored>)
      ensures Valid()
      ensures sessionId == SessionId(nowMs, token) && startTime == nowMs
      ensures interactions == [PageLoad(at, sessionId, env.userAgent,
                                        ScreenResolution(env.screenWidth, env.screenHeight), env.language)]
      ensures store == initialStore[AnalyticsKey := AnalyticsRecord(sessionId, interactions)]
    {
      sessionId := SessionId(nowMs, token);
      startTime := nowMs;
      interactions := [];
      store := initialStore;
      new;
      TrackPageLoad(env, at);
    }

    method TrackPageLoad(env: Environment, at: string)
      modifies this
      ensures State() == Logged(old(State()),
        PageLoad(at, sessionId, env.userAgent, ScreenResolution(env.screenWidth, env.screenHeight), env.language))
      ensures old(Valid()) ==> Valid()
    {
      var data := PageLoad(at, sessionId, env.userAgent,
                           ScreenResolution(env.screenWidth, env.screenHeight), env.language);
      LogInteraction(data);
    }

    /** `logInteraction(data)`. */
    method LogInteraction(data: Event)
      modifies this
      ensures State() == Logged(old(State()), data)
      ensures interactions == old(interactions) + [data]
      ensures store == old(store)[AnalyticsKey := AnalyticsRecord(sessionId, interactions)]
      ensures Persisted(State())
      ensures old(Valid()) ==> Valid()
    {
      interactions := interactions + [data];
      store := store[AnalyticsKey := AnalyticsRecord(sessionId, interactions)];
    }

    /** `getAnalytics()` at clock reading `nowMs`: reads the log, changes
        nothing. */
    method GetAnalytics(nowMs: int) returns (snap: Snapshot)
      ensures snap.sessionId == sessionId
      ensures snap.totalInteractions == |snap.interactions|
      ensures snap.interactions == interactions
      ensures -500 <= (nowMs - startTime) - 1000 * snap.timeSpent < 500
    {
      snap := Snapshot(sessionId, |interactions|, RoundedSeconds(nowMs - startTime), interactions);
    }
  }
}

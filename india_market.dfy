/**
  The mock India-markets widget (`IndiaMarketModule`): a ticker strip that
  shows three of five quotes and rotates by one on every render, and the
  session label computed from the minute of the day in India.
 */
module IndiaMarket {

  datatype Ticker = Ticker(symbol: string, price: real, change: real)

  /** The fixed quotes the strip rotates through. */
  const TickerData: seq<Ticker> := [
    Ticker("NIFTY 50", 22542.65, 0.42),
    Ticker("BANK NIFTY", 48420.3, -0.18),
    Ticker("SENSEX", 74210.1, 0.28),
    Ticker("RELIANCE", 2874.9, 0.61),
    Ticker("INFY", 1536.15, -0.34)
  ]

  /** The number of quotes shown at once. */
  const WindowSize := 3

  function Min(a: int, b: int): int { if a <= b then a else b }

  /** `s.slice(start, end)` for non-negative bounds: both are clamped to the length. */
  function Slice<T>(s: seq<T>, start: nat, end: nat): (r: seq<T>)
    ensures |r| == if start <= Min(end, |s|) then Min(end, |s|) - start else 0
    ensures forall j :: 0 <= j < |r| ==> r[j] == s[start + j]
  {
    var e := Min(end, |s|);
    if start <= e then s[start..e] else []
  }

  /**
    The quotes `renderTickers` shows for `index`: the slice starting there,
    topped up from the front of the list when it runs off the end. For any
    list of at least two quotes and an index inside it, that is exactly the
    three positions `index`, `index + 1`, `index + 2` taken circularly.
   */
  function TickerWindow<T>(data: seq<T>, index: nat): (w: seq<T>)
    ensures 2 <= |data| && index < |data| ==>
      |w| == WindowSize && forall j :: 0 <= j < WindowSize ==> w[j] == data[(index + j) % |data|]
  {
    var slice := Slice(data, index, index + WindowSize);
    var w := if |slice| < WindowSize then slice + Slice(data, 0, WindowSize - |slice|) else slice;
    if 2 <= |data| && index < |data| then
      assert forall j :: 0 <= j < WindowSize ==> w[j] == data[(index + j) % |data|] by {
        forall j | 0 <= j < WindowSize ensures w[j] == data[(index + j) % |data|] {
          WrapIndex(index + j, |data|);
        }
      }
      w
    else w
  }

  /** An index that has run at most one length past the end wraps by one length. */
  lemma WrapIndex(x: nat, n: nat)
    requires 0 < n && x < 2 * n
    ensures x % n == if x < n then x else x - n
  {
  }

  /** `tickerIndex = (tickerIndex + 1) % tickerData.length`: the next position, back to 0 after the last. */
  function NextIndex(index: nat, n: nat): (r: nat)
    requires n > 0
    ensures r < n
    ensures index < n ==> r == if index + 1 < n then index + 1 else 0
  {
    assert index < n ==> (index + 1) % n == if index + 1 < n then index + 1 else 0 by {
      if index < n { WrapIndex(index + 1, n); }
    }
    (index + 1) % n
  }

  /** The index after `renders` calls of `renderTickers`, starting from 0. */
  function IndexAfter(renders: nat, n: nat): nat
    requires n > 0
  {
    if renders == 0 then 0 else NextIndex(IndexAfter(renders - 1, n), n)
  }

  /** During the first `n` renders the index counts up from 0. */
  lemma {:induction false} IndexAfterCountsUp(renders: nat, n: nat)
    requires 0 < n && renders < n
    ensures IndexAfter(renders, n) == renders
  {
    if renders > 0 {
      IndexAfterCountsUp(renders - 1, n);
    }
  }

  /** Every `n` renders the strip is back where it was. */
  lemma {:induction false} IndexAfterPeriodic(renders: nat, n: nat)
    requires 0 < n
    ensures IndexAfter(renders + n, n) == IndexAfter(renders, n)
  {
    if renders == 0 {
      IndexAfterCountsUp(n - 1, n);
    } else {
      IndexAfterPeriodic(renders - 1, n);
    }
  }

  /** After `rounds` full turns and `r` more renders the strip starts at quote `r`. */
  lemma {:induction false} IndexAfterRounds(rounds: nat, r: nat, n: nat)
    requires r < n
    ensures IndexAfter(rounds * n + r, n) == r
  {
    if rounds == 0 {
      IndexAfterCountsUp(r, n);
    } else {
      IndexAfterRounds(rounds - 1, r, n);
      assert rounds * n + r == ((rounds - 1) * n + r) + n;
      IndexAfterPeriodic((rounds - 1) * n + r, n);
    }
  }

  /** After `k` renders the strip starts at quote `k mod n`. */
  lemma IndexAfterIsMod(renders: nat, n: nat)
    requires n > 0
    ensures IndexAfter(renders, n) == renders % n
  {
    assert renders == (renders / n) * n + renders % n;
    IndexAfterRounds(renders / n, renders % n, n);
  }

  /**
    The ticker strip. `mounted` says whether the page has the strip's
    element; without it `renderTickers` returns at once.
   */
  class TickerStrip {
    const tickers: seq<Ticker>
    const mounted: bool
    var tickerIndex: nat

    ghost predicate Valid()
      reads this
    {
      tickers == TickerData && tickerIndex < |tickers|
    }

    constructor(mounted: bool)
      ensures Valid() && this.mounted == mounted && tickerIndex == 0
    {
      tickers := TickerData;
      this.mounted := mounted;
      tickerIndex := 0;
    }

    /** `renderTickers`: the quotes shown, then the index advanced by one, circularly. */
    method RenderTickers() returns (shown: seq<Ticker>)
      requires Valid()
      modifies this
      ensures Valid()
      ensures !mounted ==> shown == [] && tickerIndex == old(tickerIndex)
      ensures mounted ==> |shown| == WindowSize
      ensures mounted ==> forall j :: 0 <= j < WindowSize ==> shown[j] == tickers[(old(tickerIndex) + j) % |tickers|]
      ensures mounted ==> tickerIndex == NextIndex(old(tickerIndex), |tickers|)
    {
      if !mounted {
        return [];
      }
      shown := TickerWindow(tickers, tickerIndex);
      tickerIndex := (tickerIndex + 1) % |tickers|;
    }
  }

  /** The three states the session label can show. */
  datatype SessionStatus = CashSessionLive | PreOpen | Closed

  function StatusText(s: SessionStatus): string
  {
    match s
    case CashSessionLive => "Cash session LIVE"
    case PreOpen => "Pre-open"
    case Closed => "Closed"
  }

  /** 9:15 and 15:30 as minutes since midnight. */
  const OpenMinutes := 9 * 60 + 15
  const CloseMinutes := 15 * 60 + 30

  /** `hours * 60 + minutes` of the clock in India. */
  function MinuteOfDay(hours: nat, minutes: nat): nat
  {
    hours * 60 + minutes
  }

  /**
    The status `updateSessionLabel` picks: live inside the inclusive window
    9:15 to 15:30, pre-open before it and closed after it.
   */
  function ClassifySession(minutes: int): (s: SessionStatus)
    ensures s == CashSessionLive <==> OpenMinutes <= minutes <= CloseMinutes
    ensures s == PreOpen <==> minutes < OpenMinutes
    ensures s == Closed <==> CloseMinutes < minutes
  {
    if minutes >= OpenMinutes && minutes <= CloseMinutes then CashSessionLive
    else if minutes < OpenMinutes then PreOpen
    else Closed
  }

  function Rank(s: SessionStatus): nat
  {
    match s
    case PreOpen => 0
    case CashSessionLive => 1
    case Closed => 2
  }

  /** Through the day the status only moves forward: pre-open, then live, then closed. */
  lemma SessionMonotone(m1: int, m2: int)
    requires m1 <= m2
    ensures Rank(ClassifySession(m1)) <= Rank(ClassifySession(m2))
  {
  }

  /** On the clock: live from 9:15 up to and including 15:30. */
  lemma LiveOnTheClock(hours: nat, minutes: nat)
    requires hours < 24 && minutes < 60
    ensures ClassifySession(MinuteOfDay(hours, minutes)) == CashSessionLive
        <==> (hours > 9 || (hours == 9 && minutes >= 15)) && (hours < 15 || (hours == 15 && minutes <= 30))
  {
  }

  /** The text of the status line under the widget. */
  function StatusLine(s: SessionStatus): (line: string)
    ensures s == CashSessionLive ==> line == "NSE cash session active"
    ensures s != CashSessionLive ==> line == "India session: " + StatusText(s)
  {
    if StatusText(s) == "Cash session LIVE" then "NSE cash session active"
    else "India session: " + StatusText(s)
  }
}

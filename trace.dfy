/**
 * The append-only log of what the session manager does to the outside
 * world: action calls, notifications and adapter `disconnect()` calls, and
 * the ordering the connect handler keeps between its margin-account fetch
 * and its trade-history fetch (hooks/useWallet.tsx, lines 109-114).
 */
module Trace {
  import opened Wrappers
  import opened Refresh

  /** Who invoked an action: the k-th run of a connect handler, or one of the two ticks. */
  datatype Origin = ConnectRun(run: nat) | AccountsTimer | HistoryTimer

  /** A `notify({ type, message, description })` call. */
  datatype Notification = Notification(kind: Option<string>, message: string, description: Option<string>)

  datatype Entry =
    | Called(action: Action, origin: Origin)
    | Notified(note: Notification)
    | DisconnectCalled(adapter: nat)

  predicate FromConnect(e: Entry) {
    e.Called? && e.origin.ConnectRun?
  }

  predicate IsHistoryFromConnect(e: Entry) {
    FromConnect(e) && e.action == FetchTradeHistory
  }

  /** The calls a connect run makes before it awaits `fetchMarginAccounts`. */
  function ConnectCalls(k: nat): (r: seq<Entry>)
    ensures |r| == 4 && forall i :: 0 <= i < 4 ==> FromConnect(r[i]) && r[i].origin == ConnectRun(k)
    ensures Called(FetchTradeHistory, ConnectRun(k)) !in r
    ensures r[3] == Called(FetchMarginAccounts, ConnectRun(k))
  {
    [ Called(FetchMangoGroup, ConnectRun(k)),
      Called(FetchWalletBalances, ConnectRun(k)),
      Called(FetchMangoSrmAccounts, ConnectRun(k)),
      Called(FetchMarginAccounts, ConnectRun(k)) ]
  }

  /** The calls of one tick, tagged with the tick that made them. */
  function TickCalls(actions: seq<Action>, origin: Origin): (r: seq<Entry>)
    requires !origin.ConnectRun?
    ensures |r| == |actions|
    ensures forall i :: 0 <= i < |r| ==> r[i] == Called(actions[i], origin) && !FromConnect(r[i])
  {
    if actions == [] then [] else [Called(actions[0], origin)] + TickCalls(actions[1..], origin)
  }

  /** Every trade-history call of a connect run comes after that run's margin-account call. */
  predicate HistoryAfterMargin(log: seq<Entry>) {
    forall j :: 0 <= j < |log| && IsHistoryFromConnect(log[j]) ==>
      Called(FetchMarginAccounts, log[j].origin) in log[..j]
  }

  /** A connect run calls `fetchTradeHistory` at most once. */
  predicate HistoryAtMostOnce(log: seq<Entry>) {
    forall i, j :: 0 <= i < j < |log| && IsHistoryFromConnect(log[i]) ==> log[i] != log[j]
  }

  /** Only the first `runs` connect runs have made calls. */
  predicate RunsBelow(log: seq<Entry>, runs: nat) {
    forall j :: 0 <= j < |log| && FromConnect(log[j]) ==> log[j].origin.run < runs
  }

  /** A run still awaiting its margin accounts has made that call and not yet the history call. */
  predicate AwaitingConsistent(log: seq<Entry>, awaiting: set<nat>, runs: nat) {
    forall k :: k in awaiting ==>
      k < runs &&
      Called(FetchMarginAccounts, ConnectRun(k)) in log &&
      Called(FetchTradeHistory, ConnectRun(k)) !in log
  }

  predicate Ordered(log: seq<Entry>, awaiting: set<nat>, runs: nat) {
    HistoryAfterMargin(log) && HistoryAtMostOnce(log) && RunsBelow(log, runs) &&
    AwaitingConsistent(log, awaiting, runs)
  }

  lemma EmptyOrdered()
    ensures Ordered([], {}, 0)
  {
  }

  /** Entries that no connect run made leave the ordering intact. */
  lemma {:induction false} AppendForeign(log: seq<Entry>, awaiting: set<nat>, runs: nat, extra: seq<Entry>)
    requires Ordered(log, awaiting, runs)
    requires forall i :: 0 <= i < |extra| ==> !FromConnect(extra[i])
    ensures Ordered(log + extra, awaiting, runs)
  {
    var l := log + extra;
    forall j | 0 <= j < |l| && IsHistoryFromConnect(l[j])
      ensures Called(FetchMarginAccounts, l[j].origin) in l[..j]
    {
      assert j < |log| && l[j] == log[j];
      assert l[..j] == log[..j];
    }
    forall k | k in awaiting
      ensures Called(FetchTradeHistory, ConnectRun(k)) !in extra
    {
      assert FromConnect(Called(FetchTradeHistory, ConnectRun(k)));
    }
  }

  /** A new connect run: its notification, its four calls, and it starts awaiting its margin accounts. */
  lemma {:induction false} AppendConnectRun(log: seq<Entry>, awaiting: set<nat>, runs: nat, note: Notification)
    requires Ordered(log, awaiting, runs)
    ensures Ordered(log + [Notified(note)] + ConnectCalls(runs), awaiting + {runs}, runs + 1)
  {
    var extra := [Notified(note)] + ConnectCalls(runs);
    var l := log + extra;
    assert l == log + [Notified(note)] + ConnectCalls(runs);
    forall i | 0 <= i < |extra| ensures !IsHistoryFromConnect(extra[i]) && (FromConnect(extra[i]) ==> extra[i].origin.run == runs)
    {
      if i > 0 { assert extra[i] == ConnectCalls(runs)[i - 1]; }
    }
    forall j | |log| <= j < |l| ensures !IsHistoryFromConnect(l[j])
    {
      assert l[j] == extra[j - |log|];
    }
    forall j | 0 <= j < |l| && IsHistoryFromConnect(l[j])
      ensures Called(FetchMarginAccounts, l[j].origin) in l[..j]
    {
      assert l[..j] == log[..j];
    }
    forall j | 0 <= j < |l| && FromConnect(l[j]) ensures l[j].origin.run < runs + 1
    {
      if j >= |log| { assert l[j] == extra[j - |log|]; }
    }
    assert l[|l| - 1] == Called(FetchMarginAccounts, ConnectRun(runs));
    forall k | k in awaiting + {runs}
      ensures Called(FetchTradeHistory, ConnectRun(k)) !in l
    {
      var e := Called(FetchTradeHistory, ConnectRun(k));
      assert IsHistoryFromConnect(e);
      forall j | 0 <= j < |log| ensures log[j] != Called(FetchTradeHistory, ConnectRun(runs))
      {
        if FromConnect(log[j]) { assert log[j].origin.run < runs; }
      }
    }
  }

  /** The margin-account fetch of run k completes: run k now calls `fetchTradeHistory`, exactly once. */
  lemma {:induction false} CompleteRun(log: seq<Entry>, awaiting: set<nat>, runs: nat, k: nat)
    requires Ordered(log, awaiting, runs)
    requires k in awaiting
    ensures Ordered(log + [Called(FetchTradeHistory, ConnectRun(k))], awaiting - {k}, runs)
  {
    var e := Called(FetchTradeHistory, ConnectRun(k));
    var l := log + [e];
    forall j | 0 <= j < |l| && IsHistoryFromConnect(l[j])
      ensures Called(FetchMarginAccounts, l[j].origin) in l[..j]
    {
      assert l[..j] == if j < |log| then log[..j] else log;
    }
    forall i, j | 0 <= i < j < |l| && IsHistoryFromConnect(l[i]) ensures l[i] != l[j]
    {
      if j == |log| { assert l[i] == log[i]; }
    }
  }
}

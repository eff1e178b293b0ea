/**
 * The store actions the session manager invokes and the two periodic
 * refresh tasks (hooks/useWallet.tsx, lines 13 and 142-153).
 */
module Refresh {
  import opened Wrappers

  const SECONDS: nat := 1000

  /** The store actions the manager calls; what they do is outside this model. */
  datatype Action =
    | FetchMangoGroup
    | FetchWalletBalances
    | FetchMangoSrmAccounts
    | FetchMarginAccounts
    | FetchTradeHistory

  /** The two `useInterval` tasks. */
  datatype Task = AccountsRefresh | HistoryRefresh

  /** Period of a task, in milliseconds. */
  function IntervalMs(t: Task): nat {
    match t
    case AccountsRefresh => 20 * SECONDS
    case HistoryRefresh => 180 * SECONDS
  }

  /** What a task refreshes when its guard holds. */
  function TaskActions(t: Task): seq<Action> {
    match t
    case AccountsRefresh => [FetchMarginAccounts, FetchWalletBalances]
    case HistoryRefresh => [FetchTradeHistory]
  }

  /** The guard both ticks read at the moment they fire: connected and a margin account selected. */
  predicate ShouldRefresh(connected: bool, selectedMarginAccount: Option<nat>) {
    connected && selectedMarginAccount.Some?
  }

  /** The actions one tick invokes: the task's actions when the guard holds, none otherwise. */
  function TickActions(t: Task, connected: bool, selectedMarginAccount: Option<nat>): (r: seq<Action>)
    ensures r != [] <==> connected && selectedMarginAccount.Some?
    ensures r != [] ==> r == TaskActions(t)
    ensures t == HistoryRefresh ==> forall i :: 0 <= i < |r| ==> r[i] == FetchTradeHistory
    ensures t == AccountsRefresh ==> FetchTradeHistory !in r
  {
    if ShouldRefresh(connected, selectedMarginAccount) then TaskActions(t) else []
  }
}

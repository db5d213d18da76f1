/**
 * `GET /sending-accounts/{id}/warmup/stats`: totals over the latest 30 log
 * rows and the latest 14 rows oldest-first for the chart. The rates derived
 * from the totals are floats and are left to the caller.
 */
module WarmupStats {
  import opened Basics
  import opened SendingAccounts

  const StatsWindow: nat := 30
  const ChartWindow: nat := 14

  datatype Stats = Stats(
    totalSent: int,
    totalDelivered: nat,
    totalReplies: nat,
    totalOpens: nat,
    totalBounces: nat,
    totalSpamFlags: nat,
    currentDay: nat,
    status: WarmupStatus,
    dailyLogs: seq<AccountWarmupLog>)

  /** Reference definition of a column total, summed from the front. */
  function SumSent(logs: seq<AccountWarmupLog>): int {
    if |logs| == 0 then 0 else SumSent(logs[..|logs| - 1]) + logs[|logs| - 1].emailsSent
  }

  function SumOf(logs: seq<AccountWarmupLog>, column: AccountWarmupLog -> nat): nat {
    if |logs| == 0 then 0 else SumOf(logs[..|logs| - 1], column) + column(logs[|logs| - 1])
  }

  function Delivered(l: AccountWarmupLog): nat { l.emailsDelivered }
  function Replies(l: AccountWarmupLog): nat { l.repliesReceived }
  function Opens(l: AccountWarmupLog): nat { l.openCount }
  function Bounces(l: AccountWarmupLog): nat { l.bounceCount }
  function SpamFlags(l: AccountWarmupLog): nat { l.spamFlags }

  /** A natural column's total over a prefix never exceeds its total over the whole. */
  lemma {:induction false} SumOfPrefix(logs: seq<AccountWarmupLog>, n: nat, column: AccountWarmupLog -> nat)
    requires n <= |logs|
    ensures SumOf(logs[..n], column) <= SumOf(logs, column)
    decreases |logs|
  {
    if n < |logs| {
      var init := logs[..|logs| - 1];
      assert init[..n] == logs[..n];
      SumOfPrefix(init, n, column);
    } else {
      assert logs[..n] == logs;
    }
  }

  /** Row `i` of the chart is row `n - 1 - i` of the newest-first list. */
  function Reverse(s: seq<AccountWarmupLog>): (r: seq<AccountWarmupLog>)
    ensures |r| == |s|
    ensures forall i :: 0 <= i < |s| ==> r[i] == s[|s| - 1 - i]
  {
    if |s| == 0 then [] else Reverse(s[1..]) + [s[0]]
  }

  /**
   * The statistics of an account whose logs, newest first as the store sorts
   * them by date, are `logs`.
   */
  method GetWarmupStats(a: Account, logs: seq<AccountWarmupLog>) returns (st: Stats)
    ensures var window := logs[..Min(StatsWindow, |logs|)];
      && st.totalSent == SumSent(window)
      && st.totalDelivered == SumOf(window, Delivered)
      && st.totalReplies == SumOf(window, Replies)
      && st.totalOpens == SumOf(window, Opens)
      && st.totalBounces == SumOf(window, Bounces)
      && st.totalSpamFlags == SumOf(window, SpamFlags)
    ensures st.totalBounces <= SumOf(logs, Bounces)
    ensures st.currentDay == a.warmupDay && st.status == a.warmupStatus
    ensures |st.dailyLogs| == Min(ChartWindow, |logs|)
    ensures forall i :: 0 <= i < |st.dailyLogs| ==> st.dailyLogs[i] == logs[|st.dailyLogs| - 1 - i]
  {
    var n := Min(StatsWindow, |logs|);
    var window := logs[..n];
    var sent, delivered, replies, opens, bounces, spam := 0, 0, 0, 0, 0, 0;
    var i := 0;
    while i < n
      invariant 0 <= i <= n
      invariant sent == SumSent(window[..i])
      invariant delivered == SumOf(window[..i], Delivered)
      invariant replies == SumOf(window[..i], Replies)
      invariant opens == SumOf(window[..i], Opens)
      invariant bounces == SumOf(window[..i], Bounces)
      invariant spam == SumOf(window[..i], SpamFlags)
    {
      assert window[..i + 1][..i] == window[..i];
      var row := window[i];
      sent := sent + row.emailsSent;
      delivered := delivered + row.emailsDelivered;
      replies := replies + row.repliesReceived;
      opens := opens + row.openCount;
      bounces := bounces + row.bounceCount;
      spam := spam + row.spamFlags;
      i := i + 1;
    }
    assert window[..n] == window;
    SumOfPrefix(logs, n, Bounces);
    var chart := Reverse(logs[..Min(ChartWindow, |logs|)]);
    st := Stats(sent, delivered, replies, opens, bounces, spam, a.warmupDay, a.warmupStatus, chart);
  }
}

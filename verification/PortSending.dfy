/** When a MASTER sends: Syncs and Announces, over any rounds in which it hears nothing. */
module PortSending {
  import opened Octets
  import opened Timers
  import opened PortTypes
  import opened DataSets
  import opened PortModel
  import opened PortTimers
  import Products

  /** Flagged before, or as many ticks have come in as the timer had left. */
  predicate Due(t: IntervalTimer, ticks: nat) {
    t.expire || (t.interval > 0 && ticks >= t.left)
  }

  /** Has no decision to make, and runs the timers of a MASTER, as in every reachable state. */
  predicate Sending(cfg: Config, p: Port) {
    p.state == Master && !p.recordUpdate && MasterTimers(cfg, p.timers, p.syncInterval)
  }

  predicate SyncDueIn(p: Port, env: Inputs) {
    Due(p.timers[SYNC_INTERVAL], env.syncTicks)
  }

  /** The Announce timer stops with the failure of a Sync, before the ticks that follow. */
  predicate AnnounceDueIn(cfg: Config, p: Port, env: Inputs) {
    var lost := SyncDueIn(p, env) && !env.syncSent;
    cfg.ptpv2 && Due(p.timers[ANNOUNCE_INTERVAL], if lost then env.syncTicks else env.syncTicks + env.announceTicks)
  }

  // ----- one round -----

  /** What has become of a MASTER when its Sync timer has been looked at. */
  lemma SyncLook(cfg: Config, p: Port, env: Inputs)
    requires Sending(cfg, p)
    ensures var q, due, ts := CheckSync(cfg, p, env), SyncDueIn(p, env), Updated(p.timers, env.syncTicks);
            && q.sent == (if due then p.sent.(sync := Next16(p.sent.sync), syncPending := env.syncSent) else p.sent)
            && q.gm == (if due then p.gm.(sequenceId := Next16(p.sent.sync)) else p.gm)
            && q.outbox == p.outbox + (if due && env.syncSent then [SyncOut(Next16(p.sent.sync))] else [])
            && q.state == (if due && !env.syncSent then Faulty else Master)
            && q.recordUpdate == p.recordUpdate && q.syncInterval == p.syncInterval
            && q.timers[ANNOUNCE_INTERVAL] ==
               (if q.state == Faulty then ts[ANNOUNCE_INTERVAL].(interval := 0) else ts[ANNOUNCE_INTERVAL])
            && (q.state == Master ==> q.timers == Cleared(ts, SYNC_INTERVAL))
  {
    hide SyncTimeout, ReceiptTimeout;
  }

  lemma AnnounceLook(cfg: Config, p: Port, env: Inputs)
    requires p.state == Master || p.state == Faulty
    ensures var q, ts := CheckAnnounce(cfg, p, env), Updated(p.timers, env.announceTicks);
            var due := cfg.ptpv2 && Flagged(ts, ANNOUNCE_INTERVAL);
            && q.sent == (if due then p.sent.(announce := Next16(p.sent.announce)) else p.sent)
            && q.gm == (if due then p.gm.(sequenceId := Next16(p.sent.announce)) else p.gm)
            && q.outbox == p.outbox + (if due && env.announceSent then [AnnounceOut(Next16(p.sent.announce))] else [])
            && q.state == (if due && !env.announceSent then Faulty else p.state)
            && q.recordUpdate == p.recordUpdate && q.syncInterval == p.syncInterval
            && (q.state == Master ==> q.timers == Cleared(ts, ANNOUNCE_INTERVAL))
  {
    hide ReceiptTimeout;
  }

  /** A MASTER that hears nothing only looks at its timers. */
  lemma OnlyLooks(cfg: Config, p: Port, env: Inputs)
    requires p.state == Master && !p.recordUpdate && Silent(env)
    ensures Step(cfg, p, env) == CheckAnnounce(cfg, CheckSync(cfg, p, env), env)
  {
    hide CheckAnnounce, CheckSync;
  }

  /** One round of a MASTER that hears nothing. It sends a Sync, with the next number, exactly if the Sync
      timer has run out when it is looked at, and waits for its time stamp if that went well; an Announce
      exactly under version 2 if that timer has run out. Whatever cannot be sent leaves it FAULTY. */
  lemma SilentMaster(cfg: Config, p: Port, env: Inputs)
    requires Sending(cfg, p) && Silent(env)
    ensures var q, sync, announce := Step(cfg, p, env), SyncDueIn(p, env), AnnounceDueIn(cfg, p, env);
            && q.sent.sync == (if sync then Next16(p.sent.sync) else p.sent.sync)
            && q.sent.syncPending == (if sync then env.syncSent else p.sent.syncPending)
            && q.sent.announce == (if announce then Next16(p.sent.announce) else p.sent.announce)
            && q.outbox == p.outbox + (if sync && env.syncSent then [SyncOut(q.sent.sync)] else [])
                           + (if announce && env.announceSent then [AnnounceOut(q.sent.announce)] else [])
            && q.sent.delayReq == p.sent.delayReq
            && q.state == (if (sync && !env.syncSent) || (announce && !env.announceSent) then Faulty else Master)
            && q.gm == p.gm.(sequenceId := if announce then q.sent.announce else if sync then q.sent.sync
                                           else p.gm.sequenceId)
  {
    hide CheckSync, CheckAnnounce, Step, SyncTimeout;
    OnlyLooks(cfg, p, env);
    SyncLook(cfg, p, env);
    AnnounceLook(cfg, CheckSync(cfg, p, env), env);
  }

  // ----- any number of rounds -----

  /** Every message there is to send can be sent. */
  predicate Sends(env: Inputs) {
    Silent(env) && env.syncSent && env.announceSent
  }

  /** The timers of a MASTER after a round in which it sends whatever is due. */
  function AfterLooks(ts: TimerArray, env: Inputs): TimerArray {
    Cleared(Updated(Cleared(Updated(ts, env.syncTicks), SYNC_INTERVAL), env.announceTicks), ANNOUNCE_INTERVAL)
  }

  lemma KeepsSending(cfg: Config, p: Port, env: Inputs)
    requires Sending(cfg, p) && Sends(env)
    ensures var q := Step(cfg, p, env); Sending(cfg, q) && q.timers == AfterLooks(p.timers, env)
  {
    hide CheckSync, CheckAnnounce, Step, SyncTimeout, Cleared;
    OnlyLooks(cfg, p, env);
    SyncLook(cfg, p, env);
    var s := CheckSync(cfg, p, env);
    AnnounceLook(cfg, s, env);
    LookKeeps(cfg, p.timers, p.syncInterval, env.syncTicks, SYNC_INTERVAL);
    LookKeeps(cfg, s.timers, p.syncInterval, env.announceTicks, ANNOUNCE_INTERVAL);
  }

  lemma LookKeeps(cfg: Config, ts: TimerArray, syncInterval: int, ticks: nat, index: nat)
    requires MasterTimers(cfg, ts, syncInterval)
    ensures MasterTimers(cfg, Cleared(Updated(ts, ticks), index), syncInterval)
  {
    hide SyncTimeout;
  }

  function Elapsed(envs: seq<Inputs>): nat {
    if envs == [] then 0 else envs[0].syncTicks + envs[0].announceTicks + Elapsed(envs[1..])
  }

  ghost predicate AllSend(envs: seq<Inputs>) {
    forall i :: 0 <= i < |envs| ==> Sends(envs[i])
  }

  /** A timer that runs, has not run out, and has left ticks to go. */
  predicate Running(t: IntervalTimer, left: int) {
    t.interval > 0 && !t.expire && t.left == left > 0
  }

  lemma RunsOn(cfg: Config, p: Port, env: Inputs, index: nat, left: int)
    requires index == SYNC_INTERVAL || index == ANNOUNCE_INTERVAL
    requires Running(p.timers[index], left) && env.syncTicks + env.announceTicks < left
    ensures Running(AfterLooks(p.timers, env)[index], left - env.syncTicks - env.announceTicks)
  {
  }

  lemma ShiftRun(cfg: Config, p: Port, envs: seq<Inputs>, last: Inputs)
    requires envs != [] && p.state != Initializing
    ensures Run(cfg, p, envs) == Run(cfg, Step(cfg, p, envs[0]), envs[1..])
    ensures Run(cfg, p, envs + [last]) == Run(cfg, Step(cfg, p, envs[0]), envs[1..] + [last])
  {
    hide Step;
    assert (envs + [last])[1..] == envs[1..] + [last];
  }

  lemma OneRound(cfg: Config, p: Port, last: Inputs)
    requires p.state != Initializing
    ensures Run(cfg, p, [] + [last]) == Step(cfg, p, last)
  {
    hide Step;
    assert [] + [last] == [last] && [last][1..] == [];
  }

  lemma NoneDue(cfg: Config, p: Port, env: Inputs, left: int, announce: bool)
    requires Sending(cfg, p) && Sends(env)
    requires Running(p.timers[if announce then ANNOUNCE_INTERVAL else SYNC_INTERVAL], left)
    requires env.syncTicks + env.announceTicks < left
    ensures var q := Step(cfg, p, env); if announce then q.sent.announce == p.sent.announce else q.sent.sync == p.sent.sync
  {
    hide Step, MasterTimers;
    SilentMaster(cfg, p, env);
  }

  /** The next Sync of a MASTER that hears nothing goes out in the round in which the ticks left have gone
      by when it looks, and none before, however the ticks fall. */
  lemma {:induction false} SyncsOnTime(cfg: Config, p: Port, envs: seq<Inputs>, last: Inputs, left: int)
    requires Sending(cfg, p) && Running(p.timers[SYNC_INTERVAL], left) && AllSend(envs) && Silent(last)
    requires Elapsed(envs) < left
    ensures var q, r := Run(cfg, p, envs), Run(cfg, p, envs + [last]);
            && q.sent.sync == p.sent.sync && Sending(cfg, q)
            && r.sent.sync == (if Elapsed(envs) + last.syncTicks >= left then Next16(p.sent.sync) else p.sent.sync)
    decreases |envs|
  {
    hide Step, MasterTimers, AfterLooks;
    if envs == [] {
      OneRound(cfg, p, last);
      SilentMaster(cfg, p, last);
    } else {
      NoneDue(cfg, p, envs[0], left, false);
      KeepsSending(cfg, p, envs[0]);
      RunsOn(cfg, p, envs[0], SYNC_INTERVAL, left);
      ShiftRun(cfg, p, envs, last);
      SyncsOnTime(cfg, Step(cfg, p, envs[0]), envs[1..], last, left - envs[0].syncTicks - envs[0].announceTicks);
    }
  }

  /** Likewise the next Announce, under version 2; it is looked for after the Sync, ticks later. */
  lemma {:induction false} AnnouncesOnTime(cfg: Config, p: Port, envs: seq<Inputs>, last: Inputs, left: int)
    requires Sending(cfg, p) && cfg.ptpv2 && Running(p.timers[ANNOUNCE_INTERVAL], left) && AllSend(envs) && Sends(last)
    requires Elapsed(envs) < left
    ensures var q, r := Run(cfg, p, envs), Run(cfg, p, envs + [last]);
            && q.sent.announce == p.sent.announce && Sending(cfg, q)
            && r.sent.announce == (if Elapsed(envs + [last]) >= left then Next16(p.sent.announce) else p.sent.announce)
    decreases |envs|
  {
    hide Step, MasterTimers, AfterLooks;
    if envs == [] {
      OneRound(cfg, p, last);
      SilentMaster(cfg, p, last);
      assert Elapsed([] + [last]) == last.syncTicks + last.announceTicks by { assert [] + [last] == [last] && [last][1..] == []; }
    } else {
      NoneDue(cfg, p, envs[0], left, true);
      KeepsSending(cfg, p, envs[0]);
      RunsOn(cfg, p, envs[0], ANNOUNCE_INTERVAL, left);
      ShiftRun(cfg, p, envs, last);
      assert (envs + [last])[1..] == envs[1..] + [last];
      AnnouncesOnTime(cfg, Step(cfg, p, envs[0]), envs[1..], last, left - envs[0].syncTicks - envs[0].announceTicks);
    }
  }

  /** Version 1 never announces. */
  lemma {:induction false} Version1IsSilent(cfg: Config, p: Port, envs: seq<Inputs>)
    requires Sending(cfg, p) && !cfg.ptpv2 && AllSend(envs)
    ensures Run(cfg, p, envs).sent.announce == p.sent.announce
    decreases |envs|
  {
    hide Step, MasterTimers, AfterLooks;
    if envs != [] {
      SilentMaster(cfg, p, envs[0]);
      KeepsSending(cfg, p, envs[0]);
      Version1IsSilent(cfg, Step(cfg, p, envs[0]), envs[1..]);
    }
  }

  // ----- how many -----

  /** Between two looks at either timer at most one tick comes in; before of them since the last look for a
      Sync. */
  predicate OneAtATime(envs: seq<Inputs>, before: nat)
    decreases |envs|
  {
    envs != [] ==>
      && before + envs[0].syncTicks <= 1 && envs[0].syncTicks + envs[0].announceTicks <= 1
      && OneAtATime(envs[1..], envs[0].announceTicks)
  }

  /** Ticks since the last look for a Sync. */
  function Unseen(envs: seq<Inputs>, before: nat): nat {
    if envs == [] then before else envs[|envs| - 1].announceTicks
  }

  /** A timer that was full n ticks ago, the last pending of them not yet looked at. */
  predicate Phase(t: IntervalTimer, n: nat, pending: nat) {
    && pending <= n && t.interval > 0 && t.left == t.interval - n % t.interval
    && (t.expire <==> pending == 1 && n % t.interval == 0)
  }

  /** How many intervals the ticks make up. */
  function Intervals(ticks: int, d: int): int
    requires d > 0
  {
    ticks / d
  }

  /** A number that has gone on by k, within 16 bits. */
  function Advanced(s: UInteger16, k: int): UInteger16 {
    (s + k) % 0x1_0000
  }

  lemma OneMoreTick(n: nat, d: nat)
    requires d >= 1
    ensures if n % d == d - 1 then (n + 1) / d == n / d + 1 && (n + 1) % d == 0
            else (n + 1) / d == n / d && (n + 1) % d == n % d + 1
  {
    var q, r := n / d, n % d;
    assert n == q * d + r;
    if r == d - 1 {
      assert n + 1 == (q + 1) * d;
      QuotientIs(n + 1, d, q + 1, 0);
    } else {
      QuotientIs(n + 1, d, q, r + 1);
    }
  }

  lemma QuotientIs(n: nat, d: nat, q: nat, r: nat)
    requires d >= 1 && r < d && n == q * d + r
    ensures n / d == q && n % d == r
  {
    var e := n / d - q;
    assert n == d * (n / d) + n % d;
    Products.Distributes(d, n / d, q);
    Products.Cancels(d, e, 1);
    Products.Cancels(d, -1, e);
  }

  lemma Ticked(t: IntervalTimer, n: nat, pending: nat, ticks: nat)
    requires Phase(t, n, pending) && pending + ticks <= 1
    ensures Phase(Counted(t, ticks), n + ticks, pending + ticks) && Counted(t, ticks).interval == t.interval
    ensures Intervals(n + ticks, t.interval) == Intervals(n - pending, t.interval) + if Due(t, ticks) then 1 else 0
  {
    OneMoreTick(n, t.interval);
    if pending == 1 { OneMoreTick(n - 1, t.interval); }
  }

  lemma Looked(t: IntervalTimer, n: nat, pending: nat)
    requires Phase(t, n, pending)
    ensures Phase(t.(expire := false), n, 0)
  {
  }

  lemma TimersAfterLooks(ts: TimerArray, env: Inputs)
    ensures var q := AfterLooks(ts, env);
            && q[SYNC_INTERVAL] == Counted(Counted(ts[SYNC_INTERVAL], env.syncTicks).(expire := false), env.announceTicks)
            && q[ANNOUNCE_INTERVAL] ==
               Counted(Counted(ts[ANNOUNCE_INTERVAL], env.syncTicks), env.announceTicks).(expire := false)
  {
    hide Counted;
  }

  /** The Sync timer over one round. */
  lemma SyncPhase(cfg: Config, p: Port, env: Inputs, n: nat, before: nat)
    requires Sending(cfg, p) && Sends(env) && Phase(p.timers[SYNC_INTERVAL], n, before)
    requires before + env.syncTicks <= 1 && env.announceTicks <= 1
    ensures var q, t, k := Step(cfg, p, env), p.timers[SYNC_INTERVAL], n + env.syncTicks;
            && Sending(cfg, q) && q.timers[SYNC_INTERVAL].interval == t.interval
            && Phase(q.timers[SYNC_INTERVAL], k + env.announceTicks, env.announceTicks)
            && q.sent.sync == Advanced(p.sent.sync, Intervals(k, t.interval) - Intervals(n - before, t.interval))
  {
    hide Step, MasterTimers, Phase, Counted, Intervals, AfterLooks, Due;
    TimersAfterLooks(p.timers, env);
    var t := p.timers[SYNC_INTERVAL];
    KeepsSending(cfg, p, env);
    SilentMaster(cfg, p, env);
    Ticked(t, n, before, env.syncTicks);
    Looked(Counted(t, env.syncTicks), n + env.syncTicks, before + env.syncTicks);
    Ticked(Counted(t, env.syncTicks).(expire := false), n + env.syncTicks, 0, env.announceTicks);
  }

  lemma AnnounceTimerPhase(t: IntervalTimer, n: nat, s: nat, a: nat)
    requires Phase(t, n, 0) && s + a <= 1
    ensures var w := Counted(Counted(t, s), a).(expire := false);
            && Phase(w, n + s + a, 0) && w.interval == t.interval
            && Intervals(n + (s + a), t.interval) == Intervals(n, t.interval) + if Due(t, s + a) then 1 else 0
  {
    hide Phase, Counted, Intervals, Due;
    IsRunning(t, n, 0);
    Ticked(t, n, 0, s + a);
    Ticked(t, n, 0, s);
    Ticked(Counted(t, s), n + s, s, a);
    Looked(Counted(Counted(t, s), a), n + s + a, s + a);
  }

  lemma AnnounceDueSends(cfg: Config, p: Port, env: Inputs)
    requires Sends(env)
    ensures AnnounceDueIn(cfg, p, env) <==>
            cfg.ptpv2 && Due(p.timers[ANNOUNCE_INTERVAL], env.syncTicks + env.announceTicks)
  {
    hide Due;
  }

  lemma ByOneOrNone(s: UInteger16, x: int, y: int, one: bool)
    requires x == y + if one then 1 else 0
    ensures Advanced(s, x - y) == if one then Next16(s) else s
  {
  }

  lemma AnnouncePhase(cfg: Config, p: Port, env: Inputs, n: nat)
    requires Sending(cfg, p) && Sends(env) && cfg.ptpv2 && Phase(p.timers[ANNOUNCE_INTERVAL], n, 0)
    requires env.syncTicks + env.announceTicks <= 1
    ensures var q, t, k := Step(cfg, p, env), p.timers[ANNOUNCE_INTERVAL], n + env.syncTicks + env.announceTicks;
            && Sending(cfg, q) && q.timers[ANNOUNCE_INTERVAL].interval == t.interval
            && Phase(q.timers[ANNOUNCE_INTERVAL], k, 0)
            && q.sent.announce == Advanced(p.sent.announce, Intervals(k, t.interval) - Intervals(n, t.interval))
  {
    hide Step, MasterTimers, Phase, Counted, Intervals, AfterLooks, Due, Advanced, Next16, SyncDueIn, AnnounceDueIn;
    var t, ticks := p.timers[ANNOUNCE_INTERVAL], env.syncTicks + env.announceTicks;
    TimersAfterLooks(p.timers, env);
    KeepsSending(cfg, p, env);
    SilentMaster(cfg, p, env);
    IsRunning(t, n, 0);
    AnnounceDueSends(cfg, p, env);
    AnnounceTimerPhase(t, n, env.syncTicks, env.announceTicks);
    ByOneOrNone(p.sent.announce, Intervals(n + ticks, t.interval), Intervals(n, t.interval), Due(t, ticks));
  }

  lemma IsMaster(cfg: Config, p: Port)
    requires Sending(cfg, p)
    ensures p.state == Master
  {
  }

  lemma IsRunning(t: IntervalTimer, n: nat, pending: nat)
    requires Phase(t, n, pending)
    ensures t.interval > 0
  {
  }

  lemma Telescopes(s: UInteger16, x: int, y: int, z: int)
    ensures Advanced(s, 0) == s && Advanced(Advanced(s, x - y), z - x) == Advanced(s, z - y)
  {
  }

  lemma NothingElapsed(before: nat)
    ensures Elapsed([]) == 0 && Unseen([], before) == before
  {
  }

  lemma SeenInRounds(envs: seq<Inputs>, n: nat, before: nat)
    requires envs != []
    ensures var env, rest := envs[0], envs[1..];
            && Unseen(envs, before) == Unseen(rest, env.announceTicks)
            && n + Elapsed(envs) - Unseen(envs, before) ==
               (n + env.syncTicks + env.announceTicks) + Elapsed(rest) - Unseen(rest, env.announceTicks)
  {
  }

  /** If the ticks come in one at a time, then after any number of rounds in which it hears nothing a MASTER
      has sent one Sync for every interval that the ticks looked at make up: the numbers have gone on by
      the multiples of the interval among those ticks, n - before of which had been counted. */
  lemma {:induction false} SyncsInAll(cfg: Config, p: Port, envs: seq<Inputs>, n: nat, before: nat)
    requires Sending(cfg, p) && AllSend(envs) && OneAtATime(envs, before)
    requires before <= 1 && Phase(p.timers[SYNC_INTERVAL], n, before)
    requires Unseen(envs, before) <= n + Elapsed(envs)
    ensures var d, seen := p.timers[SYNC_INTERVAL].interval, n + Elapsed(envs) - Unseen(envs, before);
            Run(cfg, p, envs).sent.sync == Advanced(p.sent.sync, Intervals(seen, d) - Intervals(n - before, d))
    decreases |envs|
  {
    hide Step, Sending, Phase, Sends, Unseen, Elapsed, Intervals, Advanced;
    if envs == [] {
      NothingElapsed(before);
      Telescopes(p.sent.sync, 0, 0, 0);
    } else {
      var env, rest, q := envs[0], envs[1..], Step(cfg, p, envs[0]);
      IsMaster(cfg, p);
      var d, k := p.timers[SYNC_INTERVAL].interval, n + env.syncTicks;
      IsRunning(p.timers[SYNC_INTERVAL], n, before);
      SyncPhase(cfg, p, env, n, before);
      SeenInRounds(envs, n, before);
      SyncsInAll(cfg, q, rest, k + env.announceTicks, env.announceTicks);
      Telescopes(p.sent.sync, Intervals(k, d), Intervals(n - before, d),
                 Intervals(n + Elapsed(envs) - Unseen(envs, before), d));
    }
  }

  lemma {:induction false} AnnouncesInAll(cfg: Config, p: Port, envs: seq<Inputs>, n: nat, before: nat)
    requires Sending(cfg, p) && AllSend(envs) && cfg.ptpv2 && OneAtATime(envs, before)
    requires Phase(p.timers[ANNOUNCE_INTERVAL], n, 0)
    ensures var d := p.timers[ANNOUNCE_INTERVAL].interval;
            Run(cfg, p, envs).sent.announce == Advanced(p.sent.announce, Intervals(n + Elapsed(envs), d) - Intervals(n, d))
    decreases |envs|
  {
    hide Step, Sending, Phase, Sends, Intervals, Advanced;
    if envs == [] {
      Telescopes(p.sent.announce, 0, 0, 0);
    } else {
      var env, rest, q := envs[0], envs[1..], Step(cfg, p, envs[0]);
      IsMaster(cfg, p);
      var d, k := p.timers[ANNOUNCE_INTERVAL].interval, n + env.syncTicks + env.announceTicks;
      IsRunning(p.timers[ANNOUNCE_INTERVAL], n, 0);
      AnnouncePhase(cfg, p, env, n);
      AnnouncesInAll(cfg, q, rest, k, env.announceTicks);
      assert k + Elapsed(rest) == n + Elapsed(envs);
      Telescopes(p.sent.announce, Intervals(k, d), Intervals(n, d), Intervals(n + Elapsed(envs), d));
    }
  }

  /** A timer just started. */
  predicate Full(t: IntervalTimer, n: nat) {
    t == IntervalTimer(n, n, false)
  }

  /** A port whose receipt timeout passes in silence and that may be MASTER starts to send. */
  lemma BecomesSender(cfg: Config, p: Port)
    requires Stands(p.timers[SYNC_INTERVAL]) && Stands(p.timers[ANNOUNCE_INTERVAL]) && !p.recordUpdate
    requires p.state == Listening || p.state == Passive || p.state == Slave
    ensures var q := ToState(cfg, p, Master, 0);
            && q.state == Master && !q.recordUpdate && q.sent == p.sent && q.syncInterval == p.syncInterval
            && Full(q.timers[SYNC_INTERVAL], SyncTimeout(p.syncInterval)) && Stands(q.timers[SYNC_RECEIPT])
            && (if cfg.ptpv2 then Full(q.timers[ANNOUNCE_INTERVAL], SyncTimeout(cfg.announceInterval))
                else Stands(q.timers[ANNOUNCE_INTERVAL]))
  {
    hide ServoInit, SyncTimeout, ReceiptTimeout;
  }

  lemma TimeoutStartsSending(cfg: Config, p: Port, env: Inputs, left: int)
    requires TimersOk(cfg, p) && Waits(p, left) && Silent(env) && env.receiptTicks >= left
    requires !cfg.slaveOnly && p.own.stratum != 255
    ensures var q := Step(cfg, p, env);
            && q.state == Master && !q.recordUpdate && Full(q.timers[SYNC_INTERVAL], SyncTimeout(p.syncInterval))
            && (cfg.ptpv2 ==> Full(q.timers[ANNOUNCE_INTERVAL], SyncTimeout(cfg.announceInterval)))
            && Sending(cfg, q) && q.sent == p.sent
  {
    hide ToState, SyncTimeout, ReceiptTimeout;
    var r := p.(timers := Cleared(Updated(p.timers, env.receiptTicks), SYNC_RECEIPT));
    BecomesSender(cfg, M1(cfg, r.(table := r.table.(number := 0, next := 0), log := r.log + [Restarted(0)])));
  }

  lemma FullPhase(t: IntervalTimer, n: nat)
    requires Full(t, n) && n > 0
    ensures Phase(t, 0, 0)
  {
  }

  lemma AfterTimeout(cfg: Config, p: Port, env: Inputs, envs: seq<Inputs>)
    requires p.state != Initializing
    ensures Run(cfg, p, [env] + envs) == Run(cfg, Step(cfg, p, env), envs)
  {
    hide Step;
    assert ([env] + envs)[1..] == envs;
  }

  /** From that round on, one Sync every Sync interval, for as long as the port hears nothing and the ticks
      come in one at a time. */
  lemma SyncsFillSilence(cfg: Config, p: Port, env: Inputs, left: int, envs: seq<Inputs>)
    requires TimersOk(cfg, p) && Waits(p, left) && Silent(env) && env.receiptTicks >= left
    requires !cfg.slaveOnly && p.own.stratum != 255 && AllSend(envs) && OneAtATime(envs, 0)
    requires SyncTimeout(p.syncInterval) > 0
    ensures Run(cfg, p, [env] + envs).sent.sync ==
            Advanced(p.sent.sync, Intervals(Elapsed(envs) - Unseen(envs, 0), SyncTimeout(p.syncInterval)))
  {
    hide Step, Run, Sending, SyncTimeout, Full, Phase, AllSend, OneAtATime, TimersOk, Elapsed, Unseen;
    TimeoutStartsSending(cfg, p, env, left);
    var q := Step(cfg, p, env);
    AfterTimeout(cfg, p, env, envs);
    SeenOf(envs);
    FullPhase(q.timers[SYNC_INTERVAL], SyncTimeout(p.syncInterval));
    IntervalOfFull(q.timers[SYNC_INTERVAL], SyncTimeout(p.syncInterval));
    SyncsInAll(cfg, q, envs, 0, 0);
  }

  /** And one Announce every announce interval under version 2, none under version 1. */
  lemma AnnouncesFillSilence(cfg: Config, p: Port, env: Inputs, left: int, envs: seq<Inputs>)
    requires TimersOk(cfg, p) && Waits(p, left) && Silent(env) && env.receiptTicks >= left
    requires !cfg.slaveOnly && p.own.stratum != 255 && AllSend(envs) && OneAtATime(envs, 0)
    requires SyncTimeout(cfg.announceInterval) > 0
    ensures Run(cfg, p, [env] + envs).sent.announce ==
            if cfg.ptpv2 then Advanced(p.sent.announce, Intervals(Elapsed(envs), SyncTimeout(cfg.announceInterval)))
            else p.sent.announce
  {
    hide Step, Run, Sending, SyncTimeout, Full, Phase, AllSend, OneAtATime, TimersOk, Elapsed;
    TimeoutStartsSending(cfg, p, env, left);
    var q := Step(cfg, p, env);
    AfterTimeout(cfg, p, env, envs);
    if cfg.ptpv2 {
      FullPhase(q.timers[ANNOUNCE_INTERVAL], SyncTimeout(cfg.announceInterval));
      IntervalOfFull(q.timers[ANNOUNCE_INTERVAL], SyncTimeout(cfg.announceInterval));
      AnnouncesInAll(cfg, q, envs, 0, 0);
    } else {
      Version1IsSilent(cfg, q, envs);
    }
  }

  lemma IntervalOfFull(t: IntervalTimer, n: nat)
    requires Full(t, n)
    ensures t.interval == n
  {
  }

  lemma {:induction false} SeenOf(envs: seq<Inputs>)
    ensures Unseen(envs, 0) <= Elapsed(envs)
    decreases |envs|
  {
    if envs != [] {
      SeenOf(envs[1..]);
      assert |envs| > 1 ==> envs[|envs| - 1] == envs[1..][|envs| - 2];
    }
  }
}

/** Ports, messages and rounds for concrete runs: a clock of its own, the masters A and B, and a table of
    three records. */
module Scenario {
  import opened Octets
  import opened Arith
  import opened Bmc
  import opened V2Bmc
  import opened Timers
  import opened ForeignMasters
  import opened PortTypes
  import opened PortModel

  const MINE: Uuid := [0, 0, 0, 0, 0, 3]
  const A: Uuid := [0, 0, 0, 0, 0, 1]
  const B: Uuid := [0, 0, 0, 0, 0, 2]

  const Slaves := Config(true, false, false, Servo.Options(0, 0, 0, false, false, false, 0), 1, MINE, NoClock, 1,
                         4, DFLT, 0, false, 128, Quality(0, 0, 0), 0, 0, 3, ZeroTime, ZeroTime)

  /** The same port, allowed to be master. */
  const Ordinary := Slaves.(slaveOnly := false)

  /** A Sync of stratum 4, with its Follow_Up to come. */
  function SyncOf(uuid: Uuid, seqn: UInteger16): Candidate {
    Candidate(Header(1, uuid, 1, seqn, true, false), Bmc.Sync(1, uuid, 1, seqn, 4, DFLT, 0, false, false, 0))
  }

  function Message(length: int, control: Octet, c: Candidate, associated: UInteger16): Packet {
    Packet(length, 1, control, 0, TimeInternal(0, 1), c.header, V2Header(Me(Slaves), 0, false, ZeroTime), ZeroTime,
           c.sync, Blank.v2, Blank.v1, associated, 0, V1Key(0, NoUuid, 0), Me(Slaves), ForAnother)
  }

  function Round(r: Reception): Inputs {
    Inputs(true, r, 0, 0, 0, true, true, true, 0, 0, 0, ZeroTime, ZeroTime, ZeroTime)
  }

  function Hear(uuid: Uuid, seqn: UInteger16): Inputs {
    Round(Received(Message(124, 0, SyncOf(uuid, seqn), 0)))
  }

  lemma NotTimedOut(cfg: Config, p: Port)
    requires !p.timers[SYNC_RECEIPT].expire
    ensures CheckReceipt(cfg, p, 0) == p
  {
    assert Updated(p.timers, 0) == p.timers;
    assert Cleared(p.timers, SYNC_RECEIPT) == p.timers;
  }

  function Of(c: Candidate): Slot {
    Written(Blank, FromSync(c))
  }

  lemma FirstRecord(t: ForeignMasterTable, c: Candidate)
    requires t.number == 0 && |t.slots| == 3 && t.slots[t.next] == Blank
    ensures Added(t, FromSync(c)).0 ==
            Table(t.slots[t.next := Of(c)], 1, if t.next == 2 then 0 else t.next + 1, t.best)
  {
  }

  lemma RunFirst(cfg: Config, p: Port, env: Inputs, envs: seq<Inputs>)
    requires !Stops(p, env)
    ensures Run(cfg, p, [env] + envs) == Run(cfg, Step(cfg, p, env), envs)
  {
    assert ([env] + envs)[1..] == envs;
  }

  lemma RunTwo(cfg: Config, p: Port, a: Inputs, b: Inputs, envs: seq<Inputs>)
    requires a.networkUp && b.networkUp
    ensures Run(cfg, p, [a] + ([b] + envs)) == Run(cfg, Step(cfg, Step(cfg, p, a), b), envs)
  {
    hide Step, Run;
    RunFirst(cfg, p, a, [b] + envs);
    RunFirst(cfg, Step(cfg, p, a), b, envs);
  }

  lemma RunNone(cfg: Config, p: Port)
    ensures Run(cfg, p, []) == p
  {
  }
}

/** The data sets of a port and the state decision of src/bmc.c and src/v2bmc.c. */
module DataSets {
  import opened Octets
  import opened Bmc
  import opened V2Bmc
  import opened PortTypes

  function InitialStratum(cfg: Config): Octet {
    if cfg.slaveOnly then 255 else if cfg.stratum <= 4 || cfg.stratum == 255 then cfg.stratum else 4
  }

  function InitialOwnClock(cfg: Config): OwnClock {
    OwnClock(InitialStratum(cfg), cfg.identifier, cfg.variance, cfg.preferred)
  }

  /** The own clock becomes the reference. */
  function M1(cfg: Config, p: Port): Port {
    p.(stepsRemoved := 0, servo := ServoForget(p.servo),
       parent := Parent(cfg.technology, cfg.uuid, cfg.clockIdentity, 0, 0, p.parent.lastAnnounce),
       gm := Grandmaster(cfg.technology, cfg.uuid, cfg.clockIdentity, 0, p.sent.sync,
                         cfg.priority1, cfg.quality, PRIORITY2))
  }

  /** A version 1 Sync names the reference. */
  function S1(p: Port, c: Candidate): Port {
    p.(stepsRemoved := Next16(c.sync.stepsRemoved),
       parent := p.parent.(technology := c.header.technology, uuid := c.header.uuid, portId := c.header.portId,
                           lastSync := c.header.sequenceId),
       gm := p.gm.(technology := c.sync.technology, uuid := c.sync.uuid, portId := c.sync.portId,
                   sequenceId := c.sync.sequenceId),
       log := p.log + [AppliedSync(c)])
  }

  /** A version 2 Announce names the reference. */
  function V2S1(p: Port, c: V2Candidate): Port {
    p.(stepsRemoved := Next16(c.announce.stepsRemoved),
       parent := p.parent.(clockIdentity := c.source.clock, portId := c.source.port, lastAnnounce := c.sequenceId),
       gm := p.gm.(clockIdentity := c.announce.identity, portId := 1, sequenceId := c.sequenceId,
                   priority1 := c.announce.priority1, quality := c.announce.quality,
                   priority2 := c.announce.priority2),
       log := p.log + [AppliedAnnounce(c)])
  }

  /** The own clock as a candidate. Only the fields that are compared matter. */
  function D0(cfg: Config, p: Port): Candidate {
    Candidate(Header(cfg.technology, cfg.uuid, cfg.portId, p.gm.sequenceId, false, false),
              Bmc.Sync(cfg.technology, cfg.uuid, cfg.portId, p.gm.sequenceId, p.own.stratum, p.own.identifier,
                       p.own.variance, p.own.preferred, false, p.stepsRemoved))
  }

  function V2D0(cfg: Config, p: Port): V2Candidate {
    V2Candidate(Me(cfg), p.gm.sequenceId,
                Announce(cfg.clockIdentity, p.gm.priority1, p.gm.quality, p.gm.priority2, 0))
  }

  function StateDecision(cfg: Config, p: Port, c: Candidate): (Port, PortState) {
    if cfg.slaveOnly then (S1(p, c), Slave)
    else
      var better := Compare(D0(cfg, p), c, V1Me(cfg)) > 0;
      if p.own.stratum < 3 then
        if better then (M1(cfg, p), Master) else (S1(p, c), Passive)
      else if better && p.own.stratum != 255 then (M1(cfg, p), Master)
      else (S1(p, c), Slave)
  }

  function V2StateDecision(cfg: Config, p: Port, c: V2Candidate): (Port, PortState) {
    if cfg.slaveOnly then (V2S1(p, c), Slave)
    else
      var better := V2Compare(V2D0(cfg, p), c, Me(cfg)) > 0;
      if better then (M1(cfg, p), Master)
      else if p.gm.quality.clockClass < 128 then (V2S1(p, c), Passive)
      else (V2S1(p, c), Slave)
  }

  function V1Candidates(t: ForeignMasterTable): seq<Candidate> {
    seq(t.number, i requires 0 <= i < t.number => t.slots[i].v1)
  }

  function V2Candidates(t: ForeignMasterTable): seq<V2Candidate> {
    seq(t.number, i requires 0 <= i < t.number => t.slots[i].v2)
  }

  /** Index of the best record of the version in use. */
  function BestRecord(cfg: Config, t: ForeignMasterTable): (best: nat)
    requires t.number > 0
    ensures best < t.number
  {
    if cfg.ptpv2 then V2Scan(V2Candidates(t), Me(cfg), t.number) else Scan(V1Candidates(t), V1Me(cfg), t.number)
  }

  /** Best master clock algorithm: the data sets afterwards, and the recommended state. */
  function Decision(cfg: Config, p: Port): (Port, PortState) {
    if p.table.number == 0 then
      (if p.state == Master then M1(cfg, p) else p, p.state)
    else
      var best := BestRecord(cfg, p.table);
      var q := p.(table := p.table.(best := best));
      if cfg.ptpv2 then V2StateDecision(cfg, q, q.table.slots[best].v2)
      else StateDecision(cfg, q, q.table.slots[best].v1)
  }
}

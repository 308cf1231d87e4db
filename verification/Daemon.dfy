/** One port from power up on: what every run of the program in memory guarantees. */
module Daemon {
  import opened PortTypes
  import opened PortModel
  import opened PtpClocks
  import PortTimers
  import PortParents
  import PortServo
  import PortPairing
  import DelayHalves
  import PortOutput

  /** Whatever the network, the timers and the clock do. */
  method RunPort(cfg: Config, envs: seq<Inputs>) returns (port: PtpClock)
    requires ValidConfig(cfg)
    ensures port.Valid() && port.View() == Run(cfg, PowerUp(cfg), envs)
    ensures PortTimers.TimersOk(cfg, port.View())
    ensures PortParents.DataSetsOk(cfg, port.View())
    ensures PortServo.ServoOk(cfg, port.View())
    ensures DelayHalves.HalvesOk(port.View())
    ensures PortOutput.AllComplete(port.View().outbox)
    ensures PortOutput.AllExisting(envs) ==> PortOutput.Uncommanded(cfg, port.View())
    ensures PortPairing.OneVersion(cfg, envs) ==> PortPairing.Tracks(cfg, port.View())
  {
    hide PortTimers.TimersOk, PortParents.DataSetsOk, PortServo.ServoOk, PortPairing.Tracks, DelayHalves.HalvesOk,
         PortOutput.AllComplete, PortOutput.Uncommanded, PortOutput.AllExisting, PowerUp, Run;
    port := new PtpClock(cfg);
    port.Protocol(envs);
    PortTimers.TimersInEveryRun(cfg, envs);
    PortParents.DataSetsInEveryRun(cfg, envs);
    StartServo(cfg);
    PortServo.RunServo(cfg, PowerUp(cfg), envs);
    StartHalves(cfg);
    DelayHalves.RunHalves(cfg, PowerUp(cfg), envs);
    PortOutput.FollowUpsCompleteSyncs(cfg, envs);
    if PortOutput.AllExisting(envs) { PortOutput.NeverCommandedFromPowerUp(cfg, envs); }
    if PortPairing.OneVersion(cfg, envs) {
      PortPairing.StartTracks(cfg);
      PortPairing.RunTracks(cfg, PowerUp(cfg), envs);
    }
  }

  lemma StartServo(cfg: Config)
    requires ValidConfig(cfg)
    ensures PortServo.ServoOk(cfg, PowerUp(cfg))
  {
  }

  lemma StartHalves(cfg: Config)
    requires ValidConfig(cfg)
    ensures DelayHalves.HalvesOk(PowerUp(cfg))
  {
  }
}

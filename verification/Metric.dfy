/** The hybrid metric of zeus/utils/metric.py that the optimizers and the simulator trade energy and time off with. */
module Metric {

  function ZeusCost(energy: real, time: real, eta: real, maxPower: real): real {
    eta * energy + (1.0 - eta) * maxPower * time
  }

  /** With eta one only energy counts, with eta zero only the energy of running at full power. */
  lemma KnobEnds(energy: real, time: real, maxPower: real)
    ensures ZeusCost(energy, time, 1.0, maxPower) == energy
    ensures ZeusCost(energy, time, 0.0, maxPower) == maxPower * time
  {
  }
}

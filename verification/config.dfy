/**
 * Constants of config/config.go and simulation/constants.go. Durations are nanoseconds;
 * probabilities are exact reals.
 */
module Config {
  import opened Messages

  const MaxRetries: nat := 16
  const TransmissionTimeNs: int := 80_000_000
  const AckTimeoutNs: int := 3_000_000_000
  const PrimaryTimeSlotNs: int := 320_000_000
  const BackupTimeSlotNs: int := 320_000_000
  /** `TimeSlot` of simulation/constants.go, the default of the older communication system. */
  const TimeSlotNs: int := 320_000_000

  /** Switchover probabilities per priority when the primary channel is busy. */
  const SwitchoverProbs: map<Priority, real> :=
    map[Critical := 1.0, High := 0.8, Medium := 0.3, Low := 0.05]

  const PrimaryPMap: map<Priority, real> :=
    map[Critical := 0.9, High := 0.7, Medium := 0.4, Low := 0.2]

  const BackupPMap: map<Priority, real> :=
    map[Critical := 0.95, High := 0.8, Medium := 0.2, Low := 0.1]
}

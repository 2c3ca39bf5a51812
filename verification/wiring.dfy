/**
 * The start-up wiring of main.go: the primary channel with its configured p table and
 * slot, the backup only when it is enabled, and the dual-channel system over them with
 * the configured switchover table. Go's package-level tables become fresh tables that
 * hold the configured entries.
 */
module Wiring {
  import opened Tables
  import opened SimChannel
  import SimCommunicationSystem
  import Config

  method BuildCommunicationSystem(enableBackup: bool) returns (cs: SimCommunicationSystem.CommunicationSystem)
    ensures fresh(cs.primaryChannel) && cs.primaryChannel.Valid()
    ensures cs.primaryChannel.id == "Primary" && cs.primaryChannel.listeners == []
    ensures Entries(cs.primaryChannel.pValues) == Config.PrimaryPMap
    ensures cs.primaryChannel.currentTimeSlot == Config.PrimaryTimeSlotNs
    ensures enableBackup <==> cs.backupChannel != null
    ensures cs.backupChannel != null ==>
      && fresh(cs.backupChannel) && cs.backupChannel.Valid() && cs.backupChannel != cs.primaryChannel
      && cs.backupChannel.id == "Backup" && cs.backupChannel.listeners == []
      && Entries(cs.backupChannel.pValues) == Config.BackupPMap
      && cs.backupChannel.currentTimeSlot == Config.BackupTimeSlotNs
    ensures cs.switchoverProbabilities.entries == Config.SwitchoverProbs
  {
    var primaryPMap := new PriorityTable(Config.PrimaryPMap);
    var primary := new Channel("Primary", primaryPMap, Config.PrimaryTimeSlotNs);
    var backup: Channel? := null;
    if enableBackup {
      var backupPMap := new PriorityTable(Config.BackupPMap);
      backup := new Channel("Backup", backupPMap, Config.BackupTimeSlotNs);
    }
    var probs := new PriorityTable(Config.SwitchoverProbs);
    cs := new SimCommunicationSystem.CommunicationSystem(primary, backup, probs);
  }
}

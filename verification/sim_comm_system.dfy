/**
 * The older deterministic router of simulation/comm_system.go: Critical and High traffic
 * moves to the backup channel while the primary is busy; Medium and Low always use the
 * primary. It also carries its own time slot.
 */
module SimCommSystem {
  import opened Messages
  import opened Mailbox
  import opened SimChannel
  import Config

  class CommunicationSystem {
    const primaryChannel: Channel
    const backupChannel: Channel?

    /** The channels the system routes over. */
    function Channels(): set<Channel>
      reads this
    {
      if backupChannel == null then {primaryChannel} else {primaryChannel, backupChannel}
    }
    var currentTimeSlot: int

    /** A new system starts with the `TimeSlot` constant. */
    constructor (primary: Channel, backup: Channel?)
      ensures primaryChannel == primary && backupChannel == backup
      ensures currentTimeSlot == Config.TimeSlotNs
    {
      primaryChannel := primary;
      backupChannel := backup;
      currentTimeSlot := Config.TimeSlotNs;
    }

    method UpdateCurrentTimeSlot(newTimeSlot: int)
      modifies this`currentTimeSlot
      ensures currentTimeSlot == newTimeSlot
    {
      currentTimeSlot := newTimeSlot;
    }

    function GetCurrentTimeSlot(): (d: int)
      reads this
      ensures d == currentTimeSlot
    {
      currentTimeSlot
    }

    /** Registers on the primary and, when there is one, on the backup. */
    method RegisterListener(listener: Inbox)
      modifies Channels()`listeners
      ensures backupChannel == null ==> primaryChannel.listeners == old(primaryChannel.listeners) + [listener]
      ensures backupChannel != null && backupChannel != primaryChannel ==>
        && primaryChannel.listeners == old(primaryChannel.listeners) + [listener]
        && backupChannel.listeners == old(backupChannel.listeners) + [listener]
      ensures backupChannel == primaryChannel ==>
        primaryChannel.listeners == old(primaryChannel.listeners) + [listener, listener]
    {
      primaryChannel.RegisterListener(listener);
      if backupChannel != null {
        backupChannel.RegisterListener(listener);
      }
    }

    /** The backup is chosen exactly for Critical or High traffic meeting a busy primary, when a backup exists. */
    function SelectChannelForMessage(msg: Message, senderID: string): (ch: Channel)
      reads this, primaryChannel
      ensures ch == primaryChannel || ch == backupChannel
      ensures backupChannel == null ==> ch == primaryChannel
      ensures msg.GetPriority() in {Medium, Low} ==> ch == primaryChannel
      ensures msg.GetPriority() in {Critical, High} && !primaryChannel.isBusy ==> ch == primaryChannel
      ensures msg.GetPriority() in {Critical, High} && primaryChannel.isBusy && backupChannel != null ==>
        ch == backupChannel
    {
      if backupChannel == null then primaryChannel
      else if msg.GetPriority() == Critical || msg.GetPriority() == High then
        if !primaryChannel.IsBusy() then primaryChannel else backupChannel
      else primaryChannel
    }
  }
}

/**
 * The dual-channel router of simulation/communication_system.go: a required primary
 * channel, an optional backup, and a switchover table kept as a private copy. The
 * uniform draw of `rand.Float64()` is the parameter `draw`, in [0, 1) when it comes
 * from the generator.
 */
module SimCommunicationSystem {
  import opened Messages
  import opened Tables
  import opened Mailbox
  import opened SimChannel
  import Config

  /** The copy loop `for k, v := range src { dst[k] = v }` into a new table; a nil source copies nothing. */
  method CopyTable(src: PriorityTable?) returns (dst: PriorityTable)
    ensures fresh(dst)
    ensures dst.entries == Entries(src)
  {
    dst := new PriorityTable(map[]);
    if src == null {
      return;
    }
    var pending := src.entries.Keys;
    while pending != {}
      invariant pending <= src.entries.Keys
      invariant dst.entries.Keys == src.entries.Keys - pending
      invariant forall k | k in dst.entries :: dst.entries[k] == src.entries[k]
      decreases pending
    {
      var k :| k in pending;
      dst.Set(k, src.entries[k]);
      pending := pending - {k};
    }
  }

  class CommunicationSystem {
    const primaryChannel: Channel
    const backupChannel: Channel?

    /** The channels the system routes over. */
    function Channels(): set<Channel>
      reads this
    {
      if backupChannel == null then {primaryChannel} else {primaryChannel, backupChannel}
    }
    var switchoverProbabilities: PriorityTable

    /** Keeps its own copy of the initial table, so later writes by the caller are not seen. */
    constructor (primary: Channel, backup: Channel?, initialProbs: PriorityTable?)
      ensures primaryChannel == primary && backupChannel == backup
      ensures fresh(switchoverProbabilities)
      ensures switchoverProbabilities.entries == Entries(initialProbs)
    {
      var probs := CopyTable(initialProbs);
      primaryChannel := primary;
      backupChannel := backup;
      switchoverProbabilities := probs;
    }

    /** Replaces the table by a fresh copy of the given one. */
    method UpdateSwitchoverProbabilities(newProbs: PriorityTable?)
      modifies this`switchoverProbabilities
      ensures fresh(switchoverProbabilities)
      ensures switchoverProbabilities.entries == Entries(newProbs)
    {
      switchoverProbabilities := CopyTable(newProbs);
    }

    /**
     * Registers the listener on the primary and, when there is one, on the backup;
     * a backup that is the primary itself receives it twice.
     */
    method RegisterListener(listener: Inbox)
      modifies Channels()`listeners
      ensures backupChannel == null ==> primaryChannel.listeners == old(primaryChannel.listeners) + [listener]
      ensures backupChannel != null && backupChannel != primaryChannel ==>
        && primaryChannel.listeners == old(primaryChannel.listeners) + [listener]
        && backupChannel.listeners == old(backupChannel.listeners) + [listener]
      ensures backupChannel == primaryChannel ==>
        primaryChannel.listeners == old(primaryChannel.listeners) + [listener, listener]
    {
      primaryChannel.RegisterListener(listener);
      if backupChannel != null {
        backupChannel.RegisterListener(listener);
      }
    }

    /** The switchover probability of a priority; an unmapped priority has 0. */
    function SwitchoverP(priority: Priority): real
      reads this, switchoverProbabilities
    {
      Lookup(switchoverProbabilities, priority)
    }

    /**
     * Primary when there is no backup or the primary is idle; otherwise the backup when
     * the draw falls below the message priority's switchover probability, else the primary.
     */
    function SelectChannelForMessage(msg: Message, senderID: string, draw: real): (ch: Channel)
      reads this, primaryChannel, switchoverProbabilities
      ensures ch == primaryChannel || ch == backupChannel
      ensures backupChannel == null || !primaryChannel.isBusy ==> ch == primaryChannel
      ensures backupChannel != null && primaryChannel.isBusy ==>
        ch == if draw < SwitchoverP(msg.GetPriority()) then backupChannel else primaryChannel
    {
      if backupChannel == null || !primaryChannel.IsBusy() then primaryChannel
      else if draw < SwitchoverP(msg.GetPriority()) then backupChannel
      else primaryChannel
    }
  }

  /**
   * For a draw from [0, 1): probability 0 (which includes every unmapped priority) never
   * switches, and probability 1 always switches while the primary is busy and a backup exists.
   */
  lemma SwitchoverDeterminism(cs: CommunicationSystem, msg: Message, senderID: string, draw: real)
    requires 0.0 <= draw < 1.0
    ensures msg.GetPriority() !in cs.switchoverProbabilities.entries ==>
      cs.SelectChannelForMessage(msg, senderID, draw) == cs.primaryChannel
    ensures cs.SwitchoverP(msg.GetPriority()) == 0.0 ==>
      cs.SelectChannelForMessage(msg, senderID, draw) == cs.primaryChannel
    ensures cs.SwitchoverP(msg.GetPriority()) >= 1.0 && cs.backupChannel != null && cs.primaryChannel.isBusy ==>
      cs.SelectChannelForMessage(msg, senderID, draw) == cs.backupChannel
  {
  }

  /** With the configured table, a busy primary always sends Critical traffic to an existing backup. */
  lemma ConfiguredCriticalAlwaysSwitches(cs: CommunicationSystem, msg: Message, senderID: string, draw: real)
    requires cs.switchoverProbabilities.entries == Config.SwitchoverProbs
    requires msg.GetPriority() == Critical
    requires 0.0 <= draw < 1.0
    requires cs.backupChannel != null && cs.primaryChannel.isBusy
    ensures cs.SelectChannelForMessage(msg, senderID, draw) == cs.backupChannel
  {
  }
}

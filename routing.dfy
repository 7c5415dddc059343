/** Both features listen to every interaction of the client. They split the
    interactions between them by command name and custom-id prefix, so that
    no interaction is acted on by both. */
module Routing {
  import opened Platform
  import opened VoiceRoom
  import VoiceManager
  import Ticket

  /** A ticket button is always ignored by the voice manager, and a button
      the voice manager acts on is always ignored by the ticket feature. */
  lemma ButtonsRouted(rooms: map<Id, RoomData>, ch: Channel?, a: Actor, g: Guild, customId: string, configured: bool)
    ensures Ticket.ButtonStep(customId, configured) != Ticket.Ignored ==>
      VoiceManager.ButtonStep(rooms, ch, a, g, customId) == VoiceManager.Ignored
    ensures VoiceManager.ButtonStep(rooms, ch, a, g, customId) != VoiceManager.Ignored ==>
      Ticket.ButtonStep(customId, configured) == Ticket.Ignored
  {
  }

  /** Forms: the voice manager's start with `m_`, the ticket feature's with
      `t_modal_`; no custom id is taken by both. */
  lemma ModalsRouted(rooms: map<Id, RoomData>, ch: Channel?, a: Actor, g: Guild, customId: string, input: string,
                     configured: bool, counter: nat, hasRecord: bool)
    ensures Ticket.ModalStep(customId, configured, input, counter, hasRecord) != Ticket.Ignored ==>
      VoiceManager.ModalStep(rooms, ch, a, g, customId, input) == VoiceManager.Ignored
  {
    if "t_modal_" <= customId {
      assert customId[0] == 't';
      assert !("m_" <= customId);
    }
  }

  /** The `/ticket` command is not one of the voice manager's commands. */
  lemma CommandsRouted()
    ensures !VoiceManager.IsVoiceCommand("ticket")
  {
  }
}

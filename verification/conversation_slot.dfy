/** The shared conversation-id cell of one room workspace
    (components/ConversationContext.tsx): a single nullable string with an
    unconditional setter. */
module ConversationSlot {
  import opened Outcome

  type Slot = Option<string>

  /** The provider's initial state: no conversation bound. */
  function Initial(): (s: Slot)
    ensures s.None?
  {
    None
  }

  /** `setConversationId(id)`: overwrite whatever was stored, with no
      conflict check, so a bound id can be replaced by another one. */
  function Set(s: Slot, id: Option<string>): (r: Slot)
    ensures Get(r) == id
  {
    id
  }

  /** `conversationId`: the current content of the cell. */
  function Get(s: Slot): Option<string>
  {
    s
  }

  /** The cell after a series of writes, in order. */
  function ApplyAll(s: Slot, writes: seq<Option<string>>): Slot
    decreases |writes|
  {
    if |writes| == 0 then s else ApplyAll(Set(s, writes[0]), writes[1..])
  }

  /** The getter returns the most recently written value, and the initial
      null when nothing was written; earlier writes leave no trace. */
  lemma {:induction false} LastWriteWins(s: Slot, writes: seq<Option<string>>)
    ensures |writes| == 0 ==> Get(ApplyAll(s, writes)) == Get(s)
    ensures |writes| > 0 ==> Get(ApplyAll(s, writes)) == writes[|writes| - 1]
    decreases |writes|
  {
    if |writes| > 1 {
      LastWriteWins(Set(s, writes[0]), writes[1..]);
    }
  }

  /** A bound id is replaced by another without any conflict being reported,
      and writing null clears the cell. */
  lemma OverwriteWithoutConflict(a: string, b: string)
    ensures Get(Set(Set(Initial(), Some(a)), Some(b))) == Some(b)
    ensures Get(Set(Set(Initial(), Some(a)), None)).None?
  {
  }

  const MissingProvider := "useConversation must be used within a ConversationProvider"

  /** `useConversation()`: the provider's cell, or a thrown error outside a
      provider. */
  function UseConversation(provider: Option<Slot>): (r: Result<Slot>)
    ensures r.Ok? <==> provider.Some?
    ensures r.Ok? ==> r.value == provider.value
    ensures r.Err? ==> r.msg == MissingProvider
  {
    match provider
    case Some(s) => Ok(s)
    case None => Err(MissingProvider)
  }
}

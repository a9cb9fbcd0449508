/** The Processing screen's rotating message: an index into LoadingMessages
    that starts at 0 and advances by one, wrapping around, on every timer tick. */
module ProcessingTicker {
  import opened Constants

  /** The index after one tick. */
  function NextIndex(i: nat): (r: nat)
    ensures r < |LoadingMessages|
    ensures i + 1 < |LoadingMessages| ==> r == i + 1
    ensures i + 1 == |LoadingMessages| ==> r == 0
  {
    (i + 1) % |LoadingMessages|
  }

  /** The index after `ticks` ticks from a fresh screen. */
  function IndexAfter(ticks: nat): (index: nat)
    ensures index < |LoadingMessages|
  {
    if ticks == 0 then 0 else NextIndex(IndexAfter(ticks - 1))
  }

  /** After n ticks the screen shows message n modulo the number of messages. */
  lemma {:induction false} IndexAfterIsModulo(ticks: nat)
    ensures IndexAfter(ticks) == ticks % |LoadingMessages|
  {
    if ticks > 0 {
      IndexAfterIsModulo(ticks - 1);
    }
  }

  /** The messages come round again every |LoadingMessages| ticks, and each of
      them is shown once per round. */
  lemma MessagesCycle(ticks: nat)
    ensures IndexAfter(ticks + |LoadingMessages|) == IndexAfter(ticks)
    ensures forall k :: 0 <= k < |LoadingMessages| ==> IndexAfter(k) == k
  {
    IndexAfterIsModulo(ticks);
    IndexAfterIsModulo(ticks + |LoadingMessages|);
    forall k | 0 <= k < |LoadingMessages|
      ensures IndexAfter(k) == k
    {
      IndexAfterIsModulo(k);
    }
  }

  /** The Processing component's counter. The ghost tick count is the number of
      timer ticks since the screen was mounted. */
  class Processing {
    var messageIndex: nat
    ghost var ticks: nat

    ghost predicate Valid()
      reads this
    {
      messageIndex == IndexAfter(ticks) && messageIndex < |LoadingMessages|
    }

    constructor ()
      ensures Valid() && ticks == 0 && messageIndex == 0
    {
      messageIndex := 0;
      ticks := 0;
    }

    /** One interval tick: `(prev + 1) % LOADING_MESSAGES.length`. */
    method Tick()
      requires Valid()
      modifies this
      ensures Valid()
      ensures ticks == old(ticks) + 1 && messageIndex == NextIndex(old(messageIndex))
      ensures messageIndex == ticks % |LoadingMessages|
    {
      messageIndex := (messageIndex + 1) % |LoadingMessages|;
      ticks := ticks + 1;
      IndexAfterIsModulo(ticks);
    }

    /** The message rendered for the current index. */
    function Message(): (m: string)
      requires Valid()
      reads this
      ensures m in LoadingMessages && m == LoadingMessages[messageIndex]
    {
      LoadingMessages[messageIndex]
    }
  }
}

/**
 * The optimistic update around the member toggle. The card-detail query cache is
 * a store from card public id to card. `onMutate` takes a snapshot of the cached
 * card and, when there is one, writes the toggled card in its place; `onError`
 * writes the snapshot back and builds the error notification; `onSettled` asks
 * for the card to be fetched again.
 */
module OptimisticCache {

  import opened Wrappers
  import opened Cards
  import opened MemberToggle

  /** What `onMutate` returns and the mutation library hands to `onError`. */
  datatype MutationContext = MutationContext(previousCard: Option<Card>)

  /** The failure of the remote toggle; only its message is read. */
  datatype MutationError = MutationError(message: string)

  /** The popup shown on failure. */
  datatype Notification = Notification(header: string, message: string, icon: string)

  const UpdateFailedHeader: string := "Unable to update members"
  const RetryFallback: string := "Please try again later, or contact customer support."
  const ErrorIcon: string := "error"

  /** `getData` on a plain map: the cached card, or nothing. */
  function Lookup(m: map<string, Card>, cardId: string): Option<Card> {
    if cardId in m then Some(m[cardId]) else None
  }

  /** The popup for a failed toggle: `error.message || fallback`, under a fixed header. */
  function FailureNotification(error: MutationError): (n: Notification)
    ensures n.header == UpdateFailedHeader && n.icon == ErrorIcon
    ensures n.message != []
    ensures error.message != [] ==> n.message == error.message
    ensures error.message == [] ==> n.message == RetryFallback
  {
    Notification(UpdateFailedHeader, if error.message != [] then error.message else RetryFallback, ErrorIcon)
  }

  /** The cache after `onMutate`: only a present entry for `cardId` is toggled. */
  function AfterMutate(m: map<string, Card>, cardId: string, memberId: string): (r: map<string, Card>)
    ensures r.Keys == m.Keys
    ensures forall k :: k in m && k != cardId ==> r[k] == m[k]
    ensures cardId in m ==> r[cardId] == Toggle(m[cardId], memberId)
    ensures cardId !in m ==> r == m
  {
    if cardId in m then m[cardId := Toggle(m[cardId], memberId)] else m
  }

  /** The cache after `onError`: a snapshot, when there is one, is written back. */
  function AfterError(m: map<string, Card>, cardId: string, context: Option<MutationContext>): (r: map<string, Card>)
    ensures forall k :: k in m && k != cardId ==> k in r && r[k] == m[k]
    ensures context.Some? && context.value.previousCard.Some? ==>
      r.Keys == m.Keys + {cardId} && r[cardId] == context.value.previousCard.value
    ensures context.None? || context.value.previousCard.None? ==> r == m
  {
    match context
    case Some(MutationContext(Some(card))) => m[cardId := card]
    case _ => m
  }

  /** Rolling back with the snapshot `onMutate` took gives the cache back exactly. */
  lemma RollbackRestores(m: map<string, Card>, cardId: string, memberId: string)
    ensures AfterError(AfterMutate(m, cardId, memberId), cardId, Some(MutationContext(Lookup(m, cardId)))) == m
  {
  }

  /** Every entry is stored under its own card's public id. */
  ghost predicate KeyedById(m: map<string, Card>) {
    forall k :: k in m ==> m[k].publicId == k
  }

  /** The optimistic write keeps every entry under its own card's id. */
  lemma MutateKeepsKeyedById(m: map<string, Card>, cardId: string, memberId: string)
    requires KeyedById(m)
    ensures KeyedById(AfterMutate(m, cardId, memberId))
  {
  }

  /** The client-side query cache of card details, keyed by card public id. */
  class CardCache {
    var entries: map<string, Card>
    /** The cards for which a refetch was requested. */
    var refetchRequested: set<string>

    constructor (initial: map<string, Card>)
      ensures entries == initial && refetchRequested == {}
    {
      entries := initial;
      refetchRequested := {};
    }

    /** `utils.card.byId.getData({ cardPublicId })` */
    method GetData(cardId: string) returns (r: Option<Card>)
      ensures r.Some? <==> cardId in entries
      ensures r.Some? ==> r.value == entries[cardId]
    {
      if cardId in entries {
        r := Some(entries[cardId]);
      } else {
        r := None;
      }
    }

    /** `utils.card.byId.setData({ cardPublicId }, card)`: overwrite one entry with a value. */
    method SetData(cardId: string, card: Card)
      modifies this
      ensures entries == old(entries)[cardId := card]
      ensures refetchRequested == old(refetchRequested)
    {
      entries := entries[cardId := card];
    }

    /**
     * `utils.card.byId.setData({ cardPublicId }, updater)` with the toggle updater:
     * the updater sees the current entry; when it returns nothing, nothing is written.
     */
    method SetDataWithToggle(cardId: string, memberId: string)
      modifies this
      ensures entries == AfterMutate(old(entries), cardId, memberId)
      ensures refetchRequested == old(refetchRequested)
    {
      var current := GetData(cardId);
      var next := Updater(current, memberId);
      if next.Some? {
        SetData(cardId, next.value);
      }
    }

    /** `onMutate`: take the snapshot, then write the toggled card if one is cached. */
    method OnMutate(cardId: string, memberId: string) returns (context: MutationContext)
      modifies this
      ensures context.previousCard == Lookup(old(entries), cardId)
      ensures entries == AfterMutate(old(entries), cardId, memberId)
      ensures refetchRequested == old(refetchRequested)
    {
      var previousCard := GetData(cardId);
      if previousCard.Some? {
        SetDataWithToggle(cardId, memberId);
      }
      context := MutationContext(previousCard);
    }

    /** `onError`: write the snapshot back if there is one, and build the popup. */
    method OnError(error: MutationError, cardId: string, context: Option<MutationContext>) returns (n: Notification)
      modifies this
      ensures entries == AfterError(old(entries), cardId, context)
      ensures refetchRequested == old(refetchRequested)
      ensures n == FailureNotification(error)
    {
      if context.Some? && context.value.previousCard.Some? {
        SetData(cardId, context.value.previousCard.value);
      }
      n := FailureNotification(error);
    }

    /** `onSettled`: the card is marked for refetching; the cached entries stay as they are. */
    method OnSettled(cardId: string)
      modifies this
      ensures entries == old(entries)
      ensures refetchRequested == old(refetchRequested) + {cardId}
    {
      refetchRequested := refetchRequested + {cardId};
    }

    /**
     * One toggle from dispatch to settlement: `onMutate`, the remote call (whose
     * outcome is a parameter: `None` for success, the error otherwise), `onError`
     * on failure, and `onSettled` in both cases.
     */
    method ToggleMembership(cardId: string, memberId: string, outcome: Option<MutationError>)
      returns (notification: Option<Notification>)
      modifies this
      ensures outcome.None? ==> entries == AfterMutate(old(entries), cardId, memberId) && notification.None?
      ensures outcome.Some? ==> entries == old(entries) && notification == Some(FailureNotification(outcome.value))
      ensures refetchRequested == old(refetchRequested) + {cardId}
      ensures KeyedById(old(entries)) ==> KeyedById(entries)
    {
      ghost var before := entries;
      var context := OnMutate(cardId, memberId);
      if KeyedById(before) { MutateKeepsKeyedById(before, cardId, memberId); }
      notification := None;
      if outcome.Some? {
        var n := OnError(outcome.value, cardId, Some(context));
        RollbackRestores(before, cardId, memberId);
        notification := Some(n);
      }
      OnSettled(cardId);
    }
  }
}

/**
 * The update-event flag set of a logic component: which scene and physics
 * update events the component subscribes to. Each event is one bit; `All`
 * is their union.
 */
module LogicComponents {
  type EventFlags = bv32

  const None: EventFlags := 0
  const Update: EventFlags := 1 << 0
  const PostUpdate: EventFlags := 1 << 1
  const FixedUpdate: EventFlags := 1 << 2
  const FixedPostUpdate: EventFlags := 1 << 3
  const All: EventFlags := Update | PostUpdate | FixedUpdate | FixedPostUpdate

  /** The four single-event flags, in declaration order. */
  const SingleEvents: seq<EventFlags> := [Update, PostUpdate, FixedUpdate, FixedPostUpdate]

  /** Whether the flag set `mask` includes every bit of `flag`. */
  predicate Has(mask: EventFlags, flag: EventFlags) { mask & flag == flag }

  lemma FlagValues()
    ensures None == 0 && Update == 1 && PostUpdate == 2 && FixedUpdate == 4 && FixedPostUpdate == 8
    ensures All == 15
  {
  }

  /** Every single flag is in `All`, and two different single flags share no bit. */
  lemma {:induction false} SingleEventsPartitionAll(i: nat, j: nat)
    requires i < |SingleEvents| && j < |SingleEvents|
    ensures SingleEvents[i] != None && Has(All, SingleEvents[i])
    ensures i != j ==> SingleEvents[i] & SingleEvents[j] == None
  {
  }

  /** A mask built from the single events alone is contained in `All`. */
  function EventMask(update: bool, postUpdate: bool, fixedUpdate: bool, fixedPostUpdate: bool): (mask: EventFlags)
    ensures Has(All, mask)
    ensures Has(mask, Update) == update && Has(mask, PostUpdate) == postUpdate
    ensures Has(mask, FixedUpdate) == fixedUpdate && Has(mask, FixedPostUpdate) == fixedPostUpdate
    ensures (mask == All) == (update && postUpdate && fixedUpdate && fixedPostUpdate)
    ensures (mask == None) == !(update || postUpdate || fixedUpdate || fixedPostUpdate)
  {
    (if update then Update else None) | (if postUpdate then PostUpdate else None)
    | (if fixedUpdate then FixedUpdate else None) | (if fixedPostUpdate then FixedPostUpdate else None)
  }
}

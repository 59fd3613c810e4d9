/**
 * Single-row changes to a buyer: ban, unban, partial update and the row a
 * creation inserts.
 */
module BuyerAdmin {
  import opened Wrappers
  import opened Calendar
  import opened Schema

  /** The fields no ban, unban or update of the ban state touches. */
  predicate SameProfile(a: Buyer, b: Buyer) {
    a.id == b.id && a.name == b.name && a.mode == b.mode && a.chatId == b.chatId
    && a.maxNumbersPerBranch == b.maxNumbersPerBranch && a.createdAt == b.createdAt
  }

  /** The buyer banned for reason at time now; any earlier reason is overwritten. */
  function WithBan(b: Buyer, reason: string, now: Timestamp): (r: Buyer)
    ensures r.isBanned && r.banReason == Some(reason) && r.updatedAt == now
    ensures SameProfile(r, b)
  {
    b.(isBanned := true, banReason := Some(reason), updatedAt := now)
  }

  /** The buyer with the ban lifted and its reason cleared. */
  function WithoutBan(b: Buyer, now: Timestamp): (r: Buyer)
    ensures !r.isBanned && r.banReason.None? && r.updatedAt == now
    ensures SameProfile(r, b)
  {
    b.(isBanned := false, banReason := None, updatedAt := now)
  }

  /** The buyer with the supplied fields of input written and the others kept. */
  function WithPatch(b: Buyer, input: UpdateBuyerInput, now: Timestamp): (r: Buyer)
    ensures r.name == (if input.name.Some? then input.name.value else b.name)
    ensures r.mode == (if input.mode.Some? then input.mode.value else b.mode)
    ensures r.maxNumbersPerBranch == (if input.maxNumbersPerBranch.Some? then input.maxNumbersPerBranch.value else b.maxNumbersPerBranch)
    ensures r.id == b.id && r.chatId == b.chatId && r.createdAt == b.createdAt
    ensures r.isBanned == b.isBanned && r.banReason == b.banReason
    ensures r.updatedAt == now
  {
    var named := if input.name.Some? then b.(name := input.name.value) else b;
    var moded := if input.mode.Some? then named.(mode := input.mode.value) else named;
    var capped := if input.maxNumbersPerBranch.Some? then moded.(maxNumbersPerBranch := input.maxNumbersPerBranch.value) else moded;
    capped.(updatedAt := now)
  }

  /** The row inserted for a new buyer: input copied, not banned, no reason. */
  function NewBuyer(id: int, input: CreateBuyerInput, now: Timestamp): (r: Buyer)
    ensures r.id == id && !r.isBanned && r.banReason.None?
    ensures r.name == input.name && r.mode == input.mode && r.chatId == input.chatId
    ensures r.maxNumbersPerBranch == input.maxNumbersPerBranch
    ensures r.createdAt == now && r.updatedAt == now
  {
    Buyer(id, input.name, false, None, input.mode, input.chatId, input.maxNumbersPerBranch, now, now)
  }

  /** A new ban replaces the previous one entirely. */
  lemma BanOverwritesReason(b: Buyer, first: string, second: string, t1: Timestamp, t2: Timestamp)
    ensures WithBan(WithBan(b, first, t1), second, t2) == WithBan(b, second, t2)
  {
  }

  /** Unbanning twice is unbanning once. */
  lemma UnbanIdempotent(b: Buyer, t1: Timestamp, t2: Timestamp)
    ensures WithoutBan(WithoutBan(b, t1), t2) == WithoutBan(b, t2)
  {
  }

  /** Unbanning leaves no trace of an earlier ban. */
  lemma UnbanUndoesBan(b: Buyer, reason: string, t1: Timestamp, t2: Timestamp)
    ensures WithoutBan(WithBan(b, reason, t1), t2) == WithoutBan(b, t2)
  {
  }

  /** An update that supplies nothing only refreshes updatedAt. */
  lemma EmptyPatchOnlyTouches(b: Buyer, id: int, now: Timestamp)
    ensures WithPatch(b, UpdateBuyerInput(id, None, None, None), now) == b.(updatedAt := now)
  {
  }
}

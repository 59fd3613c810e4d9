/**
 * Single-row changes to a seller: ban, partial update and the row a creation
 * inserts.
 */
module SellerAdmin {
  import opened Wrappers
  import opened Calendar
  import opened Schema

  const DEFAULT_BAN_COMMENT: string := "Banned by administrator"

  /** The JavaScript `text || fallback` on an optional string: an absent or empty text gives way. */
  function TextOr(text: Option<string>, fallback: string): (r: string)
    ensures text.Some? && text.value != "" ==> r == text.value
    ensures text.None? || text.value == "" ==> r == fallback
  {
    if text.Some? && text.value != "" then text.value else fallback
  }

  /** The seller banned at time now, whatever its prior status. */
  function WithSellerBan(s: Seller, comment: Option<string>, now: Timestamp): (r: Seller)
    ensures r.status == Banned && r.updatedAt == now
    ensures r.statusComment == Some(TextOr(comment, DEFAULT_BAN_COMMENT))
    ensures r.id == s.id && r.telegramId == s.telegramId
    ensures r.permanentRoundingBonus == s.permanentRoundingBonus && r.createdAt == s.createdAt
  {
    s.(status := Banned, statusComment := Some(TextOr(comment, DEFAULT_BAN_COMMENT)), updatedAt := now)
  }

  /** The seller with the supplied fields of input written and the others kept. */
  function WithSellerPatch(s: Seller, input: UpdateSellerInput, now: Timestamp): (r: Seller)
    ensures r.status == (if input.status.Some? then input.status.value else s.status)
    ensures r.statusComment == (if input.statusComment.Some? then input.statusComment.value else s.statusComment)
    ensures r.permanentRoundingBonus == (if input.permanentRoundingBonus.Some? then input.permanentRoundingBonus.value else s.permanentRoundingBonus)
    ensures r.id == s.id && r.telegramId == s.telegramId && r.createdAt == s.createdAt
    ensures r.updatedAt == now
  {
    var statused := if input.status.Some? then s.(status := input.status.value) else s;
    var commented := if input.statusComment.Some? then statused.(statusComment := input.statusComment.value) else statused;
    var bonused := if input.permanentRoundingBonus.Some? then commented.(permanentRoundingBonus := input.permanentRoundingBonus.value) else commented;
    bonused.(updatedAt := now)
  }

  /** The row inserted for a new seller; an empty comment is stored as null. */
  function NewSeller(id: int, input: CreateSellerInput, now: Timestamp): (r: Seller)
    ensures r.id == id && r.telegramId == input.telegramId && r.status == input.status
    ensures r.permanentRoundingBonus == input.permanentRoundingBonus
    ensures r.statusComment.None? <==> input.statusComment.None? || input.statusComment.value == ""
    ensures r.statusComment.Some? ==> r.statusComment == input.statusComment
    ensures r.createdAt == now && r.updatedAt == now
  {
    var comment := if input.statusComment.Some? && input.statusComment.value != "" then input.statusComment else None;
    Seller(id, input.telegramId, input.status, comment, input.permanentRoundingBonus, now, now)
  }

  /** An explicit null comment clears the comment; an omitted one keeps it. */
  lemma PatchCommentNullVersusOmitted(s: Seller, id: int, now: Timestamp)
    ensures WithSellerPatch(s, UpdateSellerInput(id, None, Some(None), None), now).statusComment.None?
    ensures WithSellerPatch(s, UpdateSellerInput(id, None, None, None), now).statusComment == s.statusComment
  {
  }

  /** Banning ignores the prior status and a repeated ban with the same comment changes nothing but the time. */
  lemma BanIgnoresPriorState(s: Seller, prior: SellerStatus, comment: Option<string>, t1: Timestamp, t2: Timestamp)
    ensures WithSellerBan(s.(status := prior), comment, t2) == WithSellerBan(s, comment, t2)
    ensures WithSellerBan(WithSellerBan(s, comment, t1), comment, t2) == WithSellerBan(s, comment, t2)
  {
  }
}

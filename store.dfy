/**
 * The four tables held by one store object, and the handlers that change them.
 * Every handler runs to completion before the next starts; the current time is
 * a parameter.
 */
module Marketplace {
  import opened Wrappers
  import opened Calendar
  import opened Money
  import opened Schema
  import NumberLifecycle
  import BuyerAdmin
  import SellerAdmin
  import Stopwork

  class Store {
    var buyers: map<int, Buyer>
    var sellers: map<int, Seller>
    var numbers: map<int, NumberRow>
    var billing: map<int, BillingRecord>
    /** The next values of the serial id sequences of buyers and sellers. */
    var nextBuyerId: int
    var nextSellerId: int

    /** Primary keys, unique columns, a reason for every banned buyer, and sequences ahead
        of every stored id. */
    ghost predicate Valid()
      reads this
    {
      BuyersKeyed(buyers) && SellersKeyed(sellers) && NumbersKeyed(numbers) && BillingKeyed(billing)
      && UniqueChatIds(buyers) && UniqueTelegramIds(sellers) && UniquePhoneNumbers(numbers)
      && (forall k :: k in buyers && buyers[k].isBanned ==> buyers[k].banReason.Some?)
      && 1 <= nextBuyerId && 1 <= nextSellerId
      && (forall k :: k in buyers ==> k < nextBuyerId)
      && (forall k :: k in sellers ==> k < nextSellerId)
    }

    /** An empty store. */
    constructor ()
      ensures Valid()
      ensures buyers == map[] && sellers == map[] && numbers == map[] && billing == map[]
    {
      buyers, sellers, numbers, billing := map[], map[], map[], map[];
      nextBuyerId, nextSellerId := 1, 1;
    }

    /** Sets a number's status and its derived fields; NotFound leaves every table as it was. */
    method UpdateNumberStatus(id: int, status: NumberStatus, now: Timestamp) returns (r: Result<NumberRow, Error>)
      requires Valid()
      modifies this
      ensures Valid()
      ensures id in old(numbers) ==> (r == Success(NumberLifecycle.WithStatus(old(numbers)[id], status, now))
                                   && numbers == old(numbers)[id := r.value])
      ensures id !in old(numbers) ==> r == Failure(NotFound(NumbersTable, id)) && numbers == old(numbers)
      ensures buyers == old(buyers) && sellers == old(sellers) && billing == old(billing)
      ensures nextBuyerId == old(nextBuyerId) && nextSellerId == old(nextSellerId)
    {
      if id !in numbers {
        return Failure(NotFound(NumbersTable, id));
      }
      var row := NumberLifecycle.WithStatus(numbers[id], status, now);
      numbers := numbers[id := row];
      r := Success(row);
    }

    /** Reclaims the buyer's accepted numbers and bans the buyer, after the two gates. */
    method StopworkBuyer(id: int, now: Timestamp) returns (reply: Stopwork.StopworkReply)
      requires Valid()
      modifies this
      ensures Valid()
      ensures id !in old(buyers) ==> (reply == Stopwork.StopworkReply(false, Stopwork.BuyerNotFound(id))
                                    && buyers == old(buyers) && numbers == old(numbers))
      ensures id in old(buyers) && old(buyers)[id].isBanned ==> (
                reply == Stopwork.StopworkReply(false, Stopwork.BuyerAlreadyBanned(id))
                && buyers == old(buyers) && numbers == old(numbers))
      ensures id in old(buyers) && !old(buyers)[id].isBanned ==> (
                reply == Stopwork.StopworkReply(true, Stopwork.StopworkDone(id, |Stopwork.AcceptedBy(old(numbers), id)|))
                && numbers == Stopwork.ReclaimAll(old(numbers), id, now)
                && buyers == old(buyers)[id := BuyerAdmin.WithBan(old(buyers)[id], Stopwork.STOPWORK_REASON, now)])
      ensures sellers == old(sellers) && billing == old(billing)
      ensures nextBuyerId == old(nextBuyerId) && nextSellerId == old(nextSellerId)
    {
      if id !in buyers {
        return Stopwork.StopworkReply(false, Stopwork.BuyerNotFound(id));
      }
      if buyers[id].isBanned {
        return Stopwork.StopworkReply(false, Stopwork.BuyerAlreadyBanned(id));
      }
      var accepted := Stopwork.AcceptedBy(numbers, id);
      if |accepted| > 0 {
        Stopwork.ReclaimAllKeepsConstraints(numbers, id, now);
        numbers := Stopwork.ReclaimAll(numbers, id, now);
      } else {
        Stopwork.ReclaimAllChangesExactlyAccepted(numbers, id, now);
        assert Stopwork.ReclaimAll(numbers, id, now) == numbers;
      }
      buyers := buyers[id := BuyerAdmin.WithBan(buyers[id], Stopwork.STOPWORK_REASON, now)];
      reply := Stopwork.StopworkReply(true, Stopwork.StopworkDone(id, |accepted|));
    }

    /** Bans a buyer with the given reason, overwriting any earlier one. */
    method BanBuyer(id: int, reason: string, now: Timestamp) returns (r: Result<Buyer, Error>)
      requires Valid()
      modifies this
      ensures Valid()
      ensures id in old(buyers) ==> (r == Success(BuyerAdmin.WithBan(old(buyers)[id], reason, now))
                                   && buyers == old(buyers)[id := r.value])
      ensures id !in old(buyers) ==> r == Failure(NotFound(BuyersTable, id)) && buyers == old(buyers)
      ensures sellers == old(sellers) && numbers == old(numbers) && billing == old(billing)
      ensures nextBuyerId == old(nextBuyerId) && nextSellerId == old(nextSellerId)
    {
      if id !in buyers {
        return Failure(NotFound(BuyersTable, id));
      }
      var row := BuyerAdmin.WithBan(buyers[id], reason, now);
      buyers := buyers[id := row];
      r := Success(row);
    }

    /** Lifts a buyer's ban and clears its reason. */
    method UnbanBuyer(id: int, now: Timestamp) returns (r: Result<Buyer, Error>)
      requires Valid()
      modifies this
      ensures Valid()
      ensures id in old(buyers) ==> (r == Success(BuyerAdmin.WithoutBan(old(buyers)[id], now))
                                   && buyers == old(buyers)[id := r.value])
      ensures id !in old(buyers) ==> r == Failure(NotFound(BuyersTable, id)) && buyers == old(buyers)
      ensures sellers == old(sellers) && numbers == old(numbers) && billing == old(billing)
      ensures nextBuyerId == old(nextBuyerId) && nextSellerId == old(nextSellerId)
    {
      if id !in buyers {
        return Failure(NotFound(BuyersTable, id));
      }
      var row := BuyerAdmin.WithoutBan(buyers[id], now);
      buyers := buyers[id := row];
      r := Success(row);
    }

    /** Writes the supplied fields of a buyer. */
    method UpdateBuyer(input: UpdateBuyerInput, now: Timestamp) returns (r: Result<Buyer, Error>)
      requires Valid()
      modifies this
      ensures Valid()
      ensures input.id in old(buyers) ==> (r == Success(BuyerAdmin.WithPatch(old(buyers)[input.id], input, now))
                                         && buyers == old(buyers)[input.id := r.value])
      ensures input.id !in old(buyers) ==> r == Failure(NotFound(BuyersTable, input.id)) && buyers == old(buyers)
      ensures sellers == old(sellers) && numbers == old(numbers) && billing == old(billing)
      ensures nextBuyerId == old(nextBuyerId) && nextSellerId == old(nextSellerId)
    {
      if input.id !in buyers {
        return Failure(NotFound(BuyersTable, input.id));
      }
      var row := BuyerAdmin.WithPatch(buyers[input.id], input, now);
      buyers := buyers[input.id := row];
      r := Success(row);
    }

    /** Bans a seller, with the given comment or the default one. */
    method BanSeller(id: int, comment: Option<string>, now: Timestamp) returns (r: Result<Seller, Error>)
      requires Valid()
      modifies this
      ensures Valid()
      ensures id in old(sellers) ==> (r == Success(SellerAdmin.WithSellerBan(old(sellers)[id], comment, now))
                                    && sellers == old(sellers)[id := r.value])
      ensures id !in old(sellers) ==> r == Failure(NotFound(SellersTable, id)) && sellers == old(sellers)
      ensures buyers == old(buyers) && numbers == old(numbers) && billing == old(billing)
      ensures nextBuyerId == old(nextBuyerId) && nextSellerId == old(nextSellerId)
    {
      if id !in sellers {
        return Failure(NotFound(SellersTable, id));
      }
      var row := SellerAdmin.WithSellerBan(sellers[id], comment, now);
      sellers := sellers[id := row];
      r := Success(row);
    }

    /** Writes the supplied fields of a seller. */
    method UpdateSeller(input: UpdateSellerInput, now: Timestamp) returns (r: Result<Seller, Error>)
      requires Valid()
      modifies this
      ensures Valid()
      ensures input.id in old(sellers) ==> (r == Success(SellerAdmin.WithSellerPatch(old(sellers)[input.id], input, now))
                                          && sellers == old(sellers)[input.id := r.value])
      ensures input.id !in old(sellers) ==> r == Failure(NotFound(SellersTable, input.id)) && sellers == old(sellers)
      ensures buyers == old(buyers) && numbers == old(numbers) && billing == old(billing)
      ensures nextBuyerId == old(nextBuyerId) && nextSellerId == old(nextSellerId)
    {
      if input.id !in sellers {
        return Failure(NotFound(SellersTable, input.id));
      }
      var row := SellerAdmin.WithSellerPatch(sellers[input.id], input, now);
      sellers := sellers[input.id := row];
      r := Success(row);
    }

    /** Inserts a buyer under the next serial id; a taken chat id is rejected and the
        table is unchanged, though the sequence value is used up as in the database. */
    method CreateBuyer(input: CreateBuyerInput, now: Timestamp) returns (r: Result<Buyer, Error>)
      requires Valid()
      modifies this
      ensures Valid()
      ensures ChatIdTaken(old(buyers), input.chatId) ==> r == Failure(DuplicateKey(ChatIdColumn)) && buyers == old(buyers)
      ensures !ChatIdTaken(old(buyers), input.chatId) ==> (
                r.Success? && r.value.id !in old(buyers)
                && r.value == BuyerAdmin.NewBuyer(r.value.id, input, now)
                && buyers == old(buyers)[r.value.id := r.value]
                && |buyers| == |old(buyers)| + 1)
      ensures nextBuyerId == old(nextBuyerId) + 1
      ensures sellers == old(sellers) && numbers == old(numbers) && billing == old(billing)
      ensures nextSellerId == old(nextSellerId)
    {
      var id := nextBuyerId;
      nextBuyerId := nextBuyerId + 1;
      if exists k :: k in buyers && buyers[k].chatId == input.chatId {
        return Failure(DuplicateKey(ChatIdColumn));
      }
      var row := BuyerAdmin.NewBuyer(id, input, now);
      buyers := buyers[id := row];
      r := Success(row);
    }

    /** Validates and defaults the input, then inserts a seller under the next serial id;
        invalid input is rejected before any insert, a taken telegram id at the insert. */
    method CreateSeller(telegramId: string, status: Option<SellerStatus>, statusComment: Option<string>,
                        permanentRoundingBonus: Option<Cents>, now: Timestamp) returns (r: Result<Seller, Error>)
      requires Valid()
      modifies this
      ensures Valid()
      ensures var parsed := ParseCreateSellerInput(telegramId, status, statusComment, permanentRoundingBonus);
        && (parsed.Failure? ==> r == Failure(parsed.error) && sellers == old(sellers) && nextSellerId == old(nextSellerId))
        && (parsed.Success? ==> nextSellerId == old(nextSellerId) + 1)
        && (parsed.Success? && TelegramIdTaken(old(sellers), telegramId) ==>
              r == Failure(DuplicateKey(TelegramIdColumn)) && sellers == old(sellers))
        && (parsed.Success? && !TelegramIdTaken(old(sellers), telegramId) ==>
              r.Success? && r.value.id !in old(sellers)
              && r.value == SellerAdmin.NewSeller(r.value.id, parsed.value, now)
              && sellers == old(sellers)[r.value.id := r.value]
              && |sellers| == |old(sellers)| + 1)
      ensures buyers == old(buyers) && numbers == old(numbers) && billing == old(billing)
      ensures nextBuyerId == old(nextBuyerId)
    {
      var parsed := ParseCreateSellerInput(telegramId, status, statusComment, permanentRoundingBonus);
      if parsed.Failure? {
        return Failure(parsed.error);
      }
      var input := parsed.value;
      var id := nextSellerId;
      nextSellerId := nextSellerId + 1;
      if exists k :: k in sellers && sellers[k].telegramId == input.telegramId {
        return Failure(DuplicateKey(TelegramIdColumn));
      }
      var row := SellerAdmin.NewSeller(id, input, now);
      sellers := sellers[id := row];
      r := Success(row);
    }
  }
}

/**
 * The four tables and the input rules of the marketplace: record shapes, status
 * enums, column defaults, unique columns, and the validators that input passes
 * before it reaches a handler.
 */
module Schema {
  import opened Wrappers
  import opened Money
  import opened Calendar

  // ---------------------------------------------------------------- enums

  datatype NumberStatus = Available | Rented | Accepted | Completed | Cancelled | ReturnedToQueue

  datatype SellerStatus = Active | Inactive | Banned

  function NumberStatusName(s: NumberStatus): string {
    match s
    case Available => "available"
    case Rented => "rented"
    case Accepted => "accepted"
    case Completed => "completed"
    case Cancelled => "cancelled"
    case ReturnedToQueue => "returned_to_queue"
  }

  /** The number_status enum: exactly six names are accepted. */
  function ParseNumberStatus(s: string): (r: Option<NumberStatus>)
    ensures r.Some? ==> NumberStatusName(r.value) == s
  {
    if s == "available" then Some(Available)
    else if s == "rented" then Some(Rented)
    else if s == "accepted" then Some(Accepted)
    else if s == "completed" then Some(Completed)
    else if s == "cancelled" then Some(Cancelled)
    else if s == "returned_to_queue" then Some(ReturnedToQueue)
    else None
  }

  lemma NumberStatusNamesParse(s: NumberStatus)
    ensures ParseNumberStatus(NumberStatusName(s)) == Some(s)
  {
  }

  function SellerStatusName(s: SellerStatus): string {
    match s
    case Active => "active"
    case Inactive => "inactive"
    case Banned => "banned"
  }

  /** The seller_status enum: exactly three names are accepted. */
  function ParseSellerStatus(s: string): (r: Option<SellerStatus>)
    ensures r.Some? ==> SellerStatusName(r.value) == s
  {
    if s == "active" then Some(Active)
    else if s == "inactive" then Some(Inactive)
    else if s == "banned" then Some(Banned)
    else None
  }

  lemma SellerStatusNamesParse(s: SellerStatus)
    ensures ParseSellerStatus(SellerStatusName(s)) == Some(s)
  {
  }

  // ---------------------------------------------------------------- rows

  datatype Buyer = Buyer(
    id: int,
    name: string,
    isBanned: bool,
    banReason: Option<string>,
    mode: string,
    chatId: string,
    maxNumbersPerBranch: int,
    createdAt: Timestamp,
    updatedAt: Timestamp)

  datatype Seller = Seller(
    id: int,
    telegramId: string,
    status: SellerStatus,
    statusComment: Option<string>,
    permanentRoundingBonus: Cents,
    createdAt: Timestamp,
    updatedAt: Timestamp)

  /** A row of the numbers table; buyerId and sellerId are weak, nullable references. */
  datatype NumberRow = NumberRow(
    id: int,
    phoneNumber: string,
    country: string,
    numberType: string,
    status: NumberStatus,
    buyerId: Option<int>,
    sellerId: Option<int>,
    rentedAt: Option<Timestamp>,
    completedAt: Option<Timestamp>,
    price: Cents,
    createdAt: Timestamp,
    updatedAt: Timestamp)

  /** A row of the billing records table; its buyer reference is mandatory. */
  datatype BillingRecord = BillingRecord(
    id: int,
    buyerId: int,
    amount: Cents,
    description: string,
    billingDate: Timestamp,
    createdAt: Timestamp)

  // ---------------------------------------------------------------- defaults

  const DEFAULT_MAX_NUMBERS_PER_BRANCH: int := 10
  const DEFAULT_SELLER_STATUS: SellerStatus := Active
  const DEFAULT_ROUNDING_BONUS: Cents := 0
  const DEFAULT_HISTORY_LIMIT: nat := 50
  const DEFAULT_HISTORY_OFFSET: nat := 0

  // ---------------------------------------------------------------- errors

  datatype TableName = BuyersTable | SellersTable | NumbersTable | BillingRecordsTable

  datatype UniqueColumn = ChatIdColumn | TelegramIdColumn | PhoneNumberColumn

  datatype Error =
    | NotFound(table: TableName, id: int)
    | DuplicateKey(column: UniqueColumn)
    | InvalidInput(field: string)

  // ---------------------------------------------------------------- inputs

  datatype CreateBuyerInput = CreateBuyerInput(name: string, mode: string, chatId: string, maxNumbersPerBranch: int)

  /** Buyer creation: a non-empty name and chat id, and a positive cap that defaults to 10. */
  function ParseCreateBuyerInput(name: string, mode: string, chatId: string, maxNumbersPerBranch: Option<int>)
    : (r: Result<CreateBuyerInput, Error>)
    ensures r.Success? <==> |name| >= 1 && |chatId| >= 1 && (maxNumbersPerBranch.Some? ==> maxNumbersPerBranch.value > 0)
    ensures r.Success? ==> r.value.name == name && r.value.mode == mode && r.value.chatId == chatId
    ensures r.Success? ==> r.value.maxNumbersPerBranch > 0
    ensures r.Success? && maxNumbersPerBranch.None? ==> r.value.maxNumbersPerBranch == DEFAULT_MAX_NUMBERS_PER_BRANCH
    ensures r.Success? && maxNumbersPerBranch.Some? ==> r.value.maxNumbersPerBranch == maxNumbersPerBranch.value
  {
    if |name| < 1 then Failure(InvalidInput("name"))
    else if |chatId| < 1 then Failure(InvalidInput("chat_id"))
    else if maxNumbersPerBranch.Some? && maxNumbersPerBranch.value <= 0 then Failure(InvalidInput("max_numbers_per_branch"))
    else Success(CreateBuyerInput(name, mode, chatId, maxNumbersPerBranch.GetOr(DEFAULT_MAX_NUMBERS_PER_BRANCH)))
  }

  /** A partial buyer update; None means the field was not supplied. */
  datatype UpdateBuyerInput = UpdateBuyerInput(id: int, name: Option<string>, mode: Option<string>, maxNumbersPerBranch: Option<int>)

  /** Buyer update: a supplied cap must be a positive integer; the patch is otherwise passed on as given. */
  function ParseUpdateBuyerInput(id: int, name: Option<string>, mode: Option<string>, maxNumbersPerBranch: Option<int>)
    : (r: Result<UpdateBuyerInput, Error>)
    ensures r.Success? <==> (maxNumbersPerBranch.Some? ==> maxNumbersPerBranch.value > 0)
    ensures r.Success? ==> r.value == UpdateBuyerInput(id, name, mode, maxNumbersPerBranch)
    ensures r.Failure? ==> r.error == InvalidInput("max_numbers_per_branch")
  {
    if maxNumbersPerBranch.Some? && maxNumbersPerBranch.value <= 0 then Failure(InvalidInput("max_numbers_per_branch"))
    else Success(UpdateBuyerInput(id, name, mode, maxNumbersPerBranch))
  }

  datatype BanBuyerInput = BanBuyerInput(id: int, banReason: string)

  /** Manual buyer ban: the reason must be a non-empty string. */
  function ParseBanBuyerInput(id: int, banReason: string): (r: Result<BanBuyerInput, Error>)
    ensures r.Success? <==> |banReason| >= 1
    ensures r.Success? ==> r.value == BanBuyerInput(id, banReason)
    ensures r.Failure? ==> r.error == InvalidInput("ban_reason")
  {
    if |banReason| < 1 then Failure(InvalidInput("ban_reason")) else Success(BanBuyerInput(id, banReason))
  }

  datatype CreateSellerInput = CreateSellerInput(telegramId: string, status: SellerStatus, statusComment: Option<string>, permanentRoundingBonus: Cents)

  /** Seller creation: a non-empty telegram id; status active or inactive, by default active;
      bonus by default 0. A missing comment and a null comment are the same. */
  function ParseCreateSellerInput(telegramId: string, status: Option<SellerStatus>, statusComment: Option<string>, permanentRoundingBonus: Option<Cents>)
    : (r: Result<CreateSellerInput, Error>)
    ensures r.Success? <==> |telegramId| >= 1 && status != Some(Banned)
    ensures r.Success? ==> r.value.telegramId == telegramId && r.value.statusComment == statusComment
    ensures r.Success? ==> r.value.status != Banned
    ensures r.Success? ==> r.value.status == (if status.Some? then status.value else DEFAULT_SELLER_STATUS)
    ensures r.Success? ==> r.value.permanentRoundingBonus == (if permanentRoundingBonus.Some? then permanentRoundingBonus.value else DEFAULT_ROUNDING_BONUS)
  {
    if |telegramId| < 1 then Failure(InvalidInput("telegram_id"))
    else if status == Some(Banned) then Failure(InvalidInput("status"))
    else Success(CreateSellerInput(telegramId, status.GetOr(DEFAULT_SELLER_STATUS), statusComment,
                                   permanentRoundingBonus.GetOr(DEFAULT_ROUNDING_BONUS)))
  }

  /** A partial seller update. statusComment is None when omitted, Some(None) for an explicit null. */
  datatype UpdateSellerInput = UpdateSellerInput(
    id: int,
    status: Option<SellerStatus>,
    statusComment: Option<Option<string>>,
    permanentRoundingBonus: Option<Cents>)

  datatype PaymentHistoryInput = PaymentHistoryInput(buyerId: int, limit: nat, offset: nat)

  /** Payment history paging: limit a positive integer (default 50), offset a non-negative one (default 0). */
  function ParsePaymentHistoryInput(buyerId: int, limit: Option<int>, offset: Option<int>)
    : (r: Result<PaymentHistoryInput, Error>)
    ensures r.Success? <==> (limit.Some? ==> limit.value > 0) && (offset.Some? ==> offset.value >= 0)
    ensures r.Success? ==> r.value.buyerId == buyerId && r.value.limit > 0
    ensures r.Success? ==> r.value.limit == (if limit.Some? then limit.value else DEFAULT_HISTORY_LIMIT)
    ensures r.Success? ==> r.value.offset == (if offset.Some? then offset.value else DEFAULT_HISTORY_OFFSET)
  {
    if limit.Some? && limit.value <= 0 then Failure(InvalidInput("limit"))
    else if offset.Some? && offset.value < 0 then Failure(InvalidInput("offset"))
    else Success(PaymentHistoryInput(buyerId, limit.GetOr(DEFAULT_HISTORY_LIMIT), offset.GetOr(DEFAULT_HISTORY_OFFSET)))
  }

  // ---------------------------------------------------------------- table constraints

  /** Serial primary keys: every row is stored under its own positive id. */
  predicate BuyersKeyed(buyers: map<int, Buyer>) {
    forall k :: k in buyers ==> buyers[k].id == k && k >= 1
  }

  predicate SellersKeyed(sellers: map<int, Seller>) {
    forall k :: k in sellers ==> sellers[k].id == k && k >= 1
  }

  predicate NumbersKeyed(numbers: map<int, NumberRow>) {
    forall k :: k in numbers ==> numbers[k].id == k && k >= 1
  }

  predicate BillingKeyed(billing: map<int, BillingRecord>) {
    forall k :: k in billing ==> billing[k].id == k && k >= 1
  }

  /** chat_id is unique among buyers. */
  predicate UniqueChatIds(buyers: map<int, Buyer>) {
    forall a, b :: a in buyers && b in buyers && buyers[a].chatId == buyers[b].chatId ==> a == b
  }

  /** telegram_id is unique among sellers. */
  predicate UniqueTelegramIds(sellers: map<int, Seller>) {
    forall a, b :: a in sellers && b in sellers && sellers[a].telegramId == sellers[b].telegramId ==> a == b
  }

  /** phone_number is unique among numbers. */
  predicate UniquePhoneNumbers(numbers: map<int, NumberRow>) {
    forall a, b :: a in numbers && b in numbers && numbers[a].phoneNumber == numbers[b].phoneNumber ==> a == b
  }

  predicate ChatIdTaken(buyers: map<int, Buyer>, chatId: string) {
    exists k :: k in buyers && buyers[k].chatId == chatId
  }

  predicate TelegramIdTaken(sellers: map<int, Seller>, telegramId: string) {
    exists k :: k in sellers && sellers[k].telegramId == telegramId
  }
}

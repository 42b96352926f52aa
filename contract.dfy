/** The streaming contract's entry points over its storage: instantiation, the token
    contract's funding notification that creates a stream, the recipient's withdrawal, and the
    three read-only queries. The request envelope is reduced to its facts: the authenticated
    caller, the block time in seconds and the host's address validator. */
module Contract {
  import opened Errors
  import opened State
  import opened Accounting

  /** The payment the contract instructs the token contract `token` to make. */
  datatype Transfer = Transfer(token: Addr, recipient: Addr, amount: u128)

  /** The funding notification sent by the token contract: who sent how much, with the
      stream the sender asks for. */
  datatype ReceiveMsg = CreateStream(recipient: string, startTime: u64, endTime: u64)
  datatype Cw20ReceiveMsg = Cw20ReceiveMsg(sender: string, amount: u128, msg: ReceiveMsg)

  datatype ConfigResponse = ConfigResponse(owner: Addr, cw20Addr: Addr)

  /** A stored stream as the query returns it; the remainder is not part of it. */
  datatype StreamResponse = StreamResponse(
    owner: Addr,
    recipient: Addr,
    amount: u128,
    claimedAmount: u128,
    ratePerSecond: u128,
    startTime: u64,
    endTime: u64)

  /** The configuration chosen at instantiation by `sender`: the declared owner when there is
      one and the host validates it, the sender otherwise; the token address must validate. */
  function InitConfig(api: Api, sender: Addr, owner: Option<string>, cw20Addr: string): (r: Result<Config, ContractError>)
    ensures r.Err? <==> api(cw20Addr).None?
    ensures r.Err? ==> r.error == InvalidAddress
    ensures r.Ok? ==> r.value.cw20Addr == api(cw20Addr).value
    ensures r.Ok? && owner.Some? && api(owner.value).Some? ==> r.value.owner == api(owner.value).value
    ensures r.Ok? && (owner.None? || api(owner.value).None?) ==> r.value.owner == sender
  {
    var effectiveOwner :=
      match owner
      case Some(declared) => (match api(declared) case Some(v) => v case None => sender)
      case None => sender;
    match api(cw20Addr)
    case None => Err(InvalidAddress)
    case Some(token) => Ok(Config(effectiveOwner, token))
  }

  /** Instantiation: saves the configuration and sets the stream counter to 0. */
  method Instantiate(api: Api, sender: Addr, owner: Option<string>, cw20Addr: string)
    returns (r: Result<Ledger, ContractError>)
    ensures r.Err? <==> InitConfig(api, sender, owner, cw20Addr).Err?
    ensures r.Err? ==> r.error == InitConfig(api, sender, owner, cw20Addr).error
    ensures r.Ok? ==>
              fresh(r.value) && r.value.Valid() && r.value.AllTermsValid() &&
              r.value.config == InitConfig(api, sender, owner, cw20Addr).value &&
              r.value.streamSeq == 0 && r.value.streams == map[] && r.value.index == map[]
  {
    var config := InitConfig(api, sender, owner, cw20Addr);
    if config.Err? {
      return Err(config.error);
    }
    var ledger := new Ledger(config.value);
    r := Ok(ledger);
  }

  /** The stream a funding notification asks for: refused unless it comes from the configured
      token contract; otherwise funded by the notification's sender with its amount. */
  function ReceiveTerms(cfg: Config, api: Api, caller: Addr, wrapped: Cw20ReceiveMsg, now: u64): (r: Result<Stream, ContractError>)
    ensures caller != cfg.cw20Addr ==> r == Err(Unauthorized)
    ensures caller == cfg.cw20Addr ==>
              r == CreateTerms(cfg, api, wrapped.sender, wrapped.msg.recipient, wrapped.amount,
                               wrapped.msg.startTime, wrapped.msg.endTime, now)
    ensures r.Ok? ==>
              caller == cfg.cw20Addr && ValidTerms(r.value) && r.value.claimedAmount == 0 &&
              r.value.owner == wrapped.sender && r.value.amount == wrapped.amount &&
              r.value.recipient == wrapped.msg.recipient
  {
    if cfg.cw20Addr != caller then Err(Unauthorized)
    else
      match wrapped.msg
      case CreateStream(recipient, startTime, endTime) =>
        CreateTerms(cfg, api, wrapped.sender, recipient, wrapped.amount, startTime, endTime, now)
  }

  /** A funding notification from `caller` at block time `now`: validates it, derives the
      stream and saves it under the next id, which it returns. A refused notification or a
      panic changes nothing. */
  method Receive(ledger: Ledger, api: Api, caller: Addr, wrapped: Cw20ReceiveMsg, now: u64)
    returns (r: Result<u64, ContractError>)
    requires ledger.Valid()
    modifies ledger
    ensures ledger.Valid() && ledger.config == old(ledger.config)
    ensures old(ledger.AllTermsValid()) ==> ledger.AllTermsValid()
    ensures r.Err? ==>
              ledger.streamSeq == old(ledger.streamSeq) && ledger.streams == old(ledger.streams) &&
              ledger.index == old(ledger.index)
    ensures match ReceiveTerms(old(ledger.config), api, caller, wrapped, now)
            case Err(e) => r == Err(e)
            case Ok(s) =>
              if old(ledger.streamSeq) == U64_MAX then r == Err(Arithmetic)
              else
                var id := old(ledger.streamSeq) + 1;
                r == Ok(id) && ledger.streamSeq == id && ledger.streams == old(ledger.streams)[id := s] &&
                ledger.index == AppendId(AppendId(old(ledger.index), s.owner, id), s.recipient, id)
  {
    var terms := ReceiveTerms(ledger.config, api, caller, wrapped, now);
    if terms.Err? {
      return Err(terms.error);
    }
    r := ledger.SaveStream(terms.value);
  }

  /** A withdrawal by `caller` from stream `id` at block time `now`: runs the precondition chain,
      adds the amount due to the claimed amount, stores the stream and returns the transfer of
      that amount to the recipient. Any refusal or panic leaves the ledger as it was. */
  method Withdraw(ledger: Ledger, caller: Addr, id: u64, now: u64) returns (r: Result<Transfer, ContractError>)
    requires ledger.Valid()
    modifies ledger
    ensures ledger.Valid() && ledger.config == old(ledger.config)
    ensures ledger.streamSeq == old(ledger.streamSeq) && ledger.index == old(ledger.index)
    ensures old(ledger.AllTermsValid()) ==> ledger.AllTermsValid()
    ensures r.Err? ==> ledger.streams == old(ledger.streams)
    ensures id !in old(ledger.streams) ==> r == Err(NotFound)
    ensures id in old(ledger.streams) ==>
              var s := old(ledger.streams)[id];
              match Settle(s, caller, now)
              case Err(e) => r == Err(e)
              case Ok(due) =>
                r == Ok(Transfer(ledger.config.cw20Addr, s.recipient, due)) &&
                ledger.streams == old(ledger.streams)[id := Claim(s, due)]
  {
    if id !in ledger.streams {
      return Err(NotFound);
    }
    var stream := ledger.streams[id];
    if stream.recipient != caller {
      return Err(NotStreamRecipient);
    }
    if stream.claimedAmount >= stream.amount {
      return Err(StreamFullyClaimed);
    }
    if stream.startTime >= now {
      return Err(StreamNotStarted);
    }

    var lastAmount: u128 := 0;
    if stream.endTime <= now {
      lastAmount := stream.lastAmount;
    }

    var unlocked := (now - stream.startTime) * stream.ratePerSecond;
    if unlocked >= U128_LIMIT || unlocked < stream.claimedAmount {
      return Err(Arithmetic);
    }
    var unclaimed := unlocked - stream.claimedAmount;
    if unclaimed + lastAmount >= U128_LIMIT {
      return Err(Arithmetic);
    }
    unclaimed := unclaimed + lastAmount;

    if stream.claimedAmount + unclaimed >= U128_LIMIT {
      return Err(Arithmetic);
    }
    stream := stream.(claimedAmount := stream.claimedAmount + unclaimed);

    ghost var before := ledger.streams;
    ledger.streams := ledger.streams[id := stream];
    forall a: Addr
      ensures IdsOf(ledger.index, a) == Participations(ledger.streams, a, ledger.streamSeq)
    {
      ParticipationsFrame(before, ledger.streams, a, ledger.streamSeq);
    }

    r := Ok(Transfer(ledger.config.cw20Addr, stream.recipient, unclaimed));
  }

  /** The stored configuration. */
  function QueryConfig(ledger: Ledger): (r: ConfigResponse)
    reads ledger
    ensures r.owner == ledger.config.owner && r.cw20Addr == ledger.config.cw20Addr
  {
    ConfigResponse(ledger.config.owner, ledger.config.cw20Addr)
  }

  /** The stream stored under `id`, without its remainder, or `NotFound`. */
  function QueryStream(ledger: Ledger, id: u64): (r: Result<StreamResponse, ContractError>)
    reads ledger
    ensures r.Ok? <==> id in ledger.streams
    ensures r.Err? ==> r.error == NotFound
    ensures r.Ok? ==>
              var s := ledger.streams[id];
              r.value.owner == s.owner && r.value.recipient == s.recipient && r.value.amount == s.amount &&
              r.value.claimedAmount == s.claimedAmount && r.value.ratePerSecond == s.ratePerSecond &&
              r.value.startTime == s.startTime && r.value.endTime == s.endTime
  {
    if id !in ledger.streams then Err(NotFound)
    else
      var s := ledger.streams[id];
      Ok(StreamResponse(s.owner, s.recipient, s.amount, s.claimedAmount, s.ratePerSecond, s.startTime, s.endTime))
  }

  /** The ids of the streams the validated `addr` funds or receives, in issue order; the empty
      list for an address never indexed. */
  function QueryIds(ledger: Ledger, api: Api, addr: string): (r: Result<seq<u64>, ContractError>)
    reads ledger
    ensures api(addr).None? <==> r == Err(InvalidAddress)
    ensures r.Err? ==> r.error == InvalidAddress
    ensures api(addr).Some? && api(addr).value !in ledger.index ==> r == Ok([])
    ensures ledger.Valid() && r.Ok? ==>
              var a := api(addr).value;
              r.value == Participations(ledger.streams, a, ledger.streamSeq) &&
              (forall k :: 0 <= k < |r.value| ==>
                 r.value[k] in ledger.streams &&
                 (ledger.streams[r.value[k]].owner == a || ledger.streams[r.value[k]].recipient == a)) &&
              (forall id :: id in ledger.streams && (ledger.streams[id].owner == a || ledger.streams[id].recipient == a)
                 ==> id in r.value)
  {
    match api(addr)
    case None => Err(InvalidAddress)
    case Some(a) =>
      ParticipationsSound(ledger.streams, a, ledger.streamSeq);
      CompleteIds(ledger, a);
      Ok(IdsOf(ledger.index, a))
  }

  /** Under the ledger invariant, every stream `a` funds or receives is in its index entry. */
  lemma CompleteIds(ledger: Ledger, a: Addr)
    ensures ledger.Valid() ==>
              forall id :: id in ledger.streams && (ledger.streams[id].owner == a || ledger.streams[id].recipient == a)
                ==> id in IdsOf(ledger.index, a)
  {
    if ledger.Valid() {
      forall id | id in ledger.streams && (ledger.streams[id].owner == a || ledger.streams[id].recipient == a)
        ensures id in IdsOf(ledger.index, a)
      {
        ParticipationsComplete(ledger.streams, a, ledger.streamSeq, id);
      }
    }
  }
}

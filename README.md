# cw-stream: a verified model of the token-streaming ledger

This project models the core of a CosmWasm contract that streams a CW20 token linearly from
an owner to a recipient. The token contract notifies the streaming contract of a deposit. The
deposit becomes a stream with a start and an end time. The recipient may withdraw the part
unlocked so far at any time.

The model keeps the contract's storage in one object, `State.Ledger`. It holds the
configuration, the stream counter, the streams by id and the participant index. Creating a
stream is a pure function, `Accounting.CreateTerms`. It does the validation and splits the
deposit into a rate per second and a remainder. `State.Ledger.SaveStream` then performs the
counter's load-increment-store and the two index appends. A withdrawal follows the code's
steps in `Contract.Withdraw`. That method is proved against `Accounting.Settle`, the function
that states the precondition chain and the payment. The money-safety properties are lemmas about
`Settle` and `Vested`. `Vested` is the total the recipient is entitled to at a given time, as the
code computes it.

Modelling choices:

- `u64` and `Uint128` are subset types of `int`. Every `checked_*().unwrap()` and the
  counter's `+ 1` is a possible abort, shown as the outcome `Err(Arithmetic)`. The host
  discards all writes of such a request, and none of the model's methods writes before it
  decides to abort.
- The host's address validation (`deps.api.addr_validate`) is the parameter `api` of type
  `string -> Option<Addr>`. `None` means the host refuses the address; the contract then fails
  with a standard error, shown as `InvalidAddress`. A missing storage key is `NotFound`.
- The caller (`info.sender`) and the block time in seconds (`env.block.time`) are parameters.
- The CW20 transfer message that a withdrawal emits is returned as a `Transfer` value.

Where the code departs from what one would expect of a streaming ledger, the model follows
the code:

- One would expect a stream's recipient to differ from its funding owner. The code does not
  check this, so an owner may stream to themself, and the new id then appears twice in their
  index entry. See `State.Ledger.SaveStream`.
- One would expect `start_time == end_time` to be refused as an invalid start time. The code
  rejects only `start > end` with `InvalidStartTime`. When `start == end`, the remainder by a
  zero duration panics, so the request aborts with no change to the state. See
  `Accounting.CreateTerms`.
- One would expect `claimed_amount` never to exceed `amount`. The code breaks this after the
  end time (see Findings). The ledger keeps the code's behaviour. The corrected settlement is
  `Accounting.SettleClamped`.

## Model

| member | source | states |
|---|---|---|
| `Contract.InitConfig` | src/contract.rs:22-29 | The effective owner is the declared owner's validated form when one is declared and validates, and the sender otherwise. The token address must validate, else `InvalidAddress`. |
| `Contract.Instantiate` | src/contract.rs:14-39 | Fails exactly when the configuration fails. On success it gives a fresh ledger holding that configuration, with the counter at 0 and no streams or index entries. The ledger invariant holds. |
| `State.Ledger.constructor` | src/contract.rs:30-33 | The saved configuration with the counter at 0; empty stream map and index; invariant established. |
| `Accounting.CreateTerms` | src/contract.rs:54-114 | Error cases in source order: owner unvalidated or not in validated form gives `InvalidAddress`/`InvalidOwner`. Recipient unvalidated, not in validated form, or equal to the configured owner gives `InvalidAddress`/`InvalidRecipient`. An effective start after the end or before the block time gives `InvalidStartTime`. A deposit below the duration gives `InvalidDuration`. Start equal to end aborts. It succeeds exactly when none of these apply. The stream then has the effective start, zero claimed, `last_amount = amount % duration`, the exact split `rate*duration + last == amount` and `rate >= 1`. |
| `Accounting.SplitDeposit` | src/contract.rs:96-103 | For `0 < duration <= amount`, take the remainder first and divide what is left. The remainder is below the duration, the rate is at least 1 and at most the amount, and rate times duration plus the remainder is the amount. |
| `Contract.ReceiveTerms` | src/contract.rs:132-151 | A notification not sent by the configured token contract fails with `Unauthorized`. Otherwise the result is the stream creation for the notification's sender and amount. A created stream's owner is that sender and its amount is that amount. |
| `Contract.Receive` | src/contract.rs:126-153 | Any refusal or abort leaves the counter, streams and index unchanged. On success the new id is old counter + 1 and becomes the counter. The stream is stored under it, and the id is appended to the owner's and then the recipient's index entries. The ledger invariant and the stored streams' terms are preserved. |
| `State.Ledger.SaveStream` | src/state.rs:33-59 | Load-increment-store on the counter, aborting at the largest `u64`. The new id was not in use. The stream is stored under it and no other stream changes. The id is appended at the end of the owner's entry, then of the recipient's entry, with a missing entry read as empty. The id appears twice when owner and recipient coincide. Other addresses' entries are unchanged. The ids stay exactly 1..counter. |
| `State.AppendId` | src/state.rs:37-45 | Appending to a missing entry yields `[id]`. An existing entry keeps its earlier ids and gets the id at the end. Every other address's entry is unchanged. |
| `State.ParticipationsFrame` | src/state.rs:33-58 | The index content an address is owed depends only on which ids exist and on those streams' owner and recipient. So a withdrawal, or storing a new id above the counter, leaves it unchanged. |
| `State.ParticipationsSound` | src/state.rs:37-55 | Every id listed for an address is an issued id of a stream that address owns or receives. |
| `State.ParticipationsComplete` | src/state.rs:37-55 | Every issued stream an address owns or receives is listed for it. |
| `State.ParticipationsOrdered` | src/state.rs:37-55 | Ids are listed in issue order: the list of an address never decreases. |
| `State.AppendOwnerThenRecipient` | src/state.rs:37-55 | Appending the id for the owner and then for the recipient adds it at the end of an address's entry once per role the address plays: twice when owner and recipient coincide, not at all for other addresses. |
| `State.SaveConsistent` | src/state.rs:34-58 | Storing a stream under counter + 1 and appending that id for its owner and then its recipient keeps the ids exactly 1..counter + 1 and every index entry exactly its participations. |
| `State.StoreKeepsTerms` | src/state.rs:58 | Storing a stream with valid terms keeps every stored stream's terms valid. |
| `Accounting.Settle` | src/contract.rs:161-196 | The withdrawal checks run in order: caller not the recipient gives `NotStreamRecipient`, claimed at least the amount gives `StreamFullyClaimed`, `now <= start` gives `StreamNotStarted`. Past them, the withdrawal succeeds exactly when the linear part `(now-start)*rate` covers the claimed amount (so the subtraction of `claimed` before the bonus does not underflow) and the new total fits in `u128`. Otherwise it aborts. On success, claimed plus the payment equals the entitlement at `now`. |
| `Contract.Withdraw` | src/contract.rs:155-214 | A missing id gives `NotFound`. Otherwise the outcome is that of `Settle`. Every refusal or abort leaves the streams unchanged. On success only that stream's `claimed_amount` changes, growing by exactly the payment. The transfer carries the same amount to the stream's recipient through the configured token. Counter, index and invariant are preserved. |
| `Accounting.VestedWithinDeposit` | src/contract.rs:175-189 | Up to the end time the entitlement never exceeds the deposit, and at the end time it is exactly the deposit. |
| `Accounting.VestedMonotone` | src/contract.rs:181-189 | The entitlement never decreases with time. |
| `Accounting.VestedBeforeEnd` | src/contract.rs:181-189 | Before the end the entitlement is `(t-start)*rate`, with no remainder, and it is at least one rate short of the deposit. |
| `Accounting.SettleDelta` | src/contract.rs:175-196 | Take a stream settled up to `t1`, by any number of earlier withdrawals or none. A withdrawal at a later `t2` up to the end succeeds and pays the entitlement gained since `t1`: exactly `rate*(t2-t1)` before the end, plus the remainder once at the end. |
| `Accounting.SettledAtMaturity` | src/contract.rs:166-196 | A withdrawal at exactly the end time leaves `claimed_amount == amount`. Every later withdrawal by the recipient fails with `StreamFullyClaimed`. |
| `Accounting.NoDoublePayment` | src/contract.rs:161-198 | Take withdrawals at non-decreasing times up to the end, starting from a settled stream. The total they pay is exactly what they add to the claimed amount. The claimed amount never exceeds the deposit. |
| `Accounting.EvenDepositExample` | src/contract.rs:96-196 | 1000 over 100 seconds: rate 10, no remainder; 500 at half-way and the other 500 at the end. |
| `Accounting.RemainderExample` | src/contract.rs:96-196 | 1005 over 100 seconds: rate 10, remainder 5. The remainder is never paid before the end and is paid once at the end. Afterwards the stream is fully claimed. |
| `Accounting.OverpayAfterMaturity` | src/contract.rs:176-189 | As written: a successful withdrawal after the end leaves claimed equal to the deposit plus `rate*(now-end)`, which is more than the deposit. |
| `Accounting.OverpayExample` | src/contract.rs:176-189 | As written: 1000 over seconds 100..200 at rate 10, withdrawn at 300, pays 2000. |
| `Accounting.CreatedStreamNeverOverpaid` | src/contract.rs:96-198 | For a stream as creation produces it, any withdrawals at non-decreasing times up to its end pay in total exactly its final claimed amount, which is at most its deposit. |
| `Accounting.SettleClamped` | src/contract.rs:176-189 | Corrected settlement, the code as written with the block time capped at the end: claimed plus the payment is the linear part up to the earlier of `now` and the end, plus the remainder once the end is reached. |
| `Accounting.SettleClampedWithinDeposit` | src/contract.rs:176-189 | The corrected settlement never pays beyond the deposit. At or after the end it settles the stream exactly to the deposit. Up to the end it agrees with the code as written. |
| `Contract.QueryConfig` | src/contract.rs:225-231 | Read-only: returns the recorded owner and token address. |
| `Contract.QueryStream` | src/contract.rs:233-244 | Read-only. Succeeds exactly when the id is stored, returning that stream's fields without the remainder. Otherwise `NotFound`. |
| `Contract.QueryIds` | src/contract.rs:247-259 | Read-only. An address the host refuses gives `InvalidAddress`. A validated address with no index entry gets the empty list. Under the ledger invariant the list is exactly the streams the address owns or receives, in issue order. |
| `Contract.CompleteIds` | src/contract.rs:249-258 | Under the ledger invariant, every stream an address owns or receives is in its index entry. |

The ledger invariant `State.Ledger.Valid` has two parts. The ids in use are exactly
1..counter, so ids are dense from 1, never reused, and counted by the counter. Each address's
index entry is exactly its participations in issue order. `State.Ledger.AllTermsValid` says
that every stored stream keeps the exact split it was created with. `Valid` is preserved by
every state-changing method. `AllTermsValid` is preserved by `Contract.Receive` and
`Contract.Withdraw`, and by `State.Ledger.SaveStream` only when the stream it saves has valid
terms, which every stream from `Accounting.CreateTerms` has.

## Left out

- Entry-point plumbing: the `entry_point` attributes, the `execute` and `query` dispatch,
  `set_contract_version` and the response attributes. They are host glue with no behaviour
  of their own.
- Wire (de)serialisation: `from_binary` of the notification's message and `to_binary` of
  query responses. `Contract.Receive` takes the message already decoded, so a malformed message
  is not modelled.
- `deps.api.addr_validate` is foreign code. It is represented by the `api` parameter and its
  normalisation is not modelled.
- The CW20 `Transfer` message construction is cross-contract. It is returned as a `Transfer`
  value, and its execution by the token contract is outside the model.
- Storage failures other than a missing key are not modelled, and neither is a request that
  reaches the contract before instantiation. A `Ledger` exists only after `Contract.Instantiate`.
- `src/error.rs` is not part of this model. Its variants are the plain enum `ContractError`.
- Atomic rollback by the host is not modelled as such. Every method refuses or aborts
  before its first write, which has the same effect.
- The counter's `id + 1` is modelled as aborting at the largest `u64`, as with overflow checks
  enabled. The build profile is not part of this model.
- `Contract.Receive` returns the new stream id, which the source does not put in its response.
  It is the id both the counter and the stream map receive.

## Findings

| source | as written | input that shows it | evidently intended | confidence | as-written member | corrected member |
|---|---|---|---|---|---|---|
| src/contract.rs:176-189 | a withdrawal after `end_time` computes the linear part from `block_time - start_time` without capping `block_time` at `end_time`, and adds the remainder as well | stream of 1000 from time 100 to 200 (rate 10, remainder 0), never withdrawn, withdrawn by its recipient at time 300: pays 2000, drawing 1000 from other streams' deposits | cap the elapsed time at `end_time`, so that claimed never exceeds the deposit and the final withdrawal settles it exactly | high; not executed | `Accounting.OverpayAfterMaturity` | `Accounting.SettleClampedWithinDeposit` |

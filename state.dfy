/** The persisted state of the streaming contract: the configuration record, the stream
    record, and the four storage items (configuration, id counter, streams by id, stream ids by
    participant), held by one `Ledger` object whose `SaveStream` method performs the
    registry's load-increment-store and the two index appends. */
module State {
  import opened Errors

  const U64_LIMIT: int := 0x1_0000_0000_0000_0000
  const U128_LIMIT: int := 0x1_0000_0000_0000_0000_0000_0000_0000_0000
  const U64_MAX: int := U64_LIMIT - 1

  /** Rust's `u64` (timestamps, stream ids) and `Uint128` (token amounts). */
  type u64 = x: int | 0 <= x < U64_LIMIT
  type u128 = x: int | 0 <= x < U128_LIMIT

  /** A validated address. Validation itself belongs to the host (see `Api`). */
  type Addr = string

  /** The host's address validator: `Some(a)` is the validated form of the input, `None`
      that the host refuses it. */
  type Api = string -> Option<Addr>

  datatype Config = Config(owner: Addr, cw20Addr: Addr)

  datatype Stream = Stream(
    owner: Addr,
    recipient: Addr,
    amount: u128,
    lastAmount: u128,
    claimedAmount: u128,
    startTime: u64,
    endTime: u64,
    ratePerSecond: u128)

  /** The terms every stream is created with: a non-empty window, and a deposit that
      decomposes exactly into a linear part of at least one unit per second and a remainder
      shorter than the window. Withdrawals change only `claimedAmount`, so a stream keeps them. */
  predicate ValidTerms(s: Stream) {
    var duration := s.endTime - s.startTime;
    s.startTime < s.endTime &&
    s.lastAmount < duration &&
    1 <= s.ratePerSecond &&
    s.ratePerSecond * duration + s.lastAmount == s.amount
  }

  /** The index entry of `a`; an address never indexed reads as the empty list. */
  function IdsOf(index: map<Addr, seq<u64>>, a: Addr): seq<u64> {
    if a in index then index[a] else []
  }

  /** The index after appending `id` to the entry of `a`. */
  function AppendId(index: map<Addr, seq<u64>>, a: Addr, id: u64): (r: map<Addr, seq<u64>>)
    ensures IdsOf(r, a) == IdsOf(index, a) + [id]
    ensures forall b :: b != a ==> IdsOf(r, b) == IdsOf(index, b)
  {
    index[a := IdsOf(index, a) + [id]]
  }

  /** The ids among 1..n in which `a` takes part, in id order: each id once for `a` being its
      owner and once more for `a` being its recipient. */
  ghost function Participations(streams: map<u64, Stream>, a: Addr, n: u64): seq<u64>
    decreases n
  {
    if n == 0 then []
    else
      var earlier := Participations(streams, a, n - 1);
      if n in streams then
        earlier + (if streams[n].owner == a then [n] else [])
                + (if streams[n].recipient == a then [n] else [])
      else earlier
  }

  /** Streams whose ids up to `n` are the same and have the same parties give the same
      participations. */
  lemma {:induction false} ParticipationsFrame(s1: map<u64, Stream>, s2: map<u64, Stream>, a: Addr, n: u64)
    requires forall i: u64 :: 1 <= i <= n ==> (i in s1 <==> i in s2)
    requires forall i: u64 :: 1 <= i <= n && i in s1 && i in s2 ==>
               s1[i].owner == s2[i].owner && s1[i].recipient == s2[i].recipient
    ensures Participations(s1, a, n) == Participations(s2, a, n)
    decreases n
  {
    if n > 0 {
      ParticipationsFrame(s1, s2, a, n - 1);
    }
  }

  /** Every id listed for `a` is a stored stream with id at most `n` that `a` owns or receives. */
  lemma {:induction false} ParticipationsSound(streams: map<u64, Stream>, a: Addr, n: u64)
    ensures forall k :: 0 <= k < |Participations(streams, a, n)| ==>
              var id := Participations(streams, a, n)[k];
              1 <= id <= n && id in streams && (streams[id].owner == a || streams[id].recipient == a)
    decreases n
  {
    if n > 0 {
      ParticipationsSound(streams, a, n - 1);
    }
  }

  /** Every stored stream with id at most `n` that `a` owns or receives is listed for `a`. */
  lemma {:induction false} ParticipationsComplete(streams: map<u64, Stream>, a: Addr, n: u64, id: u64)
    requires 1 <= id <= n && id in streams
    requires streams[id].owner == a || streams[id].recipient == a
    ensures id in Participations(streams, a, n)
    decreases n
  {
    if id < n {
      ParticipationsComplete(streams, a, n - 1, id);
    }
  }

  /** The ids listed for `a` never decrease along the list. */
  lemma {:induction false} ParticipationsOrdered(streams: map<u64, Stream>, a: Addr, n: u64)
    ensures forall j, k :: 0 <= j < k < |Participations(streams, a, n)| ==>
              Participations(streams, a, n)[j] <= Participations(streams, a, n)[k]
    decreases n
  {
    if n > 0 {
      ParticipationsOrdered(streams, a, n - 1);
      ParticipationsSound(streams, a, n - 1);
    }
  }

  /** The ids in use are exactly 1..n, and the index lists, for every address, exactly the
      streams it takes part in, in issue order. */
  ghost predicate Consistent(streams: map<u64, Stream>, index: map<Addr, seq<u64>>, n: u64) {
    (forall id: u64 :: id in streams <==> 1 <= id <= n) &&
    (forall a: Addr :: IdsOf(index, a) == Participations(streams, a, n))
  }

  /** Storing a stream under the next id and appending that id for its owner and then its
      recipient keeps the index consistent. */
  lemma SaveConsistent(streams: map<u64, Stream>, index: map<Addr, seq<u64>>, n: u64, stream: Stream)
    requires Consistent(streams, index, n) && n < U64_MAX
    ensures var id := n + 1;
            Consistent(streams[id := stream], AppendId(AppendId(index, stream.owner, id), stream.recipient, id), id)
  {
    var id: u64 := n + 1;
    var streams', index' := streams[id := stream], AppendId(AppendId(index, stream.owner, id), stream.recipient, id);
    AppendOwnerThenRecipient(index, stream.owner, stream.recipient, id);
    forall a: Addr
      ensures IdsOf(index', a) == Participations(streams', a, id)
    {
      ParticipationsFrame(streams, streams', a, n);
    }
  }

  /** Every stream in `streams` has valid terms. */
  ghost predicate TermsValid(streams: map<u64, Stream>) {
    forall id :: id in streams ==> ValidTerms(streams[id])
  }

  /** Storing a stream with valid terms keeps every stored stream's terms valid. */
  lemma StoreKeepsTerms(streams: map<u64, Stream>, id: u64, stream: Stream)
    requires TermsValid(streams) && ValidTerms(stream)
    ensures TermsValid(streams[id := stream])
  {
  }

  /** Appending `id` for the owner and then for the recipient adds it once per role the
      address plays, at the end of its entry: twice when owner and recipient coincide. */
  lemma AppendOwnerThenRecipient(index: map<Addr, seq<u64>>, owner: Addr, recipient: Addr, id: u64)
    ensures var after := AppendId(AppendId(index, owner, id), recipient, id);
            (forall a :: IdsOf(after, a) ==
                         IdsOf(index, a) + (if a == owner then [id] else []) + (if a == recipient then [id] else [])) &&
            (owner == recipient ==> IdsOf(after, owner) == IdsOf(index, owner) + [id, id])
  {
    var middle := AppendId(index, owner, id);
    var after := AppendId(middle, recipient, id);
    forall a
      ensures IdsOf(after, a) ==
              IdsOf(index, a) + (if a == owner then [id] else []) + (if a == recipient then [id] else [])
    {
      if a == recipient {
        assert IdsOf(after, a) == IdsOf(middle, a) + [id];
      } else {
        assert IdsOf(after, a) == IdsOf(middle, a);
      }
      if a == owner {
        assert IdsOf(middle, a) == IdsOf(index, a) + [id];
      } else {
        assert IdsOf(middle, a) == IdsOf(index, a);
      }
    }
    if owner == recipient {
      assert IdsOf(after, owner) == IdsOf(index, owner) + [id] + [id];
      assert IdsOf(index, owner) + [id] + [id] == IdsOf(index, owner) + [id, id];
    }
  }

  /** The contract's storage. */
  class Ledger {
    var config: Config
    var streamSeq: u64
    var streams: map<u64, Stream>
    var index: map<Addr, seq<u64>>

    /** The ids issued so far are exactly 1..streamSeq, and the index lists, for every address,
        exactly the streams it takes part in, in issue order. */
    ghost predicate Valid()
      reads this
    {
      Consistent(streams, index, streamSeq)
    }

    /** Every stored stream has the terms it was created with. */
    ghost predicate AllTermsValid()
      reads this
    {
      TermsValid(streams)
    }

    /** The state right after instantiation: the configuration saved and the counter at 0. */
    constructor (config: Config)
      ensures Valid() && AllTermsValid()
      ensures this.config == config && streamSeq == 0
      ensures streams == map[] && index == map[]
    {
      this.config := config;
      streamSeq := 0;
      streams := map[];
      index := map[];
    }

    /** Issues the next id, appends it to the owner's and then to the recipient's index entry,
        saves the counter and stores the stream under the new id. The increment panics when the
        counter is already at the largest `u64`. */
    method SaveStream(stream: Stream) returns (r: Result<u64, ContractError>)
      requires Valid()
      modifies this
      ensures Valid()
      ensures config == old(config)
      ensures old(streamSeq) == U64_MAX ==>
                r == Err(Arithmetic) && streamSeq == old(streamSeq) && streams == old(streams) && index == old(index)
      ensures old(streamSeq) < U64_MAX ==>
                r == Ok(old(streamSeq) + 1) && streamSeq == old(streamSeq) + 1 && old(streamSeq) + 1 !in old(streams) &&
                streams == old(streams)[streamSeq := stream] &&
                index == AppendId(AppendId(old(index), stream.owner, streamSeq), stream.recipient, streamSeq)
      ensures old(streamSeq) < U64_MAX && stream.owner == stream.recipient ==>
                IdsOf(index, stream.owner) == IdsOf(old(index), stream.owner) + [streamSeq, streamSeq]
      ensures forall a :: a != stream.owner && a != stream.recipient ==> IdsOf(index, a) == IdsOf(old(index), a)
      ensures old(AllTermsValid()) && ValidTerms(stream) ==> AllTermsValid()
    {
      var id := streamSeq;
      if id == U64_MAX {
        return Err(Arithmetic);
      }
      id := id + 1;

      SaveConsistent(streams, index, streamSeq, stream);
      AppendOwnerThenRecipient(index, stream.owner, stream.recipient, id);
      if TermsValid(streams) && ValidTerms(stream) {
        StoreKeepsTerms(streams, id, stream);
      }

      var ids := IdsOf(index, stream.owner);
      ids := ids + [id];
      index := index[stream.owner := ids];

      var rIds := IdsOf(index, stream.recipient);
      rIds := rIds + [id];
      index := index[stream.recipient := rIds];

      streamSeq := id;
      streams := streams[id := stream];
      r := Ok(id);
    }
  }
}

/**
 * The parcel records the client pages hold, the real-time events they
 * receive, the ways the pages merge an event's fields into a parcel, and
 * the subscribe/unsubscribe messages a page sends for one parcel.
 */
module Parcels {
  import opened Wrappers
  import Seqs

  /** Milliseconds since the epoch (the ISO text the server sends denotes one). */
  type Timestamp = int

  datatype Location = Location(lat: real, lng: real, updatedAt: Option<Timestamp>)

  /** A parcel's `agent`: a populated user document or a bare id. */
  datatype AgentRef = AgentDoc(id: string, name: string) | AgentIdRef(id: string)

  /** `!!parcel.agent`: a document is always true; a bare id is true unless empty. */
  predicate AgentTruthy(a: Option<AgentRef>)
  {
    a.Some? && (a.value.AgentDoc? || a.value.id != "")
  }

  /**
   * A parcel as the pages hold it. Text fields the server leaves out are
   * the empty text, which every page treats the same way as a missing one.
   */
  datatype Parcel = Parcel(
    id: string,
    trackingCode: string,
    status: string,
    agent: Option<AgentRef>,
    pickupAddress: string,
    deliveryAddress: string,
    parcelType: string,
    paymentType: string,
    codAmount: real,
    currentLocation: Option<Location>,
    etaMinutes: Option<int>)

  /** A key of an event object: missing, present but null or undefined, or carrying a value. */
  datatype Field<T> = Absent | Null | Present(value: T)

  /** A `parcel:update` event. */
  datatype StatusUpdate = StatusUpdate(id: string, status: string, agent: Field<AgentRef>)

  /** A `parcel:location` event; each page reads its own subset of these keys. */
  datatype LocationUpdate = LocationUpdate(
    id: Option<string>,
    parcelId: Option<string>,
    location: Option<Location>,
    currentLocation: Option<Location>,
    etaMinutes: Option<int>)

  /** `incoming || prior` on an agent. */
  function AgentOr(prior: Option<AgentRef>, incoming: Field<AgentRef>): (r: Option<AgentRef>)
  {
    if incoming.Present? && AgentTruthy(Some(incoming.value)) then Some(incoming.value) else prior
  }

  /** `incoming ?? prior` on an agent. */
  function AgentNullish(prior: Option<AgentRef>, incoming: Field<AgentRef>): (r: Option<AgentRef>)
  {
    if incoming.Present? then Some(incoming.value) else prior
  }

  /** `{...prior, ...event}` on the agent key: a key the event carries wins, even a null one. */
  function AgentSpread(prior: Option<AgentRef>, incoming: Field<AgentRef>): (r: Option<AgentRef>)
  {
    match incoming
    case Absent => prior
    case Null => None
    case Present(a) => Some(a)
  }

  /**
   * The `||` merge and the `??` merge agree except on one input: an event
   * whose agent is the empty id, which `??` stores and `||` ignores.
   */
  lemma OrVersusNullish(prior: Option<AgentRef>, incoming: Field<AgentRef>)
    ensures AgentOr(prior, incoming) != AgentNullish(prior, incoming)
        <==> incoming == Present(AgentIdRef("")) && prior != Some(AgentIdRef(""))
  {
  }

  /**
   * The spread merge differs from `??` only when the event sets the agent to
   * null: the spread then clears the agent, `??` keeps the previous one.
   */
  lemma SpreadVersusNullish(prior: Option<AgentRef>, incoming: Field<AgentRef>)
    ensures AgentSpread(prior, incoming) != AgentNullish(prior, incoming)
        <==> incoming == Null && prior.Some?
  {
  }

  /** `{...parcel, ...event}` for a `parcel:update` event. */
  function MergeUpdate(p: Parcel, u: StatusUpdate): Parcel
  {
    p.(status := u.status, agent := AgentSpread(p.agent, u.agent))
  }

  /** The ids of a parcel list, in order. */
  function Ids(ps: seq<Parcel>): (r: seq<string>)
    ensures |r| == |ps| && forall i :: 0 <= i < |ps| ==> r[i] == ps[i].id
  {
    if ps == [] then [] else [ps[0].id] + Ids(ps[1..])
  }

  /**
   * `list.map(x => x._id === updated._id ? updated : x)`: the parcel with
   * that id is replaced, every other parcel is kept, and the list keeps its
   * ids in the same order.
   */
  function ReplaceById(ps: seq<Parcel>, updated: Parcel): (r: seq<Parcel>)
    ensures Ids(r) == Ids(ps)
    ensures forall i :: 0 <= i < |ps| && ps[i].id != updated.id ==> r[i] == ps[i]
    ensures forall i :: 0 <= i < |ps| && ps[i].id == updated.id ==> r[i] == updated
    ensures updated.id in Ids(ps) <==> updated in r
  {
    Seqs.MapWhere(ps, (x: Parcel) => x.id == updated.id, (x: Parcel) => updated)
  }

  /**
   * The answer of an API call: its value, or the thrown error's `message`,
   * which may be missing. It is kept apart from `Result` because the client
   * never builds a failure of its own: every `Err` is a rejected `apiFetch`
   * promise caught by a `catch`, and its payload is what `err.message` reads.
   */
  datatype ApiReply<T> = Ok(value: T) | Err(message: Option<string>)

  /** What a page sends to the server about one parcel's room. */
  datatype ClientEmit = Subscribe(parcelId: string) | Unsubscribe(parcelId: string)

  /**
   * The effect of one message on the subscription a page holds open:
   * `Some(None)` none, `Some(Some(id))` that parcel's room, and `None` once
   * a message arrived out of order (a second subscribe, or an unsubscribe
   * for a room that is not the open one).
   */
  function PairStep(open: Option<Option<string>>, e: ClientEmit): Option<Option<string>>
  {
    match e
    case Subscribe(x) => if open == Some(None) then Some(Some(x)) else None
    case Unsubscribe(x) => if open == Some(Some(x)) then Some(None) else None
  }

  /** The subscription a message history leaves open, if the history is well paired. */
  function Pairing(sent: seq<ClientEmit>): Option<Option<string>>
  {
    if sent == [] then Some(None) else PairStep(Pairing(sent[..|sent| - 1]), sent[|sent| - 1])
  }

  lemma PairingAppend(sent: seq<ClientEmit>, e: ClientEmit)
    ensures Pairing(sent + [e]) == PairStep(Pairing(sent), e)
  {
    assert (sent + [e])[..|sent|] == sent;
  }

  /**
   * A well-paired history alternates subscribe and unsubscribe, and every
   * unsubscribe names the room the subscribe before it opened.
   */
  lemma {:induction false} PairedAlternates(sent: seq<ClientEmit>)
    requires Pairing(sent).Some?
    ensures forall i :: 0 <= i < |sent| && sent[i].Unsubscribe? ==>
      i > 0 && sent[i - 1] == Subscribe(sent[i].parcelId)
    ensures sent != [] && sent[|sent| - 1].Subscribe? ==> Pairing(sent) == Some(Some(sent[|sent| - 1].parcelId))
    ensures sent != [] && sent[|sent| - 1].Unsubscribe? ==> Pairing(sent) == Some(None)
  {
    if sent != [] {
      var init := sent[..|sent| - 1];
      PairedAlternates(init);
      assert sent == init + [sent[|sent| - 1]];
    }
  }
}

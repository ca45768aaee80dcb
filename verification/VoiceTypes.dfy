/** The records the SFU event loop owns, and the answers it gets from outside. */
module VoiceTypes {
  import opened Basics

  type Sid = nat
  type Mid = nat
  type Instant = nat

  /** A relay-assigned participant id. Minted from a counter, so the counter value stands for the hash. */
  type SfuId = nat

  /** `(owner_pubkey, token_hash)`. */
  datatype CallKey = CallKey(owner: seq<byte>, hash: seq<byte>)

  datatype SlotInfo = SlotInfo(maxParticipants: Option<nat>)

  datatype Call = Call(cap: nat, participants: seq<Sid>, emptySince: Option<Instant>)

  datatype Phase = AwaitingJoin | AwaitingOffer | Steady

  /** An SSRC is either the one announced for an m-line in the server's SDP or one from the session's allocator. */
  datatype Ssrc = Announced(mid: Mid) | Allocated(n: nat)

  datatype TxSlot = TxSlot(mid: Mid, ssrc: Ssrc, declared: bool)

  /** One inbound RTP packet; everything in it is forwarded verbatim. */
  datatype Packet = Packet(seqNo: nat, timestamp: nat, marker: bool, exts: seq<byte>, payload: seq<byte>)

  /** What the loop can observe of one str0m `Rtc`. */
  datatype Rtc = Rtc(inbound: seq<Packet>, nextMid: Mid)

  datatype Source = Source(src: Sid, sfu: SfuId)

  /**
   * Downstream side of a session: slots by source, sources still to be offered, and whether an offer is in flight.
   */
  datatype Links = Links(slots: map<Sid, TxSlot>, queued: seq<Source>, offerPending: bool)

  datatype Session = Session(
    owner: seq<byte>,
    sfuId: SfuId,
    callKey: Option<CallKey>,
    phase: Phase,
    rtc: Option<Rtc>,
    nextTimeout: Option<Instant>,
    tx: Links,
    nextSsrc: nat,
    opusPt: Option<nat>)

  datatype ErrorCode = BadToken | Busy | Protocol | Internal

  datatype ServerFrame =
    | JoinAck(sfu: SfuId, cap: nat, present: seq<SfuId>)
    | Offer(mids: seq<Mid>)
    | Answer
    | PeerJoined(sfu: SfuId, mid: Mid)
    | PeerLeft(sfu: SfuId)
    | Full
    | Bye
    | Error(code: ErrorCode)

  /** How the library reads a client's SDP offer. */
  datatype OfferSdp = BadOffer | RefusedOffer | GoodOffer(opusPt: Option<nat>)

  /** How the library reads a client's SDP answer; `streams` are the m-lines that got a stream from the SDP. */
  datatype AnswerSdp = BadAnswer | RefusedAnswer | GoodAnswer(streams: set<Mid>)

  datatype ClientFrame =
    | Join(token: seq<byte>)
    | ClientOffer(offer: OfferSdp)
    | ClientAnswer(answer: AnswerSdp)
    | Ice(parses: bool)
    | ClientBye

  /** One whole polling of an `Rtc`: the nudge, the events besides RTP, and how the poll ended. */
  datatype PollEnd = Idle(next: Instant) | PollError(taken: nat)
  datatype Poll = Poll(nudgeFails: bool, disconnected: bool, alive: bool, end: PollEnd)

  /**
   * One outbound stream of a target: whose audio it carries, from which of that source's packets on, and what was
   * written.
   */
  datatype Stream = Stream(source: Sid, start: nat, log: seq<Packet>)
  datatype StreamKey = StreamKey(target: Sid, ssrc: Ssrc)

  /** Everything outside the loop, indexed by the number of questions asked so far. */
  datatype World = World(
    hash: seq<byte> -> seq<byte>,
    delivers: nat -> bool,
    now: nat -> Instant,
    poll: nat -> Poll)

  datatype Cfg = Cfg(maxParticipants: nat, maxConcurrentCalls: nat, idleReap: nat)

  datatype Env = Env(w: World, cfg: Cfg)

  datatype Registry = Registry(slots: map<CallKey, SlotInfo>)

  datatype Table = Table(sessions: map<Sid, Session>, calls: map<CallKey, Call>)

  /** Work list, counters, the number of questions asked so far, and whether the loop has panicked. */
  datatype Loop = Loop(dirty: seq<Sid>, nextSid: Sid, idCounter: nat, tick: nat, crashed: bool)

  /**
   * What has been seen on the loop's edges: the call each session was admitted to, the frames delivered to it,
   * the answers accepted from it, the packets that reached its `Rtc` and those handed on for forwarding, and every
   * outbound stream. Closed sessions keep theirs.
   */
  datatype Past = Past(
    room: map<Sid, CallKey>,
    sent: map<Sid, seq<ServerFrame>>,
    accepted: map<Sid, nat>,
    arrived: map<Sid, seq<Packet>>,
    heard: map<Sid, seq<Packet>>,
    streams: map<StreamKey, Stream>)

  datatype Srv = Srv(env: Env, registry: Registry, table: Table, loop: Loop, past: Past)

  function NewRtc(): Rtc { Rtc([], 0) }

  function NewSession(owner: seq<byte>): Session {
    Session(owner, 0, None, AwaitingJoin, None, None, Links(map[], [], false), 0, None)
  }
}

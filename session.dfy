/**
 * The disgo HTTP handlers `join` and `leave`: a registry from voice-channel id
 * to the hub subscription that feeds that channel.
 *
 * Decoding the request body and the Discord voice join itself are outside
 * the model: the result of `JoinVoiceChannel` is a parameter. `join` calls
 * `SendAudio` in the handler itself, before it answers, so how that call ends
 * decides whether the client gets an answer at all. The HTTP status is the
 * first one the handler writes, as with Go's `ResponseWriter.WriteHeader`.
 */
module Session {
  import opened Wrappers
  import opened BroadcastHub
  import Ingress

  const StatusCreated: int := 201
  const StatusBadGateway: int := 502

  /**
   * A voice connection returned by the Discord client; `ready` stands for
   * `Ready` with an `OpusSend` channel present.
   */
  datatype VoiceConnection = VoiceConnection(guildId: string, channelId: string, ready: bool)

  /** How a call of `SendAudio` ends. */
  datatype SendOutcome =
    | Returns   // the connection is not ready: the call returns at once
    | Streams   // a ready connection: packets are forwarded until the subscription is
                //   closed, then the nil packet panics; the call never returns normally
    | NilPanic  // a nil connection: reading its `Ready` field panics

  /** `SendAudio` on the connection `join` stored (None is Go's nil). */
  function SendAudio(v: Option<VoiceConnection>): (r: SendOutcome)
    ensures r == NilPanic <==> v.None?
    ensures r == Streams <==> v.Some? && v.value.ready
    ensures r == Returns <==> v.Some? && !v.value.ready
  {
    match v
    case None => NilPanic
    case Some(c) => if c.ready then Streams else Returns
  }

  /** The body of a join or leave request. */
  datatype JoinPayload = JoinPayload(guildId: string, channelId: string)

  /** `WriteHeader`: only the first status written reaches the client (0 means none yet). */
  function WriteHeader(written: int, code: int): (r: int)
    ensures written != 0 ==> r == written
    ensures written == 0 ==> r == code
  {
    if written != 0 then written else code
  }

  /**
   * The registry a join leaves behind: an earlier subscription under the same
   * channel id stays registered with the hub and unclosed, though the map
   * no longer names it.
   */
  lemma RejoinKeepsEarlier<T>(h: Hub<T>, c: Chan)
    requires Valid(h) && h.running && c in h.listeners
    ensures c in Step(h, Add).listeners
    ensures c !in Step(h, Add).closed
  {
  }

  class Relay {
    /** The global `listeners` map. */
    var listeners: map<string, Chan>
    /** `d.voice_connections`; a failed join stores a nil connection. */
    var voiceConnections: map<string, Option<VoiceConnection>>
    /** The broadcaster the handlers were built with. */
    const hub: BroadcastServer<Ingress.Packet>

    ghost predicate Valid()
      reads this, hub
    {
      BroadcastHub.Valid(hub.State())
    }

    constructor (hub: BroadcastServer<Ingress.Packet>)
      requires BroadcastHub.Valid(hub.State())
      ensures this.hub == hub && listeners == map[] && voiceConnections == map[]
      ensures Valid()
    {
      this.hub := hub;
      listeners := map[];
      voiceConnections := map[];
    }

    /**
     * `join`: a failed voice join writes 502 but the handler carries on,
     * stores the (nil) connection, subscribes and registers the subscription,
     * then calls `SendAudio`. `written` is the status written before that call
     * (0 for none); `status` is the answer the client receives, None when the
     * handler never finishes: on a ready connection `SendAudio` forwards
     * packets until the subscription is closed (by `leave`) and then panics
     * on the nil packet it receives, on the nil connection it panics at once,
     * and a handler that panics sends
     * nothing, not even the 502 it wrote. Only a joined connection that is not
     * ready gets an answer, and that answer is 201.
     */
    method Join(t: JoinPayload, joined: Result<VoiceConnection, string>) returns (written: int, status: Option<int>)
      requires Valid()
      modifies this, hub
      ensures written == (if joined.Failure? then StatusBadGateway else 0)
      ensures status.Some? <==> joined.Success? && !joined.value.ready
      ensures status.Some? ==> status.value == StatusCreated
      ensures voiceConnections == old(voiceConnections)[t.channelId := if joined.Success? then Some(joined.value) else None]
      ensures hub.State() == Step(old(hub.State()), Add)
      ensures t.channelId in listeners
      ensures listeners == old(listeners)[t.channelId := listeners[t.channelId]]
      ensures old(hub.running) ==> listeners[t.channelId] == Chan(old(hub.nextId))
      ensures Valid()
    {
      written := 0;
      var v := None;
      if joined.Failure? {
        written := WriteHeader(written, StatusBadGateway);
      } else {
        v := Some(joined.value);
      }
      voiceConnections := voiceConnections[t.channelId := v];
      var l := hub.Subscribe();
      listeners := listeners[t.channelId := l];
      if SendAudio(v) == Returns {
        status := Some(WriteHeader(written, StatusCreated));
      } else {
        status := None;
      }
    }

    /**
     * `leave`: cancel whatever is registered under the channel id (a nil
     * channel when nothing is), forget the id, and answer 201.
     */
    method Leave(t: JoinPayload) returns (status: int)
      requires Valid()
      modifies this, hub
      ensures status == StatusCreated
      ensures hub.State() == Step(old(hub.State()), Remove(if t.channelId in old(listeners) then old(listeners)[t.channelId] else Nil))
      ensures old(t.channelId !in listeners) ==> hub.State() == old(hub.State())
      ensures listeners == old(listeners) - {t.channelId}
      ensures voiceConnections == old(voiceConnections)
      ensures Valid()
    {
      var l := if t.channelId in listeners then listeners[t.channelId] else Nil;
      hub.CancelSubscription(l);
      listeners := listeners - {t.channelId};
      status := StatusCreated;
    }
  }
}

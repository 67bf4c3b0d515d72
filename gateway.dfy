/**
 * The Discord gateway client's own state (`src/discord/gateway/Gateway.ts`):
 * the list of guilds kept up to date from dispatch events, and the choice
 * between a fresh session and resuming the last one after the socket
 * closes. Sockets, the HTTP lookup of the gateway URL and the emitted
 * events are I/O: a socket is named by a number, the lookup's outcome is a
 * parameter, and `emit("guilds", ...)` is the list a handler returns.
 */
module Gateway {
  import opened Wrappers
  import opened JsObject
  import opened CloseCodes

  /** The guild record has the given id. */
  predicate HasId(g: Record, id: string)
  {
    "id" in g && g["id"] == Str(id)
  }

  /** `guilds.findIndex(v => v.id === id)`. */
  function FindGuild(gs: seq<Record>, id: string): (i: int)
    ensures -1 <= i < |gs|
    ensures i >= 0 ==> HasId(gs[i], id) && forall j :: 0 <= j < i ==> !HasId(gs[j], id)
    ensures i == -1 <==> forall j :: 0 <= j < |gs| ==> !HasId(gs[j], id)
  {
    if |gs| == 0 then -1
    else if HasId(gs[0], id) then 0
    else
      var k := FindGuild(gs[1..], id);
      assert forall j :: 1 <= j < |gs| ==> gs[j] == gs[1..][j - 1];
      if k < 0 then -1 else k + 1
  }

  /** Every guild carries a string id and no two share one. */
  predicate UniqueIds(gs: seq<Record>)
  {
    && (forall i :: 0 <= i < |gs| ==> "id" in gs[i] && gs[i]["id"].Str?)
    && (forall i, j :: 0 <= i < j < |gs| ==> gs[i]["id"] != gs[j]["id"])
  }

  /** GUILD_CREATE: replace the guild with the same id, or append a new one. */
  function CreateGuild(gs: seq<Record>, d: Record): (r: seq<Record>)
    requires HasStrId(d)
    ensures FindGuild(gs, d["id"].s) >= 0 ==> |r| == |gs| && r[FindGuild(gs, d["id"].s)] == d
    ensures FindGuild(gs, d["id"].s) < 0 ==> r == gs + [d]
    ensures forall j :: 0 <= j < |gs| && !HasId(gs[j], d["id"].s) ==> r[j] == gs[j]
    ensures UniqueIds(gs) ==> UniqueIds(r)
  {
    var index := FindGuild(gs, d["id"].s);
    if index >= 0 then gs[index := d] else gs + [d]
  }

  /** GUILD_DELETE: remove the first guild with that id, if any. */
  function DeleteGuild(gs: seq<Record>, id: string): (r: seq<Record>)
    ensures var i := FindGuild(gs, id);
      && (i < 0 ==> r == gs)
      && (i >= 0 ==> |r| == |gs| - 1 && forall j :: 0 <= j < |r| ==> r[j] == gs[Skip(j, i)])
  {
    var index := FindGuild(gs, id);
    if index >= 0 then gs[..index] + gs[index + 1..] else gs
  }

  /** With unique ids, deleting a guild leaves the ids unique and none of them the deleted one. */
  lemma DeleteGuildRemoves(gs: seq<Record>, id: string)
    requires UniqueIds(gs)
    ensures var r := DeleteGuild(gs, id);
      UniqueIds(r) && forall j :: 0 <= j < |r| ==> !HasId(r[j], id)
  {
    var index := FindGuild(gs, id);
    if index >= 0 {
      DropKeepsUnique(gs, index);
      DropRemovesId(gs, index, id);
    }
  }

  lemma DropKeepsUnique(gs: seq<Record>, index: nat)
    requires UniqueIds(gs) && index < |gs|
    ensures UniqueIds(gs[..index] + gs[index + 1..])
  {
    var r := gs[..index] + gs[index + 1..];
    forall j | 0 <= j < |r|
      ensures r[j] == gs[Skip(j, index)]
    {
    }
  }

  lemma DropRemovesId(gs: seq<Record>, index: nat, id: string)
    requires UniqueIds(gs) && index < |gs| && HasId(gs[index], id)
    ensures var r := gs[..index] + gs[index + 1..];
      forall j :: 0 <= j < |r| ==> !HasId(r[j], id)
  {
    var r := gs[..index] + gs[index + 1..];
    forall j | 0 <= j < |r|
      ensures !HasId(r[j], id)
    {
      assert r[j] == gs[Skip(j, index)];
    }
  }

  /** The position in the original list of the `j`-th guild left after removing position `index`. */
  function Skip(j: nat, index: nat): (k: nat)
    ensures k != index
  {
    if j < index then j else j + 1
  }

  /** GUILD_UPDATE: merge the update into the guild with that id; an unknown guild is ignored. */
  function UpdateGuild(gs: seq<Record>, d: Record): (r: seq<Record>)
    requires HasStrId(d)
    ensures |r| == |gs|
    ensures FindGuild(gs, d["id"].s) < 0 ==> r == gs
    ensures FindGuild(gs, d["id"].s) >= 0 ==> r[FindGuild(gs, d["id"].s)] == Spread(gs[FindGuild(gs, d["id"].s)], d)
    ensures forall j :: 0 <= j < |gs| && j != FindGuild(gs, d["id"].s) ==> r[j] == gs[j]
    ensures UniqueIds(gs) ==> UniqueIds(r)
  {
    var index := FindGuild(gs, d["id"].s);
    if index >= 0 then gs[index := Spread(gs[index], d)] else gs
  }

  /** Creating a guild and then deleting it leaves no guild of that id. */
  lemma CreateThenDelete(gs: seq<Record>, d: Record)
    requires HasStrId(d) && UniqueIds(gs)
    ensures var r := DeleteGuild(CreateGuild(gs, d), d["id"].s);
      UniqueIds(r) && forall j :: 0 <= j < |r| ==> !HasId(r[j], d["id"].s)
  {
    DeleteGuildRemoves(CreateGuild(gs, d), d["id"].s);
  }

  /** What is kept to resume a session: the URL to resume on, the session and the last sequence number. */
  datatype ReconnectState = ReconnectState(resumeGatewayUrl: string, sessionId: string, sequence: Option<int>)

  /** The `readyState` a socket received in READY. */
  datatype ReadyState = ReadyState(resumeGatewayUrl: string, sessionId: string)

  /** The URL `connect` opens: the resume URL when there is a session to resume, else the gateway's own. */
  function ConnectUrl(gatewayUrl: string, rs: Option<ReconnectState>): (url: string)
    ensures rs.Some? ==> url == rs.value.resumeGatewayUrl
    ensures rs.None? ==> url == gatewayUrl
  {
    if rs.Some? then rs.value.resumeGatewayUrl else gatewayUrl
  }

  class GatewayClient {
    var guilds: seq<Record>
    var reconnectState: Option<ReconnectState>
    var gatewayUrl: Option<string>
    var socket: Option<nat>

    constructor ()
      ensures guilds == [] && reconnectState.None? && gatewayUrl.None? && socket.None?
    {
      guilds, reconnectState, gatewayUrl, socket := [], None, None, None;
    }

    /**
     * `connect`: close the current socket (with Reconnecting), look the
     * gateway URL up once (`lookup`; an error throws), and open socket
     * `newSocket` on the resume URL or the gateway URL.
     */
    method Connect(newSocket: nat, lookup: Result<string, string>) returns (r: Result<string, string>)
      modifies this
      ensures old(gatewayUrl).None? && lookup.Failure? ==>
        r == Failure(lookup.error) && socket.None? && gatewayUrl.None?
      ensures old(gatewayUrl).Some? || lookup.Success? ==>
        && gatewayUrl == (if old(gatewayUrl).Some? then old(gatewayUrl) else Some(lookup.value))
        && r == Success(ConnectUrl(gatewayUrl.value, reconnectState))
        && socket == Some(newSocket)
      ensures guilds == old(guilds) && reconnectState == old(reconnectState)
    {
      if socket.Some? {
        socket := None;
      }
      if gatewayUrl.None? {
        if lookup.Failure? {
          return Failure(lookup.error);
        }
        gatewayUrl := Some(lookup.value);
      }
      var url := gatewayUrl.value;
      if reconnectState.Some? {
        url := reconnectState.value.resumeGatewayUrl;
      }
      socket := Some(newSocket);
      r := Success(url);
    }

    /** `handleSocketOpen`: the session to resume, if any, is sent as a Resume. */
    method OnOpen() returns (resume: Option<ReconnectState>)
      ensures resume == reconnectState
    {
      resume := None;
      if reconnectState.Some? {
        resume := reconnectState;
      }
    }

    /** On Hello, Identify is sent exactly when there is no session to resume. */
    method OnHello() returns (identify: bool)
      ensures identify <==> reconnectState.None?
    {
      identify := !reconnectState.Some?;
    }

    /**
     * `handleSocketClose`: forget the socket if it was the current one,
     * keep what is needed to resume if the socket got READY (else forget
     * the session), and tell whether to reconnect.
     */
    method OnClose(closed: nat, readyState: Option<ReadyState>, sequence: Option<int>, code: Option<int>)
      returns (reconnect: bool)
      modifies this
      ensures socket == (if old(socket) == Some(closed) then None else old(socket))
      ensures readyState.Some? ==>
        reconnectState == Some(ReconnectState(readyState.value.resumeGatewayUrl, readyState.value.sessionId, sequence))
      ensures readyState.None? ==> reconnectState.None?
      ensures reconnect == GatewayShouldResume(code)
      ensures guilds == old(guilds) && gatewayUrl == old(gatewayUrl)
    {
      if socket == Some(closed) {
        socket := None;
      }
      if readyState.Some? {
        reconnectState := Some(ReconnectState(readyState.value.resumeGatewayUrl, readyState.value.sessionId, sequence));
      } else {
        reconnectState := None;
      }
      reconnect := GatewayShouldResume(code);
    }

    /** InvalidSession: a non-resumable session is forgotten first, so the reconnect starts afresh. */
    method OnInvalidSession(resumable: bool, newSocket: nat, lookup: Result<string, string>) returns (r: Result<string, string>)
      modifies this
      ensures !resumable ==> reconnectState.None?
      ensures resumable ==> reconnectState == old(reconnectState)
      ensures old(gatewayUrl).None? && lookup.Failure? ==>
        r == Failure(lookup.error) && socket.None? && gatewayUrl.None?
      ensures old(gatewayUrl).Some? || lookup.Success? ==>
        && gatewayUrl == (if old(gatewayUrl).Some? then old(gatewayUrl) else Some(lookup.value))
        && r == Success(ConnectUrl(gatewayUrl.value, reconnectState))
        && socket == Some(newSocket)
      ensures !resumable && r.Success? ==> gatewayUrl.Some? && r.value == gatewayUrl.value
      ensures resumable && r.Success? && old(reconnectState).Some? ==> r.value == old(reconnectState).value.resumeGatewayUrl
      ensures guilds == old(guilds)
    {
      if !resumable {
        reconnectState := None;
      }
      r := Connect(newSocket, lookup);
    }

    method OnGuildCreate(d: Record) returns (emitted: seq<Record>)
      requires HasStrId(d)
      modifies this
      ensures guilds == CreateGuild(old(guilds), d) && emitted == guilds
      ensures reconnectState == old(reconnectState) && gatewayUrl == old(gatewayUrl) && socket == old(socket)
    {
      var index := FindGuild(guilds, d["id"].s);
      if index >= 0 {
        guilds := guilds[index := d];
      } else {
        guilds := guilds + [d];
      }
      emitted := guilds;
    }

    method OnGuildDelete(id: string) returns (emitted: seq<Record>)
      modifies this
      ensures guilds == DeleteGuild(old(guilds), id) && emitted == guilds
      ensures reconnectState == old(reconnectState) && gatewayUrl == old(gatewayUrl) && socket == old(socket)
    {
      var index := FindGuild(guilds, id);
      if index >= 0 {
        guilds := guilds[..index] + guilds[index + 1..];
      }
      emitted := guilds;
    }

    method OnGuildUpdate(d: Record) returns (emitted: seq<Record>)
      requires HasStrId(d)
      modifies this
      ensures guilds == UpdateGuild(old(guilds), d) && emitted == guilds
      ensures reconnectState == old(reconnectState) && gatewayUrl == old(gatewayUrl) && socket == old(socket)
    {
      var index := FindGuild(guilds, d["id"].s);
      if index >= 0 {
        guilds := guilds[index := Spread(guilds[index], d)];
      }
      emitted := guilds;
    }
  }

  /**
   * A socket replaced by `connect` is closed with Reconnecting, and that
   * code does not resume: closing the old socket never starts a second
   * reconnect.
   */
  lemma ReplacedSocketDoesNotReconnect()
    ensures !GatewayShouldResume(Some(Reconnecting))
  {
  }
}

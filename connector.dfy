/**
 * The connector: one object holding the configured server, the registry of
 * active rooms, the connected flag and the real-time channel handle.
 *
 * Every registry method changes `activeRooms` in place and is proved to
 * leave it as the matching function of module Registry says; the lifecycle
 * methods change only `connected` or `websocket`.  Random identifiers,
 * the probe's answer and whether the channel opened are parameters.
 */
module Connector {
  import opened Wrappers
  import opened Registry
  import Signaling

  /** The real-time channel: the address it was opened to and the frames
      sent on it so far. */
  datatype Channel = Channel(url: string, sent: seq<string>)

  class JitsiConnector {
    const serverUrl: string
    const roomPrefix: string
    const useSsl: bool
    var connected: bool
    var websocket: Option<Channel>
    var activeRooms: Rooms
    /** The last reachability request: its address and timeout in seconds. */
    var lastProbe: Option<(string, nat)>

    /** Rooms are filed under their names, participants under their ids, and
        every feature map keeps the baseline keys. */
    ghost predicate Valid()
      reads this
    {
      ValidRooms(activeRooms)
    }

    constructor (serverUrl: string, roomPrefix: string, useSsl: bool)
      ensures Valid()
      ensures this.serverUrl == serverUrl && this.roomPrefix == roomPrefix && this.useSsl == useSsl
      ensures !connected && websocket == None && activeRooms == map[] && lastProbe == None
    {
      this.serverUrl := serverUrl;
      this.roomPrefix := roomPrefix;
      this.useSsl := useSsl;
      connected := false;
      websocket := None;
      activeRooms := map[];
      lastProbe := None;
    }

    /** initialize: `probe` is the status of the GET to ProbeUrl(serverUrl),
        or None when it failed at the network level. */
    method Initialize(probe: Option<int>) returns (ok: bool)
      modifies this`connected, this`lastProbe
      ensures lastProbe == Some((Signaling.ProbeUrl(serverUrl), Signaling.ProbeTimeoutSeconds))
      ensures connected == Signaling.ProbeSucceeds(probe)
      ensures ok == connected
    {
      lastProbe := Some((Signaling.ProbeUrl(serverUrl), Signaling.ProbeTimeoutSeconds));
      match probe {
        case None =>
          connected := false;
        case Some(status) =>
          connected := status == 200;
      }
      ok := connected;
    }

    /** create_room: `uuid` is the generated identifier, used for the name
        only when none is given. */
    method CreateRoom(roomName: Option<string>, uuid: string) returns (info: Room)
      requires Valid()
      modifies this`activeRooms
      ensures Valid()
      ensures var name := if roomName.Some? then roomName.value else AutoRoomName(roomPrefix, uuid);
              && info == Room(name, Baseline, map[])
              && activeRooms == Create(old(activeRooms), name)
    {
      var name := if roomName.Some? then roomName.value else AutoRoomName(roomPrefix, uuid);
      info := NewRoom(name);
      activeRooms := activeRooms[name := info];
    }

    /** join_room: `uuid` is the generated participant id. */
    method JoinRoom(roomName: string, participantName: string, uuid: string) returns (info: Participant)
      requires Valid()
      modifies this`activeRooms
      ensures Valid()
      ensures info == Participant(uuid, participantName, Baseline)
      ensures activeRooms == Join(old(activeRooms), roomName, participantName, uuid)
    {
      if roomName !in activeRooms {
        var _ := CreateRoom(Some(roomName), uuid);
      }
      info := NewParticipant(uuid, participantName);
      var room := activeRooms[roomName];
      activeRooms := activeRooms[roomName := room.(participants := room.participants[uuid := info])];
      JoinPreservesValid(old(activeRooms), roomName, participantName, uuid);
    }

    method LeaveRoom(roomName: string, participantId: string) returns (ok: bool)
      requires Valid()
      modifies this`activeRooms
      ensures Valid()
      ensures ok == Leave(old(activeRooms), roomName, participantId).ok
      ensures activeRooms == Leave(old(activeRooms), roomName, participantId).rooms
    {
      if roomName !in activeRooms {
        return false;
      }
      var room := activeRooms[roomName];
      if participantId !in room.participants {
        return false;
      }
      room := room.(participants := room.participants - {participantId});
      activeRooms := activeRooms[roomName := room];
      if room.participants == map[] {
        activeRooms := activeRooms - {roomName};
      }
      ok := true;
    }

    method ConfigureRoom(roomName: string, features: Features) returns (ok: bool)
      requires Valid()
      modifies this`activeRooms
      ensures Valid()
      ensures ok == Configure(old(activeRooms), roomName, features).ok
      ensures activeRooms == Configure(old(activeRooms), roomName, features).rooms
    {
      if roomName !in activeRooms {
        return false;
      }
      var room := activeRooms[roomName];
      activeRooms := activeRooms[roomName := room.(features := room.features + features)];
      ok := true;
    }

    method ToggleParticipantFeature(roomName: string, participantId: string, feature: string, enabled: bool)
      returns (ok: bool)
      requires Valid()
      modifies this`activeRooms
      ensures Valid()
      ensures ok == Toggle(old(activeRooms), roomName, participantId, feature, enabled).ok
      ensures activeRooms == Toggle(old(activeRooms), roomName, participantId, feature, enabled).rooms
    {
      if roomName !in activeRooms || participantId !in activeRooms[roomName].participants {
        return false;
      }
      var room := activeRooms[roomName];
      var participant := room.participants[participantId];
      participant := participant.(features := participant.features[feature := enabled]);
      activeRooms := activeRooms[roomName := room.(participants := room.participants[participantId := participant])];
      ok := true;
    }

    method GetRoomInfo(roomName: string) returns (info: Option<Room>)
      ensures info == RoomInfo(activeRooms, roomName)
    {
      if roomName in activeRooms {
        info := Some(activeRooms[roomName]);
      } else {
        info := None;
      }
    }

    method GetParticipantInfo(roomName: string, participantId: string) returns (info: Option<Participant>)
      ensures info == ParticipantInfo(activeRooms, roomName, participantId)
    {
      info := None;
      if roomName in activeRooms {
        var participants := activeRooms[roomName].participants;
        if participantId in participants {
          info := Some(participants[participantId]);
        }
      }
    }

    /** get_jitsi_url: depends on the configuration only, not on the registry. */
    function GetJitsiUrl(roomName: string): string {
      Signaling.RoomUrl(serverUrl, roomName)
    }

    /** connect_websocket: `channelOpened` says whether the transport opened the
        channel and sent the frame; when it did not, nothing changes. */
    method ConnectWebsocket(roomName: string, channelOpened: bool) returns (ok: bool)
      modifies this`websocket
      ensures ok == channelOpened
      ensures channelOpened ==> websocket == Some(Channel(Signaling.WebsocketUrl(serverUrl), [Signaling.JoinFrame(roomName)]))
      ensures !channelOpened ==> websocket == old(websocket)
    {
      if !channelOpened {
        return false;
      }
      var channel := Channel(Signaling.WebsocketUrl(serverUrl), []);
      channel := channel.(sent := channel.sent + [Signaling.JoinFrame(roomName)]);
      assert channel.sent == [Signaling.JoinFrame(roomName)];
      websocket := Some(channel);
      ok := true;
    }

    /** disconnect: clears the flag and reports whether a close of the held
        channel was scheduled; the handle itself stays in place. */
    method Disconnect() returns (closeScheduled: bool)
      modifies this`connected
      ensures !connected
      ensures closeScheduled == websocket.Some?
    {
      connected := false;
      closeScheduled := websocket.Some?;
    }
  }
}

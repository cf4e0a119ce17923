/**
 * The recorded usage scenarios of the connector, replayed against the
 * contracts of `Connector.JitsiConnector`: each method builds a connector
 * with the recorded configuration, performs the recorded calls and asserts
 * what the scenario expects.  They show that the contracts alone determine
 * those outcomes.
 */
module Scenarios {
  import opened Wrappers
  import opened Registry
  import Signaling
  import opened Connector

  const Host: string := "test.jitsi.meet"
  const ServerUrl: string := "https://" + Host
  const RoomPrefix: string := "test-"

  method Fresh() returns (c: JitsiConnector)
    ensures fresh(c) && c.Valid()
    ensures c.serverUrl == ServerUrl && c.roomPrefix == RoomPrefix
    ensures !c.connected && c.websocket == None && c.activeRooms == map[]
  {
    c := new JitsiConnector(ServerUrl, RoomPrefix, true);
  }

  method InitializeScenarios() {
    var c := Fresh();
    var ok := c.Initialize(Some(200));
    assert ok && c.connected;
    assert c.lastProbe == Some((ServerUrl + "/http-pre-bind", 5));
    ok := c.Initialize(Some(500));
    assert !ok && !c.connected;
    assert Signaling.ProbeUrl(c.serverUrl) == "https://" + Host + "/http-pre-bind";
  }

  method CreateRoomScenarios() {
    var c := Fresh();
    var info := c.CreateRoom(None, "12345678-90ab-cdef-ghij-klmnopqrstuv");
    AutoRoomNameExample();
    assert info.roomName == "test-12345678";
    assert info.features["video"] && info.features["audio"] && info.features["chat"];
    assert c.activeRooms.Keys == {"test-12345678"};
    assert |c.activeRooms| == 1;

    var d := Fresh();
    info := d.CreateRoom(Some("specific-room-name"), "unused");
    assert info.roomName == "specific-room-name";
    assert info.features["video"] && info.features["audio"] && info.features["chat"];
    assert d.activeRooms.Keys == {"specific-room-name"};
    var got := d.GetRoomInfo("specific-room-name");
    assert got == Some(info);
  }

  method JoinRoomScenarios() {
    var c := Fresh();
    var _ := c.CreateRoom(Some("test-room"), "unused");
    var p := c.JoinRoom("test-room", "Test User", "98765432-10ab-cdef-ghij-klmnopqrstuv");
    assert p.id == "98765432-10ab-cdef-ghij-klmnopqrstuv";
    assert p.name == "Test User";
    assert p.features["video"] && p.features["audio"];
    assert p.id in c.activeRooms["test-room"].participants;
    var got := c.GetParticipantInfo("test-room", p.id);
    assert got == Some(p);

    var d := Fresh();
    var q := d.JoinRoom("auto-created-room", "Test User", "some-id");
    assert q.name == "Test User";
    assert "auto-created-room" in d.activeRooms;
    assert q.id in d.activeRooms["auto-created-room"].participants;
  }

  method LeaveRoomScenarios() {
    var c := Fresh();
    var _ := c.CreateRoom(Some("test-room"), "unused");
    var p := c.JoinRoom("test-room", "Test User", "pid");
    var ok := c.LeaveRoom("test-room", p.id);
    assert ok;
    assert "test-room" !in c.activeRooms;

    var d := Fresh();
    ok := d.LeaveRoom("nonexistent-room", "participant-id");
    assert !ok && d.activeRooms == map[];
  }

  method ConfigureAndToggleScenarios() {
    var c := Fresh();
    var _ := c.CreateRoom(Some("test-room"), "unused");
    var ok := c.ConfigureRoom("test-room", map["video" := false, "chat" := false, "polls" := true]);
    assert ok;
    var f := c.activeRooms["test-room"].features;
    assert !f["video"] && !f["chat"] && f["polls"] && f["audio"];

    var d := Fresh();
    var _ := d.CreateRoom(Some("test-room"), "unused");
    var p := d.JoinRoom("test-room", "Test User", "pid");
    ok := d.ToggleParticipantFeature("test-room", p.id, "video", false);
    assert ok;
    var g := d.activeRooms["test-room"].participants[p.id].features;
    assert !g["video"] && g["audio"];
  }

  method MeetingUrlScenario() {
    var c := Fresh();
    var url := c.GetJitsiUrl("test-room");
    assert url == c.serverUrl + "/" + "test-room";
  }

  method WebsocketScenario() {
    var c := Fresh();
    var ok := c.ConnectWebsocket("test-room", true);
    assert ok;
    Signaling.WebsocketUrlOfScheme(Host);
    Signaling.JoinFrameReadsBack("test-room");
    var channel := c.websocket.value;
    assert channel.url == "wss://" + Host + "/xmpp-websocket";
    assert channel.sent == [Signaling.JoinFrame("test-room")];
  }

  method DisconnectScenario() {
    var c := Fresh();
    c.websocket := Some(Channel("wss://" + Host + "/xmpp-websocket", []));
    c.connected := true;
    var closing := c.Disconnect();
    assert !c.connected && closing;
  }
}

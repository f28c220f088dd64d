/**
  The replicated roster kept by the host's NetcoManager: the set of dead
  connection ids, the score of each id, and the remote calls the host has
  issued so far. This module holds the values and the pure transitions; the
  class that updates them in place is `Netco.NetcoManager`.
*/
module Roster {
  import opened Wrappers
  import opened Text

  /** A connected participant as the session layer reports it: `IdString(c)` (the Guid in "N" format) and `DisplayName`. */
  datatype Connection = Connection(id: string, displayName: string)

  /** A remote call the host has issued: each is a fire-and-forget broadcast to every client. */
  datatype Event =
    | PlayerList(packedNames: string)               // UpdatePlayerList
    | Message(text: string)                         // HudMessageAll
    | DeadById(connectionId: string, isDead: bool)  // UpdatePlayerDeadState
    | DeadByName(displayName: string, isDead: bool) // UpdatePlayerDeadStateByName
    | DeadSnapshot(packed: string)                  // UpdateDeadSnapshot

  /** `DeadPlayerIds`, `ScoreById`, and the remote calls issued in order. */
  datatype RosterState = RosterState(dead: set<string>, scores: map<string, int>, outbox: seq<Event>)

  // ---------------------------------------------------------------------------
  // Queries

  /** `ScoreById.TryGetValue(id, out score)`: a missing entry reads as 0. */
  function ScoreOf(scores: map<string, int>, id: string): (s: int)
    ensures id !in scores ==> s == 0
    ensures id in scores ==> s == scores[id]
  {
    if id in scores then scores[id] else 0
  }

  /** `GetAliveConnections`: the connections whose id is not in the dead set, in connection order. */
  function AliveConnections(conns: seq<Connection>, dead: set<string>): (alive: seq<Connection>)
    ensures |alive| <= |conns|
    ensures forall c :: c in alive <==> c in conns && c.id !in dead
    ensures |conns| == 1 ==> alive == if conns[0].id in dead then [] else conns
    decreases |conns|
  {
    if |conns| == 0 then []
    else if conns[0].id in dead then AliveConnections(conns[1..], dead)
    else [conns[0]] + AliveConnections(conns[1..], dead)
  }

  /**
    The alive filter distributes over concatenation; with the one-connection case this fixes the
    result outright: the alive connections in connection order, each as often as it is connected.
  */
  lemma {:induction false} AliveConnectionsAppend(a: seq<Connection>, b: seq<Connection>, dead: set<string>)
    ensures AliveConnections(a + b, dead) == AliveConnections(a, dead) + AliveConnections(b, dead)
    decreases |a|
  {
    if |a| == 0 {
      assert a + b == b;
    } else {
      assert (a + b)[1..] == a[1..] + b;
      AliveConnectionsAppend(a[1..], b, dead);
    }
  }

  /** `Connection.All.FirstOrDefault(c => IdString(c) == id)`. */
  function FirstById(conns: seq<Connection>, id: string): (r: Option<Connection>)
    ensures r.None? <==> forall c :: c in conns ==> c.id != id
    ensures r.Some? ==> r.value in conns && r.value.id == id
    decreases |conns|
  {
    if |conns| == 0 then None
    else if conns[0].id == id then Some(conns[0])
    else FirstById(conns[1..], id)
  }

  // ---------------------------------------------------------------------------
  // The lobby snapshot: `"{DisplayName}  {score}"` per connection, joined with '\n'

  /** A player's line: the display name, two spaces, then the score as at least one character. */
  function LobbyLine(c: Connection, scores: map<string, int>): (line: string)
    ensures |line| > |c.displayName| + 2
    ensures c.displayName + "  " <= line
  {
    c.displayName + "  " + IntToString(ScoreOf(scores, c.id))
  }

  /** One line per connection, in connection order, each starting with that connection's display name. */
  function LobbyLines(conns: seq<Connection>, scores: map<string, int>): (lines: seq<string>)
    ensures |lines| == |conns|
    ensures forall k :: 0 <= k < |conns| ==> conns[k].displayName <= lines[k]
  {
    seq(|conns|, i requires 0 <= i < |conns| => LobbyLine(conns[i], scores))
  }

  /** The packed lobby list: empty exactly when nobody is connected. */
  function LobbySnapshot(conns: seq<Connection>, scores: map<string, int>): (s: string)
    ensures s == "" <==> |conns| == 0
  {
    var lines := LobbyLines(conns, scores);
    assert |conns| > 0 ==> |lines[0]| > 0 by {
      if |conns| > 0 {
        assert lines[0] == LobbyLine(conns[0], scores);
      }
    }
    Join(lines, '\n')
  }

  /** `UpdatePlayerList`'s decoding: an empty string gives no names, otherwise the non-empty '\n'-separated pieces. */
  function ParsePlayerList(packed: string): (names: seq<string>)
    ensures packed == "" ==> names == []
    ensures forall k :: 0 <= k < |names| ==> names[k] != "" && '\n' !in names[k]
  {
    if packed == "" then [] else RemoveEmpty(Split(packed, '\n'))
  }

  /** A lobby line never contains '\n' when the display name does not, and is never empty. */
  lemma LobbyLineShape(c: Connection, scores: map<string, int>)
    requires '\n' !in c.displayName
    ensures LobbyLine(c, scores) != ""
    ensures '\n' !in LobbyLine(c, scores)
  {
    var line := LobbyLine(c, scores);
    var score := IntToString(ScoreOf(scores, c.id));
    assert line == c.displayName + "  " + score;
    assert line[|c.displayName|] == ' ';
    forall k | 0 <= k < |line| ensures line[k] != '\n' {
      if k < |c.displayName| {
        assert line[k] == c.displayName[k];
      } else if k >= |c.displayName| + 2 {
        assert line[k] == score[k - |c.displayName| - 2];
      }
    }
  }

  /** After the name and the two spaces, a lobby line holds the connection's score (0 when it has none), which parses back. */
  lemma LobbyLineScore(c: Connection, scores: map<string, int>)
    requires MinInt32 <= ScoreOf(scores, c.id) <= MaxInt32
    ensures TryParseInt(LobbyLine(c, scores)[|c.displayName| + 2..]) == Some(ScoreOf(scores, c.id))
    ensures c.id !in scores ==> LobbyLine(c, scores)[|c.displayName| + 2..] == "0"
  {
    var score := ScoreOf(scores, c.id);
    assert LobbyLine(c, scores)[|c.displayName| + 2..] == IntToString(score);
    ParseFormattedInt(score);
    if c.id !in scores {
      assert IntToString(0) == [DigitChar(0)];
    }
  }

  /** Decoding a lobby snapshot gives back exactly its lines, one per connection, when no display name holds a '\n'. */
  lemma LobbyRoundTrip(conns: seq<Connection>, scores: map<string, int>)
    requires forall c :: c in conns ==> '\n' !in c.displayName
    ensures ParsePlayerList(LobbySnapshot(conns, scores)) == LobbyLines(conns, scores)
  {
    var lines := LobbyLines(conns, scores);
    forall k | 0 <= k < |lines| ensures lines[k] != "" && '\n' !in lines[k] {
      LobbyLineShape(conns[k], scores);
    }
    if |lines| > 0 {
      SplitJoin(lines, '\n');
      RemoveEmptyKeepsNonEmpty(lines);
      assert lines[0] != "";
      assert |LobbySnapshot(conns, scores)| >= |lines[0]|;
    }
  }

  /** No two spaces in a row: true of ordinary display names. */
  predicate NoDoubleSpace(s: string) {
    forall k :: 0 <= k < |s| - 1 ==> PairAt(s, k) != "  "
  }

  /** The two characters starting at `k`. */
  function PairAt(s: string, k: nat): string
    requires k + 2 <= |s|
  {
    s[k..k + 2]
  }

  /** A name without two spaces in a row is never a lobby line, since every line holds two spaces after its name. */
  lemma NameIsNoLobbyLine(conns: seq<Connection>, scores: map<string, int>, name: string)
    requires NoDoubleSpace(name)
    ensures name !in LobbyLines(conns, scores)
  {
    var lines := LobbyLines(conns, scores);
    forall k | 0 <= k < |lines| ensures lines[k] != name {
      var n := |conns[k].displayName|;
      assert lines[k] == LobbyLine(conns[k], scores);
      assert (conns[k].displayName + "  ")[n..n + 2] == "  ";
      assert PairAt(lines[k], n) == "  ";
    }
  }

  /**
    The HUD keys its labels by the names a lobby list unpacks to, so a by-name dead flag for an
    ordinary display name finds no label.
  */
  lemma ByNameMissesLobbyLabels(conns: seq<Connection>, scores: map<string, int>, name: string)
    requires forall c :: c in conns ==> '\n' !in c.displayName
    requires NoDoubleSpace(name)
    ensures name !in ParsePlayerList(LobbySnapshot(conns, scores))
  {
    LobbyRoundTrip(conns, scores);
    NameIsNoLobbyLine(conns, scores, name);
  }

  /** The worked example: Alice with 3 points and Bob with none. */
  lemma LobbySnapshotExample(alice: string, bob: string)
    requires alice != bob
    ensures LobbySnapshot([Connection(alice, "Alice"), Connection(bob, "Bob")], map[alice := 3])
            == "Alice  3\nBob  0"
  {
    var conns := [Connection(alice, "Alice"), Connection(bob, "Bob")];
    var scores := map[alice := 3];
    assert DigitChar(3) == '3' && DigitChar(0) == '0';
    assert IntToString(3) == "3" && IntToString(0) == "0";
    assert ScoreOf(scores, alice) == 3 && ScoreOf(scores, bob) == 0;
    var lines := LobbyLines(conns, scores);
    assert lines[0] == "Alice  3" && lines[1] == "Bob  0";
    assert Join(lines, '\n') == lines[0] + "\n" + Join(lines[1..], '\n');
  }

  // ---------------------------------------------------------------------------
  // Transitions of the host's roster. `authority` is false when the resolved
  // NetcoManager is a proxy; every "host only" operation is then a no-op.

  /** `ServerAddPoint`. */
  function AddPoint(r: RosterState, authority: bool, winner: Option<Connection>): (r': RosterState)
    ensures r'.dead == r.dead && r'.outbox == r.outbox
    ensures !authority || winner.None? ==> r'.scores == r.scores
    ensures authority && winner.Some? ==>
      var id := winner.value.id;
      && r'.scores.Keys == r.scores.Keys + {id}
      && r'.scores[id] == ScoreOf(r.scores, id) + 1
      && forall k :: k in r.scores && k != id ==> r'.scores[k] == r.scores[k]
  {
    if !authority || winner.None? then r
    else
      var id := winner.value.id;
      r.(scores := r.scores[id := ScoreOf(r.scores, id) + 1])
  }

  /** `ServerRemovePlayer`. */
  function RemovePlayer(r: RosterState, authority: bool, c: Option<Connection>): (r': RosterState)
    ensures r'.outbox == r.outbox
    ensures !authority || c.None? ==> r' == r
    ensures authority && c.Some? ==>
      var id := c.value.id;
      && r'.dead == r.dead - {id}
      && r'.scores.Keys == r.scores.Keys - {id}
      && forall k :: k in r'.scores ==> r'.scores[k] == r.scores[k]
  {
    if !authority || c.None? then r
    else r.(dead := r.dead - {c.value.id}, scores := r.scores - {c.value.id})
  }

  /** `ServerRefreshLobbyState`: one `UpdatePlayerList` broadcast of the current snapshot. */
  function RefreshLobby(r: RosterState, authority: bool, conns: seq<Connection>): (r': RosterState)
    ensures r'.dead == r.dead && r'.scores == r.scores
    ensures !authority ==> r'.outbox == r.outbox
    ensures authority ==> r'.outbox == r.outbox + [PlayerList(LobbySnapshot(conns, r.scores))]
  {
    if !authority then r else r.(outbox := r.outbox + [PlayerList(LobbySnapshot(conns, r.scores))])
  }

  /** `HudMessageAll`: a broadcast anyone may issue. */
  function MessageAll(r: RosterState, text: string): (r': RosterState)
    ensures r'.dead == r.dead && r'.scores == r.scores
    ensures r'.outbox == r.outbox + [Message(text)]
  {
    r.(outbox := r.outbox + [Message(text)])
  }

  /** `ServerSetPlayerDeadState` (callers never pass a null connection). */
  function SetDeadState(r: RosterState, authority: bool, conn: Connection, isDead: bool): (r': RosterState)
    ensures r'.scores == r.scores
    ensures !authority ==> r' == r
    ensures authority ==> (conn.id in r'.dead <==> isDead)
    ensures authority ==> forall id :: id != conn.id ==> (id in r'.dead <==> id in r.dead)
    ensures authority ==> r'.outbox == r.outbox + [DeadById(conn.id, isDead)]
  {
    if !authority then r
    else
      var dead := if isDead then r.dead + {conn.id} else r.dead - {conn.id};
      r.(dead := dead, outbox := r.outbox + [DeadById(conn.id, isDead)])
  }

  /** The by-name update `RpcSetDeadState` sends: only for a known id whose display name is not empty. */
  function NameEvents(conns: seq<Connection>, id: string, isDead: bool): (es: seq<Event>)
    ensures |es| <= 1
    ensures |es| == 1 <==> exists c :: c in conns && c.id == id && FirstById(conns, id) == Some(c) && c.displayName != ""
    ensures |es| == 1 ==> es[0] == DeadByName(FirstById(conns, id).value.displayName, isDead)
  {
    match FirstById(conns, id)
    case Some(c) => if c.displayName != "" then [DeadByName(c.displayName, isDead)] else []
    case None => []
  }

  /** `RpcSetDeadState`, the host-directed call a player makes when it dies; it runs on the host. */
  function RpcSetDeadState(r: RosterState, id: string, isDead: bool, conns: seq<Connection>): (r': RosterState)
    ensures r'.scores == r.scores
    ensures id == "" ==> r' == r
    ensures id != "" ==> (id in r'.dead <==> isDead)
    ensures forall other :: other != id ==> (other in r'.dead <==> other in r.dead)
    ensures id != "" ==> r'.outbox == r.outbox + NameEvents(conns, id, isDead)
  {
    if id == "" then r
    else
      var dead := if isDead then r.dead + {id} else r.dead - {id};
      r.(dead := dead, outbox := r.outbox + NameEvents(conns, id, isDead))
  }

  /** The per-connection "alive again" broadcasts `ServerResetMatch` sends, in connection order. */
  function AliveByName(conns: seq<Connection>): (es: seq<Event>)
    ensures |es| == |conns|
    ensures forall k :: 0 <= k < |conns| ==> es[k] == DeadByName(conns[k].displayName, false)
  {
    seq(|conns|, k requires 0 <= k < |conns| => DeadByName(conns[k].displayName, false))
  }

  /** `ServerResetMatch`. */
  function ResetMatch(r: RosterState, authority: bool, resetScores: bool, conns: seq<Connection>): (r': RosterState)
    ensures !authority ==> r' == r
    ensures authority ==> r'.dead == {}
    ensures authority ==> r'.scores == if resetScores then map[] else r.scores
    ensures authority ==>
      r'.outbox == r.outbox + AliveByName(conns) + [Message(""), PlayerList(LobbySnapshot(conns, r'.scores))]
  {
    if !authority then r
    else
      var scores := if resetScores then map[] else r.scores;
      r.(dead := {}, scores := scores,
         outbox := r.outbox + AliveByName(conns) + [Message(""), PlayerList(LobbySnapshot(conns, scores))])
  }

  /** Resetting twice without clearing scores keeps every score and leaves nobody dead. */
  lemma ResetMatchTwice(r: RosterState, conns: seq<Connection>)
    ensures var once := ResetMatch(r, true, false, conns);
            var twice := ResetMatch(once, true, false, conns);
            && once.dead == {} && twice.dead == {}
            && once.scores == r.scores && twice.scores == r.scores
  {
  }

  /** Once the host has recorded a death through `RpcSetDeadState`, that connection is no longer alive. */
  lemma DeathRemovesFromAlive(r: RosterState, id: string, conns: seq<Connection>)
    requires id != ""
    ensures forall c :: c in AliveConnections(conns, RpcSetDeadState(r, id, true, conns).dead) ==>
      c.id != id && c.id !in r.dead
  {
  }
}

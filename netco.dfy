/**
  NetcoManager: the host's roster store, updated in place, and the bodies of
  its broadcast calls as they run on each client against that client's HUD.
  A remote call the host makes is appended to `outbox`; `Deliver` is what one
  client does when it receives one.
*/
module Netco {
  import opened Wrappers
  import opened Text
  import opened Roster
  import opened Hud

  class NetcoManager {
    /** The resolved instance is valid and not a proxy: the "host only" checks pass. */
    const isAuthority: bool
    /** The `MinPlayersToStart` property. */
    const minPlayersToStart: int
    /** The static `DeadPlayerIds`. */
    var dead: set<string>
    /** The static `ScoreById`. */
    var scores: map<string, int>
    /** The remote calls issued so far, oldest first. */
    var outbox: seq<Event>

    function View(): RosterState
      reads this
    {
      RosterState(dead, scores, outbox)
    }

    constructor (isAuthority: bool, minPlayersToStart: int)
      ensures this.isAuthority == isAuthority && this.minPlayersToStart == minPlayersToStart
      ensures View() == RosterState({}, map[], [])
    {
      this.isAuthority := isAuthority;
      this.minPlayersToStart := minPlayersToStart;
      dead := {};
      scores := map[];
      outbox := [];
    }

    method ServerAddPoint(winner: Option<Connection>)
      modifies this`scores
      ensures View() == AddPoint(old(View()), isAuthority, winner)
    {
      if !isAuthority || winner.None? {
        return;
      }
      var id := winner.value.id;
      var score := if id in scores then scores[id] else 0;
      scores := scores[id := score + 1];
    }

    method ServerRemovePlayer(c: Option<Connection>)
      modifies this`dead, this`scores
      ensures View() == RemovePlayer(old(View()), isAuthority, c)
    {
      if !isAuthority || c.None? {
        return;
      }
      var id := c.value.id;
      dead := dead - {id};
      scores := scores - {id};
    }

    method ServerRefreshLobbyState(conns: seq<Connection>)
      modifies this`outbox
      ensures View() == RefreshLobby(old(View()), isAuthority, conns)
    {
      if !isAuthority {
        return;
      }
      var packed := LobbySnapshot(conns, scores);
      outbox := outbox + [PlayerList(packed)];
    }

    method HudMessageAll(message: string)
      modifies this`outbox
      ensures View() == MessageAll(old(View()), message)
    {
      outbox := outbox + [Message(message)];
    }

    method ServerSetPlayerDeadState(conn: Connection, isDead: bool)
      modifies this`dead, this`outbox
      ensures View() == SetDeadState(old(View()), isAuthority, conn, isDead)
    {
      if !isAuthority {
        return;
      }
      if isDead {
        dead := dead + {conn.id};
      } else {
        dead := dead - {conn.id};
      }
      outbox := outbox + [DeadById(conn.id, isDead)];
    }

    method ServerMarkPlayerDead(conn: Connection)
      modifies this`dead, this`outbox
      ensures View() == SetDeadState(old(View()), isAuthority, conn, true)
    {
      ServerSetPlayerDeadState(conn, true);
    }

    method ServerMarkPlayerAlive(conn: Connection)
      modifies this`dead, this`outbox
      ensures View() == SetDeadState(old(View()), isAuthority, conn, false)
    {
      ServerSetPlayerDeadState(conn, false);
    }

    /** Runs on the host whoever calls it, so it has no authority check. */
    method RpcSetDeadState(connectionId: string, isDead: bool, conns: seq<Connection>)
      modifies this`dead, this`outbox
      ensures View() == Roster.RpcSetDeadState(old(View()), connectionId, isDead, conns)
    {
      if connectionId == "" {
        return;
      }
      if isDead {
        dead := dead + {connectionId};
      } else {
        dead := dead - {connectionId};
      }
      var conn := FirstById(conns, connectionId);
      if conn.Some? && conn.value.displayName != "" {
        outbox := outbox + [DeadByName(conn.value.displayName, isDead)];
      }
    }

    method ServerResetMatch(resetScores: bool, conns: seq<Connection>)
      modifies this`dead, this`scores, this`outbox
      ensures View() == ResetMatch(old(View()), isAuthority, resetScores, conns)
    {
      if !isAuthority {
        return;
      }
      dead := {};
      if resetScores {
        scores := map[];
      }
      for i := 0 to |conns|
        invariant dead == {}
        invariant scores == if resetScores then map[] else old(scores)
        invariant outbox == old(outbox) + AliveByName(conns[..i])
      {
        outbox := outbox + [DeadByName(conns[i].displayName, false)];
        assert AliveByName(conns[..i + 1]) == AliveByName(conns[..i]) + [DeadByName(conns[i].displayName, false)];
      }
      assert conns[..|conns|] == conns;
      HudMessageAll("");
      ServerRefreshLobbyState(conns);
    }
  }

  // ---------------------------------------------------------------------------
  // The broadcast bodies, as each client runs them. `hud.built` is `GameHud.Instance != null`.

  /** `UpdatePlayerList`: decodes the names, then buffers them or hands them to the HUD. */
  method ReceivePlayerList(hud: GameHud, packedNames: string)
    requires hud.Valid()
    modifies hud`pendingNames, hud`labels, hud`nameToLabel
    ensures hud.Valid()
    ensures hud.pendingNames == Some(ParsePlayerList(packedNames))
    ensures !hud.built ==> hud.labels == old(hud.labels) && hud.nameToLabel == old(hud.nameToLabel)
    ensures hud.built ==> hud.Shows(ParsePlayerList(packedNames))
  {
    var names := ParsePlayerList(packedNames);
    if !hud.built {
      hud.pendingNames := Some(names);
      return;
    }
    hud.SetPlayerNames(Some(names));
  }

  /** `HudMessageAll`: buffers the message or shows it. */
  method ReceiveMessage(hud: GameHud, message: string)
    requires hud.Valid()
    modifies hud`pendingMessage, hud`center
    ensures hud.Valid()
    ensures hud.pendingMessage == message
    ensures !hud.built ==> hud.center == old(hud.center)
    ensures hud.built ==> hud.center == Some(CenterLabel(message, message == ""))
  {
    if !hud.built {
      hud.pendingMessage := message;
      return;
    }
    hud.SetMessage(Some(message));
  }

  /** `UpdatePlayerDeadState`: dropped while the HUD is not built. */
  method ReceiveDeadState(hud: GameHud, connectionId: string, isDead: bool)
    modifies hud`listChildren
    ensures !hud.built ==> hud.listChildren == old(hud.listChildren)
    ensures hud.built ==> hud.listChildren == FlagFirstPrefixed(old(hud.listChildren), connectionId + " - ", isDead)
  {
    if !hud.built {
      return;
    }
    hud.SetPlayerDead(connectionId, isDead);
  }

  /** `UpdatePlayerDeadStateByName`: dropped while the HUD is not built. */
  method ReceiveDeadStateByName(hud: GameHud, displayName: string, isDead: bool)
    requires hud.Valid()
    modifies hud`deadNames, hud`labels
    ensures hud.Valid()
    ensures !hud.built ==> hud.deadNames == old(hud.deadNames) && hud.labels == old(hud.labels)
    ensures hud.built && IsNullOrWhiteSpace(Some(displayName)) ==>
      hud.deadNames == old(hud.deadNames) && hud.labels == old(hud.labels)
    ensures hud.built && !IsNullOrWhiteSpace(Some(displayName)) ==>
      && (displayName in hud.deadNames <==> isDead)
      && (forall other :: other != displayName ==> (other in hud.deadNames <==> other in old(hud.deadNames)))
      && hud.labels == if displayName in hud.nameToLabel
                       then old(hud.labels)[hud.nameToLabel[displayName] := Label(displayName, isDead)]
                       else old(hud.labels)
  {
    if !hud.built {
      return;
    }
    hud.SetPlayerDeadByName(Some(displayName), isDead);
  }

  // ---------------------------------------------------------------------------
  // The dead snapshot: `"{id}|{0 or 1}"` lines joined with '\n'

  /** One line of a dead snapshot, if it is well formed: exactly two '|' pieces, the second an integer; dead iff it is 1. */
  function ParseDeadLine(line: string): (r: Option<(string, bool)>)
    ensures r.Some? <==> |Split(line, '|')| == 2 && TryParseInt(Split(line, '|')[1]).Some?
    ensures r.Some? ==> r.value.0 == Split(line, '|')[0]
    ensures r.Some? ==> (r.value.1 <==> TryParseInt(Split(line, '|')[1]) == Some(1))
  {
    var parts := Split(line, '|');
    if |parts| != 2 then None
    else match TryParseInt(parts[1])
      case None => None
      case Some(v) => Some((parts[0], v == 1))
  }

  /** The well-formed entries of a list of lines, in order; malformed lines are skipped. */
  function ParseDeadLines(lines: seq<string>): (es: seq<(string, bool)>)
    ensures |es| <= |lines|
    ensures |lines| == 1 ==> es == match ParseDeadLine(lines[0]) case None => [] case Some(e) => [e]
    decreases |lines|
  {
    if |lines| == 0 then []
    else match ParseDeadLine(lines[0])
      case None => ParseDeadLines(lines[1..])
      case Some(e) => [e] + ParseDeadLines(lines[1..])
  }

  /** Parsing distributes over concatenation: each line contributes its own entry, or nothing, in place. */
  lemma {:induction false} ParseDeadLinesAppend(a: seq<string>, b: seq<string>)
    ensures ParseDeadLines(a + b) == ParseDeadLines(a) + ParseDeadLines(b)
    decreases |a|
  {
    if |a| == 0 {
      assert a + b == b;
    } else {
      assert (a + b)[1..] == a[1..] + b;
      ParseDeadLinesAppend(a[1..], b);
    }
  }

  /** A malformed line is skipped and the lines around it still apply, in order. */
  lemma MalformedLineKeepsTheRest(before: seq<string>, line: string, after: seq<string>)
    requires ParseDeadLine(line).None?
    ensures ParseDeadLines(before + [line] + after) == ParseDeadLines(before) + ParseDeadLines(after)
  {
    ParseDeadLinesAppend(before, [line]);
    ParseDeadLinesAppend(before + [line], after);
  }

  /** What `UpdateDeadSnapshot` applies: nothing for an empty string, else the well-formed non-empty lines. */
  function DeadSnapshotEntries(packed: string): (es: seq<(string, bool)>)
    ensures packed == "" ==> es == []
    ensures |es| <= |Split(packed, '\n')|
  {
    if packed == "" then [] else ParseDeadLines(RemoveEmpty(Split(packed, '\n')))
  }

  function DeadLine(e: (string, bool)): string {
    e.0 + "|" + (if e.1 then "1" else "0")
  }

  function DeadLines(es: seq<(string, bool)>): (lines: seq<string>)
    ensures |lines| == |es|
    ensures forall k :: 0 <= k < |es| ==> lines[k] == DeadLine(es[k])
    decreases |es|
  {
    if |es| == 0 then [] else [DeadLine(es[0])] + DeadLines(es[1..])
  }

  /** The snapshot text for a list of (id, dead) entries. */
  function DeadSnapshotText(es: seq<(string, bool)>): (t: string)
    ensures t == "" <==> es == []
  {
    var lines := DeadLines(es);
    assert |es| > 0 ==> |lines[0]| > 0;
    Join(lines, '\n')
  }

  /** The flag written for a dead state parses back to 1 or 0. */
  lemma FlagParses(isDead: bool)
    ensures TryParseInt(if isDead then "1" else "0") == Some(if isDead then 1 else 0)
  {
    ParseFormattedInt(if isDead then 1 else 0);
    assert IntToString(1) == "1" && IntToString(0) == "0" by {
      assert DigitChar(1) == '1' && DigitChar(0) == '0';
    }
  }

  lemma DeadLineRoundTrip(e: (string, bool))
    requires '|' !in e.0 && '\n' !in e.0
    ensures DeadLine(e) != "" && '\n' !in DeadLine(e)
    ensures ParseDeadLine(DeadLine(e)) == Some(e)
  {
    var flag := if e.1 then "1" else "0";
    assert DeadLine(e) == e.0 + ['|'] + flag;
    SplitWithoutSeparator(flag, '|');
    SplitAfterPiece(e.0, '|', flag);
    FlagParses(e.1);
  }

  lemma {:induction false} ParseDeadLinesOfWellFormed(es: seq<(string, bool)>)
    requires forall k :: 0 <= k < |es| ==> '|' !in es[k].0 && '\n' !in es[k].0
    ensures ParseDeadLines(DeadLines(es)) == es
    decreases |es|
  {
    if |es| > 0 {
      DeadLineRoundTrip(es[0]);
      ParseDeadLinesOfWellFormed(es[1..]);
      assert DeadLines(es)[1..] == DeadLines(es[1..]);
      assert [es[0]] + es[1..] == es;
    }
  }

  /** Decoding a dead snapshot gives back its entries when no id holds '|' or '\n'. */
  lemma DeadSnapshotRoundTrip(es: seq<(string, bool)>)
    requires forall k :: 0 <= k < |es| ==> '|' !in es[k].0 && '\n' !in es[k].0
    ensures DeadSnapshotEntries(DeadSnapshotText(es)) == es
  {
    var lines := DeadLines(es);
    forall k | 0 <= k < |lines| ensures lines[k] != "" && '\n' !in lines[k] {
      DeadLineRoundTrip(es[k]);
    }
    ParseDeadLinesOfWellFormed(es);
    if |es| > 0 {
      SplitJoin(lines, '\n');
      RemoveEmptyKeepsNonEmpty(lines);
      assert |DeadSnapshotText(es)| >= |lines[0]|;
    }
  }

  /** A line without exactly one '|' is skipped. */
  lemma MalformedLineSkipped(line: string)
    requires |Split(line, '|')| != 2
    ensures ParseDeadLine(line) == None
  {
  }

  /** The HUD list children after `SetPlayerDead` has run for each entry in order. */
  function ApplyDeadEntries(children: seq<Node>, es: seq<(string, bool)>): (r: seq<Node>)
    ensures |r| == |children|
    ensures forall k :: 0 <= k < |children| && !children[k].LabelNode? ==> r[k] == children[k]
    decreases |es|
  {
    if |es| == 0 then children
    else ApplyDeadEntries(FlagFirstPrefixed(children, es[0].0 + " - ", es[0].1), es[1..])
  }

  /** On the list panel as the HUD builds it, a whole dead snapshot changes nothing either. */
  lemma SnapshotOnBuiltLayout(es: seq<(string, bool)>)
    ensures ApplyDeadEntries(ListPanelLayout, es) == ListPanelLayout
  {
    var r := ApplyDeadEntries(ListPanelLayout, es);
    assert r[0] == ListPanelLayout[0] && r[1] == ListPanelLayout[1];
  }

  /** `UpdateDeadSnapshot`: dropped while the HUD is not built or the text is empty; otherwise each well-formed line flags its id. */
  method ReceiveDeadSnapshot(hud: GameHud, packed: string)
    modifies hud`listChildren
    ensures !hud.built ==> hud.listChildren == old(hud.listChildren)
    ensures hud.built ==> hud.listChildren == ApplyDeadEntries(old(hud.listChildren), DeadSnapshotEntries(packed))
  {
    if !hud.built || packed == "" {
      return;
    }
    var lines := RemoveEmpty(Split(packed, '\n'));
    for i := 0 to |lines|
      invariant hud.built
      invariant ApplyDeadEntries(old(hud.listChildren), ParseDeadLines(lines))
             == ApplyDeadEntries(hud.listChildren, ParseDeadLines(lines[i..]))
    {
      assert lines[i..][1..] == lines[i + 1..];
      var parts := Split(lines[i], '|');
      if |parts| != 2 {
        continue;
      }
      var parsed := TryParseInt(parts[1]);
      if parsed.Some? {
        hud.SetPlayerDead(parts[0], parsed.value == 1);
      }
    }
  }

  /** What one client does with one event the host broadcast. */
  method Deliver(hud: GameHud, e: Event)
    requires hud.Valid()
    modifies hud`pendingNames, hud`labels, hud`nameToLabel, hud`pendingMessage, hud`center, hud`deadNames,
      hud`listChildren
    ensures hud.Valid()
    ensures e.PlayerList? ==>
      && hud.pendingNames == Some(ParsePlayerList(e.packedNames))
      && (hud.built ==> hud.Shows(ParsePlayerList(e.packedNames)))
      && (!hud.built ==> hud.labels == old(hud.labels) && hud.nameToLabel == old(hud.nameToLabel))
      && hud.pendingMessage == old(hud.pendingMessage) && hud.center == old(hud.center)
      && hud.deadNames == old(hud.deadNames) && hud.listChildren == old(hud.listChildren)
    ensures e.Message? ==>
      && hud.pendingMessage == e.text
      && hud.center == (if hud.built then Some(CenterLabel(e.text, e.text == "")) else old(hud.center))
      && hud.pendingNames == old(hud.pendingNames) && hud.labels == old(hud.labels)
      && hud.nameToLabel == old(hud.nameToLabel) && hud.deadNames == old(hud.deadNames)
      && hud.listChildren == old(hud.listChildren)
    ensures e.DeadById? ==>
      && hud.listChildren == (if hud.built then FlagFirstPrefixed(old(hud.listChildren), e.connectionId + " - ", e.isDead)
                              else old(hud.listChildren))
      && hud.pendingNames == old(hud.pendingNames) && hud.labels == old(hud.labels)
      && hud.nameToLabel == old(hud.nameToLabel) && hud.pendingMessage == old(hud.pendingMessage)
      && hud.center == old(hud.center) && hud.deadNames == old(hud.deadNames)
    ensures e.DeadByName? ==>
      && (!hud.built || IsNullOrWhiteSpace(Some(e.displayName)) ==>
            hud.deadNames == old(hud.deadNames) && hud.labels == old(hud.labels))
      && (hud.built && !IsNullOrWhiteSpace(Some(e.displayName)) ==>
            && (e.displayName in hud.deadNames <==> e.isDead)
            && (forall other :: other != e.displayName ==> (other in hud.deadNames <==> other in old(hud.deadNames)))
            && hud.labels == if e.displayName in old(hud.nameToLabel)
                             then old(hud.labels)[old(hud.nameToLabel)[e.displayName] := Label(e.displayName, e.isDead)]
                             else old(hud.labels))
      && hud.pendingNames == old(hud.pendingNames) && hud.nameToLabel == old(hud.nameToLabel)
      && hud.pendingMessage == old(hud.pendingMessage) && hud.center == old(hud.center)
      && hud.listChildren == old(hud.listChildren)
    ensures e.DeadSnapshot? ==>
      && hud.listChildren == (if hud.built then ApplyDeadEntries(old(hud.listChildren), DeadSnapshotEntries(e.packed))
                              else old(hud.listChildren))
      && hud.pendingNames == old(hud.pendingNames) && hud.labels == old(hud.labels)
      && hud.nameToLabel == old(hud.nameToLabel) && hud.pendingMessage == old(hud.pendingMessage)
      && hud.center == old(hud.center) && hud.deadNames == old(hud.deadNames)
  {
    match e
    case PlayerList(packed) => ReceivePlayerList(hud, packed);
    case Message(text) => ReceiveMessage(hud, text);
    case DeadById(id, isDead) => ReceiveDeadState(hud, id, isDead);
    case DeadByName(name, isDead) => ReceiveDeadStateByName(hud, name, isDead);
    case DeadSnapshot(packed) => ReceiveDeadSnapshot(hud, packed);
  }
}

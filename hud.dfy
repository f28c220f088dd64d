/**
  The HUD's roster bookkeeping (GameHud): the buffered message and name list
  kept while the HUD is not built, the centre message label, the player-name
  labels with their "dead" style class, the name-to-label dictionary, and the
  set of names known to be dead.
*/
module Hud {
  import opened Wrappers
  import opened Text

  /** A player-name label: its text and whether it carries the "dead" style class. */
  datatype Label = Label(text: string, dead: bool)

  /** The centre message label: its text and whether it carries the "hidden" style class. */
  datatype CenterLabel = CenterLabel(text: string, hidden: bool)

  /** A direct child of the players-list panel. */
  datatype Node = LabelNode(item: Label) | PanelNode(styleClass: string)

  /** What `OnTreeFirstBuilt` puts directly under the players-list panel: a background panel and the content panel. */
  const ListPanelLayout: seq<Node> := [PanelNode("players-list-bg"), PanelNode("players-list-content")]

  /** The labels `SetPlayerNames` creates, in order: one per name, dead exactly when the name is in `deadNames`. */
  function LabelsFor(names: seq<string>, deadNames: set<string>): (ls: seq<Label>)
    ensures |ls| == |names|
    ensures forall k :: 0 <= k < |names| ==> ls[k].text == names[k] && (ls[k].dead <==> names[k] in deadNames)
  {
    seq(|names|, k requires 0 <= k < |names| => Label(names[k], names[k] in deadNames))
  }

  /** `i` is the last position of `name` in `names` (a dictionary filled in order keeps the last writer). */
  predicate IsLastIndex(names: seq<string>, name: string, i: int) {
    0 <= i < |names| && names[i] == name && forall j :: i < j < |names| ==> names[j] != name
  }

  /** `label.Text.StartsWith(prefix)` on a label child (ordinal comparison). */
  predicate Prefixed(n: Node, prefix: string) {
    n.LabelNode? && prefix <= n.item.text
  }

  /** The first label child whose text starts with `prefix`, if any. */
  function FirstPrefixed(children: seq<Node>, prefix: string): (r: Option<nat>)
    ensures r.None? ==> forall j :: 0 <= j < |children| ==> !Prefixed(children[j], prefix)
    ensures r.Some? ==> r.value < |children| && Prefixed(children[r.value], prefix)
    ensures r.Some? ==> forall j :: 0 <= j < r.value ==> !Prefixed(children[j], prefix)
    decreases |children|
  {
    if |children| == 0 then None
    else if Prefixed(children[0], prefix) then Some(0)
    else match FirstPrefixed(children[1..], prefix)
      case None => None
      case Some(i) => Some(i + 1)
  }

  /** The children after `SetPlayerDead`: the first matching label takes the flag, nothing else changes. */
  function FlagFirstPrefixed(children: seq<Node>, prefix: string, isDead: bool): (r: seq<Node>)
    ensures |r| == |children|
    ensures forall k :: 0 <= k < |children| && FirstPrefixed(children, prefix) != Some(k) ==> r[k] == children[k]
    ensures forall k :: 0 <= k < |children| && FirstPrefixed(children, prefix) == Some(k) ==>
      r[k] == LabelNode(Label(children[k].item.text, isDead))
  {
    match FirstPrefixed(children, prefix)
    case None => children
    case Some(i) => children[i := LabelNode(children[i].item.(dead := isDead))]
  }

  /** On the panel layout the HUD builds there is no label to flag, so `SetPlayerDead` changes nothing. */
  lemma FlagOnBuiltLayout(prefix: string, isDead: bool)
    ensures FlagFirstPrefixed(ListPanelLayout, prefix, isDead) == ListPanelLayout
  {
    assert FirstPrefixed(ListPanelLayout, prefix) == None;
  }

  class GameHud {
    /** The static `PendingMessage`. */
    var pendingMessage: string
    /** The static `PendingNames`; `None` stands for null. */
    var pendingNames: Option<seq<string>>
    var enabled: bool
    /** `Instance == this`: the tree was built for a HUD its machine owns. */
    var built: bool
    /** `_centerLabel`, absent until built. */
    var center: Option<CenterLabel>
    /** `playersListPanel.Children`. */
    var listChildren: seq<Node>
    /** `playersListContent.Children`, the player-name labels. */
    var labels: seq<Label>
    /** `_nameToLabel`, each label given by its position in `labels`. */
    var nameToLabel: map<string, nat>
    /** `_deadNames`. */
    var deadNames: set<string>

    /** Every dictionary entry points at a label whose text is its key. */
    ghost predicate KeyedLabels()
      reads this
    {
      forall name :: name in nameToLabel ==> nameToLabel[name] < |labels| && labels[nameToLabel[name]].text == name
    }

    /** Every label reachable through the dictionary is flagged dead exactly when its name is in `deadNames`. */
    ghost predicate DeadFlagsAgree()
      reads this
      requires KeyedLabels()
    {
      forall name :: name in nameToLabel ==> (labels[nameToLabel[name]].dead <==> name in deadNames)
    }

    ghost predicate Valid()
      reads this
    {
      && (built <==> center.Some?)
      && (!built ==> labels == [] && nameToLabel == map[])
      && KeyedLabels()
      && DeadFlagsAgree()
    }

    /** The name list shown is exactly `names`: one label per name, the dictionary keyed by the last label of each name. */
    ghost predicate Shows(names: seq<string>)
      reads this
    {
      && labels == LabelsFor(names, deadNames)
      && (forall name :: name in nameToLabel <==> name in names)
      && (forall name :: name in nameToLabel ==> IsLastIndex(names, name, nameToLabel[name]))
    }

    constructor ()
      ensures Valid() && enabled && !built
      ensures pendingMessage == "" && pendingNames == Some([])
      ensures listChildren == [] && deadNames == {}
    {
      pendingMessage := "";
      pendingNames := Some([]);
      enabled := true;
      built := false;
      center := None;
      listChildren := [];
      labels := [];
      nameToLabel := map[];
      deadNames := {};
    }

    /** `SetMessage`: always buffers `msg ?? ""`; updates the centre label, hidden when empty, once it exists. */
    method SetMessage(msg: Option<string>)
      requires Valid()
      modifies this`pendingMessage, this`center
      ensures Valid()
      ensures pendingMessage == msg.GetOr("")
      ensures old(center).None? ==> center.None?
      ensures old(center).Some? ==> center == Some(CenterLabel(pendingMessage, pendingMessage == ""))
    {
      pendingMessage := msg.GetOr("");
      if center.None? {
        return;
      }
      center := Some(CenterLabel(pendingMessage, pendingMessage == ""));
    }

    /** `SetPlayerNames`: buffers `names ?? []`; once built, rebuilds every label and the dictionary from scratch. */
    method SetPlayerNames(names: Option<seq<string>>)
      requires Valid()
      modifies this`pendingNames, this`labels, this`nameToLabel
      ensures Valid()
      ensures pendingNames == Some(names.GetOr([]))
      ensures !built ==> labels == old(labels) && nameToLabel == old(nameToLabel)
      ensures built ==> Shows(names.GetOr([]))
    {
      var ns := names.GetOr([]);
      pendingNames := Some(ns);
      if !built {
        return;
      }
      labels := [];
      nameToLabel := map[];
      for i := 0 to |ns|
        invariant pendingNames == Some(ns)
        invariant labels == LabelsFor(ns[..i], deadNames)
        invariant forall name :: name in nameToLabel <==> name in ns[..i]
        invariant forall name :: name in nameToLabel ==> IsLastIndex(ns[..i], name, nameToLabel[name])
      {
        labels := labels + [Label(ns[i], ns[i] in deadNames)];
        nameToLabel := nameToLabel[ns[i] := i];
        assert ns[..i + 1] == ns[..i] + [ns[i]];
      }
      assert ns[..|ns|] == ns;
    }

    /** `SetPlayerDeadByName`: ignores a null or blank name; otherwise records the name's state and restyles only its own label. */
    method SetPlayerDeadByName(displayName: Option<string>, isDead: bool)
      requires Valid()
      modifies this`deadNames, this`labels
      ensures Valid()
      ensures IsNullOrWhiteSpace(displayName) ==> deadNames == old(deadNames) && labels == old(labels)
      ensures !IsNullOrWhiteSpace(displayName) ==>
        var name := displayName.value;
        && (name in deadNames <==> isDead)
        && (forall other :: other != name ==> (other in deadNames <==> other in old(deadNames)))
        && labels == if name in nameToLabel then old(labels)[nameToLabel[name] := Label(name, isDead)] else old(labels)
    {
      if IsNullOrWhiteSpace(displayName) {
        return;
      }
      var name := displayName.value;
      if isDead {
        deadNames := deadNames + {name};
      } else {
        deadNames := deadNames - {name};
      }
      if name in nameToLabel {
        var i := nameToLabel[name];
        labels := labels[i := labels[i].(dead := isDead)];
      }
    }

    /** `SetPlayerDead`: flags the first label directly under the players-list panel whose text starts with `"{id} - "`. */
    method SetPlayerDead(connectionId: string, isDead: bool)
      requires built
      modifies this`listChildren
      ensures listChildren == FlagFirstPrefixed(old(listChildren), connectionId + " - ", isDead)
    {
      var prefix := connectionId + " - ";
      var k := 0;
      while k < |listChildren|
        invariant 0 <= k <= |listChildren|
        invariant listChildren == old(listChildren)
        invariant forall j :: 0 <= j < k ==> !Prefixed(listChildren[j], prefix)
      {
        var child := listChildren[k];
        if child.LabelNode? && prefix <= child.item.text {
          assert FirstPrefixed(listChildren, prefix) == Some(k);
          listChildren := listChildren[k := LabelNode(child.item.(dead := isDead))];
          return;
        }
        k := k + 1;
      }
    }

    /**
      `OnTreeFirstBuilt`: a HUD on a proxy's player disables itself; otherwise it becomes the
      instance, builds its panels, clears the centre message and applies the buffered names once.
    */
    method OnTreeFirstBuilt(ownerIsProxy: bool)
      requires Valid() && !built
      modifies this
      ensures Valid()
      ensures deadNames == old(deadNames)
      ensures ownerIsProxy ==>
        && !enabled && !built && pendingMessage == old(pendingMessage) && pendingNames == old(pendingNames)
        && listChildren == old(listChildren) && labels == old(labels) && nameToLabel == old(nameToLabel)
      ensures !ownerIsProxy ==>
        && enabled == old(enabled) && built && listChildren == ListPanelLayout
        && center == Some(CenterLabel("", true)) && pendingMessage == ""
        && pendingNames == None
        && Shows(old(pendingNames).GetOr([]))
    {
      if ownerIsProxy {
        enabled := false;
        return;
      }
      built := true;
      center := Some(CenterLabel("", false));
      listChildren := ListPanelLayout;
      SetMessage(Some(""));
      if pendingNames.Some? {
        SetPlayerNames(pendingNames);
        pendingNames := None;
      }
    }
  }
}

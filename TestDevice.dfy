/**
 * org.onvif.client.TestDevice: the fixed-speed continuous move, the PTZ part
 * of `inspect` (one LEFTUP move of 2000 ms per preset), and `printTree`,
 * which flattens an event-topic tree into one line per leaf.  The report
 * text `inspect` builds from library objects is not modelled; the PTZ part
 * is summarised by what it did.
 */
module TestDevice {
  import opened Onvif
  import opened Text
  import opened Ptz

  /** TestDevice.executeContinuousMove(ptz, profileToken, direction, timeout): fixed magnitudes, exceptions propagate. */
  method FixedMove(ptz: Option<PtzHandle>, profileToken: string, direction: string, durationMs: int, net: DeviceNetwork)
    returns (o: Outcome<()>)
    modifies net
    ensures o == if ptz.None? then Threw(NullPointer) else if ptz.value.rejectsCommands then Threw(DeviceFault) else Returned(())
    ensures net.sent == old(net.sent) + FixedMoveSent(ptz, profileToken, direction, durationMs)
    ensures net.connectsUsed == old(net.connectsUsed) && net.identitiesUsed == old(net.identitiesUsed)
  {
    var speed := FixedTranslate(direction);
    if ptz.None? {
      return Threw(NullPointer);
    }
    var ok := net.ContinuousMove(ptz.value, profileToken, speed, durationMs);
    o := if ok then Returned(()) else Threw(DeviceFault);
  }

  /** The request a fixed move sends: one continuousMove with the fixed table's vectors, none on a null handle. */
  function FixedMoveSent(ptz: Option<PtzHandle>, profileToken: string, direction: string, durationMs: int): (r: seq<Request>)
    ensures |r| == if ptz.Some? then 1 else 0
    ensures ptz.Some? ==> r[0].ContinuousMove? && r[0].speed == FixedTranslate(direction)
  {
    if ptz.None? then [] else [Request.ContinuousMove(ptz.value, profileToken, FixedTranslate(direction), durationMs)]
  }

  /** The preset exercise's move: LEFTUP for 2000 ms. */
  function PresetMove(ptz: PtzHandle, profileToken: string): (r: Request)
    ensures r.ContinuousMove? && r.ptz == ptz && r.profileToken == profileToken && r.durationMs == 2000
    ensures Wire(r.speed.panTilt.x) < 0.0 && Wire(r.speed.panTilt.y) > 0.0 && r.speed.zoom.x.None?
  {
    Request.ContinuousMove(ptz, profileToken, FixedTranslate(CommandName(LeftUp)), 2000)
  }

  /** What the PTZ part of `inspect` did. */
  datatype PtzReport =
    | NoPtz              // the device has no PTZ service
    | Moved(moves: nat)  // every preset got its move
    | Unavailable        // a move threw; the catch block wrote "PTZ: Unavailable"

  /**
   * Lines 146-188 of `inspect`: with a PTZ service, the first profile's token
   * (outside the try block, so a device without profiles throws), then one
   * LEFTUP move per preset until a move throws.
   */
  method InspectPtz(device: Device, net: DeviceNetwork) returns (o: Outcome<PtzReport>)
    modifies net
    ensures device.ptz.None? ==> o == Returned(NoPtz) && net.sent == old(net.sent)
    ensures device.ptz.Some? && |device.profiles| == 0 ==> o == Threw(IndexOutOfBounds) && net.sent == old(net.sent)
    ensures device.ptz.Some? && |device.profiles| > 0 ==>
      var ptz, move := device.ptz.value, PresetMove(device.ptz.value, device.profiles[0].token);
      if ptz.rejectsCommands && |ptz.presets| > 0
      then o == Returned(Unavailable) && net.sent == old(net.sent) + [move]
      else o == Returned(Moved(|ptz.presets|)) && net.sent == old(net.sent) + seq(|ptz.presets|, _ => move)
    ensures net.connectsUsed == old(net.connectsUsed) && net.identitiesUsed == old(net.identitiesUsed)
  {
    if device.ptz.None? {
      return Returned(NoPtz);
    }
    if |device.profiles| == 0 {
      return Threw(IndexOutOfBounds);
    }
    var ptz := device.ptz.value;
    var profileToken := device.profiles[0].token;
    ghost var move := PresetMove(ptz, profileToken);
    var i := 0;
    while i < |ptz.presets|
      invariant 0 <= i <= |ptz.presets|
      invariant net.sent == old(net.sent) + seq(i, _ => move)
      invariant i > 0 ==> !ptz.rejectsCommands
      invariant net.connectsUsed == old(net.connectsUsed) && net.identitiesUsed == old(net.identitiesUsed)
    {
      var r := FixedMove(Some(ptz), profileToken, CommandName(LeftUp), 2000, net);
      if r.Threw? {
        assert i == 0 && seq(1, _ => move) == [move];
        return Returned(Unavailable);
      }
      assert seq(i + 1, _ => move) == seq(i, _ => move) + [move];
      i := i + 1;
    }
    o := Returned(Moved(i));
  }

  /**
   * testCamera(creds): connect to the prefixed URL, then inspect; connection
   * failures propagate, and a reachable camera gets exactly the PTZ part of
   * `inspect` after the one login.
   */
  method TestCamera(creds: Credentials, net: DeviceNetwork) returns (o: Outcome<PtzReport>)
    modifies net
    ensures !net.urlParses(DeviceUrl(creds.host)) ==>
      o == Threw(MalformedUrl) && net.sent == old(net.sent) && net.connectsUsed == old(net.connectsUsed)
    ensures net.urlParses(DeviceUrl(creds.host)) && old(net.Script(0)).None? ==>
      o == Threw(ConnectFailed) && net.sent == old(net.sent) + [Login(DeviceUrl(creds.host), creds.user, creds.password)]
    ensures net.urlParses(DeviceUrl(creds.host)) && old(net.Script(0)).Some? ==>
      var device, login := old(net.Script(0)).value, Login(DeviceUrl(creds.host), creds.user, creds.password);
      && (device.ptz.None? ==> o == Returned(NoPtz) && net.sent == old(net.sent) + [login])
      && (device.ptz.Some? && |device.profiles| == 0 ==>
            o == Threw(IndexOutOfBounds) && net.sent == old(net.sent) + [login])
      && (device.ptz.Some? && |device.profiles| > 0 ==>
            var ptz, move := device.ptz.value, PresetMove(device.ptz.value, device.profiles[0].token);
            if ptz.rejectsCommands && |ptz.presets| > 0
            then o == Returned(Unavailable) && net.sent == old(net.sent) + [login, move]
            else o == Returned(Moved(|ptz.presets|)) && net.sent == old(net.sent) + [login] + seq(|ptz.presets|, _ => move))
    ensures net.urlParses(DeviceUrl(creds.host)) ==> net.connectsUsed == old(net.connectsUsed) + 1
    ensures net.identitiesUsed == old(net.identitiesUsed)
  {
    if !net.urlParses(DeviceUrl(creds.host)) {
      return Threw(MalformedUrl);
    }
    var d := net.Connect(DeviceUrl(creds.host), creds.user, creds.password);
    if d.None? {
      return Threw(ConnectFailed);
    }
    o := InspectPtz(d.value, net);
  }

  // ----- printTree -----

  /** A DOM node of the event-topic set: its name and its child nodes in document order. */
  datatype Node = Node(name: string, children: seq<Node>)

  /** The line printTree appends for a leaf reached along `path`. */
  function LeafLine(path: string, leafName: string): (r: string)
    ensures StartsWith(r, "\t\t") && EndsWith(r, " - " + leafName + "\n")
    ensures |r| == |path| + |leafName| + 6 && r[2..|path| + 2] == path
  {
    "\t\t" + path + " - " + leafName + "\n"
  }

  /**
   * The leaves under `node`, depth first and left to right, each with the
   * path printTree has built when it reaches it: `path` extended by
   * " - " + name for every child stepped into.
   */
  function Leaves(node: Node, path: string): (r: seq<(string, string)>)
    decreases node
    ensures |r| >= 1
  {
    if |node.children| == 0 then [(path, node.name)] else ForestLeaves(node.children, path)
  }

  /** Every child yields at least one leaf. */
  function ForestLeaves(children: seq<Node>, path: string): (r: seq<(string, string)>)
    decreases children
    ensures |r| >= |children|
  {
    if |children| == 0 then []
    else
      var last := children[|children| - 1];
      ForestLeaves(children[..|children| - 1], path) + Leaves(last, path + " - " + last.name)
  }

  /** A path that extends `path + suffix` extends `path`. */
  lemma StartsWithExtended(path: string, suffix: string, leaves: seq<(string, string)>)
    requires forall l :: l in leaves ==> StartsWith(l.0, path + suffix)
    ensures forall l :: l in leaves ==> StartsWith(l.0, path)
  {
    forall l | l in leaves
      ensures StartsWith(l.0, path)
    {
      assert l.0[..|path|] == l.0[..|path + suffix|][..|path|];
    }
  }

  /** The number of leaves, counted independently of any path. */
  function LeafCount(node: Node): nat
    decreases node
  {
    if |node.children| == 0 then 1 else ForestLeafCount(node.children)
  }

  function ForestLeafCount(children: seq<Node>): nat
    decreases children
  {
    if |children| == 0 then 0 else ForestLeafCount(children[..|children| - 1]) + LeafCount(children[|children| - 1])
  }

  /** One line per leaf, in leaf order. */
  function Lines(leaves: seq<(string, string)>): (r: seq<string>)
    ensures |r| == |leaves|
  {
    seq(|leaves|, i requires 0 <= i < |leaves| => LeafLine(leaves[i].0, leaves[i].1))
  }

  /** The lines of two leaf runs are the lines of each, in order. */
  lemma LinesAppend(a: seq<(string, string)>, b: seq<(string, string)>)
    ensures Lines(a + b) == Lines(a) + Lines(b)
  {
  }

  /** The text of a line sequence. */
  function Flatten(lines: seq<string>): string {
    if |lines| == 0 then "" else Flatten(lines[..|lines| - 1]) + lines[|lines| - 1]
  }

  lemma {:induction false} FlattenAppend(a: seq<string>, b: seq<string>)
    ensures Flatten(a + b) == Flatten(a) + Flatten(b)
    decreases |b|
  {
    if |b| > 0 {
      assert (a + b)[..|a + b| - 1] == a + b[..|b| - 1];
      FlattenAppend(a, b[..|b| - 1]);
    } else {
      assert a + b == a;
    }
  }

  /** printTree emits exactly one line per leaf: internal nodes print nothing themselves. */
  lemma {:induction false} OneLinePerLeaf(node: Node, path: string)
    ensures |Lines(Leaves(node, path))| == LeafCount(node)
    decreases node
  {
    if |node.children| > 0 {
      ForestOneLinePerLeaf(node.children, path);
    }
  }

  lemma {:induction false} ForestOneLinePerLeaf(children: seq<Node>, path: string)
    ensures |ForestLeaves(children, path)| == ForestLeafCount(children)
    decreases children
  {
    if |children| > 0 {
      var last := children[|children| - 1];
      ForestOneLinePerLeaf(children[..|children| - 1], path);
      OneLinePerLeaf(last, path + " - " + last.name);
    }
  }

  /**
   * Every leaf's path ends with the leaf's own name (its last step added it),
   * provided the starting path ends with the root's name as in `inspect`.
   */
  lemma {:induction false} PathEndsWithLeaf(node: Node, path: string)
    requires EndsWith(path, node.name)
    ensures forall l :: l in Leaves(node, path) ==> EndsWith(l.0, l.1)
    decreases node
  {
    if |node.children| > 0 {
      ForestPathEndsWithLeaf(node.children, path);
    }
  }

  lemma {:induction false} ForestPathEndsWithLeaf(children: seq<Node>, path: string)
    ensures forall l :: l in ForestLeaves(children, path) ==> EndsWith(l.0, l.1)
    decreases children
  {
    if |children| > 0 {
      var last := children[|children| - 1];
      var p := path + " - " + last.name;
      ForestPathEndsWithLeaf(children[..|children| - 1], path);
      assert p[|p| - |last.name|..] == last.name;
      PathEndsWithLeaf(last, p);
    }
  }

  /** Every leaf path printTree builds extends the path it started with. */
  lemma {:induction false} PathExtendsStart(node: Node, path: string)
    decreases node
    ensures forall l :: l in Leaves(node, path) ==> StartsWith(l.0, path)
  {
    if |node.children| > 0 {
      ForestPathExtendsStart(node.children, path);
    }
  }

  lemma {:induction false} ForestPathExtendsStart(children: seq<Node>, path: string)
    decreases children
    ensures forall l :: l in ForestLeaves(children, path) ==> StartsWith(l.0, path)
  {
    if |children| > 0 {
      var last := children[|children| - 1];
      ForestPathExtendsStart(children[..|children| - 1], path);
      PathExtendsStart(last, path + " - " + last.name);
      StartsWithExtended(path, " - " + last.name, Leaves(last, path + " - " + last.name));
    }
  }

  /** So a leaf's line ends with its name twice: "... - <leaf> - <leaf>\n". */
  lemma LeafNamedTwice(path: string, leafName: string)
    requires EndsWith(path, leafName)
    ensures EndsWith(LeafLine(path, leafName), leafName + " - " + leafName + "\n")
  {
    var line := LeafLine(path, leafName);
    var tail := leafName + " - " + leafName + "\n";
    assert line == "\t\t" + path[..|path| - |leafName|] + tail;
    assert line[|line| - |tail|..] == tail;
  }

  /** Every line printed for a topic, which `inspect` starts from its own name, shows its leaf's name twice. */
  lemma TopicLinesNameLeafTwice(topic: Node)
    ensures forall l :: l in Leaves(topic, topic.name) ==>
      EndsWith(LeafLine(l.0, l.1), l.1 + " - " + l.1 + "\n")
  {
    assert topic.name[|topic.name| - |topic.name|..] == topic.name;
    PathEndsWithLeaf(topic, topic.name);
    forall l | l in Leaves(topic, topic.name)
      ensures EndsWith(LeafLine(l.0, l.1), l.1 + " - " + l.1 + "\n")
    {
      LeafNamedTwice(l.0, l.1);
    }
  }

  /** java.lang.StringBuffer, as printTree uses it: append only. */
  class StringBuffer {
    var contents: string

    constructor ()
      ensures contents == ""
    {
      contents := "";
    }

    method Append(s: string)
      modifies this
      ensures contents == old(contents) + s
    {
      contents := contents + s;
    }
  }

  /** The text printTree appends for `node` reached along `path`. */
  function TreeText(node: Node, path: string): string {
    Flatten(Lines(Leaves(node, path)))
  }

  /** The text printTree's loop appends for `children` under `path`. */
  function ForestText(children: seq<Node>, path: string): string {
    Flatten(Lines(ForestLeaves(children, path)))
  }

  /** Appending one more child's lines extends the text of the children before it. */
  lemma ForestTextStep(children: seq<Node>, i: nat, path: string)
    requires i < |children|
    ensures ForestText(children[..i + 1], path) == ForestText(children[..i], path) + TreeText(children[i], path + " - " + children[i].name)
  {
    var c := children[i];
    assert children[..i + 1][..i] == children[..i];
    assert ForestLeaves(children[..i + 1], path) == ForestLeaves(children[..i], path) + Leaves(c, path + " - " + c.name);
    LinesAppend(ForestLeaves(children[..i], path), Leaves(c, path + " - " + c.name));
    FlattenAppend(Lines(ForestLeaves(children[..i], path)), Lines(Leaves(c, path + " - " + c.name)));
  }

  /** Regrouping three appended strings; the loop of PrintChildren uses it to extend its invariant. */
  lemma AppendAssociates(a: string, b: string, c: string)
    ensures (a + b) + c == a + (b + c)
  {
  }

  /** printTree(node, name, buffer): appends the lines of all leaves under `node`, keeping what was there. */
  method PrintTree(node: Node, name: string, buffer: StringBuffer)
    modifies buffer
    ensures buffer.contents == old(buffer.contents) + TreeText(node, name)
    decreases node
  {
    if |node.children| > 0 {
      PrintChildren(node.children, name, buffer);
    } else {
      buffer.Append(LeafLine(name, node.name));
      assert Lines(Leaves(node, name)) == [LeafLine(name, node.name)];
      assert Flatten([LeafLine(name, node.name)]) == Flatten([]) + LeafLine(name, node.name);
    }
  }

  /** printTree's loop over the child nodes: each child is printed along the path extended by its name. */
  method PrintChildren(children: seq<Node>, name: string, buffer: StringBuffer)
    modifies buffer
    ensures buffer.contents == old(buffer.contents) + ForestText(children, name)
    decreases children
  {
    var i := 0;
    while i < |children|
      invariant 0 <= i <= |children|
      invariant buffer.contents == old(buffer.contents) + ForestText(children[..i], name)
    {
      var n := children[i];
      var path := name + " - " + n.name;
      PrintTree(n, path, buffer);
      ForestTextStep(children, i, name);
      AppendAssociates(old(buffer.contents), ForestText(children[..i], name), TreeText(n, path));
      i := i + 1;
    }
    assert children[..i] == children;
  }

  /** The leaves of every topic, each topic started from its own name. */
  function TopicLeaves(topics: seq<Node>): (r: seq<(string, string)>)
    ensures |r| >= |topics|
  {
    if |topics| == 0 then []
    else TopicLeaves(topics[..|topics| - 1]) + Leaves(topics[|topics| - 1], topics[|topics| - 1].name)
  }

  /** Lines 135-141 of `inspect`: printTree for every topic element into one fresh buffer. */
  method PrintTopics(topics: seq<Node>) returns (tree: string)
    ensures tree == Flatten(Lines(TopicLeaves(topics)))
  {
    var buffer := new StringBuffer();
    var i := 0;
    while i < |topics|
      invariant 0 <= i <= |topics|
      invariant buffer.contents == Flatten(Lines(TopicLeaves(topics[..i])))
    {
      var e := topics[i];
      PrintTree(e, e.name, buffer);
      assert topics[..i + 1][..i] == topics[..i];
      assert TopicLeaves(topics[..i + 1]) == TopicLeaves(topics[..i]) + Leaves(e, e.name);
      LinesAppend(TopicLeaves(topics[..i]), Leaves(e, e.name));
      FlattenAppend(Lines(TopicLeaves(topics[..i])), Lines(Leaves(e, e.name)));
      i := i + 1;
    }
    assert topics[..i] == topics;
    tree := buffer.contents;
  }
}

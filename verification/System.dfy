/**
 The server, any number of clients, and the notes in flight, as one transition system.
 A client operation is one step: no note reaches that client, and no other client acts,
 between its beginning and its end. What the network did to its calls is part of the step.
 */
module System {
  import opened Wire
  import opened Keys
  import opened Notifications
  import opened ServerModel
  import opened ClientModel

  // stream holds the notes popped from the client's queue and not yet read by the client.
  // The last two fields only record history: no operation depends on them.
  datatype Node = Node(
    client: Client,
    stream: seq<Note>,
    unsent: set<Path>,          // created here and never uploaded
    synced: map<Path, Bytes>)   // the server's bytes at the last successful download or upload

  datatype World = World(server: Server, nodes: map<Cid, Node>)

  // One download attempt: whether it reached the server, how many chunks came back before
  // it was cut, or that it finished.
  datatype DownNet = DownNet(reached: bool, received: nat, finished: bool)

  // One upload attempt: how many messages arrived before it was cut, or that it finished.
  datatype UpNet = UpNet(delivered: nat, finished: bool)

  // A single call: never arrived, carried out but the answer lost, or answered.
  datatype Call = Lost | Unanswered | Answered

  datatype Step =
    | Join(c: Cid)
    | GetAttr(c: Cid, p: Path, call: Call)
    | Open(c: Cid, p: Path, down: seq<DownNet>)
    | Read(c: Cid, p: Path, size: nat, off: int)
    | Write(c: Cid, p: Path, data: Bytes, pos: int)
    | Create(c: Cid, p: Path)
    | Close(c: Cid, p: Path, up: seq<UpNet>)
    | Delete(c: Cid, p: Path, call: Call)
    | Rename(c: Cid, p: Path, q: Path, call: Call)
    | Forward(c: Cid)
    | Deliver(c: Cid)
    | Disconnect(c: Cid)

  function ReplyTo(files: map<Path, Bytes>, p: Path, net: DownNet): Reply {
    if !net.reached || p !in files then Reply([], false)
    else if net.finished then Reply(Chunks(files[p]), true)
    else Reply(Chunks(files[p])[..Min(net.received, |Chunks(files[p])|)], false)
  }

  function Replies(files: map<Path, Bytes>, p: Path, down: seq<DownNet>): (rs: seq<Reply>)
    ensures |rs| == |down| && forall i :: 0 <= i < |rs| ==> rs[i] == ReplyTo(files, p, down[i])
  {
    seq(|down|, i requires 0 <= i < |down| => ReplyTo(files, p, down[i]))
  }

  // The attempts made up to the first success; an attempt can only succeed if it arrives.
  function OpenRpcs(s: Server, c: Cid, p: Path, down: seq<DownNet>): Server {
    if exists i :: 0 <= i < |down| && down[i].reached then Register(s, c, p) else s
  }

  // The upload attempts up to the first that finishes.
  function UploadRpcs(s: Server, c: Cid, p: Path, bytes: Bytes, up: seq<UpNet>): (Server, bool)
    decreases |up|
  {
    var messages := UploadMessages(bytes);
    if up == [] then (s, false)
    else if up[0].finished then (CloseRpc(s, c, p, messages), true)
    else UploadRpcs(CloseRpc(s, c, p, messages[..Min(up[0].delivered, |messages|)]), c, p, bytes, up[1..])
  }

  predicate Mentions(notes: seq<Note>, p: Path) {
    exists i :: 0 <= i < |notes| && notes[i].path == p
  }

  // A note for p is queued for c or in flight to it.
  predicate Pending(s: Server, c: Cid, n: Node, p: Path) {
    (c in s.queues && Mentions(s.queues[c], p)) || Mentions(n.stream, p)
  }

  function Init(files: map<Path, Bytes>): World {
    World(Server(files, map[], map[], false), map[])
  }

  predicate Enabled(w: World, st: Step) {
    match st
    case Join(c) => c !in w.nodes && c !in w.server.queues
    // a jammed server answers no call that needs the registry
    case Open(c, p, down) =>
      c in w.nodes && |down| == TRIES && (w.server.jammed ==> forall i :: 0 <= i < |down| ==> !down[i].reached)
    case Close(c, p, up) =>
      c in w.nodes && |up| == TRIES && (w.server.jammed ==> forall i :: 0 <= i < |up| ==> !up[i].finished)
    case Delete(c, p, call) => c in w.nodes && (w.server.jammed && p in w.server.files ==> !call.Answered?)
    case Rename(c, p, q, call) =>
      // renaming onto a file this client has open would leave its streams on a nameless file
      && c in w.nodes && q !in w.nodes[c].client.handles
      && (call.Answered? ==> RenameReturns(w.server, p))
    case Forward(c) => c in w.nodes && c in w.server.queues && w.server.queues[c] != []
    case Deliver(c) => c in w.nodes && w.nodes[c].stream != []
    case Disconnect(c) => c in w.nodes && c in w.server.queues && !w.server.jammed
    case _ => st.c in w.nodes
  }

  function NextOpen(w: World, c: Cid, p: Path, down: seq<DownNet>): World
    requires c in w.nodes && |down| == TRIES
  {
    var n := w.nodes[c];
    var (client, ok) := OpenFile(n.client, p, Replies(w.server.files, p, down));
    if p in n.client.cache then World(w.server, w.nodes[c := n.(client := client)])
    else
      World(
        OpenRpcs(w.server, c, p, down),
        w.nodes[c := n.(client := client,
                        unsent := n.unsent - {p},
                        synced := if ok && p in w.server.files then n.synced[p := w.server.files[p]] else n.synced)])
  }

  function NextClose(w: World, c: Cid, p: Path, up: seq<UpNet>): World
    requires c in w.nodes
  {
    var n := w.nodes[c];
    if !Uploads(n.client, p) then
      World(w.server, w.nodes[c := n.(client := CloseFile(n.client, p, false).0)])
    else
      var (server, ok) := UploadRpcs(w.server, c, p, n.client.disk[p], up);
      var client := CloseFile(n.client, p, ok).0;
      if !ok then World(server, w.nodes[c := n.(client := client)])
      else
        World(
          server,
          w.nodes[c := n.(client := client,
                          unsent := n.unsent - {p},
                          synced := if p in server.files then n.synced[p := server.files[p]] else n.synced)])
  }

  function NextDelete(w: World, c: Cid, p: Path, call: Call): World
    requires c in w.nodes
  {
    var n := w.nodes[c];
    var client := DeleteFile(n.client, p, call.Answered? && p in w.server.files).0;
    World(
      if call.Lost? then w.server else UnlinkRpc(w.server, c, p),
      w.nodes[c := n.(client := client, unsent := n.unsent - {p})])
  }

  function NextRename(w: World, c: Cid, p: Path, q: Path, call: Call): World
    requires c in w.nodes
  {
    var n := w.nodes[c];
    World(
      if call.Lost? then w.server else RenameRpc(w.server, c, p, q),
      w.nodes[c := n.(client := RenameFile(n.client, p, q),
                      unsent := if p in n.unsent && p != q then n.unsent - {p} + {q}
                               else if p in n.client.cache then n.unsent - {p, q} else n.unsent,
                      synced := if p in n.client.cache then Move(n.synced, p, q) else n.synced)])
  }

  function NextDeliver(w: World, c: Cid): World
    requires c in w.nodes && w.nodes[c].stream != []
  {
    var n := w.nodes[c];
    World(w.server,
          w.nodes[c := n.(client := Invalidate(n.client, n.stream[0].path), stream := n.stream[1..])])
  }

  function Next(w: World, st: Step): World
    requires Enabled(w, st)
  {
    match st
    case Join(c) => World(Subscribe(w.server, c), w.nodes[c := Node(EMPTY, [], {}, map[])])
    case GetAttr(c, p, call) =>
      var n := w.nodes[c];
      var r := if call.Answered? && p in w.server.files then Size(|w.server.files[p]|) else NoAttr;
      World(w.server, w.nodes[c := n.(client := GetAttributes(n.client, p, r).0)])
    case Open(c, p, down) => NextOpen(w, c, p, down)
    case Read(c, p, size, off) =>
      var n := w.nodes[c];
      World(w.server, w.nodes[c := n.(client := ReadFile(n.client, p, size, off).0)])
    case Write(c, p, data, pos) =>
      var n := w.nodes[c];
      World(w.server, w.nodes[c := n.(client := WriteFile(n.client, p, data, pos).0)])
    case Create(c, p) =>
      var n := w.nodes[c];
      var (client, ok) := CreateFile(n.client, p);
      World(w.server, w.nodes[c := n.(client := client, unsent := if ok then n.unsent + {p} else n.unsent)])
    case Close(c, p, up) => NextClose(w, c, p, up)
    case Delete(c, p, call) => NextDelete(w, c, p, call)
    case Rename(c, p, q, call) => NextRename(w, c, p, q, call)
    case Forward(c) =>
      var n, note := w.nodes[c], w.server.queues[c][0];
      World(w.server.(queues := w.server.queues[c := w.server.queues[c][1..]]),
            w.nodes[c := n.(stream := n.stream + [note])])
    case Deliver(c) => NextDeliver(w, c)
    case Disconnect(c) => World(Cleanup(w.server, c), w.nodes[c := w.nodes[c].(stream := [])])
  }

  // A step changes one client's node at most.
  lemma OthersUntouched(w: World, st: Step, c: Cid)
    requires Enabled(w, st) && c != st.c
    ensures c in Next(w, st).nodes <==> c in w.nodes
    ensures c in w.nodes ==> Next(w, st).nodes[c] == w.nodes[c]
  {
    match st
    case Open(_, _, _) =>
    case Close(_, _, _) =>
    case Delete(_, _, _) =>
    case Rename(_, _, _, _) =>
    case _ =>
  }

  predicate Legal(w: World, steps: seq<Step>)
    decreases |steps|
  {
    steps == [] || (Enabled(w, steps[0]) && Legal(Next(w, steps[0]), steps[1..]))
  }

  function Run(w: World, steps: seq<Step>): World
    requires Legal(w, steps)
    decreases |steps|
  {
    if steps == [] then w else Run(Next(w, steps[0]), steps[1..])
  }

  // The state after the first i steps.
  function StateAt(w: World, steps: seq<Step>, i: nat): World
    requires Legal(w, steps) && i <= |steps|
    decreases i
  {
    if i == 0 then w else StateAt(Next(w, steps[0]), steps[1..], i - 1)
  }

  lemma {:induction false} StatesFollow(w: World, steps: seq<Step>, i: nat)
    requires Legal(w, steps) && i < |steps|
    ensures Enabled(StateAt(w, steps, i), steps[i])
    ensures StateAt(w, steps, i + 1) == Next(StateAt(w, steps, i), steps[i])
    decreases i
  {
    if i > 0 {
      StatesFollow(Next(w, steps[0]), steps[1..], i - 1);
    }
  }

  lemma {:induction false} LastStateIsRun(w: World, steps: seq<Step>)
    requires Legal(w, steps)
    ensures StateAt(w, steps, |steps|) == Run(w, steps)
    decreases |steps|
  {
    if steps != [] {
      LastStateIsRun(Next(w, steps[0]), steps[1..]);
    }
  }

  lemma {:induction false} OneMoreStep(w: World, steps: seq<Step>, st: Step)
    requires Legal(w, steps) && Enabled(Run(w, steps), st)
    ensures Legal(w, steps + [st]) && Run(w, steps + [st]) == Next(Run(w, steps), st)
    decreases |steps|
  {
    var all := steps + [st];
    if steps == [] {
      assert all[1..] == [];
    } else {
      OneMoreStep(Next(w, steps[0]), steps[1..], st);
      assert all[1..] == steps[1..] + [st];
    }
  }
}

/** `RenderFlow`: an insertion-ordered map from node ids to a render node
 *  and that node's queue of meshes. Nodes are values of a type parameter;
 *  what a node does when built, prepared or drawn is not part of this
 *  model, only which node is visited when. */
module Flow {
  import opened Common

  type Uuid = nat

  /** `StaticMesh`: a mesh id and a material id. */
  datatype StaticMesh = StaticMesh(mesh: Uuid, material: Uuid)

  /** `RenderMesh`: a queued mesh and its uniform offset, once known. */
  datatype RenderMesh = RenderMesh(mesh: StaticMesh, offset: Option<nat>)

  /** The queue entries for a list of meshes, in order, without offsets. */
  function Queued(meshes: seq<StaticMesh>): (q: seq<RenderMesh>)
    ensures |q| == |meshes|
    ensures forall i :: 0 <= i < |q| ==> q[i] == RenderMesh(meshes[i], None)
  {
    if meshes == [] then [] else Queued(meshes[..|meshes| - 1]) + [RenderMesh(meshes[|meshes| - 1], None)]
  }

  /** A visit of `run`: a node is prepared or drawn. */
  datatype Visit = Prepare(id: Uuid) | Draw(id: Uuid)

  function Prepares(order: seq<Uuid>): (t: seq<Visit>)
    ensures |t| == |order| && forall i :: 0 <= i < |order| ==> t[i] == Prepare(order[i])
  {
    if order == [] then [] else Prepares(order[..|order| - 1]) + [Prepare(order[|order| - 1])]
  }

  function Draws(order: seq<Uuid>): (t: seq<Visit>)
    ensures |t| == |order| && forall i :: 0 <= i < |order| ==> t[i] == Draw(order[i])
  {
    if order == [] then [] else Draws(order[..|order| - 1]) + [Draw(order[|order| - 1])]
  }

  /** Every node prepared, in order, then every node drawn, in order. */
  function RunOrder(order: seq<Uuid>): seq<Visit> {
    Prepares(order) + Draws(order)
  }

  /** No node is prepared after drawing has begun, and each node is
   *  prepared before it is drawn. */
  lemma PreparesBeforeDraws(order: seq<Uuid>, i: nat, j: nat)
    requires i < j < |RunOrder(order)|
    ensures RunOrder(order)[i].Draw? ==> RunOrder(order)[j].Draw?
    ensures RunOrder(order)[j].Prepare? ==> RunOrder(order)[i].Prepare?
    ensures j < |order| ==> RunOrder(order)[j] == Prepare(order[j]) && RunOrder(order)[|order| + j] == Draw(order[j])
  {
  }

  class RenderFlow<N> {
    /** The ids in insertion order, and each id's node and queue. */
    var order: seq<Uuid>
    var nodes: map<Uuid, N>
    var queues: map<Uuid, seq<RenderMesh>>

    ghost predicate Valid() reads this {
      && (forall i, j :: 0 <= i < j < |order| ==> order[i] != order[j])
      && (forall k :: k in nodes <==> k in order)
      && queues.Keys == nodes.Keys
    }

    constructor ()
      ensures Valid() && order == [] && nodes == map[] && queues == map[]
    {
      order := [];
      nodes := map[];
      queues := map[];
    }

    /** `add`: the node goes in under `uuid` (a fresh random id in the
     *  code) with an empty queue. A new id goes to the end of the order;
     *  an id already present keeps its place and gets the new node. */
    method Add(uuid: Uuid, node: N) returns (id: Uuid)
      requires Valid()
      modifies this
      ensures Valid() && id == uuid
      ensures uuid !in old(nodes) ==> order == old(order) + [uuid]
      ensures uuid in old(nodes) ==> order == old(order)
      ensures nodes == old(nodes)[uuid := node] && queues == old(queues)[uuid := []]
    {
      if uuid !in nodes {
        order := order + [uuid];
      }
      nodes := nodes[uuid := node];
      queues := queues[uuid := []];
      id := uuid;
    }

    /** `queue_mesh`: appends to that node's queue only; an unknown id
     *  changes nothing. */
    method QueueMesh(node: Uuid, mesh: StaticMesh)
      requires Valid()
      modifies this
      ensures Valid() && order == old(order) && nodes == old(nodes)
      ensures node in old(queues) ==> queues == old(queues)[node := old(queues)[node] + [RenderMesh(mesh, None)]]
      ensures node !in old(queues) ==> queues == old(queues)
    {
      if node in queues {
        queues := queues[node := queues[node] + [RenderMesh(mesh, None)]];
      }
    }

    /** `queue_global`: the mesh is appended to every node's queue. */
    method QueueGlobal(mesh: StaticMesh)
      requires Valid()
      modifies this
      ensures Valid() && order == old(order) && nodes == old(nodes)
      ensures queues.Keys == old(queues).Keys
      ensures forall k :: k in queues ==> queues[k] == old(queues)[k] + [RenderMesh(mesh, None)]
    {
      var q := queues;
      for i := 0 to |order|
        invariant q.Keys == queues.Keys
        invariant forall j :: 0 <= j < i ==> q[order[j]] == queues[order[j]] + [RenderMesh(mesh, None)]
        invariant forall j :: i <= j < |order| ==> q[order[j]] == queues[order[j]]
      {
        q := q[order[i] := q[order[i]] + [RenderMesh(mesh, None)]];
      }
      forall k | k in q
        ensures q[k] == queues[k] + [RenderMesh(mesh, None)]
      {
        var j :| 0 <= j < |order| && order[j] == k;
      }
      queues := q;
    }

    /** `set_queue`: the node's queue becomes the meshes, in order, without
     *  offsets; an unknown id changes nothing. */
    method SetQueue(node: Uuid, meshes: seq<StaticMesh>)
      requires Valid()
      modifies this
      ensures Valid() && order == old(order) && nodes == old(nodes)
      ensures node in old(queues) ==> queues == old(queues)[node := Queued(meshes)]
      ensures node !in old(queues) ==> queues == old(queues)
    {
      if node in queues {
        queues := queues[node := Queued(meshes)];
      }
    }

    /** `set_queue_global`: every node gets its own copy of the same
     *  queue. */
    method SetQueueGlobal(meshes: seq<StaticMesh>)
      requires Valid()
      modifies this
      ensures Valid() && order == old(order) && nodes == old(nodes)
      ensures queues.Keys == old(queues).Keys
      ensures forall k :: k in queues ==> queues[k] == Queued(meshes)
    {
      var q := Queued(meshes);
      for i := 0 to |order|
        invariant Valid() && order == old(order) && nodes == old(nodes)
        invariant queues.Keys == old(queues).Keys
        invariant forall k :: k in queues && k in order[..i] ==> queues[k] == q
      {
        queues := queues[order[i] := q];
        assert order[..i + 1] == order[..i] + [order[i]];
      }
      assert order[..|order|] == order;
    }

    /** `build`: the ids of the nodes built, in the order they are built. */
    method Build() returns (visited: seq<Uuid>)
      requires Valid()
      ensures visited == order
    {
      visited := [];
      for i := 0 to |order|
        invariant visited == order[..i]
      {
        visited := visited + [order[i]];
        assert order[..i + 1] == order[..i] + [order[i]];
      }
      assert order[..|order|] == order;
    }

    /** `run`: two passes, the first preparing each node, the second
     *  drawing each, both in insertion order. */
    method Run() returns (visits: seq<Visit>)
      requires Valid()
      ensures visits == RunOrder(order)
    {
      visits := [];
      for i := 0 to |order|
        invariant visits == Prepares(order[..i])
      {
        visits := visits + [Prepare(order[i])];
        assert order[..i + 1][..i] == order[..i];
      }
      assert order[..|order|] == order;
      ghost var prepared := visits;
      for i := 0 to |order|
        invariant visits == prepared + Draws(order[..i])
      {
        visits := visits + [Draw(order[i])];
        assert order[..i + 1][..i] == order[..i];
      }
    }
  }
}

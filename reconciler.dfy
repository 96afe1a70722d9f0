/** The exported operations of statefulset.go that talk to the API server:
    create, replica update with one conflict-driven retry, owner-reference
    repair, and delete. The server is a scripted client: the k-th request
    it receives is answered by replies(k), and every request is logged. */
module Reconciler {
  import opened Wrappers
  import opened ClusterTypes
  import opened KubeTypes
  import opened Synthesizer

  /** What the API server says about one request: success, a
      resourceVersion conflict, or any other error. */
  datatype Outcome = Success | Conflict | Failure(error: Error)

  /** The answer to one request; fetched is what a Get reads back. */
  datatype Reply = Reply(outcome: Outcome, fetched: StatefulSet)

  datatype Call =
    | CreateCall(created: StatefulSet)
    | UpdateCall(updated: StatefulSet)
    | GetCall(namespace: string, name: string)
    | PatchCall(original: StatefulSet, patched: StatefulSet)
    | DeleteCall(namespace: string, name: string)

  /** The API client: the requests sent so far, answered in order by a
      fixed script. */
  class Client {
    const replies: nat -> Reply
    var calls: seq<Call>

    constructor (replies: nat -> Reply)
      ensures this.replies == replies && calls == []
    {
      this.replies := replies;
      calls := [];
    }

    /** Sends one request and returns the server's answer to it. */
    method Send(call: Call) returns (reply: Reply)
      modifies this
      ensures calls == old(calls) + [call]
      ensures reply == replies(|old(calls)|)
    {
      reply := replies(|calls|);
      calls := calls + [call];
    }
  }

  /** The caller's statefulset object, which the replica update overwrites
      in place. */
  class LiveStatefulSet {
    var value: StatefulSet

    constructor (value: StatefulSet)
      ensures this.value == value
    {
      this.value := value;
    }
  }

  /** The requests one replica update sends, the error it returns and the
      object it leaves behind. */
  datatype Run = Run(calls: seq<Call>, err: Outcome, final: StatefulSet)

  function CountUpdates(calls: seq<Call>): nat {
    if calls == [] then 0 else (if calls[0].UpdateCall? then 1 else 0) + CountUpdates(calls[1..])
  }

  function CountGets(calls: seq<Call>): nat {
    if calls == [] then 0 else (if calls[0].GetCall? then 1 else 0) + CountGets(calls[1..])
  }

  /** UpdateStatefulSetReplicas, as a run against the replies starting at
      request k: set the replicas and update; on a conflict, refetch the
      object by namespace and name (into a cleared object) and, if that
      succeeds, set the replicas on the fresh copy and update once more. */
  function ReplicaRun(s: StatefulSet, replicas: Int32, replies: nat -> Reply, k: nat): (run: Run)
    ensures 1 <= |run.calls| <= 3
    ensures run.calls[0] == UpdateCall(WithReplicas(s, replicas))
    ensures CountUpdates(run.calls) <= 2 && CountGets(run.calls) <= 1
    ensures forall i :: 0 <= i < |run.calls| && run.calls[i].GetCall? ==>
              i == 1 && replies(k).outcome == Conflict
                && run.calls[i] == GetCall(s.meta.namespace, s.meta.name)
    ensures replies(k).outcome != Conflict ==> |run.calls| == 1
    ensures forall i :: 0 <= i < |run.calls| && run.calls[i].UpdateCall? ==>
              run.calls[i].updated.spec.replicas == replicas
    ensures run.err == replies(k + |run.calls| - 1).outcome
    ensures run.err == Success ==> run.calls[|run.calls| - 1] == UpdateCall(run.final)
    ensures run.err == Success ==> run.final.spec.replicas == replicas
    ensures replies(k).outcome == Conflict ==>
              |run.calls| >= 2 && run.calls[1] == GetCall(s.meta.namespace, s.meta.name)
    ensures replies(k).outcome == Conflict && replies(k + 1).outcome == Success ==>
              |run.calls| == 3 && run.calls[2] == UpdateCall(WithReplicas(replies(k + 1).fetched, replicas))
  {
    var first := WithReplicas(s, replicas);
    if replies(k).outcome != Conflict then
      Run([UpdateCall(first)], replies(k).outcome, first)
    else
      var get := GetCall(s.meta.namespace, s.meta.name);
      if replies(k + 1).outcome != Success then
        Run([UpdateCall(first), get], replies(k + 1).outcome, EmptyStatefulSet())
      else
        var second := WithReplicas(replies(k + 1).fetched, replicas);
        var calls := [UpdateCall(first), get, UpdateCall(second)];
        assert calls[1..][1..] == [UpdateCall(second)];
        assert CountUpdates(calls[1..][1..]) == 1 && CountGets(calls[1..][1..]) == 0;
        assert CountUpdates(calls[1..]) == 1 && CountGets(calls[1..]) == 1;
        Run(calls, replies(k + 2).outcome, second)
  }

  /** The second update, when there is one, writes the refetched object
      with only its replica count changed. */
  lemma RetryUpdatesFetchedCopy(s: StatefulSet, replicas: Int32, replies: nat -> Reply, k: nat)
    ensures var run := ReplicaRun(s, replicas, replies, k);
      |run.calls| == 3 ==>
        && replies(k).outcome == Conflict && replies(k + 1).outcome == Success
        && run.calls[2].updated.meta == replies(k + 1).fetched.meta
        && run.calls[2].updated.spec.(replicas := replies(k + 1).fetched.spec.replicas) == replies(k + 1).fetched.spec
  {
  }

  /** UpdateStatefulSetReplicas. */
  method UpdateStatefulSetReplicas(client: Client, replicas: Int32, statefulSet: LiveStatefulSet) returns (err: Outcome)
    modifies client, statefulSet
    ensures var run := ReplicaRun(old(statefulSet.value), replicas, client.replies, |old(client.calls)|);
      && client.calls == old(client.calls) + run.calls
      && err == run.err
      && statefulSet.value == run.final
  {
    statefulSet.value := WithReplicas(statefulSet.value, replicas);
    var reply := client.Send(UpdateCall(statefulSet.value));
    if reply.outcome == Success {
      return Success;
    }
    if reply.outcome != Conflict {
      return reply.outcome;
    }
    var namespace, name := statefulSet.value.meta.namespace, statefulSet.value.meta.name;
    statefulSet.value := EmptyStatefulSet();
    reply := client.Send(GetCall(namespace, name));
    if reply.outcome != Success {
      return reply.outcome;
    }
    statefulSet.value := reply.fetched;
    statefulSet.value := WithReplicas(statefulSet.value, replicas);
    reply := client.Send(UpdateCall(statefulSet.value));
    err := reply.outcome;
  }

  /** UpdateStatefulSetNonReplicas, as the requests it sends: nothing when
      there is no role or the owner references are already ours; otherwise
      one patch that replaces the owner references wholesale and changes
      nothing else. */
  function NonReplicasCalls(
    role: Option<Role>, present: seq<OwnerReference> -> bool, ownerRefs: seq<OwnerReference>, s: StatefulSet)
    : (calls: seq<Call>)
    ensures calls == [] <==> role.None? || present(s.meta.ownerReferences)
    ensures |calls| <= 1
    ensures forall call :: call in calls ==>
      && call.PatchCall? && call.original == s
      && call.patched.meta.ownerReferences == ownerRefs
      && call.patched.meta.(ownerReferences := s.meta.ownerReferences) == s.meta
      && call.patched.spec == s.spec
  {
    if role.None? || present(s.meta.ownerReferences) then []
    else [PatchCall(s, s.(meta := s.meta.(ownerReferences := ownerRefs)))]
  }

  /** UpdateStatefulSetNonReplicas. */
  method UpdateStatefulSetNonReplicas(
    client: Client, role: Option<Role>, present: seq<OwnerReference> -> bool,
    ownerRefs: seq<OwnerReference>, statefulSet: StatefulSet)
    returns (err: Outcome)
    modifies client
    ensures client.calls == old(client.calls) + NonReplicasCalls(role, present, ownerRefs, statefulSet)
    ensures err == if client.calls == old(client.calls) then Success else client.replies(|old(client.calls)|).outcome
  {
    if role.None? {
      return Success;
    }
    if present(statefulSet.meta.ownerReferences) {
      return Success;
    }
    var patchedRes := statefulSet.(meta := statefulSet.meta.(ownerReferences := ownerRefs));
    var reply := client.Send(PatchCall(statefulSet, patchedRes));
    err := reply.outcome;
  }

  /** CreateStatefulSet: compose the statefulset with zero replicas and
      create it; a failed composition sends nothing. */
  method CreateStatefulSet(
    client: Client, c: Consts, cr: Cluster, nativeSystemdSupport: bool, role: Role,
    roleStatus: Option<RoleStatus>, cat: Catalog, deco: Decorations, mung: string -> string)
    returns (statefulSet: Option<StatefulSet>, err: Outcome)
    modifies client
    ensures FirstError(cat).Some? ==>
      statefulSet.None? && err == Failure(FirstError(cat).value) && client.calls == old(client.calls)
    ensures FirstError(cat).None? ==>
      && statefulSet == Some(Expected(c, cr, nativeSystemdSupport, role, roleStatus, 0, cat, deco, mung))
      && statefulSet.value.spec.replicas == 0
      && client.calls == old(client.calls) + [CreateCall(statefulSet.value)]
      && err == client.replies(|old(client.calls)|).outcome
  {
    var r := GetStatefulset(c, cr, nativeSystemdSupport, role, roleStatus, 0, cat, deco, mung);
    if r.Err? {
      return None, Failure(r.error);
    }
    ExpectedShape(c, cr, nativeSystemdSupport, role, roleStatus, 0, cat, deco, mung);
    statefulSet := Some(r.value);
    var reply := client.Send(CreateCall(r.value));
    err := reply.outcome;
  }

  /** DeleteStatefulSet: one delete request naming the statefulset. */
  method DeleteStatefulSet(client: Client, namespace: string, statefulSetName: string) returns (err: Outcome)
    modifies client
    ensures client.calls == old(client.calls) + [DeleteCall(namespace, statefulSetName)]
    ensures err == client.replies(|old(client.calls)|).outcome
  {
    var reply := client.Send(DeleteCall(namespace, statefulSetName));
    err := reply.outcome;
  }
}
